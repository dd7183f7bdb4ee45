/** The file names and language labels the pipeline builds: the numbered
    temporary files of speech synthesis, the per-language audio and video
    files, the download target, and the display-name lookup of the
    supported target languages. */
module Names {

  // ---------------------------------------------------------------------
  // Decimal rendering of a chunk index, as an f-string renders `{i}`

  predicate IsDigit(ch: char) { '0' <= ch <= '9' }

  function Digit(d: nat): (ch: char)
    requires d < 10
    ensures IsDigit(ch) && ch as int - '0' as int == d
  {
    ('0' as int + d) as char
  }

  /** `str(n)`: the decimal digits of `n`, without leading zeros. */
  function NatToString(n: nat): (r: string)
    ensures |r| > 0
    ensures forall i :: 0 <= i < |r| ==> IsDigit(r[i])
    ensures r[0] == '0' ==> r == "0"
  {
    if n < 10 then [Digit(n)] else NatToString(n / 10) + [Digit(n % 10)]
  }

  function DigitValue(ch: char): (d: nat)
    requires IsDigit(ch)
    ensures d < 10
  {
    ch as int - '0' as int
  }

  /** `int(s)` for a string of decimal digits. */
  function ParseNat(s: string): nat
    requires forall i :: 0 <= i < |s| ==> IsDigit(s[i])
  {
    if s == [] then 0
    else ParseNat(s[..|s| - 1]) * 10 + DigitValue(s[|s| - 1])
  }

  lemma {:induction false} ParseNatToString(n: nat)
    ensures ParseNat(NatToString(n)) == n
  {
    if n >= 10 {
      var s := NatToString(n);
      assert s[..|s| - 1] == NatToString(n / 10);
      ParseNatToString(n / 10);
    }
  }

  lemma NatToStringInjective(i: nat, j: nat)
    ensures NatToString(i) == NatToString(j) ==> i == j
  {
    ParseNatToString(i);
    ParseNatToString(j);
  }

  // ---------------------------------------------------------------------
  // Temporary files of speech synthesis

  const TempPrefix := "temp_tts_"
  const Mp3Suffix := ".mp3"

  /** `f"temp_tts_{i}.mp3"`. */
  function TempName(i: nat): string
  {
    TempPrefix + NatToString(i) + Mp3Suffix
  }

  /** The names of the first `k` temporary files. */
  function TempNames(k: nat): set<string>
  {
    set i | 0 <= i < k :: TempName(i)
  }

  lemma TempNameIndex(i: nat)
    ensures var s := TempName(i);
      |s| >= |TempPrefix| + |Mp3Suffix| &&
      s[|TempPrefix|..|s| - |Mp3Suffix|] == NatToString(i)
  {
  }

  /** Distinct chunk indices give distinct temporary files. */
  lemma TempNameInjective(i: nat, j: nat)
    ensures TempName(i) == TempName(j) ==> i == j
  {
    TempNameIndex(i);
    TempNameIndex(j);
    NatToStringInjective(i, j);
  }

  /** `k` chunks use exactly `k` different temporary files. */
  lemma {:induction false} TempNamesCount(k: nat)
    ensures |TempNames(k)| == k
  {
    if k > 0 {
      TempNamesCount(k - 1);
      assert TempNames(k) == TempNames(k - 1) + {TempName(k - 1)};
      if TempName(k - 1) in TempNames(k - 1) {
        var i :| 0 <= i < k - 1 && TempName(i) == TempName(k - 1);
        TempNameInjective(i, k - 1);
      }
    }
  }

  // ---------------------------------------------------------------------
  // Per-run and per-language files

  /** `os.path.join(a, b)` on POSIX: an absolute `b` replaces `a`, and a
      slash is inserted unless `a` is empty or already ends in one. */
  function PathJoin(a: string, b: string): string
  {
    if |b| > 0 && b[0] == '/' then b
    else if a == [] || a[|a| - 1] == '/' then a + b
    else a + "/" + b
  }

  const ExtractedAudio := "extracted_audio.wav"
  const FinalOutputDir := "final_outputs"
  const DownloadDir := "downloads"
  const VideoFilename := "original_video.mp4"

  /** `f"translated_audio_{code}.mp3"`: the synthesised speech. */
  function Mp3Name(code: string): string
  {
    "translated_audio_" + code + ".mp3"
  }

  /** `f"translated_audio_{code}.aac"`: the transcoded speech. */
  function AacName(code: string): string
  {
    "translated_audio_" + code + ".aac"
  }

  /** `os.path.join("final_outputs", f"video_with_translated_audio_{code}.mp4")`. */
  function FinalVideo(code: string): string
  {
    PathJoin(FinalOutputDir, "video_with_translated_audio_" + code + ".mp4")
  }

  /** `os.path.join(os.path.join(cwd, "downloads"), filename)`. */
  function DownloadPath(cwd: string, filename: string): string
  {
    PathJoin(PathJoin(cwd, DownloadDir), filename)
  }

  /** The output path of a language is `final_outputs/video_with_translated_audio_<code>.mp4`,
      whatever the code. */
  lemma FinalVideoIs(code: string)
    ensures FinalVideo(code) == "final_outputs/video_with_translated_audio_" + code + ".mp4"
  {
  }

  /** Different language codes write different output videos. */
  lemma FinalVideoInjective(a: string, b: string)
    ensures FinalVideo(a) == FinalVideo(b) ==> a == b
  {
    var pre := "final_outputs/video_with_translated_audio_";
    if FinalVideo(a) == FinalVideo(b) {
      FinalVideoIs(a);
      FinalVideoIs(b);
      assert |a| == |b|;
      assert a == FinalVideo(a)[|pre|..|pre| + |a|];
    }
  }

  /** A download lands in the `downloads` directory of the working directory. */
  lemma DownloadPathIs(cwd: string)
    requires |cwd| > 0 && cwd[|cwd| - 1] != '/'
    ensures DownloadPath(cwd, VideoFilename) == cwd + "/downloads/original_video.mp4"
  {
  }

  // ---------------------------------------------------------------------
  // Language display names

  /** The target languages the entry points know by name. */
  function Languages(): map<string, string>
  {
    map["kn" := "Kannada", "hi" := "Hindi", "ta" := "Tamil", "te" := "Telugu", "ml" := "Malayalam"]
  }

  /** `names.get(code, code)`. */
  function DisplayName(names: map<string, string>, code: string): string
  {
    if code in names then names[code] else code
  }

  /** A known code shows its language name, and any other code, such as
      "xx", shows the raw code. */
  lemma DisplayNames(code: string)
    ensures Languages().Keys == {"kn", "hi", "ta", "te", "ml"}
    ensures code in Languages() ==> DisplayName(Languages(), code) == Languages()[code]
    ensures code !in Languages() ==> DisplayName(Languages(), code) == code
    ensures DisplayName(Languages(), "xx") == "xx"
    ensures DisplayName(Languages(), "kn") == "Kannada"
  {
  }
}

/** Failure-carrying results for the video translation pipeline.
    Every stage of the pipeline either succeeds or fails with a `Failure`
    that records which stage failed; the two entry points wrap that cause
    once more with the mode they run in (local file or YouTube URL). */
module Outcomes {

  datatype Option<+T> = None | Some(value: T)

  datatype Result<+T, +E> = Ok(value: T) | Err(error: E)

  datatype Outcome<+E> = Pass | Fail(error: E)

  /** Why the muxing step was judged to have failed. */
  datatype MergeFault =
    | ExitStatus(code: int)   // ffmpeg returned a non-zero exit code
    | OutputMissing           // ffmpeg returned 0 but the output file is absent

  /** Why speech synthesis failed. */
  datatype SpeechFault =
    | NoText                      // the text is empty or whitespace only
    | ChunkFailed(index: nat)     // synthesising or decoding chunk `index` failed

  /** The stage that failed; error message texts are not modelled. */
  datatype Failure =
    | DownloadFailed
    | ExtractionFailed
    | TranscriptionFailed
    | TranslationFailed
    | SpeechFailed(speech: SpeechFault)
    | ConversionFailed
    | MergeFailed(merge: MergeFault)
    | VideoNotFound

  /** The outer wrapping added by the two entry points. */
  datatype RunError =
    | LocalRunFailed(cause: Failure)
    | YoutubeRunFailed(cause: Failure)
}

/**
 * The upload step: the drop handler that accepts one audio file, or shows
 * why it did not.
 */
module AudioUploader {
  import opened Options

  /** The two properties of a dropped file the handler reads. */
  datatype AudioFile = AudioFile(name: string, size: nat)

  /** 20 MiB, the largest size accepted. */
  const MaxFileSize: nat := 20 * 1024 * 1024

  const FormatError: string := "Por favor, sube un archivo de audio válido (MP3, WAV, MP4)."
  const SizeError: string := "El archivo es demasiado grande. El tamaño máximo es 20MB."

  /** Why a drop is refused, if it is; None for an empty drop or an accepted file. */
  function DropError(accepted: seq<AudioFile>, rejectedCount: nat): Option<string> {
    if rejectedCount > 0 then Some(FormatError)
    else if accepted == [] then None
    else if accepted[0].size > MaxFileSize then Some(SizeError)
    else None
  }

  class Uploader {
    /** The message shown under the drop zone. */
    var error: Option<string>

    constructor()
      ensures error == None
    {
      error := None;
    }

    /**
     * `onDrop(acceptedFiles, rejectedFiles)`: any rejected file shows the
     * format error; an empty drop changes nothing; a first file over 20 MiB
     * shows the size error; otherwise the error is cleared and the first
     * file is passed on. `passed` is the one argument `onFileAccepted` is
     * called with, if it is called.
     */
    method OnDrop(accepted: seq<AudioFile>, rejectedCount: nat) returns (passed: Option<AudioFile>)
      modifies this
      ensures rejectedCount > 0 ==> passed == None && error == Some(FormatError)
      ensures rejectedCount == 0 && accepted == [] ==> passed == None && error == old(error)
      ensures rejectedCount == 0 && accepted != [] && accepted[0].size > MaxFileSize ==>
        passed == None && error == Some(SizeError)
      ensures rejectedCount == 0 && accepted != [] && accepted[0].size <= MaxFileSize ==>
        passed == Some(accepted[0]) && error == None
      ensures passed.Some? <==> rejectedCount == 0 && accepted != [] && DropError(accepted, rejectedCount).None?
    {
      if rejectedCount > 0 {
        error := Some(FormatError);
        return None;
      }
      if accepted == [] {
        return None;
      }
      var file := accepted[0];
      if file.size > MaxFileSize {
        error := Some(SizeError);
        return None;
      }
      error := None;
      passed := Some(file);
    }
  }

  /** A file of exactly 20 MiB is accepted and one byte more is refused. */
  lemma SizeBoundary(name: string)
    ensures DropError([AudioFile(name, 20971520)], 0).None?
    ensures DropError([AudioFile(name, 20971521)], 0) == Some(SizeError)
  {
  }

  /**
   * Only the first accepted file is looked at: files after it, however
   * large, do not change the outcome.
   */
  lemma OnlyFirstFileMatters(first: AudioFile, rest: seq<AudioFile>, others: seq<AudioFile>, rejectedCount: nat)
    ensures DropError([first] + rest, rejectedCount) == DropError([first] + others, rejectedCount)
  {
  }
}

/** AudioFormatConverter: the component that would turn an uploaded recording
    into FLAC for the recogniser. It only converts once an ffmpeg path has been
    resolved, and no live code resolves one. */
module AudioConverter {
  import opened Common

  /** The extensions handed on without conversion. */
  const SUPPORTED_FORMATS: seq<string> := ["flac"]

  /** The extension used for a file name that has none. */
  const NO_EXTENSION: string := "tmp"

  /** getFileExtension: the text after the last '.' of the file name, or "tmp"
      when there is no name, no '.', or nothing after the last '.'. */
  function FileExtension(filename: Option<string>): (r: string)
    ensures r != "" && !HasChar(r, '.')
    ensures filename.None? ==> r == NO_EXTENSION
    ensures filename.Some? && (!HasChar(filename.value, '.') || EndsWith(filename.value, ".")) ==>
              r == NO_EXTENSION
    ensures filename.Some? && HasChar(filename.value, '.') && !EndsWith(filename.value, ".") ==>
              EndsWith(filename.value, "." + r)
  {
    if filename.None? then NO_EXTENSION
    else
      var name := filename.value;
      var i := LastIndexOfChar(name, '.');
      if i == -1 || i == |name| - 1 then
        assert !HasChar(NO_EXTENSION, '.') by {
          assert NO_EXTENSION == ['t', 'm', 'p'];
        }
        assert EndsWith(name, ".") ==> name[|name| - 1] == '.';
        NO_EXTENSION
      else
        var r := name[i + 1..];
        assert name[i..] == "." + r;
        assert forall j :: 0 <= j < |r| ==> r[j] == name[i + 1 + j];
        assert !EndsWith(name, ".") by {
          assert name[|name| - 1..] == [name[|name| - 1]];
        }
        r
  }

  /** A name is split at its last '.': whatever precedes it, a non-empty
      extension without a '.' comes back unchanged. */
  lemma {:induction false} ExtensionOfNamedFile(base: string, ext: string)
    requires ext != "" && !HasChar(ext, '.')
    ensures FileExtension(Some(base + "." + ext)) == ext
  {
    var name := base + "." + ext;
    assert name[|base|] == '.';
    var i := LastIndexOfChar(name, '.');
    assert forall j :: |base| < j < |name| ==> name[j] == ext[j - |base| - 1];
    assert name[i + 1..] == ext;
  }

  /** isSupportedFormat's answer: the extension equals a supported format,
      ignoring case. */
  predicate Supported(extension: Option<string>)
  {
    extension.Some? && exists k :: 0 <= k < |SUPPORTED_FORMATS| && EqualsIgnoreCase(SUPPORTED_FORMATS[k], extension.value)
  }

  /** With one supported format, that is "flac" in any case. */
  lemma SupportedMeansFlac(extension: Option<string>)
    ensures Supported(extension) <==> extension.Some? && Lower(extension.value) == "flac"
  {
    assert Lower("flac") == "flac";
    if extension.Some? && Lower(extension.value) == "flac" {
      assert EqualsIgnoreCase(SUPPORTED_FORMATS[0], extension.value);
    }
  }

  /** isSupportedFormat: a null extension is not supported; otherwise the
      supported formats are scanned in order. */
  method IsSupportedFormat(extension: Option<string>) returns (r: bool)
    ensures r == Supported(extension)
  {
    if extension.None? {
      return false;
    }
    var k := 0;
    while k < |SUPPORTED_FORMATS|
      invariant 0 <= k <= |SUPPORTED_FORMATS|
      invariant forall j :: 0 <= j < k ==> !EqualsIgnoreCase(SUPPORTED_FORMATS[j], extension.value)
    {
      if EqualsIgnoreCase(SUPPORTED_FORMATS[k], extension.value) {
        return true;
      }
      k := k + 1;
    }
    return false;
  }

  class AudioFormatConverter {
    /** The ffmpeg executable to run; only the commented-out initialiser set it. */
    var resolvedFfmpegPath: Option<string>
    /** Whether a system "ffmpeg" answered; written by Init, read by nothing. */
    var ffmpegAvailable: bool

    constructor ()
      ensures resolvedFfmpegPath.None? && !ffmpegAvailable
    {
      resolvedFfmpegPath := None;
      ffmpegAvailable := false;
    }

    /** init: `probe` is the exit code of "ffmpeg -version", or Raise when the
        process cannot be started. Exit code 0 marks ffmpeg available, another
        code leaves the flag as it was, a failure clears it. The resolved path
        is never touched. */
    method Init(probe: Attempt<int>)
      modifies this
      ensures resolvedFfmpegPath == old(resolvedFfmpegPath)
      ensures ffmpegAvailable == (if probe.Raise? then false
                                  else if probe.value == 0 then true
                                  else old(ffmpegAvailable))
    {
      match probe
      case Raise(_) =>
        ffmpegAvailable := false;
      case Done(exitCode) =>
        if exitCode == 0 {
          ffmpegAvailable := true;
        }
    }

    /** isFFmpegAvailable: false without a resolved path; otherwise whether
        running it with -version (`versionProbe`) exits with 0. */
    predicate IsFFmpegAvailable(versionProbe: Attempt<int>)
      reads this
    {
      resolvedFfmpegPath.Some? && versionProbe == Done(0)
    }

    /** convertToSupportedFormat. Without a resolved path nothing is converted.
        A supported extension is saved as is (`savedCopy` is the saved file or
        the I/O failure); any other goes through ffmpeg, where `ffmpeg` is its
        exit code or the I/O failure and `convertedPath` the output file. */
    method ConvertToSupportedFormat(audio: FilePart, savedCopy: Attempt<string>,
                                    ffmpeg: Attempt<int>, convertedPath: string)
      returns (r: Option<string>)
      ensures resolvedFfmpegPath.None? ==> r.None?
      ensures resolvedFfmpegPath.Some? && Supported(Some(FileExtension(audio.originalFilename))) ==>
                (r.Some? <==> savedCopy.Done?) && (r.Some? ==> r.value == savedCopy.value)
      ensures resolvedFfmpegPath.Some? && !Supported(Some(FileExtension(audio.originalFilename))) ==>
                (r.Some? <==> ffmpeg == Done(0)) && (r.Some? ==> r.value == convertedPath)
    {
      if resolvedFfmpegPath.None? {
        return None;
      }
      var extension := FileExtension(audio.originalFilename);
      var supported := IsSupportedFormat(Some(extension));
      if supported {
        r := match savedCopy
             case Done(path) => Some(path)
             case Raise(_) => None;
      } else {
        r := match ffmpeg
             case Done(exitCode) => if exitCode != 0 then None else Some(convertedPath)
             case Raise(_) => None;
      }
    }
  }

  /** A converter whose path was never resolved reports ffmpeg unavailable
      whatever the probe says, and converts nothing: the consequence of the
      initialiser that resolved the path being commented out. */
  lemma UnresolvedConverterIsInert(c: AudioFormatConverter, versionProbe: Attempt<int>)
    requires c.resolvedFfmpegPath.None?
    ensures !c.IsFFmpegAvailable(versionProbe)
  {
  }
}

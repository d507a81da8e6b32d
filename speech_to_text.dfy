/** SpeechToTextService: turns an uploaded recording into text with Google
    Speech-to-Text. The model covers what the service decides itself: the
    encoding and sample rate it declares, whether it converts the file first,
    how it joins the recognised alternatives and how it reports failure. The
    recognition call is a parameter. */
module SpeechToText {
  import opened Common
  import opened AudioConverter

  const INIT_FAILED: string := "SpeechToTextService 초기화 실패"
  const STT_FAILED: string := "STT 처리 실패: "

  /** The RecognitionConfig.AudioEncoding values the service chooses from. */
  datatype AudioEncoding = ENCODING_UNSPECIFIED | LINEAR16 | FLAC | MP3 | OGG_OPUS

  /** The parts of a RecognitionConfig the service sets; an absent sample rate
      leaves it to the recogniser (which reads WAV headers). */
  datatype RecognitionConfig =
    RecognitionConfig(encoding: AudioEncoding, languageCode: string, sampleRateHertz: Option<int>)

  // ---------------------------------------------------------------------
  // Encoding and sample rate
  // ---------------------------------------------------------------------

  /** The encoding a content type names, matched case-sensitively. */
  function ContentTypeEncoding(contentType: string): Option<AudioEncoding>
  {
    if Contains(contentType, "wav") then Some(LINEAR16)
    else if Contains(contentType, "flac") then Some(FLAC)
    else if Contains(contentType, "mp3") then Some(MP3)
    else if Contains(contentType, "ogg") || Contains(contentType, "opus") then Some(OGG_OPUS)
    else if Contains(contentType, "webm") then Some(OGG_OPUS)
    else None
  }

  /** The encoding a file extension names, matched ignoring case. */
  function ExtensionEncoding(extension: string): AudioEncoding
  {
    if EqualsIgnoreCase(extension, "wav") then LINEAR16
    else if EqualsIgnoreCase(extension, "flac") then FLAC
    else if EqualsIgnoreCase(extension, "mp3") then MP3
    else if EqualsIgnoreCase(extension, "ogg") || EqualsIgnoreCase(extension, "opus") then OGG_OPUS
    else if EqualsIgnoreCase(extension, "webm") then OGG_OPUS
    else ENCODING_UNSPECIFIED
  }

  /** resolveEncoding: a converted file is FLAC; otherwise the content type (a
      null one read as "") decides when it names an encoding, and the extension
      decides when it does not. */
  function ResolveEncoding(contentType: Option<string>, isConverted: bool, extension: string): (r: AudioEncoding)
    ensures isConverted ==> r == FLAC
    ensures !isConverted && ContentTypeEncoding(contentType.GetOr("")).Some? ==>
              r == ContentTypeEncoding(contentType.GetOr("")).value
    ensures !isConverted && ContentTypeEncoding(contentType.GetOr("")).None? ==>
              r == ExtensionEncoding(extension)
  {
    if isConverted then FLAC
    else
      var ct := contentType.GetOr("");
      if Contains(ct, "wav") then LINEAR16
      else if Contains(ct, "flac") then FLAC
      else if Contains(ct, "mp3") then MP3
      else if Contains(ct, "ogg") || Contains(ct, "opus") then OGG_OPUS
      else if Contains(ct, "webm") then OGG_OPUS
      else if EqualsIgnoreCase(extension, "wav") then LINEAR16
      else if EqualsIgnoreCase(extension, "flac") then FLAC
      else if EqualsIgnoreCase(extension, "mp3") then MP3
      else if EqualsIgnoreCase(extension, "ogg") || EqualsIgnoreCase(extension, "opus") then OGG_OPUS
      else if EqualsIgnoreCase(extension, "webm") then OGG_OPUS
      else ENCODING_UNSPECIFIED
  }

  /** The empty string contains no non-empty text. */
  lemma EmptyContainsNothing(p: string)
    requires p != ""
    ensures !Contains("", p)
  {
    assert !OccursAt("", p, 0);
  }

  /** Without a content type the extension alone decides the encoding. */
  lemma MissingContentTypeUsesExtension(extension: string)
    ensures ResolveEncoding(None, false, extension) == ExtensionEncoding(extension)
  {
    EmptyContainsNothing("wav");
    EmptyContainsNothing("flac");
    EmptyContainsNothing("mp3");
    EmptyContainsNothing("ogg");
    EmptyContainsNothing("opus");
    EmptyContainsNothing("webm");
  }

  /** The extension is compared ignoring case: an extension and its
      lower-cased form give the same encoding. */
  lemma ExtensionEncodingIgnoresCase(extension: string)
    ensures ExtensionEncoding(Lower(extension)) == ExtensionEncoding(extension)
  {
    LowerIsIdempotent(extension);
  }

  /** The sample rate set for the recognition: 44100 Hz for a converted file,
      FLAC or MP3; 48000 Hz for WebM, Ogg or Opus; none otherwise (WAV
      included, whose header carries it). The extension is compared ignoring
      case. */
  function SampleRate(isConverted: bool, extension: string): (r: Option<int>)
    ensures r == Some(44100) <==> isConverted || ExtensionEncoding(extension) in {FLAC, MP3}
    ensures r == Some(48000) <==> !isConverted && ExtensionEncoding(extension) == OGG_OPUS
    ensures r.None? <==> !isConverted && ExtensionEncoding(extension) in {LINEAR16, ENCODING_UNSPECIFIED}
  {
    assert Lower("wav") == "wav" && Lower("flac") == "flac" && Lower("mp3") == "mp3";
    assert Lower("ogg") == "ogg" && Lower("opus") == "opus" && Lower("webm") == "webm";
    if isConverted || EqualsIgnoreCase(extension, "flac") then Some(44100)
    else if EqualsIgnoreCase(extension, "mp3") then Some(44100)
    else if EqualsIgnoreCase(extension, "webm") || EqualsIgnoreCase(extension, "ogg") || EqualsIgnoreCase(extension, "opus") then
      Some(48000)
    else None
  }

  /** The sample rate follows the extension even where the content type
      decides the encoding: a file declared as WAV but named .mp3 is sent as
      LINEAR16 at 44100 Hz. */
  lemma ContentTypeAndExtensionCanDisagree(contentType: string, extension: string)
    requires Contains(contentType, "wav") && EqualsIgnoreCase(extension, "mp3")
    ensures ResolveEncoding(Some(contentType), false, extension) == LINEAR16
    ensures SampleRate(false, extension) == Some(44100)
  {
    assert Lower("mp3") == "mp3";
    assert Lower("wav") == "wav";
    assert Lower("flac") == "flac";
    assert Lower("wav") != Lower(extension);
    assert Lower("flac") != Lower(extension);
  }

  /** The configuration built for a file: the resolved encoding, the service
      language and the sample rate. */
  function ConfigFor(contentType: Option<string>, isConverted: bool, extension: string, language: string): RecognitionConfig
  {
    RecognitionConfig(ResolveEncoding(contentType, isConverted, extension), language, SampleRate(isConverted, extension))
  }

  // ---------------------------------------------------------------------
  // Joining the recognised text
  // ---------------------------------------------------------------------

  /** `acc` placed in front of a transcript that may have failed. */
  function Prefixed(acc: string, t: Result<string>): Result<string>
  {
    if t.Ok? then Ok(acc + t.value) else t
  }

  lemma PrefixedEmpty(t: Result<string>)
    ensures Prefixed("", t) == t
  {
    if t.Ok? {
      assert "" + t.value == t.value;
    }
  }

  lemma PrefixedTwice(a: string, b: string, t: Result<string>)
    ensures Prefixed(a, Prefixed(b, t)) == Prefixed(a + b, t)
  {
    if t.Ok? {
      assert a + (b + t.value) == (a + b) + t.value;
    }
  }

  /** The transcription of the recogniser's results, each given as the
      transcripts of its alternatives: the first alternative of every result,
      in order; a result without alternatives fails getting alternative 0. */
  function Transcript(results: seq<seq<string>>): (r: Result<string>)
    ensures r.Err? <==> exists k :: 0 <= k < |results| && results[k] == []
    ensures r.Err? ==> r.error == IndexOutOfBounds
  {
    if |results| == 0 then Ok("")
    else if results[0] == [] then Err(IndexOutOfBounds)
    else
      var rest := Transcript(results[1..]);
      assert forall k :: 1 <= k < |results| ==> results[1..][k - 1] == results[k];
      Prefixed(results[0][0], rest)
  }

  /** The transcription of consecutive batches of results is the
      concatenation of their transcriptions. */
  lemma {:induction false} TranscriptConcatenates(a: seq<seq<string>>, b: seq<seq<string>>)
    ensures Transcript(a + b) ==
              (if Transcript(a).Err? then Transcript(a)
               else Prefixed(Transcript(a).value, Transcript(b)))
  {
    if |a| == 0 {
      assert a + b == b;
      PrefixedEmpty(Transcript(b));
    } else if a[0] == [] {
      assert (a + b)[0] == [];
    } else {
      assert (a + b)[0] == a[0];
      assert (a + b)[1..] == a[1..] + b;
      TranscriptConcatenates(a[1..], b);
      if Transcript(a[1..]).Ok? {
        PrefixedTwice(a[0][0], Transcript(a[1..]).value, Transcript(b));
      }
    }
  }

  /** A single result contributes exactly its first alternative. */
  lemma SingleResultTranscript(alternatives: seq<string>)
    requires alternatives != []
    ensures Transcript([alternatives]) == Ok(alternatives[0])
  {
    assert [alternatives][1..] == [];
    assert alternatives[0] + "" == alternatives[0];
  }

  /** The loop over the results: append each first alternative in order. */
  method JoinTranscripts(results: seq<seq<string>>) returns (r: Result<string>)
    ensures r == Transcript(results)
  {
    var transcription := "";
    var i := 0;
    PrefixedEmpty(Transcript(results));
    while i < |results|
      invariant 0 <= i <= |results|
      invariant Transcript(results) == Prefixed(transcription, Transcript(results[i..]))
    {
      assert results[i..][0] == results[i];
      assert results[i..][1..] == results[i + 1..];
      if results[i] == [] {
        return Err(IndexOutOfBounds);
      }
      PrefixedTwice(transcription, results[i][0], Transcript(results[i + 1..]));
      transcription := transcription + results[i][0];
      i := i + 1;
    }
    assert results[i..] == [];
    assert transcription + "" == transcription;
    return Ok(transcription);
  }

  // ---------------------------------------------------------------------
  // The recognition
  // ---------------------------------------------------------------------

  /** What convertSpeechToText returns once it has a configuration. The
      recogniser `recognize` stands for writing the upload to a temporary file,
      reading its bytes and calling the service: it yields the results or the
      message of whatever failed. No results give "". Any failure, including
      a result without alternatives, becomes a RuntimeException whose message
      is STT_FAILED followed by the failure's message (`message` is
      getMessage for the exceptions the model raises itself). */
  function Recognized(config: RecognitionConfig, recognize: RecognitionConfig -> Attempt<seq<seq<string>>>,
                      message: Exception -> string): (r: Result<string>)
    ensures r.Err? ==> r.error.RuntimeFailure? && StartsWith(r.error.message, STT_FAILED)
    ensures r.Ok? <==> recognize(config).Done? && Transcript(recognize(config).value).Ok?
    ensures r.Ok? ==> r == Transcript(recognize(config).value)
  {
    match recognize(config)
    case Raise(reason) => Err(RuntimeFailure(STT_FAILED + reason))
    case Done(results) =>
      if |results| == 0 then Ok("")
      else
        match Transcript(results)
        case Ok(text) => Ok(text)
        case Err(e) => Err(RuntimeFailure(STT_FAILED + message(e)))
  }

  /** convertSpeechToText after the conversion step: a converted file is
      recognised as "flac", any other by its own extension. */
  function Transcription(audio: FilePart, isConverted: bool, language: string,
                         recognize: RecognitionConfig -> Attempt<seq<seq<string>>>,
                         message: Exception -> string): Result<string>
  {
    var extension := if isConverted then "flac" else FileExtension(audio.originalFilename);
    Recognized(ConfigFor(audio.contentType, isConverted, extension, language), recognize, message)
  }

  /** Whether the converter hands back a file: it needs a resolved ffmpeg path,
      then a successful copy (supported extension) or a zero ffmpeg exit. */
  predicate ConversionSucceeds(path: Option<string>, audio: FilePart, savedCopy: Attempt<string>, ffmpeg: Attempt<int>)
  {
    path.Some? &&
    if Supported(Some(FileExtension(audio.originalFilename))) then savedCopy.Done? else ffmpeg == Done(0)
  }

  /** Where the credentials are read from: the GOOGLE_APPLICATION_CREDENTIALS
      path when it is set and not empty, the configured resource otherwise. */
  function CredentialsPath(environment: Option<string>, configured: string): (r: string)
    ensures environment.Some? && environment.value != "" ==> r == environment.value
    ensures environment.None? || environment.value == "" ==> r == configured
  {
    if environment.Some? && environment.value != "" then environment.value else configured
  }

  class SpeechToTextService {
    const language: string
    const credentialsFilePath: string
    const converter: AudioFormatConverter
    var credentialsLoaded: bool
    var ffmpegAvailable: bool

    constructor (language: string, credentialsFilePath: string, converter: AudioFormatConverter)
      ensures this.language == language && this.credentialsFilePath == credentialsFilePath
      ensures this.converter == converter
      ensures !credentialsLoaded && !ffmpegAvailable
    {
      this.language := language;
      this.credentialsFilePath := credentialsFilePath;
      this.converter := converter;
      credentialsLoaded := false;
      ffmpegAvailable := false;
    }

    /** init: load the credentials (`readable` says whether the file at a path
        holds valid credentials), then ask the converter whether ffmpeg is
        available. Any failure becomes an IllegalStateException. */
    method Init(environment: Option<string>, readable: string -> bool, versionProbe: Attempt<int>)
      returns (r: Result<()>)
      modifies this
      ensures r.Ok? <==> readable(CredentialsPath(environment, credentialsFilePath))
      ensures r.Err? ==> r.error == IllegalState(INIT_FAILED)
      ensures r.Err? ==> ffmpegAvailable == old(ffmpegAvailable) && credentialsLoaded == old(credentialsLoaded)
      ensures r.Ok? ==> credentialsLoaded && ffmpegAvailable == converter.IsFFmpegAvailable(versionProbe)
    {
      if !readable(CredentialsPath(environment, credentialsFilePath)) {
        return Err(IllegalState(INIT_FAILED));
      }
      credentialsLoaded := true;
      ffmpegAvailable := converter.IsFFmpegAvailable(versionProbe);
      return Ok(());
    }

    /** convertSpeechToText. When ffmpeg is available the converter is tried
        first (`savedCopy`, `ffmpeg` and `convertedPath` are its I/O outcomes);
        the recognition then uses the converted file or the upload itself. */
    method ConvertSpeechToText(audio: FilePart, savedCopy: Attempt<string>, ffmpeg: Attempt<int>,
                               convertedPath: string,
                               recognize: RecognitionConfig -> Attempt<seq<seq<string>>>,
                               message: Exception -> string)
      returns (r: Result<string>)
      ensures r == Transcription(audio,
                                 ffmpegAvailable && ConversionSucceeds(converter.resolvedFfmpegPath, audio, savedCopy, ffmpeg),
                                 language, recognize, message)
    {
      var extension := FileExtension(audio.originalFilename);
      var isConverted := false;
      if ffmpegAvailable {
        var converted := converter.ConvertToSupportedFormat(audio, savedCopy, ffmpeg, convertedPath);
        if converted.Some? {
          isConverted := true;
          extension := "flac";
        }
      }
      var config := ConfigFor(audio.contentType, isConverted, extension, language);
      match recognize(config)
      case Raise(reason) =>
        r := Err(RuntimeFailure(STT_FAILED + reason));
      case Done(results) =>
        if |results| == 0 {
          r := Ok("");
        } else {
          var joined := JoinTranscripts(results);
          r := match joined
               case Ok(text) => Ok(text)
               case Err(e) => Err(RuntimeFailure(STT_FAILED + message(e)));
        }
    }
  }

  /** The application's start-up: the converter is created and initialised
      (`probe` is the system ffmpeg's answer), then the service. Because the
      converter never resolves an ffmpeg path, the service never considers
      ffmpeg available, whatever the probes say. */
  method StartUp(language: string, credentialsFilePath: string, probe: Attempt<int>,
                 environment: Option<string>, readable: string -> bool, versionProbe: Attempt<int>)
    returns (service: SpeechToTextService, r: Result<()>)
    ensures !service.ffmpegAvailable
    ensures service.converter.resolvedFfmpegPath.None?
    ensures r.Ok? <==> readable(CredentialsPath(environment, credentialsFilePath))
  {
    var converter := new AudioFormatConverter();
    converter.Init(probe);
    service := new SpeechToTextService(language, credentialsFilePath, converter);
    r := service.Init(environment, readable, versionProbe);
  }

  /** A service that does not consider ffmpeg available recognises the upload
      unconverted, by its own extension. */
  lemma UnavailableFfmpegMeansNoConversion(service: SpeechToTextService, audio: FilePart,
                                           savedCopy: Attempt<string>, ffmpeg: Attempt<int>,
                                           recognize: RecognitionConfig -> Attempt<seq<seq<string>>>,
                                           message: Exception -> string)
    requires !service.ffmpegAvailable || service.converter.resolvedFfmpegPath.None?
    ensures Transcription(audio,
                          service.ffmpegAvailable && ConversionSucceeds(service.converter.resolvedFfmpegPath, audio, savedCopy, ffmpeg),
                          service.language, recognize, message)
            == Recognized(ConfigFor(audio.contentType, false, FileExtension(audio.originalFilename), service.language),
                          recognize, message)
  {
  }
}

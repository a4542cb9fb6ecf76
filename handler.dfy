/**
 * The `/tts` request handler: validation, the cache hit/miss/reset
 * decision, the call to the synthesis provider on a miss, and the cache
 * write after a successful synthesis.
 *
 * The output directory's files are a map from path to bytes. The
 * provider's answer, Go's base64 decoder and the outcome of writing the
 * file are inputs to the model rather than computed by it.
 */
module Handler {
  import opened Wrappers
  import opened Validation
  import opened CacheKey
  import Paths

  type Bytes = seq<bv8>

  /** The files on disk, by path. */
  type Disk = map<string, Bytes>

  /** The parsed query string: each parameter's values in order. */
  type Query = map<string, seq<string>>

  const LanguageCode: string := "cmn-CN"
  const DefaultName: string := "cmn-CN-Chirp3-HD-Achernar"
  const AudioEncoding: string := "MP3"
  const SpeakingRate: real := 0.9

  const StatusOK: int := 200
  const StatusBadRequest: int := 400
  const StatusInternalServerError: int := 500

  const MissingTextMessage: string := "Missing ?text= parameter"
  const InvalidTextMessage: string := "Invalid text: must be all Chinese characters with a max length of 5"

  /**
   * What is fixed when the process starts: the API key and output
   * directory from the environment, and the library behaviour the handler
   * relies on (Go's Han table and its standard base64 decoder).
   */
  datatype Config = Config(
    apiKey: string,
    outputDir: string,
    isHan: char -> bool,
    decodeBase64: string -> Result<Bytes>)

  /** One call to the provider: the fields of its JSON payload, and the key in its URL. */
  datatype SynthesisRequest = SynthesisRequest(
    apiKey: string,
    text: string,
    languageCode: string,
    voiceName: string,
    audioEncoding: string,
    speakingRate: real)

  /**
   * What the provider's call comes to: the POST failed, its body was not
   * JSON of the expected shape, or it parsed, with `audioContent` being ""
   * when the field was absent.
   */
  datatype SynthesisReply =
    | TransportFailure(cause: string)
    | ParseFailure(cause: string)
    | Parsed(audioContent: string)

  /**
   * What writing the cache file comes to. A failed write may leave the
   * path as it was (`None`) or holding some bytes (a truncated file).
   */
  datatype WriteResult =
    | WriteOk
    | WriteFailed(cause: string, leftOnDisk: Option<Bytes>)

  /** The response: the audio file served, or an error status with its message. */
  datatype Response =
    | Audio(content: Bytes)
    | Error(status: int, message: string)
  {
    function Status(): int {
      if Audio? then StatusOK else status
    }
  }

  /** One request's effect: the disk afterwards, the provider call made if any, and the response. */
  datatype Outcome = Outcome(disk: Disk, call: Option<SynthesisRequest>, response: Response)

  /** `url.Values.Get`: the first value of the parameter, or "" when it has none. */
  function Get(q: Query, key: string): string {
    if key in q && q[key] != [] then q[key][0] else ""
  }

  /** The voice: the `model` parameter, or the default voice when it is missing or empty. */
  function ModelName(q: Query): (name: string)
    ensures name != ""
    ensures Get(q, "model") != "" ==> name == Get(q, "model")
    ensures Get(q, "model") == "" ==> name == DefaultName
  {
    var model := Get(q, "model");
    if model == "" then DefaultName else model
  }

  /** Only the exact value "true" asks for the cache to be bypassed. */
  predicate WantsReset(q: Query) {
    Get(q, "reset") == "true"
  }

  /** The request the handler sends to the provider for this text and voice. */
  function RequestFor(cfg: Config, text: string, voice: string): SynthesisRequest {
    SynthesisRequest(cfg.apiKey, text, LanguageCode, voice, AudioEncoding, SpeakingRate)
  }

  /** The cache file a valid request reads or writes. */
  function PathFor(cfg: Config, q: Query): string {
    CachePath(cfg.outputDir, ModelName(q), Get(q, "text"))
  }

  /** True when the provider's reply decodes to audio, which is then written. */
  predicate Synthesized(cfg: Config, reply: SynthesisReply) {
    reply.Parsed? && reply.audioContent != "" && cfg.decodeBase64(reply.audioContent).Success?
  }

  /**
   * `handleTTS` as one function of the disk before the request. Invalid
   * text is refused with 400 before anything else happens; a cached file is
   * served unless `reset=true`; otherwise the provider is called and its
   * audio is stored only when it is present and decodes.
   */
  function HandleOutcome(cfg: Config, disk: Disk, q: Query, reply: SynthesisReply, write: WriteResult): (o: Outcome)
    // Refused input: 400, no provider call, no change on disk; and only refused input gets 400.
    ensures !IsValidText(Get(q, "text"), cfg.isHan) ==>
      o.disk == disk && o.call == None && o.response.Error? && o.response.status == StatusBadRequest
    ensures o.response.Status() == StatusBadRequest <==> !IsValidText(Get(q, "text"), cfg.isHan)
    ensures Get(q, "text") == "" ==> o.response == Error(StatusBadRequest, MissingTextMessage)
    // A hit without reset serves the stored bytes, calls nobody and changes nothing.
    ensures IsValidText(Get(q, "text"), cfg.isHan) && !WantsReset(q) && PathFor(cfg, q) in disk ==>
      o == Outcome(disk, None, Audio(disk[PathFor(cfg, q)]))
    // A miss, or reset=true, calls the provider once with the text and the chosen voice.
    ensures IsValidText(Get(q, "text"), cfg.isHan) && (WantsReset(q) || PathFor(cfg, q) !in disk) ==>
      o.call == Some(RequestFor(cfg, Get(q, "text"), ModelName(q)))
    // The provider is called only on a miss or a reset of valid text, and what follows is StoreReply at the request's path.
    ensures o.call.Some? ==>
      && IsValidText(Get(q, "text"), cfg.isHan)
      && (WantsReset(q) || PathFor(cfg, q) !in disk)
      && o == StoreReply(cfg, disk, PathFor(cfg, q), o.call.value, reply, write)
  {
    var text := Get(q, "text");
    if text == "" then
      Outcome(disk, None, Error(StatusBadRequest, MissingTextMessage))
    else if !IsValidText(text, cfg.isHan) then
      Outcome(disk, None, Error(StatusBadRequest, InvalidTextMessage))
    else
      var filePath := PathFor(cfg, q);
      if !WantsReset(q) && filePath in disk then
        Outcome(disk, None, Audio(disk[filePath]))
      else
        StoreReply(cfg, disk, filePath, RequestFor(cfg, text, ModelName(q)), reply, write)
  }

  /**
   * The part of `handleTTS` after the provider was called with `call`: its
   * reply is checked, decoded and written to `filePath`, or the request
   * fails with 500.
   */
  function StoreReply(
    cfg: Config, disk: Disk, filePath: string, call: SynthesisRequest, reply: SynthesisReply, write: WriteResult): (o: Outcome)
    ensures o.call == Some(call)
    ensures o.response.Audio? || o.response.status == StatusInternalServerError
    // Decodable audio that is written lands at `filePath` and nowhere else, and is served.
    ensures Synthesized(cfg, reply) && write.WriteOk? ==>
      var audio := cfg.decodeBase64(reply.audioContent).value;
      o.disk == disk[filePath := audio] && o.response == Audio(audio)
    // Every failure before the write leaves the disk as it was and answers 500.
    ensures !Synthesized(cfg, reply) ==>
      o.disk == disk && o.response.Error? && o.response.status == StatusInternalServerError
    // A failed write answers 500 and touches at most `filePath`.
    ensures Synthesized(cfg, reply) && write.WriteFailed? ==>
      o.response.Error? && o.response.status == StatusInternalServerError &&
      o.disk == (if write.leftOnDisk.Some? then disk[filePath := write.leftOnDisk.value] else disk)
  {
    match reply
    case TransportFailure(cause) =>
      Outcome(disk, Some(call), Error(StatusInternalServerError, "TTS request failed: " + cause))
    case ParseFailure(cause) =>
      Outcome(disk, Some(call), Error(StatusInternalServerError, "Failed to parse response: " + cause))
    case Parsed(audioContent) =>
      if audioContent == "" then
        Outcome(disk, Some(call), Error(StatusInternalServerError, "No audio content in response"))
      else
        match cfg.decodeBase64(audioContent)
        case Failure(err) =>
          Outcome(disk, Some(call), Error(StatusInternalServerError, "Failed to decode audio: " + err))
        case Success(audio) =>
          match write
          case WriteOk =>
            Outcome(disk[filePath := audio], Some(call), Audio(audio))
          case WriteFailed(cause, leftOnDisk) =>
            var after := if leftOnDisk.Some? then disk[filePath := leftOnDisk.value] else disk;
            Outcome(after, Some(call), Error(StatusInternalServerError, "Failed to save file: " + cause))
  }

  /**
   * Whatever the request, the disk changes at most at the request's own
   * cache path, and without a provider call it does not change at all.
   */
  lemma OnlyCachePathChanges(cfg: Config, disk: Disk, q: Query, reply: SynthesisReply, write: WriteResult)
    ensures var o := HandleOutcome(cfg, disk, q, reply, write);
      forall p :: p != PathFor(cfg, q) ==> (p in o.disk <==> p in disk) && (p in disk ==> o.disk[p] == disk[p])
    ensures HandleOutcome(cfg, disk, q, reply, write).call == None ==>
      HandleOutcome(cfg, disk, q, reply, write).disk == disk
  {
  }

  /**
   * Asking again for a text and voice that were just served, without
   * reset, is a cache hit: the same bytes, no provider call, no change.
   */
  lemma RepeatRequestHits(
    cfg: Config, disk: Disk, q: Query, reply: SynthesisReply, write: WriteResult,
    q': Query, reply': SynthesisReply, write': WriteResult)
    requires HandleOutcome(cfg, disk, q, reply, write).response.Audio?
    requires Get(q', "text") == Get(q, "text") && ModelName(q') == ModelName(q) && !WantsReset(q')
    ensures var first := HandleOutcome(cfg, disk, q, reply, write);
      var second := HandleOutcome(cfg, first.disk, q', reply', write');
      second == Outcome(first.disk, None, first.response)
  {
  }

  /**
   * The handler over the cache directory. `synthesisCalls` records every
   * request sent to the provider, in order.
   */
  class TtsService {
    const config: Config
    var files: Disk
    var synthesisCalls: seq<SynthesisRequest>

    constructor (config: Config, files: Disk)
      ensures this.config == config && this.files == files && synthesisCalls == []
    {
      this.config := config;
      this.files := files;
      synthesisCalls := [];
    }

    /** `handleTTS`: answers one request, updating the cache directory and the call log. */
    method HandleTts(q: Query, reply: SynthesisReply, write: WriteResult) returns (response: Response)
      modifies this
      ensures var o := HandleOutcome(config, old(files), q, reply, write);
        files == o.disk && response == o.response && synthesisCalls == old(synthesisCalls) + ToSeq(o.call)
    {
      var text := Get(q, "text");
      if text == "" {
        return Error(StatusBadRequest, MissingTextMessage);
      }
      if !IsValidText(text, config.isHan) {
        return Error(StatusBadRequest, InvalidTextMessage);
      }

      var modelName := Get(q, "model");
      if modelName == "" {
        modelName := DefaultName;
      }
      var reset := Get(q, "reset") == "true";
      assert modelName == ModelName(q) && reset == WantsReset(q);

      var filename := CacheFileName(modelName, text);
      var filePath := Paths.Join(config.outputDir, filename);
      assert filePath == PathFor(config, q);

      if !reset {
        if filePath in files {
          return Audio(files[filePath]);
        }
      }

      response := Synthesize(text, modelName, filePath, reply, write);
    }

    /**
     * The cache miss (or reset) half of `handleTTS`: calls the provider,
     * then decodes and stores its audio, or fails with 500.
     */
    method Synthesize(text: string, modelName: string, filePath: string, reply: SynthesisReply, write: WriteResult)
      returns (response: Response)
      modifies this
      ensures var o := StoreReply(config, old(files), filePath, RequestFor(config, text, modelName), reply, write);
        files == o.disk && response == o.response && synthesisCalls == old(synthesisCalls) + [RequestFor(config, text, modelName)]
    {
      synthesisCalls := synthesisCalls + [RequestFor(config, text, modelName)];
      var audioContent: string;
      match reply {
        case TransportFailure(cause) =>
          return Error(StatusInternalServerError, "TTS request failed: " + cause);
        case ParseFailure(cause) =>
          return Error(StatusInternalServerError, "Failed to parse response: " + cause);
        case Parsed(content) =>
          audioContent := content;
      }
      if audioContent == "" {
        return Error(StatusInternalServerError, "No audio content in response");
      }

      var decoded := config.decodeBase64(audioContent);
      if decoded.Failure? {
        return Error(StatusInternalServerError, "Failed to decode audio: " + decoded.error);
      }
      var audio := decoded.value;

      match write {
        case WriteFailed(cause, leftOnDisk) =>
          if leftOnDisk.Some? {
            files := files[filePath := leftOnDisk.value];
          }
          return Error(StatusInternalServerError, "Failed to save file: " + cause);
        case WriteOk =>
          files := files[filePath := audio];
      }
      return Audio(files[filePath]);
    }
  }
}

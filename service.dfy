/** The Arabic text-to-speech HTTP service backed by a Piper ONNX model: the model handles
    loaded once at startup, the `/tts` handler with its loaded-model guard, phoneme ID
    building and inference feed, and the `/` status route. The phonemizer, the ONNX
    session's inference and the WAV/base64 encoding are collaborators passed in as
    functions; the handler reports every call it makes to the first two. */
module Service {
  import opened Wrappers
  import opened Phonemes

  const RunningMessage: string := "Arabic TTS API is running!"
  const NotLoadedMessage: string := "Piper ONNX model, Pygoruut, or config is not loaded."
  const Language: string := "Arabic"

  /** noise_scale, length_scale and noise_w, as written in decimal (float32 rounding is not modelled). */
  const Scales: seq<real> := [0.667, 1.0, 0.8]

  const Int64Min: int := -0x8000_0000_0000_0000
  const Int64Max: int := 0x7FFF_FFFF_FFFF_FFFF

  // ---------------------------------------------------------------------------
  // Model handles

  /** An ONNX inference session (an object, so always truthy in Python). */
  datatype Session = InferenceSession

  /** The grapheme-to-phoneme client (an object, so always truthy). */
  datatype Phonemizer = Pygoruut

  /** The "audio" section of the model configuration. */
  datatype AudioSection = AudioSection(sampleRate: Option<int>)

  /** The parsed JSON model configuration: the two entries the handler reads and the
      names of any other top-level keys. */
  datatype Config = Config(phonemeIdMap: Option<PhonemeIdMap>, audio: Option<AudioSection>,
                           otherKeys: set<string>)
  {
    /** Number of top-level keys of the JSON object. */
    function KeyCount(): nat
    {
      (if phonemeIdMap.Some? then 1 else 0) + (if audio.Some? then 1 else 0)
        + |otherKeys - {"phoneme_id_map", "audio"}|
    }

    /** Python truthiness of a dict: it is false exactly for the empty dict. */
    predicate Truthy()
      ensures Truthy() <==> phonemeIdMap.Some? || audio.Some? || otherKeys - {"phoneme_id_map", "audio"} != {}
    {
      KeyCount() > 0
    }
  }

  /** The three process-wide handles, each `None` when not loaded. */
  datatype Handles = Handles(session: Option<Session>, phonemizer: Option<Phonemizer>,
                             config: Option<Config>)

  /** The outcome of the startup block: each argument is what one loading step produced,
      `None` when it raised. Any failure lands in the except branch, which resets all
      three handles to `None`. The configuration is taken to be a JSON object. */
  function Startup(session: Option<Session>, config: Option<Config>, phonemizer: Option<Phonemizer>)
    : (h: Handles)
    ensures h.session.Some? <==> session.Some? && config.Some? && phonemizer.Some?
    ensures h.session.Some? ==> h == Handles(session, phonemizer, config)
    ensures h.session.None? ==> h == Handles(None, None, None)
    ensures Loaded(h) <==> session.Some? && config.Some? && phonemizer.Some? && config.value.Truthy()
  {
    if session.Some? && config.Some? && phonemizer.Some? then Handles(session, phonemizer, config)
    else Handles(None, None, None)
  }

  /** All three handles are present and the configuration is a non-empty dict. */
  predicate Loaded(h: Handles)
  {
    h.session.Some? && h.phonemizer.Some? && h.config.Some? && h.config.value.Truthy()
  }

  // ---------------------------------------------------------------------------
  // Responses and calls to collaborators

  /** The JSON bodies the service returns. */
  datatype Envelope = ErrorEnvelope(error: string) | AudioEnvelope(audioBase64: string)
                    | MessageEnvelope(message: string)

  /** Exceptions the handler does not catch; the framework answers them with a server error. */
  datatype Fault = KeyError(key: string) | OverflowError

  datatype Reply = Json(body: Envelope) | ServerError(fault: Fault)

  /** A 64-bit integer array, as numpy holds it. */
  datatype Int64Tensor = Int64Tensor(shape: seq<nat>, data: seq<int>)

  /** The named inputs passed to the ONNX session. */
  datatype Feed = Feed(input: Int64Tensor, inputLengths: Int64Tensor, scales: seq<real>)

  /** The calls the handler makes to its external collaborators, in order. */
  datatype Call = Phonemize(language: string, sentence: string) | Run(feed: Feed)

  datatype Request = GetRoot | PostTts(text: string)

  // ---------------------------------------------------------------------------
  // Operations

  /** The loaded-model guard: the error envelope when any handle is missing or falsy. */
  function Guard(h: Handles): (r: Option<Envelope>)
    ensures r.None? <==> Loaded(h)
    ensures r.Some? ==> r.value == ErrorEnvelope(NotLoadedMessage)
  {
    if h.session.None? || h.phonemizer.None? || h.config.None? || !h.config.value.Truthy() then
      Some(ErrorEnvelope(NotLoadedMessage))
    else
      None
  }

  /** Looking up `config["phoneme_id_map"]`. */
  function LookupPhonemeIdMap(c: Config): (r: Result<PhonemeIdMap, Fault>)
    ensures c.phonemeIdMap.Some? ==> r == Ok(c.phonemeIdMap.value)
    ensures c.phonemeIdMap.None? ==> r == Err(KeyError("phoneme_id_map"))
  {
    match c.phonemeIdMap
    case None => Err(KeyError("phoneme_id_map"))
    case Some(m) => Ok(m)
  }

  /** Looking up `config["audio"]["sample_rate"]`. */
  function LookupSampleRate(c: Config): (r: Result<int, Fault>)
    ensures r.Ok? <==> c.audio.Some? && c.audio.value.sampleRate.Some?
    ensures r.Ok? ==> r.value == c.audio.value.sampleRate.value
    ensures c.audio.None? ==> r == Err(KeyError("audio"))
    ensures c.audio.Some? && c.audio.value.sampleRate.None? ==> r == Err(KeyError("sample_rate"))
  {
    match c.audio
    case None => Err(KeyError("audio"))
    case Some(a) =>
      match a.sampleRate
      case None => Err(KeyError("sample_rate"))
      case Some(rate) => Ok(rate)
  }

  /** Every ID is representable as a numpy int64 (otherwise building the array overflows). */
  predicate FitsInt64(ids: seq<int>)
    ensures FitsInt64(ids) <==> forall x :: x in ids ==> Int64Min <= x <= Int64Max
  {
    InRangeByMembership(ids, Int64Min, Int64Max);
    forall k :: 0 <= k < |ids| ==> Int64Min <= ids[k] <= Int64Max
  }

  /** Helper: a bound holds at every index exactly when it holds for every element. */
  lemma InRangeByMembership(ids: seq<int>, lo: int, hi: int)
    ensures (forall k :: 0 <= k < |ids| ==> lo <= ids[k] <= hi) <==> (forall x :: x in ids ==> lo <= x <= hi)
  {
    if forall k :: 0 <= k < |ids| ==> lo <= ids[k] <= hi {
      forall x | x in ids
        ensures lo <= x <= hi
      {
        var k :| 0 <= k < |ids| && ids[k] == x;
      }
    }
    if forall x :: x in ids ==> lo <= x <= hi {
      forall k | 0 <= k < |ids|
        ensures lo <= ids[k] <= hi
      {
        assert ids[k] in ids;
      }
    }
  }

  /** When every ID list of the table, including the terminal's, holds only int64 values,
      the converted sequence never overflows the int64 array. */
  lemma TableFitsInt64(words: seq<Word>, m: PhonemeIdMap)
    requires Terminal in m
    requires forall key :: key in m ==> FitsInt64(m[key])
    ensures FitsInt64(PhonemeIds(words, m))
  {
    forall x | x in PhonemeIds(words, m)
      ensures Int64Min <= x <= Int64Max
    {
      PhonemeIdsMember(words, m, x);
      if x !in m[Terminal] {
        var s := Flatten(words);
        var i :| 0 <= i < |s| && [s[i]] in m && x in m[[s[i]]];
        assert FitsInt64(m[[s[i]]]);
      }
    }
  }

  /** `np.array(ids).reshape((1, -1))`: one row holding all IDs. */
  function InputIds(ids: seq<int>): Int64Tensor
  {
    Int64Tensor([1, |ids|], ids)
  }

  /** `np.array([input_ids.shape[1]])`: the length of the single row. */
  function InputLengths(inputIds: Int64Tensor): Int64Tensor
    requires |inputIds.shape| == 2
  {
    Int64Tensor([1], [inputIds.shape[1]])
  }

  /** The inference feed built from the phoneme IDs: the IDs as one row, and as
      `input_lengths` a single element equal to the number of IDs. */
  function MakeFeed(ids: seq<int>): (f: Feed)
    ensures f.input.shape == [1, |ids|] && f.input.data == ids
    ensures f.inputLengths.shape == [1] && f.inputLengths.data == [|ids|]
    ensures f.scales == Scales
  {
    var input := InputIds(ids);
    Feed(input, InputLengths(input), Scales)
  }

  /** The status route. */
  function Root(): (e: Envelope)
    ensures e.MessageEnvelope? && e.message == RunningMessage
  {
    MessageEnvelope(RunningMessage)
  }

  /** POST /tts. `phonemize` stands for the grapheme-to-phoneme service, `run` for the
      session's inference, `encodeWav` for writing the waveform as WAV at a sample rate
      and base64-encoding the bytes. */
  method TextToSpeech<A>(h: Handles, text: string, phonemize: string -> seq<Word>,
                         run: Feed -> A, encodeWav: (A, int) -> string)
    returns (reply: Reply, calls: seq<Call>)
    // Not loaded: only the error envelope, with no phonemization and no inference.
    ensures !Loaded(h) ==> reply == Json(ErrorEnvelope(NotLoadedMessage)) && calls == []
    // Loaded: the error envelope is never returned, and the text is phonemized first.
    ensures Loaded(h) ==> reply != Json(ErrorEnvelope(NotLoadedMessage))
                          && 1 <= |calls| <= 2 && calls[0] == Phonemize(Language, text)
    // Inference happens at most once, as the second call, and only on a loaded model.
    ensures forall k :: 0 <= k < |calls| && calls[k].Run? ==> k == 1 && Loaded(h)
    ensures Loaded(h) ==>
      var c := h.config.value;
      match LookupPhonemeIdMap(c)
      case Err(f) => reply == ServerError(f) && |calls| == 1
      case Ok(m) =>
        if Terminal !in m then reply == ServerError(KeyError(Terminal)) && |calls| == 1
        else
          var ids := PhonemeIds(phonemize(text), m);
          if !FitsInt64(ids) then reply == ServerError(OverflowError) && |calls| == 1
          else
            calls == [Phonemize(Language, text), Run(MakeFeed(ids))]
            && reply == match LookupSampleRate(c)
                        case Err(f) => ServerError(f)
                        case Ok(rate) => Json(AudioEnvelope(encodeWav(run(MakeFeed(ids)), rate)))
  {
    var guard := Guard(h);
    if guard.Some? {
      return Json(guard.value), [];
    }
    var config := h.config.value;
    var words := phonemize(text);
    calls := [Phonemize(Language, text)];
    var lookup := LookupPhonemeIdMap(config);
    if lookup.Err? {
      return ServerError(lookup.error), calls;
    }
    var built := BuildPhonemeIds(words, lookup.value);
    if built.None? {
      return ServerError(KeyError(Terminal)), calls;
    }
    var ids := built.value;
    if !FitsInt64(ids) {
      return ServerError(OverflowError), calls;
    }
    var feed := MakeFeed(ids);
    var audio := run(feed);
    calls := calls + [Run(feed)];
    var rate := LookupSampleRate(config);
    if rate.Err? {
      return ServerError(rate.error), calls;
    }
    reply := Json(AudioEnvelope(encodeWav(audio, rate.value)));
  }

  /** Routing: GET / answers the status message whatever the handles' state; POST /tts
      runs the handler. */
  method Serve<A>(h: Handles, request: Request, phonemize: string -> seq<Word>,
                  run: Feed -> A, encodeWav: (A, int) -> string)
    returns (reply: Reply, calls: seq<Call>)
    ensures request.GetRoot? ==> reply == Json(MessageEnvelope(RunningMessage)) && calls == []
    ensures request.PostTts? ==> (reply == Json(ErrorEnvelope(NotLoadedMessage)) <==> !Loaded(h))
    ensures request.PostTts? && !Loaded(h) ==> calls == []
    ensures request.PostTts? && Loaded(h) ==> 1 <= |calls| && calls[0] == Phonemize(Language, request.text)
  {
    match request
    case GetRoot =>
      reply, calls := Json(Root()), [];
    case PostTts(text) =>
      reply, calls := TextToSpeech(h, text, phonemize, run, encodeWav);
  }
}

# Arabic text-to-speech service (Piper ONNX variant): a Dafny model

This project models the request handling of the Arabic text-to-speech HTTP service in
`main.py`. At startup the service loads three process-wide handles: an ONNX inference
session for a Piper voice, the parsed JSON model configuration, and a `pygoruut`
grapheme-to-phoneme client. `POST /tts` refuses with an error envelope when a handle is
missing. Otherwise it phonemizes the text, converts the phonetic characters to the
integer phoneme IDs of the configuration's `phoneme_id_map`, appends the IDs of the
sentence terminal `"."`, runs inference, and returns the WAV audio base64-encoded.
`GET /` returns a fixed status message.

Layout:

- `wrappers.dfy` (module `Wrappers`): `Option` for Python's `None`, `Result` for lookups.
- `phonemes.dfy` (module `Phonemes`): the phoneme-to-ID conversion. `PhonemeIds` is the
  recursive specification. `BuildPhonemeIds` is the source's nested loop, proved equal
  to it. The lemmas state order, skipping of unknown characters, whole-list
  contribution, length, membership and the terminal suffix.
- `service.dfy` (module `Service`): the handles and the startup outcome, the guard, the
  inference feed, the `/tts` handler `TextToSpeech` and the routing `Serve`.

The collaborators are parameters of the handler:

- `phonemize: string -> seq<Word>` stands for `pygoruut.phonemize(language="Arabic", ...)`.
- `run: Feed -> A` stands for the session's inference; `A` is the opaque waveform.
- `encodeWav: (A, int) -> string` stands for writing the WAV file at the sample rate,
  reading it back and base64-encoding it.

The handler returns its reply and the list of calls it made to `phonemize` and `run`, so
"no phonemization or inference" can be stated.

Exceptions the handler does not catch are modelled as `ServerError(fault)`:

- `KeyError` for a missing `phoneme_id_map`, `"."`, `audio` or `sample_rate` key. The
  last two are looked up after inference has run.
- `OverflowError` when an ID does not fit numpy's `int64`.

Dafny's `char` is a Unicode scalar value, matching Python's iteration over a `str` by
code point for every string without lone surrogates (a Python `str` can hold a lone
surrogate; a Dafny `char` cannot). Table keys are modelled as strings, as in JSON. A key longer than one
character therefore never matches a phonetic character, just as `p in phoneme_id_map`
never matches it for a one-character `p`.

The guard's `not piper_config` is also true for a configuration that parsed to an empty
JSON object, so `Loaded` requires a non-empty configuration (`Config.Truthy`).

## Model

| member | source | states |
|---|---|---|
| `Phonemes.CharIds` | main.py:58-60 | A phonetic character contributes the whole list of its one-character key when that key is in the table, and nothing otherwise |
| `Phonemes.PhoneticIds` | main.py:58-60 | The inner loop's IDs for one phonetic string, character by character; an empty string gives no IDs |
| `Phonemes.WordsIds` | main.py:57-60 | The nested loop's IDs for a word sequence, before the terminal; no words give no IDs |
| `Phonemes.BuildPhonemeIds` | main.py:55-63 | The nested loop yields exactly `PhonemeIds(words, m)` when `"."` is a key of the table, and the key error (`None`) when it is not |
| `Phonemes.PhonemeIds` | main.py:62-63 | The output always ends with exactly the ID list of `"."` |
| `Phonemes.PhoneticIdsAppend` | main.py:58-60 | Converting two phonetic strings one after the other gives the conversion of their concatenation |
| `Phonemes.WordsIdsAppend` | main.py:57-60 | Converting two word sequences one after the other gives the conversion of their concatenation |
| `Phonemes.PhoneticIdsAt` | main.py:58-60 | A character at any position contributes its own IDs at that position, between the IDs of the characters before and after it |
| `Phonemes.MappedCharContributesAll` | main.py:60 | A mapped phoneme contributes its entire ID list, not a single ID |
| `Phonemes.WordsIdsAt` | main.py:57-60 | The IDs of a word sit between the IDs of the words before it and those of the words after it |
| `Phonemes.UnknownCharDropped` | main.py:59-60 | Deleting a character that is not a key, anywhere in any word, leaves the output unchanged; the function has no precondition on phonetic characters, so an unknown one raises nothing |
| `Phonemes.WordsIdsFlatten` | main.py:57-58 | The IDs appear in word order and, within a word, in phonetic-character order: they are the conversion of the concatenated phonetic strings |
| `Phonemes.PhonemeIdsInOrder` | main.py:56-63 | The whole output is the converted concatenated phonetic text followed by the terminal's IDs |
| `Phonemes.PhoneticIdsLength` | main.py:58-60 | The conversion of a string has length equal to the sum of the list lengths of its mapped character occurrences |
| `Phonemes.PhonemeIdsLength` | main.py:56-63 | Output length is the sum of the lengths of `map[p]` over every mapped phoneme occurrence, plus the length of `map["."]` |
| `Phonemes.NothingMappedYieldsTerminal` | main.py:56-63 | With no words, or no mappable phoneme in any word, the output equals the ID list of `"."` |
| `Phonemes.PhoneticIdsMember` | main.py:58-60 | An ID occurs in a converted string if and only if some mapped character of the string has it in its list |
| `Phonemes.PhonemeIdsMember` | main.py:56-63 | An ID occurs in the output if and only if a mapped character of the words, or the terminal, has it in its list |
| `Service.Startup` | main.py:28-38 | A failed loading step resets all three handles to `None`, so, for a configuration file holding a JSON object, startup never leaves a partial set; the handles are usable exactly when every step succeeded and the configuration is non-empty |
| `Service.Guard` | main.py:45-46 | The guard passes exactly when session, phonemizer and a non-empty configuration are all present; otherwise it gives the fixed error envelope |
| `Service.Config.Truthy` | main.py:45 | `not piper_config`: the configuration is truthy exactly when it has at least one top-level key |
| `Service.LookupPhonemeIdMap` | main.py:55 | `piper_config["phoneme_id_map"]`: the table when the key is present, a `KeyError` on `phoneme_id_map` otherwise |
| `Service.LookupSampleRate` | main.py:80 | `piper_config["audio"]["sample_rate"]`: the rate when both keys are present, a `KeyError` on `audio` or on `sample_rate` for whichever is missing first |
| `Service.FitsInt64` | main.py:67 | The IDs convert to a numpy `int64` array exactly when every ID lies between -2^63 and 2^63-1 |
| `Service.TableFitsInt64` | main.py:67 | When every ID list of the table (the terminal's included) holds only `int64` values, the converted sequence never overflows |
| `Service.Root` | main.py:93-94 | The status route's body is the fixed running message |
| `Service.MakeFeed` | main.py:67-69 | The inference input is the IDs as a single row; `input_lengths` is one element equal to the number of IDs; the scales are the three constants |
| `Service.TextToSpeech` | main.py:44-90 | Without loaded handles: only the error envelope, with no calls. With them: phonemize first, then each key error or overflow in source order, else one inference call on `MakeFeed(PhonemeIds(...))` and the encoded audio; the not-loaded envelope is never returned |
| `Service.Serve` | main.py:92-94 | `GET /` returns the fixed running message and makes no calls, whatever the handles' state; `POST /tts` returns the not-loaded envelope exactly when the handles are not loaded |

## Left out

- Loading the model (ONNX session creation, opening and parsing the JSON file, creating the `pygoruut` client) is file I/O; `Service.Startup` takes the outcome of each step as an optional value.
- `pygoruut.phonemize` is an external grapheme-to-phoneme service; it is the function parameter `phonemize`, and its output is taken as a given sequence of words.
- ONNX `InferenceSession.run` is a foreign call; it is the function parameter `run`, and the waveform is an opaque type parameter.
- The float32 `scales` array is kept as its three decimal constants; float32 rounding is not modelled.
- WAV serialisation with `soundfile`, the temporary file and reading its bytes back, and base64 encoding are library I/O; together they are the function parameter `encodeWav`.
- Exceptions raised inside the collaborators (a failing phonemizer or inference call) are not modelled; the model assumes the collaborators return.
- The top-level configuration value is assumed to be a JSON object. A file holding `null`, `false`, `0`, `""` or `[]` would parse without raising and leave the session and `pygoruut` handles loaded beside a falsy configuration; the guard rejects that state just as it rejects a missing configuration, so the handler's behaviour is the same, but `Service.Startup` does not produce it.
- A configuration whose entries have the wrong JSON type (e.g. `phoneme_id_map` not an object, IDs that are not integers) is not modelled; the configuration is typed.
- FastAPI application set-up, CORS middleware, pydantic request parsing and `print` logging carry no logic; `Service.Serve` stands for the two route decorators.
- The React front end (`frontend/src/App.jsx`) is a UI with state hooks and a network call, and is not part of this model.

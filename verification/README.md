# VoiceRecognizer core in Dafny

This project models the two pieces of the VoiceRecognizer repository that carry real
logic, and proves properties about them.

- **The voice-activity recorder** (`VoiceRecorder.record_numpy`). Frames are read
  one by one. A frame louder than `silence_threshold` is appended to the buffer and
  marks the recorder as speaking. A quiet frame after speech ends the loop once the
  silence since the last voiced frame exceeds `silence_max_duration`. Any frame read
  after `max_record_time` ends the loop too. The buffer is then concatenated, and an
  empty buffer makes `np.concatenate` raise.
- **The recognition client for the iFlytek transcription service** (`Speach2TextXF`).
  - `RequestBodyXF.make` and `fresh` build the signed `(ts, signa)` pair.
  - `_upload` returns an order id or `None`.
  - `_get_result` polls until the status is 4 (done) or -1 (failed), or until the
    retry counter runs out.
  - `exec` chains these stages.
  - `_result2sentence` flattens the lattice result into the transcript.

Modules:

- `Common` (common.dfy): `Option`, `Result` and `Slice`, a clamped slice like Python's `s[lo:hi]`.
- `Transcript` (transcript.dfy): the decoded order-result tree and `_result2sentence`.
- `RequestBodyXF` (request_body.dfy): the signed request body.
- `Speach2TextXF` (speach2text.dfy): the upload, the poll loop and `exec`.
- `VoiceRecorder` (voice_recorder.dfy): `_audio_rms` and the recording loop.

Inputs that stand in for the outside world:

- The audio stream is a sequence of `Frame(samples, rms, time)`. A finite sequence
  is a prefix of the stream. If the loop has not stopped by its end, the result is
  `Listening`.
- The clock is the integer tick stamped on each frame. `_get_ts` becomes a `ts`
  string parameter.
- The MD5 → HMAC-SHA1 → base64 chain is a parameter `sign: (appid, secretKey, ts) -> signa`.
  It can be any deterministic function.
- Each HTTP answer is a value that selects the branch of the Python code it drives.
  `replies` holds one answer per result query the loop may send, that is
  `QueryBudget(max_try_time)` answers.
- The order result is the already-decoded tree `lattice → rt → ws → cw → w`.

Every stage has three kinds of outcome. `Ok(value)` is a returned value. `Fail(reason)`
is a branch where the Python code logs the reason and returns `None`. `Raise(fault)` is
an exception that `exec` does not catch. `Outcome.Returned()` maps the first two onto
the Python return value.

Where the docstrings and the code disagree, the model follows the code:

- The docstrings of `_get_result` and `exec` call `max_try_time` the maximum number of
  attempts (Speach2TextXF.py:214, 283). The counter is incremented before the
  `try_time > max_try_time` check (Speach2TextXF.py:231, 257), so a still-processing
  order is queried `max_try_time + 1` times. When `max_try_time` is negative, it is
  queried once.
- The same docstrings say `None` is returned on failure (Speach2TextXF.py:217, 286).
  Several replies raise instead of returning `None`, and the exception propagates
  out of `exec`:
  - a reply that is not JSON (Speach2TextXF.py:189, 245);
  - a missing `status` (Speach2TextXF.py:247);
  - a missing `orderResult` on status 4 (Speach2TextXF.py:251);
  - a missing `failType` on status -1 (Speach2TextXF.py:255).

## Model

| member | source | states |
|---|---|---|
| Transcript.Result2Sentence | src/voice_recognizer/Speach2TextXF.py:58-85 | Extraction succeeds exactly when every segment has an `rt` entry and every word slot of `rt[0]` has a candidate. The text is then the in-order join of the first candidates (`Sentence`). Otherwise the IndexError is located at the first failing index in document order. |
| Transcript.CollectWords | src/voice_recognizer/Speach2TextXF.py:82-83 | The inner loop appends `cw[0].w` of every remaining slot, in order. It fails exactly when some remaining slot has no candidate, and then it names the first such slot. |
| Transcript.CollectSegments | src/voice_recognizer/Speach2TextXF.py:77-84 | The outer loop appends the words of every remaining segment in document order. It fails exactly when some segment lacks a path or candidate, and the error it reports is the first one. |
| Transcript.EmptyLatticeIsEmptySentence | src/voice_recognizer/Speach2TextXF.py:71-85 | An empty `lattice` list gives the empty string. |
| Transcript.SentenceOfConcatenation | src/voice_recognizer/Speach2TextXF.py:77-85 | The transcript of two lattices placed one after the other is the first transcript followed by the second. |
| Transcript.ReadsOnlyTopCandidates | src/voice_recognizer/Speach2TextXF.py:79-83 | Two results that agree on `rt[0]` and on each slot's `cw[0]` give the same outcome. Later paths and later candidates are never read. |
| Transcript.TwoWordExample | src/voice_recognizer/Speach2TextXF.py:77-85 | The slots [你, 您] and [好] give "你好": the second candidate is dropped and there is no separator. |
| RequestBodyXF.Make | src/voice_recognizer/Speach2TextXF.py:97-115 | The new body keeps the given appid, key and timestamp, and its `signa` is `sign(appid, key, ts)` for that timestamp. |
| RequestBodyXF.Fresh | src/voice_recognizer/Speach2TextXF.py:117-120 | After a refresh the timestamp is the new one, the signature matches it, and appid and key are unchanged. |
| RequestBodyXF.FreshIsMake | src/voice_recognizer/Speach2TextXF.py:113-120 | Refreshing gives exactly the body `make` would build at that timestamp, whatever the body held before. |
| Speach2TextXF.Upload | src/voice_recognizer/Speach2TextXF.py:139-198 | A missing file sends nothing and fails. Otherwise the request carries the body's appid, signa and ts, the file size and name, and duration "200". An order id comes back exactly when the reply holds `content.orderId`. A request that raises and a reply without `orderId` each return `None` with their own reason. A non-JSON reply raises `UnparsableReply`. |
| Speach2TextXF.QueryBudget | src/voice_recognizer/Speach2TextXF.py:229-259 | The number of queries at which the `try_time > max_try_time` check first fires. That is `max_try_time + 1` when `max_try_time >= 0`, and exactly one query otherwise. |
| Speach2TextXF.PollFrom | src/voice_recognizer/Speach2TextXF.py:229-259 | The loop stops within the budget. Every answer before the last one was "still processing". The last answer decides the outcome: by its kind if it is terminal, and as retries exhausted at exactly the budget if it is not. |
| Speach2TextXF.GetResult | src/voice_recognizer/Speach2TextXF.py:200-261 | The `while True` loop returns the fold's outcome after the fold's number of queries. Every query sent carries the same appId, signa, ts and orderId from the one parameter dictionary. |
| Speach2TextXF.PollStopsAtFirstTerminal | src/voice_recognizer/Speach2TextXF.py:234-256 | If answer k is the first terminal one and the budget reaches it, the poll returns that answer's outcome after exactly k + 1 queries. |
| Speach2TextXF.PollReturnsFirstDone | src/voice_recognizer/Speach2TextXF.py:250-253 | The first status-4 answer gives its `orderResult` after exactly k + 1 queries. |
| Speach2TextXF.PollGivesUpOnFailedStatus | src/voice_recognizer/Speach2TextXF.py:254-256 | The first status -1 answer makes the poll return `None` with its fail code after exactly k + 1 queries, without a retry. |
| Speach2TextXF.PollGivesUpOnTransportError | src/voice_recognizer/Speach2TextXF.py:234-243 | A query whose request raises ends the poll at once, even with budget left. |
| Speach2TextXF.PollExhaustsBudget | src/voice_recognizer/Speach2TextXF.py:257-259 | If no answer within the budget is terminal, the poll gives up after exactly `QueryBudget(max_try_time)` queries. |
| Speach2TextXF.Exec | src/voice_recognizer/Speach2TextXF.py:263-315 | The upload request recorded is exactly the one `_upload` sends for the body `make` builds. Every request `exec` sends carries the appid, the timestamp and `sign(appid, key, ts)` of that one timestamp. Every query names the uploaded order id. Without an order id no query is sent, and the upload's `None` or exception is what `exec` gives. After an upload, a poll's `None` or exception passes through unchanged with exactly the poll's queries. A returned text is the extraction of the poll's order result. |
| Speach2TextXF.ExecStopsAfterFailedUpload | src/voice_recognizer/Speach2TextXF.py:295-301 | When the upload yields no order id, `exec` sends no query. It returns `None` with the upload's reason, or raises the upload's exception. |
| Speach2TextXF.ExecStopsAfterFailedPoll | src/voice_recognizer/Speach2TextXF.py:303-311 | When the poll returns `None`, `exec` returns `None` with the same reason. When the poll raises, `exec` raises the same exception. Either way it sends exactly the poll's queries. |
| Speach2TextXF.ExecReturnsTranscript | src/voice_recognizer/Speach2TextXF.py:303-315 | When the poll returns a result, `exec` returns its transcript, or raises if the result lacks a path or candidate. All queries name the uploaded order id. |
| VoiceRecorder.AudioRms | VoiceRecorder.py:15-21 | An empty frame has volume 0. Otherwise the volume is the measured RMS. |
| VoiceRecorder.EmptyFrameIsSilent | VoiceRecorder.py:19-21 | With a non-negative threshold, an empty frame is never voice. It leaves any session unchanged, and it ends the loop only by the silence stop or the time limit. |
| VoiceRecorder.StepFrame | VoiceRecorder.py:84-104 | A loud frame is appended, sets speaking, and sets the last-voice time to its own time, even when the loop stops at it. A quiet frame changes nothing. The loop breaks exactly on the silence stop (quiet, speaking, gap over the limit) or the time limit. |
| VoiceRecorder.RunFrom | VoiceRecorder.py:82-104 | The final buffer is the samples of exactly the loud frames read before the stop, in order. The last-voice time is the tick of the last of those loud frames, or the old value if there were none. The recorder is speaking exactly when it already was or one of those frames was loud. The start time never changes. The loop stops after at least one frame, or else reads them all. Where it stops is pinned by `RunStopsAtFirstStop`. |
| VoiceRecorder.RunStopsAtFirstStop | VoiceRecorder.py:84-104 | Every frame read before the last one is reached in the state built from the frames before it. Its step stops exactly when it is the last frame read and the loop broke out there. So the loop breaks at the first stopping frame, never earlier and never later. |
| VoiceRecorder.Record | VoiceRecorder.py:64-107 | The returned audio is the concatenation of the loud frames read before the stop. When no loud frame was read, there is no audio, because `np.concatenate` raises. A recorder still listening holds the voiced frames, the last-voice tick, the speaking flag and the start time `t0`. |
| VoiceRecorder.RecordStopsAtFirstStop | VoiceRecorder.py:64-107 | `framesRead` is the index of the first frame whose step breaks the loop, plus one. No earlier frame breaks it, and while the recorder is still listening no frame read so far breaks it. |
| VoiceRecorder.RecordNumpy | VoiceRecorder.py:64-107 | The `while True` loop with its two breaks gives the same result as the fold. |
| VoiceRecorder.RunStopsByDeadline | VoiceRecorder.py:101-104 | A frame read after `max_record_time` ends the loop at that frame or earlier, whatever the state. |
| VoiceRecorder.RecordEndsByDeadline | VoiceRecorder.py:69-104 | Recording always ends by the first frame past the time limit, even if no voice was heard. |
| VoiceRecorder.RunStopsAfterSilence | VoiceRecorder.py:96-99 | Once speaking, quiet frames that outlast `silence_max_duration` end the loop without adding to the buffer. |
| VoiceRecorder.IdleSilenceNeverStops | VoiceRecorder.py:88-99 | Before any voice, quiet frames within the time limit never stop the loop and never reach the buffer. |
| VoiceRecorder.SpeechThenSilenceExample | VoiceRecorder.py:84-107 | With the defaults, the sequence speech, 200 ms pause, speech, 1100 ms pause stops at the long pause. It returns exactly the two voiced frames' samples, and the frame after the stop is never read. |
| VoiceRecorder.LongSpeechKeepsListening | VoiceRecorder.py:88-99 | With the defaults, voiced frames 400 ms apart for 1.2 s and then a quiet frame 100 ms later do not stop the loop. Each voiced frame moves the silence deadline, so speech longer than `silence_max_duration` is not cut off. |
| VoiceRecorder.IdleVoiceTimeIsUnread | VoiceRecorder.py:69-99 | While idle, the initial `last_voice_time` is never read, so the two separate clock readings at the start can be modelled as one. |

## Left out

- The audio device stream, its callback and the queue hand-off (VoiceRecorder.py:27-33, 75-83). These are device I/O and a producer/consumer thread. The model reads frames from a sequence instead.
- The floating-point RMS, the `1e-5` noise floor and the NaN check (VoiceRecorder.py:22-25). Volume is the frame's measured `rms`. Only the empty-frame rule is kept.
- `time.perf_counter`, `time.sleep`, `request_timeout` and `try_interval`. Clocks and delays become integer ticks or are dropped.
- WAV writing (`_save_wav_int16`, `record_wav`). The container bytes come from the `wave` library, which is not part of this model, so no property of the written WAV bytes is stated.
- MD5, HMAC-SHA1, base64 and `_get_ts`. `sign` is an arbitrary function parameter. Since `sign` is arbitrary, nothing is stated about different inputs giving different signatures; that would need an injective `sign`.
- HTTP transport, `response.json()`, file existence, size and reading, and the JSON decoding of `orderResult` and `json_1best`. These become answer values and a decoded tree. KeyErrors on the `lattice`, `json_1best`, `st`, `rt`, `ws`, `cw` and `w` keys are therefore not modelled.
- Logging, including the `failType` log line. The model keeps the code in `Fail(ServiceFailed(code))`.
- `_logging.py`, both `VoiceRecognizer.py` files (configuration glue), the `Client` dataclass defaults and the `__main__` blocks.

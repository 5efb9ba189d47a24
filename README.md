# Voice course assistant: orchestrator, intent normaliser and push-to-talk recorder

This project models the core of a terminal voice assistant for course
information. `VoiceOrchestrator` loops over conversation turns, and each turn
runs through a small state machine (`IDLE`, `RECORDING`, `PROCESSING`,
`THINKING`, `SPEAKING`, `ERROR`, `EXIT`). In each pass of `run` the user picks
voice, text or exit at a prompt. A text turn classifies the request and calls
an agent task. A voice turn first transcribes the recorded audio and then
speaks the agent's answer. Exceptions from a turn are counted and shown by
`handle_error`; a `KeyboardInterrupt` ends the loop. Running averages of the
stage times are kept in a metrics dictionary. `IntentClassifier.classify`
validates and defaults what the language model returned. `AudioRecorder`
records while the space key is held, for at most `RECORD_MAX_SECONDS`, and
turns the captured blocks into one mono array.

Files and modules:

- `outcomes.dfy` (`Outcomes`): `Option`, and `Outcome` for a result or a raised
  exception. `KeyboardInterrupt` is kept apart from `Exception`, because the
  source's `except Exception` clauses do not catch it.
- `pystr.dfy` (`PyStr`): Python's `str.strip`, `str.lower` and "blank" tests.
- `stats.dfy` (`Stats`): sums and means of reals.
- `settings.dfy` (`Settings`): the audio constants of `config/settings.py`.
- `classifier.dfy` (`Classifier`): the normalisation in `IntentClassifier.classify`.
- `metrics.dfy` (`Metrics`): the metrics dictionary, `_update_metrics`, the
  error count, and the meaning of the running averages.
- `inputmode.dfy` (`InputMode`): `wait_for_user_input` over standard input.
  Standard input is a sequence of lines.
- `routing.dfy` (`Routing`): the help, clarification and dispatch decisions
  of `classify_and_execute_intent`.
- `turns.dfy` (`Turns`): pure specification functions. Each gives what a turn,
  a loop pass or the whole loop does, as an `Effects` value:
  - the states assigned, in order;
  - the metrics changes;
  - the agent calls;
  - what is shown;
  - the unread standard input.

  This module also holds the lemmas about those effects.
- `orchestrator.dfy` (`Orchestrator`): the class `VoiceOrchestrator`. It has
  the source's fields, plus ghost logs of the states assigned and of the
  metrics changes. Each method is proved to do exactly what the matching
  `Turns` function describes.
- `recorder.dfy` (`Recorder`): the class `AudioRecorder` with its handlers and
  the two wait loops of `record_push_to_talk`. A pure specification
  (`Capture`, `Recorded`, `Assemble`) states which blocks a call keeps and
  what array it returns.

Each collaborator's result is an input of the model. These are the recorder,
speech-to-text, the language model, the agent's task methods, text-to-speech,
the clock and the date. One `TurnScript` carries them for each pass of the loop.

What the code does, as modelled:

- `run` assigns neither `EXIT` nor `RECORDING`. The audio is recorded inside
  `wait_for_user_input`, while the state is still `IDLE`. (`RECORDING` is
  assigned only by `handle_voice_turn` when it is called without audio, which
  `run` never does.)
- The recorder triggers on the space key and has no quit key.
- The track parameter is passed to the agent unchanged; `"Invalid"` is not
  coerced to `"Tech"`.
- The help intent is decided before any clarification question.
- The agent's outcome is an input of the model because several of the calls
  at src/orchestrator.py:180-196 cannot succeed against
  src/agent/crew_agent.py:
  - lines 181 and 196 pass two arguments to `get_next_class_info(self,
    current_date=None)`, which raises `TypeError`;
  - `research_topic`, `get_weekly_plan` and `track_assignments` are not
    defined on `VoiceCourseAgent`, so those calls raise `AttributeError`.

  Both are `Exception`s, which the model covers as an `agentReply` of
  `Fail(Exception(_))`: the turn shows "Error executing task: ..." and gets an
  empty reply (`Turns.AgentExceptionNeverEscapes`).
- Once standard input is exhausted, every pass of `run` raises `EOFError` at the
  mode prompt, `handle_error` counts it, and the loop goes on: `run` never ends
  by itself (`Turns.EndOfInputNeverStops`).

## Model

| member | source | states |
|---|---|---|
| `Classifier.SetDefault` | src/agent/intent_classifier.py:92-95 | `setdefault` keeps a present value and fills in the default only when the key is missing |
| `Classifier.Normalise` | src/agent/intent_classifier.py:85-95 | the result has all five keys and an intent from `INTENTS`. A missing or unknown intent becomes `help` with confidence 0.5. A known intent is kept, and its confidence defaults to 0.8 only when missing. Every other key is defaulted only when missing and never overwritten |
| `Classifier.Classify` | src/agent/intent_classifier.py:83-108 | a parsed reply is normalised. Any `Exception` gives the fixed fallback (`help`, confidence 0.0). Only a `KeyboardInterrupt` escapes. Every result has all keys and a known intent |
| `Classifier.NormaliseFixedPoints` | src/agent/intent_classifier.py:85-95 | normalisation leaves a result unchanged exactly when it already has a known intent and all five keys |
| `Classifier.NormaliseIdempotent` | src/agent/intent_classifier.py:85-95 | normalising twice is the same as normalising once |
| `Classifier.ClassifiedIntents` | src/agent/intent_classifier.py:83-108 | `classify` always returns an intent from `INTENTS`. A non-help intent is always the model's own intent, kept unchanged |
| `Orchestrator.VoiceOrchestrator.SetState` | src/orchestrator.py:77 | `self.state = s`: the state becomes `s` and is appended to the trace of states |
| `Orchestrator.VoiceOrchestrator.Input` | src/orchestrator.py:112 | `input()` on the orchestrator's standard input: the result and the unread rest are those of `PyInput` |
| `InputMode.PyInput` | src/orchestrator.py:112 | Python's `input()`: the next line, `KeyboardInterrupt` on Ctrl-C, `EOFError` at the end of input |
| `InputMode.ParseChoice` | src/orchestrator.py:112-130 | the stripped, lower-cased mode choice selects voice, text, exit or nothing |
| `InputMode.LeadingInvalid` | src/orchestrator.py:130-133 | counts the invalid choices typed before the first valid one, `Ctrl-C` or the end of input |
| `InputMode.SelectMode` | src/orchestrator.py:102-133 | voice exactly when the first valid choice is `v` and the recording succeeded. Text exactly when it is `t` and the stripped next line is not `/exit`. Exit on `e`, on `/exit`, or on `/exit` typed as the question. `EOFError` when only invalid choices remain. Ctrl-C at either prompt raises `KeyboardInterrupt`, a failed recording passes its own failure on, and the end of input at the question prompt raises `EOFError`. Every prompt reads exactly one line: the rest is what follows the mode line, or the question line for text |
| `InputMode.VoiceChoiceIff` | src/orchestrator.py:112-114 | the choice is voice exactly when the stripped line is `v` or `V` |
| `InputMode.TextChoiceIff` | src/orchestrator.py:112-120 | the choice is text exactly when the stripped line is `t` or `T` |
| `InputMode.ExitChoiceIff` | src/orchestrator.py:112-128 | the choice is exit exactly when the stripped line is `e`, or `/exit` in any mix of cases |
| `InputMode.TextExitIsCaseSensitive` | src/orchestrator.py:122-125 | at the question prompt, `" /exit"` ends the session, while `"/EXIT"` is kept as the question text |
| `PyStr.Strip` | src/orchestrator.py:112 | `str.strip()` with no argument, as `lstrip` then `rstrip` of Python's whitespace |
| `PyStr.IsBlank` | src/orchestrator.py:210 | the test `not s or len(s.strip()) == 0` |
| `PyStr.Lower` | src/orchestrator.py:112 | `str.lower()` for ASCII letters |
| `PyStr.StripSpec` | src/orchestrator.py:112 | `strip` returns the slice of the input that starts after its leading whitespace. Only whitespace lies before and after that slice, and the result neither starts nor ends with whitespace |
| `PyStr.BlankIffAllSpace` | src/orchestrator.py:210 | `not s or len(s.strip()) == 0` holds exactly when every character is whitespace |
| `PyStr.StripIdempotent` | src/orchestrator.py:122 | stripping a stripped text changes nothing |
| `PyStr.LowerEqualsIff` | src/orchestrator.py:112 | lower-casing equals a lower-case literal exactly when the characters match up to case |
| `Metrics.Apply` | src/orchestrator.py:309-330 | the dictionary after a sequence of `_update_metrics` calls and error counts, in order |
| `Metrics.Replay` | src/orchestrator.py:34-41 | the dictionary after a history of changes, starting from the one `__init__` creates |
| `Metrics.RunningAverage` | src/orchestrator.py:318-330 | `(avg * n + sample) / (n + 1)`, the running-average step applied to each stage time |
| `Metrics.Record` | src/orchestrator.py:313-330 | one more turn. Each average moves to `(avg * n + sample) / (n + 1)`. The error count is unchanged |
| `Metrics.CountError` | src/orchestrator.py:309 | the error count goes up by one and nothing else changes |
| `Metrics.RunningAverageExtendsMean` | src/orchestrator.py:318-330 | the running-average update of a mean is the mean of the samples with the new one appended |
| `Metrics.ReplayIsMean` | src/orchestrator.py:313-330 | from the initial dictionary, after any sequence of turns and errors: `total_turns` counts the completed turns, `errors` counts the errors, and each `avg_*` is the mean of that stage's times |
| `Routing.Decide` | src/orchestrator.py:153-174 | help comes first, whatever the clarification fields say, and is an explicit request exactly when the lower-cased text is `help`, `/help` or `menu`. A non-empty clarification question stops the turn. With an empty question, a `topic_research` request without a topic asks for one. Otherwise the request is dispatched, and without `needs_clarification` it is always dispatched |
| `Routing.Task` | src/orchestrator.py:180-196 | each task intent reaches its own agent method. Every other intent falls back to the next-class task. The topic defaults to `"AI Agents"` and the track to `"Tech"`, and both are passed on unchanged |
| `Routing.TaskMatchesIntent` | src/orchestrator.py:180-196 | for the four task intents, the intent can be read back from the call made |
| `Routing.TrackIsNotValidated` | src/orchestrator.py:190-192 | any track value, `"Invalid"` included, reaches the agent unchanged |
| `Turns.ErrorState` | src/orchestrator.py:230-232 | an `Exception` leaving a turn handler assigns `ERROR` before it is re-raised; a `KeyboardInterrupt` assigns nothing |
| `Turns.AfterTurn` | src/orchestrator.py:86-97 | a turn handler's effects followed by the loop's `except` clauses for how it ended |
| `Turns.Execute` | src/orchestrator.py:176-203 | the dispatch to the agent for a decided intent: one call of the intent's task method, its reply with the agent time, an exception shown as "Error executing task: ..." with the empty reply, and a `KeyboardInterrupt` passed on |
| `Turns.IntentEffect` | src/orchestrator.py:135-203 | `classify_and_execute_intent` as effects: classification, the routing decision, the topic prompt and the dispatch; its properties are the lemmas below |
| `Turns.TtsSpeak` | src/voice/tts.py:48-56 | `speak` returns at once on blank text and otherwise has the engine's outcome |
| `Turns.TextTurn` | src/orchestrator.py:205-233 | `handle_text_turn` as effects: the blank check, `THINKING`, the classification and dispatch, the response shown, the metrics sample, and `ERROR` before re-raising an `Exception` |
| `Turns.Deliver` | src/orchestrator.py:279-296 | the end of `handle_voice_turn`: `SPEAKING`, the response shown and spoken when non-empty, and the metrics sample |
| `Turns.SpokenReply` | src/orchestrator.py:272-300 | `handle_voice_turn` from `THINKING` on |
| `Turns.VoiceTurnWith` | src/orchestrator.py:254-300 | `handle_voice_turn` once the audio is known: the empty-audio check, `PROCESSING`, transcription, the blank-transcript check and the spoken reply |
| `Turns.VoiceTurn` | src/orchestrator.py:235-300 | `handle_voice_turn`: `RECORDING` and a recording when no audio is given |
| `Turns.Handler` | src/orchestrator.py:94-97 | the loop's `except` clauses: a `KeyboardInterrupt` leaves the loop, an `Exception` goes to `handle_error` |
| `Turns.Dispatch` | src/orchestrator.py:84-97 | the `if mode == ...` chain after `wait_for_user_input` and its handlers |
| `Turns.Iteration` | src/orchestrator.py:76-97 | one pass of the loop: `IDLE`, the mode prompt, then the dispatch |
| `Turns.RunFrom` | src/orchestrator.py:68-100 | the loop of `run`, one pass per script, until exit or a `KeyboardInterrupt` |
| `Turns.EndOfInputPass` | src/orchestrator.py:76-97 | at the end of standard input a pass counts an `EOFError`, shows its message, returns to `IDLE` and does not leave the loop |
| `Turns.EndOfInputNeverStops` | src/orchestrator.py:76-97 | from the end of standard input, every pass of the loop counts one `EOFError` and none stops it, so the loop only ends when the scripts run out |
| `Turns.HelpNeverReachesAgent` | src/orchestrator.py:153-159 | help makes no agent call, reads no input, returns `("", 0.0)`, and shows the help line or the "can't help" line by the lower-cased text |
| `Turns.ClarificationStops` | src/orchestrator.py:162-167 | a non-empty clarification question of a non-help intent is shown and the turn ends without an agent call |
| `Turns.TopicAnswerStored` | src/orchestrator.py:169-174 | when the topic is asked for, one line is read. An empty stripped answer ends the request. Any other answer becomes the researched topic |
| `Turns.AtMostOneAgentCall` | src/orchestrator.py:176-199 | at most one agent method is called, exactly when the request is dispatched. It is the method of the classified, non-help intent, called with the user's text and the date |
| `Turns.AgentExceptionNeverEscapes` | src/orchestrator.py:201-203 | an exception from the agent is shown as "Error executing task: ..." and becomes the empty reply |
| `Turns.EscapingFailures` | src/orchestrator.py:135-203 | for a classification with the documented field types, `classify_and_execute_intent` raises only a `KeyboardInterrupt`, or the `EOFError` of the topic prompt at the end of input |
| `Turns.TextTurnShape` | src/orchestrator.py:205-233 | a text turn passes through `THINKING` only and records `stt = tts = 0`. It ends at once on blank text. `ERROR` is assigned exactly when an `Exception` escapes. Metrics are recorded exactly when the turn completes |
| `Turns.SpokenReplyShape` | src/orchestrator.py:272-300 | from `THINKING` on, a voice turn follows `THINKING`, `SPEAKING`. It records the transcription and total times exactly when it completes. `ERROR` is assigned exactly when an `Exception` escapes |
| `Turns.VoiceTurnWithShape` | src/orchestrator.py:254-300 | a voice turn follows `PROCESSING`, `THINKING`, `SPEAKING`. Empty audio and a blank transcript end it before any later stage. `ERROR` is assigned exactly when an `Exception` escapes |
| `Turns.VoiceTurnRecordsFirst` | src/orchestrator.py:246-249 | without given audio, a voice turn first assigns `RECORDING` and then follows the voice path |
| `Turns.VoiceSpeaksIffResponse` | src/orchestrator.py:279-292 | `SPEAKING` is entered exactly when the reply is non-empty. A non-empty reply is shown and `speak` is called with it. An empty reply makes no speech request and completes with a tts time of 0 |
| `Turns.BlankSpeechIsSilent` | src/voice/tts.py:48-49 | `speak` on blank text returns before the engine runs, so it never fails |
| `Turns.DeliverShape` | src/orchestrator.py:279-296 | from `SPEAKING` on, the turn assigns at most `SPEAKING` and then `ERROR`, records the transcription and total times exactly when it completes, and assigns `ERROR` exactly when the speech engine raises an `Exception` |
| `Turns.AfterTurnShape` | src/orchestrator.py:94-97 | after a turn handled by the loop, `EXIT` and `RECORDING` were never assigned, each `ERROR` is followed by `IDLE`, at most one metrics change was made, and an error is counted and its message shown last exactly when the loop handled an `Exception` |
| `Turns.DispatchShape` | src/orchestrator.py:84-97 | every outcome of the mode prompt leads to a pass that never enters `EXIT` or `RECORDING`, makes at most one metrics change, and counts an error exactly when it handled one |
| `Turns.IterationShape` | src/orchestrator.py:76-97 | each pass starts in `IDLE` and keeps those properties |
| `Turns.RunShape` | src/orchestrator.py:68-100 | over the whole loop, `EXIT` and `RECORDING` are never assigned, every `ERROR` is followed by `IDLE`, and the loop ends early only on the exit choice or a `KeyboardInterrupt` |
| `Orchestrator.VoiceOrchestrator.constructor` | src/orchestrator.py:27-41 | starts in `IDLE`, not exiting, with all metrics zero and a recorder at `SAMPLE_RATE` and `CHANNELS` |
| `Orchestrator.VoiceOrchestrator.UpdateMetrics` | src/orchestrator.py:313-330 | the dictionary becomes `Record(old, times)`, and the metrics invariant (the dictionary replays the history of changes) is kept |
| `Orchestrator.VoiceOrchestrator.HandleError` | src/orchestrator.py:302-311 | one error is counted, its message is shown, and the state returns to `IDLE` |
| `Orchestrator.VoiceOrchestrator.WaitForUserInput` | src/orchestrator.py:102-133 | returns what `SelectMode` gives for the current standard input, and consumes what it reads |
| `Orchestrator.VoiceOrchestrator.ClassifyAndExecuteIntent` | src/orchestrator.py:135-203 | shows, asks, calls the agent and returns exactly as `IntentEffect` describes |
| `Orchestrator.VoiceOrchestrator.HandleTextTurn` | src/orchestrator.py:205-233 | assigns states, records metrics, calls the agent, shows and reads input exactly as `TextTurn` describes |
| `Orchestrator.VoiceOrchestrator.HandleVoiceTurn` | src/orchestrator.py:235-300 | does exactly what `VoiceTurn` describes, with or without given audio |
| `Orchestrator.VoiceOrchestrator.ProcessAudio` | src/orchestrator.py:254-300 | does exactly what `VoiceTurnWith` describes once the audio is known |
| `Orchestrator.VoiceOrchestrator.Respond` | src/orchestrator.py:272-300 | does exactly what `SpokenReply` describes from `THINKING` on |
| `Orchestrator.VoiceOrchestrator.Deliver` | src/orchestrator.py:279-296 | shows and speaks a non-empty reply, then records the turn's times, as `Turns.Deliver` describes |
| `Orchestrator.VoiceOrchestrator.Recover` | src/orchestrator.py:94-97 | a `KeyboardInterrupt` breaks the loop. An `Exception` goes to `handle_error`. A normal end continues |
| `Orchestrator.VoiceOrchestrator.Dispatch` | src/orchestrator.py:84-97 | the `if mode == ...` chain and its handlers, as `Turns.Dispatch` describes |
| `Orchestrator.VoiceOrchestrator.RunOnce` | src/orchestrator.py:76-97 | one pass of the loop: `IDLE`, the mode prompt, then what its outcome leads to |
| `Orchestrator.VoiceOrchestrator.Loop` | src/orchestrator.py:76-97 | the `while not self.should_exit` loop does the passes of `RunFrom` in order. It stops on exit, setting `should_exit`, or on a `KeyboardInterrupt` |
| `Orchestrator.VoiceOrchestrator.Run` | src/orchestrator.py:68-100 | does exactly what `RunFrom` describes, `should_exit` is set exactly when the exit choice ended it, and `cleanup` runs however the loop ended |
| `Orchestrator.VoiceOrchestrator.Cleanup` | src/orchestrator.py:332-342 | the recorder's buffer is dropped and its recording flag cleared |
| `Recorder.Frames` | src/audio/recorder.py:70 | `np.concatenate(self.audio_data, axis=0)`: the frames of all blocks, block after block |
| `Recorder.MeanSquareLevel` | src/audio/recorder.py:85-92 | the square of `get_audio_level`: 0.0 for empty data, else the mean of the squared samples |
| `Recorder.MonoSample` | src/audio/recorder.py:72-73 | one frame's mono sample: its only sample, or the mean of its channels |
| `Recorder.Recorded` | src/audio/recorder.py:57-83 | the blocks `_audio_callback` appends during a capture, those arriving after the press and before the stop |
| `Recorder.Assemble` | src/audio/recorder.py:68-76 | the returned array has exactly one sample per recorded frame |
| `Recorder.FramesConcat` | src/audio/recorder.py:70 | `np.concatenate` keeps arrival order: the frames of two runs of blocks are the frames of each, one after the other |
| `Recorder.AssembleConcat` | src/audio/recorder.py:68-74 | the audio of blocks recorded one after the other is the audio of the earlier blocks followed by that of the later ones |
| `Recorder.AssembleSamples` | src/audio/recorder.py:69-74 | with one channel, each sample is the frame's only sample. With several, it is the mean of the frame's channels |
| `Recorder.AssembleInRange` | src/audio/recorder.py:68-74 | samples in [-1, 1] stay in [-1, 1] after the down-mix |
| `Recorder.LevelInRange` | src/audio/recorder.py:85-92 | empty data has level 0.0, and the level of samples in [-1, 1] lies in [0.0, 1.0] |
| `Recorder.FirstPress` | src/audio/recorder.py:28-33 | the first press of space, or none |
| `Recorder.FirstStop` | src/audio/recorder.py:35-63 | the first release of space, or poll past the time bound, after a given point |
| `Recorder.Capture` | src/audio/recorder.py:19-66 | a capture starts at the first press of space and stops at the first later release or over-time poll |
| `Recorder.MaxDurationForcesStop` | src/audio/recorder.py:57-63 | a poll at which `RECORD_MAX_SECONDS` have passed since the start stops the capture no later than that poll |
| `Recorder.SessionIsBelowBound` | src/audio/recorder.py:57-63 | inside a capture, space was never released and every poll is below the time bound |
| `Recorder.NoPressNoCapture` | src/audio/recorder.py:46-48 | when space is never pressed nothing is captured; the source keeps waiting |
| `Recorder.AudioRecorder.Init` | src/audio/recorder.py:12-17 | stores the sample rate and channel count, not recording, with an empty buffer and no start time |
| `Recorder.AudioRecorder.OnPress` | src/audio/recorder.py:28-33 | space starts a recording, with the current time and an empty buffer, unless one is running. Anything else changes nothing |
| `Recorder.AudioRecorder.OnRelease` | src/audio/recorder.py:35-40 | releasing space during a recording ends it and stops the listener. Anything else changes nothing |
| `Recorder.AudioRecorder.AudioCallback` | src/audio/recorder.py:78-83 | a block is appended exactly while recording |
| `Recorder.AudioRecorder.RecordPushToTalk` | src/audio/recorder.py:19-76 | returns the assembled audio of exactly the blocks between the first press and the first stop, and leaves the recorder not recording |
| `Recorder.AudioRecorder.WaitForPress` | src/audio/recorder.py:42-48 | the first wait loop stops just after the first press of space, with the start time taken from the last clock reading |
| `Recorder.AudioRecorder.RecordWhileHeld` | src/audio/recorder.py:50-66 | the second wait loop keeps exactly the blocks that arrive before the first stop event |
| `Recorder.AudioRecorder.Cleanup` | src/audio/recorder.py:94-97 | the buffer is emptied and the recording flag cleared |

## Left out

- The keyboard listener thread, the audio input stream, `time.sleep` polling
  and `threading.Event` are not modelled as concurrency. One sequence of
  `Event`s delivers key presses, key releases, audio blocks and clock readings
  in arrival order. This hides a hang in src/audio/recorder.py:46-48. When
  space is pressed and released within one 10 ms sleep, `on_release` clears
  `is_recording` and stops the listener before the wait loop sees the flag set,
  and the loop then waits forever. The model sees the press and goes on: no
  block arrives before the release, so it returns empty audio.
- Recorder.AudioRecorder.RecordPushToTalk: returns `None` when the events run
  out before a stop. The source would keep waiting.
- Recorder.LevelInRange: states the bound for the mean square, not the root
  mean square. Real square roots are not modelled; a value in [0, 1] has its
  square root in [0, 1].
- `float32` conversion and numpy arrays are not modelled: samples are
  unbounded reals and an array is a sequence.
- The `status` print in `_audio_callback` is left out. It changes no state.
- Orchestrator.VoiceOrchestrator.Run: `scripts` bounds the loop, with one
  script per pass. The source loops until exit or interrupt. At the end of
  standard input it never stops: `input()` raises `EOFError`, which the source
  catches in every pass. `Turns.EndOfInputNeverStops` states this for the
  bounded loop.
- Metrics.ReplayIsMean: the averages are computed in exact real arithmetic.
  Python's float running average rounds at each step, so the stored averages
  are only close to the means of the recorded times, not equal to them.
- InputMode.SelectMode: re-prompts by unbounded recursion. The source recurses
  too (src/orchestrator.py:133), and after about 1000 invalid choices in a row
  Python raises `RecursionError`, which `handle_error` counts as an error.
  That limit is not modelled.
- `_init_components` is left out. The components are created in the
  constructor, and the lazy `None` checks of `cleanup` then always pass.
- The `cleanup` of the text-to-speech engine and of the agent is not part of
  this model. Their internals are outside the core.
- The terminal user interface (`show_welcome`, `show_prompt`, spinners and
  panels) is not modelled beyond the messages a turn shows.
- The language-model request and its JSON parsing are not modelled. Their
  outcome is an input.
- Classifier.Normalise: the parsed reply is assumed to have its documented
  field types: a string intent, a string-to-string `params` object, a number,
  a boolean and a string. `json.loads` can return any JSON value. The model
  does not capture these consequences:
  - a `params` that is `null`, a list or a string on a `topic_research` reply
    that needs clarification raises `TypeError` at src/orchestrator.py:170 or
    174, which is outside the `try` of line 179 and escapes
    `classify_and_execute_intent`;
  - a truthy non-boolean `needs_clarification` such as `"false"` enters the
    clarification branch at line 163;
  - a list- or object-valued intent raises `TypeError` at
    src/agent/intent_classifier.py:86, so the reply becomes the fallback with
    confidence 0.0 rather than `help` with confidence 0.5;
  - a key that is present but `null` is kept by `setdefault` at lines 91-94.
- Turns.EscapingFailures: stated only for classifications of the documented
  field types, for the reason in the line above.
- The agent task bodies, speech-to-text and the engine inside
  text-to-speech are not modelled. Their results and exceptions are inputs.
- Clock readings (`time.time`) and `datetime.now` are not modelled. Stage
  times and the date are inputs.
- `str.lower` is modelled for ASCII letters only. Every comparison the code
  makes is against ASCII literals.
- `get_capabilities_description` and the help menu's text are not part of
  this model. Only which help line is shown is modelled.

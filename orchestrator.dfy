/** `VoiceOrchestrator` (src/orchestrator.py): the run loop and the turn
    handlers as methods over the orchestrator's fields, each proved to have
    exactly the effects the functions of `Turns` describe. */
module Orchestrator {
  import opened Outcomes
  import opened PyStr
  import opened Classifier
  import opened Routing
  import opened InputMode
  import opened Turns
  import Metrics
  import Recorder
  import Settings

  /** The logs after `a` and then `b` are the logs after `Then(a, b)`. */
  lemma ThenLogs<A, B>(a: Effects<A>, b: Effects<B>, t0: seq<State>, h0: seq<Metrics.Event>,
                          c0: seq<AgentCall>, n0: seq<Notice>)
    ensures t0 + a.states + b.states == t0 + Then(a, b).states
    ensures h0 + a.events + b.events == h0 + Then(a, b).events
    ensures c0 + a.calls + b.calls == c0 + Then(a, b).calls
    ensures n0 + a.notices + b.notices == n0 + Then(a, b).notices
  {
  }

  class VoiceOrchestrator {
    var state: State
    var shouldExit: bool
    var metrics: Metrics.Metrics
    /** Every change made to `metrics` so far. */
    ghost var history: seq<Metrics.Event>
    /** Every state assigned so far, the initial one first. */
    ghost var trace: seq<State>
    /** What is left of standard input. */
    var stdin: seq<Line>
    /** The agent task calls made so far. */
    var agentCalls: seq<AgentCall>
    /** What the terminal has shown so far. */
    var shown: seq<Notice>
    const recorder: Recorder.AudioRecorder
    var cleanedUp: bool

    ghost predicate Valid()
      reads this`metrics, this`history, this`trace, this`state
    {
      && metrics == Metrics.Replay(history)
      && |trace| > 0 && trace[|trace| - 1] == state
    }

    /** Between the two states of a call, the orchestrator did exactly what `e` describes. */
    twostate predicate Performed<E>(e: Effects<E>)
      reads this`trace, this`history, this`agentCalls, this`shown, this`stdin
    {
      && trace == old(trace) + e.states
      && history == old(history) + e.events
      && agentCalls == old(agentCalls) + e.calls
      && shown == old(shown) + e.notices
      && stdin == e.rest
    }

    /** `__init__`, with the components of `_init_components` created at once;
        `input` is standard input. */
    constructor (input: seq<Line>)
      ensures Valid()
      ensures state == Idle && trace == [Idle] && !shouldExit && !cleanedUp
      ensures metrics == Metrics.Initial && history == []
      ensures stdin == input && agentCalls == [] && shown == []
      ensures recorder.Valid() && recorder.channels == Settings.CHANNELS
      ensures recorder.sampleRate == Settings.SAMPLE_RATE
    {
      state := Idle;
      shouldExit := false;
      metrics := Metrics.Initial;
      history := [];
      trace := [Idle];
      stdin := input;
      agentCalls := [];
      shown := [];
      recorder := new Recorder.AudioRecorder.Init(Settings.SAMPLE_RATE, Settings.CHANNELS);
      cleanedUp := false;
    }

    /** `self.state = s`. */
    method SetState(s: State)
      requires Valid()
      modifies this`state, this`trace
      ensures Valid() && state == s && trace == old(trace) + [s]
    {
      state := s;
      trace := trace + [s];
    }

    /** A line shown on the terminal. */
    method Show(n: Notice)
      modifies this`shown
      ensures shown == old(shown) + [n]
    {
      shown := shown + [n];
    }

    /** `input()`. */
    method Input() returns (r: Outcome<string>)
      modifies this`stdin
      ensures (r, stdin) == PyInput(old(stdin))
    {
      if stdin == [] {
        r := Fail(EOFError);
      } else {
        match stdin[0] {
          case CtrlC => r := Fail(KeyboardInterrupt);
          case Typed(text) => r := Ok(text);
        }
        stdin := stdin[1..];
      }
    }

    /** `_update_metrics(stt_time, agent_time, tts_time, total_time)`. */
    method UpdateMetrics(times: Metrics.StageTimes)
      requires Valid()
      modifies this`metrics, this`history
      ensures Valid()
      ensures metrics == Metrics.Record(old(metrics), times)
      ensures history == old(history) + [Metrics.Turn(times)]
    {
      var n := metrics.totalTurns;
      metrics := metrics.(
        totalTurns := n + 1,
        avgSttTime := Metrics.RunningAverage(metrics.avgSttTime, n, times.stt),
        avgAgentTime := Metrics.RunningAverage(metrics.avgAgentTime, n, times.agent),
        avgTtsTime := Metrics.RunningAverage(metrics.avgTtsTime, n, times.tts),
        avgTotalTime := Metrics.RunningAverage(metrics.avgTotalTime, n, times.total));
      history := history + [Metrics.Turn(times)];
      assert history[..|history| - 1] == old(history);
      assert Metrics.Replay(history) == Metrics.Record(Metrics.Replay(old(history)), times);
    }

    /** `handle_error(error)` for an exception whose `str` is `message`. */
    method HandleError(message: string)
      requires Valid()
      modifies this`metrics, this`history, this`shown, this`state, this`trace
      ensures Valid() && state == Idle
      ensures metrics == Metrics.CountError(old(metrics))
      ensures history == old(history) + [Metrics.ErrorCounted]
      ensures shown == old(shown) + [ErrorShown(message)]
      ensures trace == old(trace) + [Idle]
    {
      metrics := metrics.(errors := metrics.errors + 1);
      history := history + [Metrics.ErrorCounted];
      assert history[..|history| - 1] == old(history);
      Show(ErrorShown(message));
      SetState(Idle);
    }

    /** `wait_for_user_input()`, re-prompting by recursion after an invalid choice. */
    method WaitForUserInput(s: TurnScript) returns (r: Outcome<UserInput>)
      modifies this`stdin
      ensures (r, stdin) == SelectMode(old(stdin), s.recording)
      decreases |stdin|
    {
      var line := Input();
      if line.Fail? {
        return Fail(line.failure);
      }
      var choice := Lower(Strip(line.value));
      if choice == "v" {
        match s.recording {
          case Ok(audio) => r := Ok(VoiceInput(audio));
          case Fail(f) => r := Fail(f);
        }
      } else if choice == "t" {
        var typed := Input();
        if typed.Fail? {
          return Fail(typed.failure);
        }
        var text := Strip(typed.value);
        if text == "/exit" {
          return Ok(ExitInput);
        }
        r := Ok(TextInput(text));
      } else if choice == "e" || choice == "/exit" {
        r := Ok(ExitInput);
      } else {
        r := WaitForUserInput(s);
      }
    }

    /** `classify_and_execute_intent(user_text)`; a `Fail` result is an exception it raises. */
    method ClassifyAndExecuteIntent(userText: string, s: TurnScript) returns (r: Outcome<Reply>)
      modifies this`shown, this`stdin, this`agentCalls
      ensures Performed(IntentEffect(userText, s, old(stdin)))
      ensures r == IntentEffect(userText, s, old(stdin)).end
    {
      var classification := Classify(s.classification);
      if classification.Fail? {
        return Fail(classification.failure);
      }
      var c := classification.value;
      var intent := c.intent.value;
      var params := c.params.value;
      if intent == "help" {
        if Lower(userText) in HELP_WORDS {
          Show(HelpMenu);
        } else {
          Show(CannotHelp);
        }
        return Ok(NoReply);
      }
      if c.needsClarification.value {
        var clarification := c.clarificationQuestion.value;
        if clarification != "" {
          Show(Question(clarification));
          return Ok(NoReply);
        }
        if intent == "topic_research" && "topic" !in params {
          Show(TopicPrompt);
          var answer := Input();
          if answer.Fail? {
            return Fail(answer.failure);
          }
          var topic := Strip(answer.value);
          if topic == "" {
            return Ok(NoReply);
          }
          params := params["topic" := topic];
        }
      }
      agentCalls := agentCalls + [Task(intent, params, userText, s.date)];
      match s.agentReply {
        case Ok(text) => r := Ok(Reply(text, s.agentTime));
        case Fail(Exception(m)) =>
          Show(ErrorShown("Error executing task: " + m));
          r := Ok(NoReply);
        case Fail(KeyboardInterrupt) => r := Fail(KeyboardInterrupt);
      }
    }

    /** `handle_text_turn(user_text)`; `Raised(f)` is the exception it re-raises. */
    method HandleTextTurn(userText: string, s: TurnScript) returns (end: TurnEnd)
      requires Valid()
      modifies this`shown, this`stdin, this`agentCalls, this`state, this`trace, this`metrics, this`history
      ensures Valid()
      ensures Performed(TextTurn(userText, s, old(stdin)))
      ensures end == TextTurn(userText, s, old(stdin)).end
    {
      if IsBlank(userText) {
        Show(ErrorShown("Empty input. Please try again."));
        return EmptyInput;
      }
      SetState(Thinking);
      var reply := ClassifyAndExecuteIntent(userText, s);
      ghost var ie := IntentEffect(userText, s, old(stdin));
      assert trace == old(trace) + [Thinking] && history == old(history);
      assert agentCalls == old(agentCalls) + ie.calls && shown == old(shown) + ie.notices && stdin == ie.rest;
      if reply.Fail? {
        assert TextTurn(userText, s, old(stdin)) ==
               Effects(Raised(reply.failure), [Thinking] + ErrorState(reply.failure), [], ie.calls, ie.notices, ie.rest);
        if reply.failure.Exception? {
          SetState(Error);
        }
        return Raised(reply.failure);
      }
      var times := Metrics.StageTimes(0.0, reply.value.agentTime, 0.0, s.totalTime);
      assert TextTurn(userText, s, old(stdin)) ==
             Effects(Completed, [Thinking], [Metrics.Turn(times)], ie.calls,
                     ie.notices + if reply.value.text != "" then [Response(reply.value.text)] else [], ie.rest);
      if reply.value.text != "" {
        Show(Response(reply.value.text));
      }
      UpdateMetrics(times);
      end := Completed;
    }

    /** `handle_voice_turn(audio_data)`; `Raised(f)` is the exception it re-raises. */
    method HandleVoiceTurn(audioData: Option<seq<real>>, s: TurnScript) returns (end: TurnEnd)
      requires Valid()
      modifies this`shown, this`stdin, this`agentCalls, this`state, this`trace, this`metrics, this`history
      ensures Valid()
      ensures Performed(VoiceTurn(audioData, s, old(stdin)))
      ensures end == VoiceTurn(audioData, s, old(stdin)).end
    {
      if audioData.Some? {
        end := ProcessAudio(audioData.value, s);
        return;
      }
      SetState(Recording);
      match s.recording {
        case Fail(f) =>
          if f.Exception? {
            SetState(Error);
          }
          end := Raised(f);
        case Ok(audio) =>
          ghost var t0, h0, c0, n0 := old(trace), old(history), old(agentCalls), old(shown);
          ghost var a := Step([Recording], [], old(stdin));
          assert trace == t0 + a.states && history == h0 + a.events && agentCalls == c0 + a.calls && shown == n0 + a.notices;
          end := ProcessAudio(audio, s);
          ghost var w := VoiceTurnWith(audio, s, old(stdin));
          ThenLogs(a, w, t0, h0, c0, n0);
          assert VoiceTurn(audioData, s, old(stdin)) == Then(a, w);
      }
    }

    /** `handle_voice_turn` from the length check of the audio on. */
    method ProcessAudio(audio: seq<real>, s: TurnScript) returns (end: TurnEnd)
      requires Valid()
      modifies this`shown, this`stdin, this`agentCalls, this`state, this`trace, this`metrics, this`history
      ensures Valid()
      ensures Performed(VoiceTurnWith(audio, s, old(stdin)))
      ensures end == VoiceTurnWith(audio, s, old(stdin)).end
    {
      if |audio| == 0 {
        Show(ErrorShown("No audio recorded. Please try again."));
        return NoAudio;
      }
      SetState(Processing);
      if s.transcript.Fail? {
        if s.transcript.failure.Exception? {
          SetState(Error);
        }
        return Raised(s.transcript.failure);
      }
      var transcribed := s.transcript.value;
      if IsBlank(transcribed) {
        Show(ErrorShown("Could not understand speech. Please try again."));
        return NotUnderstood;
      }
      Show(Transcription(transcribed));
      ghost var t0, h0, c0, n0 := old(trace), old(history), old(agentCalls), old(shown);
      ghost var first := Step([Processing], [Transcription(transcribed)], old(stdin));
      assert trace == t0 + first.states && history == h0 + first.events;
      assert agentCalls == c0 + first.calls && shown == n0 + first.notices;
      end := Respond(transcribed, s);
      ghost var rest := SpokenReply(transcribed, s, old(stdin));
      ThenLogs(first, rest, t0, h0, c0, n0);
      assert VoiceTurnWith(audio, s, old(stdin)) == Then(first, rest);
    }

    /** `handle_voice_turn` from `THINKING` on, for the transcript `text`. */
    method Respond(text: string, s: TurnScript) returns (end: TurnEnd)
      requires Valid()
      modifies this`shown, this`stdin, this`agentCalls, this`state, this`trace, this`metrics, this`history
      ensures Valid()
      ensures Performed(SpokenReply(text, s, old(stdin)))
      ensures end == SpokenReply(text, s, old(stdin)).end
    {
      ghost var t0, h0, c0, n0 := old(trace), old(history), old(agentCalls), old(shown);
      SetState(Thinking);
      var reply := ClassifyAndExecuteIntent(text, s);
      ghost var ie := IntentEffect(text, s, old(stdin));
      if reply.Fail? {
        if reply.failure.Exception? {
          SetState(Error);
        }
        return Raised(reply.failure);
      }
      ghost var first := Effects((), [Thinking], [], ie.calls, ie.notices, ie.rest);
      assert trace == t0 + first.states && history == h0 + first.events;
      assert agentCalls == c0 + first.calls && shown == n0 + first.notices;
      end := Deliver(reply.value, s);
      ghost var rest := Turns.Deliver(reply.value, s, ie.rest);
      ThenLogs(first, rest, t0, h0, c0, n0);
      assert SpokenReply(text, s, old(stdin)) == Then(first, rest);
    }

    /** `handle_voice_turn` once `classify_and_execute_intent` has returned `reply`. */
    method Deliver(reply: Reply, s: TurnScript) returns (end: TurnEnd)
      requires Valid()
      modifies this`shown, this`state, this`trace, this`metrics, this`history
      ensures Valid()
      ensures Performed(Turns.Deliver(reply, s, old(stdin)))
      ensures end == Turns.Deliver(reply, s, old(stdin)).end
    {
      var ttsTime: real;
      if reply.text != "" {
        Show(Response(reply.text));
        SetState(Speaking);
        Show(SpeechRequest(reply.text));
        var spoken := TtsSpeak(reply.text, s.speech);
        if spoken.Fail? {
          if spoken.failure.Exception? {
            SetState(Error);
          }
          return Raised(spoken.failure);
        }
        ttsTime := s.ttsTime;
      } else {
        ttsTime := 0.0;
      }
      UpdateMetrics(Metrics.StageTimes(s.sttTime, reply.agentTime, ttsTime, s.totalTime));
      end := Completed;
    }

    /** The `except` clauses of the loop body for a turn that ended with `turn`. */
    method Recover(turn: TurnEnd) returns (end: IterationEnd)
      requires Valid()
      modifies this`metrics, this`history, this`shown, this`state, this`trace
      ensures Valid()
      ensures Performed(Handler(turn, old(stdin)))
      ensures end == Handler(turn, old(stdin)).end
    {
      match turn {
        case Raised(KeyboardInterrupt) => end := Interrupted;
        case Raised(Exception(m)) =>
          HandleError(m);
          end := ErrorHandled(m);
        case _ => end := TurnOver;
      }
    }

    /** The body of the loop's `try` after `wait_for_user_input`, for its outcome `choice`. */
    method Dispatch(choice: Outcome<UserInput>, s: TurnScript) returns (end: IterationEnd)
      requires Valid()
      modifies this`shown, this`stdin, this`agentCalls, this`state, this`trace, this`metrics, this`history
      ensures Valid()
      ensures Performed(Turns.Dispatch(choice, s, old(stdin)))
      ensures end == Turns.Dispatch(choice, s, old(stdin)).end
    {
      match choice {
        case Fail(KeyboardInterrupt) => end := Interrupted;
        case Fail(Exception(m)) =>
          HandleError(m);
          end := ErrorHandled(m);
        case Ok(ExitInput) => end := ExitMode;
        case Ok(TextInput(text)) =>
          ghost var t0, h0, c0, n0 := old(trace), old(history), old(agentCalls), old(shown);
          var turn := HandleTextTurn(text, s);
          ghost var e := TextTurn(text, s, old(stdin));
          end := Recover(turn);
          ThenLogs(e, Handler(turn, e.rest), t0, h0, c0, n0);
          assert Turns.Dispatch(choice, s, old(stdin)) == Then(e, Handler(turn, e.rest));
        case Ok(VoiceInput(audio)) =>
          ghost var t0, h0, c0, n0 := old(trace), old(history), old(agentCalls), old(shown);
          var turn := HandleVoiceTurn(Some(audio), s);
          ghost var e := VoiceTurn(Some(audio), s, old(stdin));
          end := Recover(turn);
          ThenLogs(e, Handler(turn, e.rest), t0, h0, c0, n0);
          assert Turns.Dispatch(choice, s, old(stdin)) == Then(e, Handler(turn, e.rest));
      }
    }

    /** One pass of the `while not self.should_exit` loop of `run`, up to the
        assignment of `should_exit`. */
    method RunOnce(s: TurnScript) returns (end: IterationEnd)
      requires Valid()
      modifies this`shown, this`stdin, this`agentCalls, this`state, this`trace, this`metrics, this`history
      ensures Valid()
      ensures Performed(Iteration(s, old(stdin)))
      ensures end == Iteration(s, old(stdin)).end
    {
      ghost var t0, h0, c0, n0 := old(trace), old(history), old(agentCalls), old(shown);
      SetState(Idle);
      var choice := WaitForUserInput(s);
      ghost var first := Step([Idle], [], old(stdin));
      assert trace == t0 + first.states && history == h0 + first.events;
      assert agentCalls == c0 + first.calls && shown == n0 + first.notices;
      ghost var rest := stdin;
      end := Dispatch(choice, s);
      ghost var d := Turns.Dispatch(choice, s, rest);
      ThenLogs(first, d, t0, h0, c0, n0);
      assert Iteration(s, old(stdin)) == Then(first, d);
    }

    /** `run()`, with `scripts[i]` the collaborators' results in the i-th pass
        of its loop; `cleanup` runs however the loop ends. */
    method Run(scripts: seq<TurnScript>) returns (end: RunEnd)
      requires Valid() && !shouldExit
      modifies this`shown, this`stdin, this`agentCalls, this`state, this`trace, this`metrics, this`history
      modifies this`shouldExit, this`cleanedUp, recorder
      ensures Valid()
      ensures Performed(RunFrom(scripts, old(stdin)))
      ensures end == RunFrom(scripts, old(stdin)).end
      ensures shouldExit <==> end == ByExit
      ensures cleanedUp && recorder.audioData == [] && !recorder.isRecording
    {
      ghost var passes;
      end, passes := Loop(scripts);
      RunLoopChain(Iteration, scripts, old(stdin), passes);
      ghost var c := Compose(passes, old(stdin));
      ghost var tail := Effects(LoopEnd(passes), [], [], [], [], RestAfter(passes, old(stdin)));
      assert Then(c, tail).states == c.states && Then(c, tail).events == c.events;
      assert Then(c, tail).calls == c.calls && Then(c, tail).notices == c.notices;
      Cleanup();
    }

    /** The logs are `t0`, `h0`, `c0`, `n0` followed by what `e` did, and
        standard input is what `e` left of it. */
    ghost predicate Logged<E>(t0: seq<State>, h0: seq<Metrics.Event>, c0: seq<AgentCall>, n0: seq<Notice>, e: Effects<E>)
      reads this`trace, this`history, this`agentCalls, this`shown, this`stdin
    {
      && trace == t0 + e.states
      && history == h0 + e.events
      && agentCalls == c0 + e.calls
      && shown == n0 + e.notices
      && stdin == e.rest
    }

    /** `passes` are the first passes of the loop over `scripts`, begun on
        `input` with the logs `t0`, `h0`, `c0`, `n0`, and the orchestrator
        has done what they did. */
    ghost predicate Progress(scripts: seq<TurnScript>, input: seq<Line>, t0: seq<State>, h0: seq<Metrics.Event>,
                             c0: seq<AgentCall>, n0: seq<Notice>, passes: seq<Effects<IterationEnd>>)
      reads this`metrics, this`history, this`trace, this`state, this`agentCalls, this`shown, this`stdin
    {
      Valid() && Chain(Iteration, scripts, input, passes) && Logged(t0, h0, c0, n0, Compose(passes, input))
    }

    /** The `while not self.should_exit` loop of `run`; `passes` are the
        effects of its passes, in order. */
    method Loop(scripts: seq<TurnScript>) returns (end: RunEnd, ghost passes: seq<Effects<IterationEnd>>)
      requires Valid() && !shouldExit
      modifies this`shown, this`stdin, this`agentCalls, this`state, this`trace, this`metrics, this`history
      modifies this`shouldExit
      ensures Valid()
      ensures Chain(Iteration, scripts, old(stdin), passes)
      ensures end == LoopEnd(passes) && (end == ScriptsExhausted ==> |passes| == |scripts|)
      ensures Performed(Compose(passes, old(stdin)))
      ensures shouldExit <==> end == ByExit
    {
      passes := [];
      var i := 0;
      end := ScriptsExhausted;
      while !shouldExit && i < |scripts|
        invariant i == |passes| <= |scripts|
        invariant Progress(scripts, old(stdin), old(trace), old(history), old(agentCalls), old(shown), passes)
        invariant end == ScriptsExhausted && !shouldExit
        invariant passes == [] || !Stops(passes[|passes| - 1])
        decreases |scripts| - i
      {
        var pass, it := NextPass(scripts, i, old(stdin), old(trace), old(history), old(agentCalls), old(shown), passes);
        passes := passes + [it];
        assert passes[|passes| - 1] == it;
        if pass == ExitMode {
          shouldExit := true;
          end := ByExit;
          break;
        } else if pass == Interrupted {
          end := ByInterrupt;
          break;
        }
        i := i + 1;
      }
      assert end == ScriptsExhausted ==> i == |scripts|;
    }

    /** One pass of the loop of `run` on `scripts[i]`, after the `i` passes
        so far. */
    method NextPass(scripts: seq<TurnScript>, i: nat, ghost input: seq<Line>, ghost t0: seq<State>,
                    ghost h0: seq<Metrics.Event>, ghost c0: seq<AgentCall>, ghost n0: seq<Notice>,
                    ghost passes: seq<Effects<IterationEnd>>)
      returns (end: IterationEnd, ghost it: Effects<IterationEnd>)
      requires Progress(scripts, input, t0, h0, c0, n0, passes) && i == |passes| < |scripts|
      requires passes == [] || !Stops(passes[|passes| - 1])
      modifies this`shown, this`stdin, this`agentCalls, this`state, this`trace, this`metrics, this`history
      ensures Progress(scripts, input, t0, h0, c0, n0, passes + [it]) && end == it.end
    {
      ghost var done := Compose(passes, input);
      end := RunOnce(scripts[i]);
      it := Iteration(scripts[i], old(stdin));
      ChainExtend(Iteration, scripts, input, passes, it);
      ghost var step: Effects<()> := Effects((), it.states, it.events, it.calls, it.notices, it.rest);
      ThenLogs(done, step, t0, h0, c0, n0);
    }

    /** `cleanup()`. */
    method Cleanup()
      modifies this`cleanedUp, recorder
      ensures cleanedUp && recorder.audioData == [] && !recorder.isRecording
      ensures recorder.startTime == old(recorder.startTime)
      ensures recorder.channels >= 1 ==> recorder.Valid()
    {
      recorder.Cleanup();
      cleanedUp := true;
    }
  }
}

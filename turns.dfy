/** What one turn of `VoiceOrchestrator` (src/orchestrator.py) does, stated as
    functions of the collaborators' results: the states it assigns, the metrics
    changes, the agent calls, what it shows and how much standard input it reads. */
module Turns {
  import opened Outcomes
  import opened PyStr
  import opened Classifier
  import opened Routing
  import opened InputMode
  import Metrics

  /** The `State` enum. */
  datatype State = Idle | Recording | Processing | Thinking | Speaking | Error | Exit

  /** What the terminal shows a user, as far as the turns decide it. */
  datatype Notice =
    | ErrorShown(message: string)  // `ui.show_error`
    | HelpMenu                     // "Here's what I can help you with"
    | CannotHelp                   // "I can't help you with that currently"
    | Question(text: string)       // the classifier's clarification question
    | TopicPrompt                  // `ui.ask_for_parameter('topic')` asks
    | Transcription(text: string)  // `ui.show_transcription`
    | Response(text: string)       // `ui.show_response`
    | SpeechRequest(text: string)  // `tts.speak` is called with the text

  /** What the collaborators give during one pass of the run loop. */
  datatype TurnScript = TurnScript(
    recording: Outcome<seq<real>>,       // `recorder.record_push_to_talk()`
    transcript: Outcome<string>,         // `stt.transcribe(audio)`
    classification: Outcome<RawResult>,  // the parsed model reply inside `classify`
    agentReply: Outcome<string>,         // the agent task method
    speech: Outcome<()>,                 // `tts.speak` once past its guard
    date: string,                        // `datetime.now().strftime("%m/%d/%Y")`
    sttTime: real,
    agentTime: real,
    ttsTime: real,
    totalTime: real)

  /** The `(response_text, agent_time)` pair of `classify_and_execute_intent`. */
  datatype Reply = Reply(text: string, agentTime: real)

  const NoReply: Reply := Reply("", 0.0)

  /** The effects of a step: its result `end`, the states it assigns in order,
      its metrics changes, its agent calls, what it shows, and the unread input. */
  datatype Effects<E> = Effects(
    end: E,
    states: seq<State>,
    events: seq<Metrics.Event>,
    calls: seq<AgentCall>,
    notices: seq<Notice>,
    rest: seq<Line>)

  /** The dispatch of lines 177-203 with the parameters `params`. */
  function Execute(intent: string, params: map<string, string>, userText: string, s: TurnScript,
                   shown: seq<Notice>, rest: seq<Line>): Effects<Outcome<Reply>>
  {
    var call := Task(intent, params, userText, s.date);
    match s.agentReply
    case Ok(text) => Effects(Ok(Reply(text, s.agentTime)), [], [], [call], shown, rest)
    case Fail(Exception(m)) =>
      Effects(Ok(NoReply), [], [], [call], shown + [ErrorShown("Error executing task: " + m)], rest)
    case Fail(KeyboardInterrupt) => Effects(Fail(KeyboardInterrupt), [], [], [call], shown, rest)
  }

  /** `classify_and_execute_intent(user_text)` reading standard input `input`
      for a missing topic. A failure is an exception it lets through. */
  function IntentEffect(userText: string, s: TurnScript, input: seq<Line>): Effects<Outcome<Reply>>
  {
    match Classify(s.classification)
    case Fail(f) => Effects(Fail(f), [], [], [], [], input)
    case Ok(c) =>
      match Decide(c, userText)
      case ShowCapabilities(explicit) =>
        Effects(Ok(NoReply), [], [], [], [if explicit then HelpMenu else CannotHelp], input)
      case AskClarification(q) => Effects(Ok(NoReply), [], [], [], [Question(q)], input)
      case AskTopic =>
        var (answer, rest) := PyInput(input);
        (match answer
         case Fail(f) => Effects(Fail(f), [], [], [], [TopicPrompt], rest)
         case Ok(typed) =>
           var topic := Strip(typed);
           if topic == "" then Effects(Ok(NoReply), [], [], [], [TopicPrompt], rest)
           else Execute(c.intent.value, c.params.value["topic" := topic], userText, s, [TopicPrompt], rest))
      case Proceed => Execute(c.intent.value, c.params.value, userText, s, [], input)
  }

  /** How a turn handler ends: normally, at one of its three early returns, or
      by raising `f` (re-raised to the run loop). */
  datatype TurnEnd = Completed | EmptyInput | NoAudio | NotUnderstood | Raised(failure: Failure)

  /** `except Exception: self.state = State.ERROR; raise` — a `KeyboardInterrupt`
      passes without the assignment. */
  function ErrorState(f: Failure): seq<State>
  {
    if f.Exception? then [Error] else []
  }

  /** `tts.speak(text)`: blank text returns before the engine is used. */
  function TtsSpeak(text: string, speech: Outcome<()>): Outcome<()>
  {
    if IsBlank(text) then Ok(()) else speech
  }

  /** `handle_text_turn(user_text)`. */
  function TextTurn(userText: string, s: TurnScript, input: seq<Line>): Effects<TurnEnd>
  {
    if IsBlank(userText) then
      Effects(EmptyInput, [], [], [], [ErrorShown("Empty input. Please try again.")], input)
    else
      var ie := IntentEffect(userText, s, input);
      match ie.end
      case Fail(f) => Effects(Raised(f), [Thinking] + ErrorState(f), [], ie.calls, ie.notices, ie.rest)
      case Ok(reply) =>
        Effects(Completed, [Thinking],
                [Metrics.Turn(Metrics.StageTimes(0.0, reply.agentTime, 0.0, s.totalTime))],
                ie.calls,
                ie.notices + if reply.text != "" then [Response(reply.text)] else [],
                ie.rest)
  }

  /** `a` followed by `b`, which starts where `a` left standard input. */
  function Then<A, B>(a: Effects<A>, b: Effects<B>): Effects<B>
  {
    Effects(b.end, a.states + b.states, a.events + b.events, a.calls + b.calls, a.notices + b.notices, b.rest)
  }

  /** Sequencing effects is associative. */
  lemma ThenAssoc<A, B, C>(a: Effects<A>, b: Effects<B>, c: Effects<C>)
    ensures Then(Then(a, b), c) == Then(a, Then(b, c))
  {
    assert (a.states + b.states) + c.states == a.states + (b.states + c.states);
    assert (a.events + b.events) + c.events == a.events + (b.events + c.events);
    assert (a.calls + b.calls) + c.calls == a.calls + (b.calls + c.calls);
    assert (a.notices + b.notices) + c.notices == a.notices + (b.notices + c.notices);
  }

  /** A step that only assigns `states` and shows `notices`. */
  function Step(states: seq<State>, notices: seq<Notice>, input: seq<Line>): Effects<()>
  {
    Effects((), states, [], [], notices, input)
  }

  /** The end of `handle_voice_turn` once `classify_and_execute_intent` has
      returned `reply`: the response is shown and spoken only when non-empty. */
  function Deliver(reply: Reply, s: TurnScript, input: seq<Line>): Effects<TurnEnd>
  {
    if reply.text != "" then
      var shown := [Response(reply.text), SpeechRequest(reply.text)];
      match TtsSpeak(reply.text, s.speech)
      case Fail(f) => Effects(Raised(f), [Speaking] + ErrorState(f), [], [], shown, input)
      case Ok(_) =>
        Effects(Completed, [Speaking],
                [Metrics.Turn(Metrics.StageTimes(s.sttTime, reply.agentTime, s.ttsTime, s.totalTime))],
                [], shown, input)
    else
      Effects(Completed, [],
              [Metrics.Turn(Metrics.StageTimes(s.sttTime, reply.agentTime, 0.0, s.totalTime))],
              [], [], input)
  }

  /** The end of `handle_voice_turn` from `THINKING` on, for the transcript `text`. */
  function SpokenReply(text: string, s: TurnScript, input: seq<Line>): Effects<TurnEnd>
  {
    var ie := IntentEffect(text, s, input);
    match ie.end
    case Fail(f) => Effects(Raised(f), [Thinking] + ErrorState(f), [], ie.calls, ie.notices, ie.rest)
    case Ok(reply) => Then(Effects((), [Thinking], [], ie.calls, ie.notices, ie.rest), Deliver(reply, s, ie.rest))
  }

  /** `handle_voice_turn` once the audio is known. */
  function VoiceTurnWith(audio: seq<real>, s: TurnScript, input: seq<Line>): Effects<TurnEnd>
  {
    if |audio| == 0 then
      Effects(NoAudio, [], [], [], [ErrorShown("No audio recorded. Please try again.")], input)
    else match s.transcript
      case Fail(f) => Effects(Raised(f), [Processing] + ErrorState(f), [], [], [], input)
      case Ok(text) =>
        if IsBlank(text) then
          Effects(NotUnderstood, [Processing], [], [],
                  [ErrorShown("Could not understand speech. Please try again.")], input)
        else
          Then(Step([Processing], [Transcription(text)], input), SpokenReply(text, s, input))
  }

  /** `handle_voice_turn(audio_data)`: with no audio given it records first, in `RECORDING`. */
  function VoiceTurn(audioData: Option<seq<real>>, s: TurnScript, input: seq<Line>): Effects<TurnEnd>
  {
    match audioData
    case Some(audio) => VoiceTurnWith(audio, s, input)
    case None =>
      match s.recording
      case Fail(f) => Effects(Raised(f), [Recording] + ErrorState(f), [], [], [], input)
      case Ok(audio) => Then(Step([Recording], [], input), VoiceTurnWith(audio, s, input))
  }

  /** How one pass of the run loop ends. */
  datatype IterationEnd =
    | ExitMode                        // `mode == 'exit'`: `should_exit` is set and the loop breaks
    | Interrupted                     // `except KeyboardInterrupt: break`
    | TurnOver                        // the turn returned
    | ErrorHandled(message: string)   // `except Exception as e: self.handle_error(e)`

  /** The `except` clauses of the loop body for a turn that ended with `end`. */
  function Handler(end: TurnEnd, input: seq<Line>): Effects<IterationEnd>
  {
    match end
    case Raised(KeyboardInterrupt) => Effects(Interrupted, [], [], [], [], input)
    case Raised(Exception(m)) => Effects(ErrorHandled(m), [Idle], [Metrics.ErrorCounted], [], [ErrorShown(m)], input)
    case _ => Effects(TurnOver, [], [], [], [], input)
  }

  /** A turn `e` followed by the loop's handling of its end. */
  function AfterTurn(e: Effects<TurnEnd>): Effects<IterationEnd>
  {
    Then(e, Handler(e.end, e.rest))
  }

  /** The `if mode == ...` chain of the loop body and its two handlers, for the
      outcome `choice` of `wait_for_user_input`. */
  function Dispatch(choice: Outcome<UserInput>, s: TurnScript, rest: seq<Line>): Effects<IterationEnd>
  {
    match choice
    case Fail(KeyboardInterrupt) => Effects(Interrupted, [], [], [], [], rest)
    case Fail(Exception(m)) => Handler(Raised(Exception(m)), rest)
    case Ok(ExitInput) => Effects(ExitMode, [], [], [], [], rest)
    case Ok(TextInput(text)) => AfterTurn(TextTurn(text, s, rest))
    case Ok(VoiceInput(audio)) => AfterTurn(VoiceTurn(Some(audio), s, rest))
  }

  /** One pass of the `while not self.should_exit` loop of `run`: `IDLE`, then
      `wait_for_user_input` and what its outcome leads to. */
  function Iteration(s: TurnScript, input: seq<Line>): Effects<IterationEnd>
  {
    var (choice, rest) := SelectMode(input, s.recording);
    Then(Step([Idle], [], input), Dispatch(choice, s, rest))
  }

  /** Why `run` left its loop. */
  datatype RunEnd = ByExit | ByInterrupt | ScriptsExhausted

  /** What one pass of the loop does, from the collaborators' results and standard input. */
  type PassFn = (TurnScript, seq<Line>) -> Effects<IterationEnd>

  /** A loop making one pass per script with `pass` until a pass exits or is interrupted. */
  function RunLoop(pass: PassFn, scripts: seq<TurnScript>, input: seq<Line>): Effects<RunEnd>
    decreases |scripts|
  {
    if scripts == [] then Effects(ScriptsExhausted, [], [], [], [], input)
    else
      var it := pass(scripts[0], input);
      match it.end
      case ExitMode => Then(it, Effects(ByExit, [], [], [], [], it.rest))
      case Interrupted => Then(it, Effects(ByInterrupt, [], [], [], [], it.rest))
      case _ => Then(it, RunLoop(pass, scripts[1..], it.rest))
  }

  /** `run` from the loop onwards, one script per pass. */
  function RunFrom(scripts: seq<TurnScript>, input: seq<Line>): Effects<RunEnd>
  {
    RunLoop(Iteration, scripts, input)
  }

  /** One pass of the loop over `scripts[i..]`: the pass's effects, then the
      end of the loop or the passes over `scripts[i + 1..]`. */
  lemma RunLoopStep(pass: PassFn, scripts: seq<TurnScript>, i: nat, input: seq<Line>)
    requires i < |scripts|
    ensures var it := pass(scripts[i], input);
      var step := Effects((), it.states, it.events, it.calls, it.notices, it.rest);
      RunLoop(pass, scripts[i..], input) ==
        match it.end
        case ExitMode => Then(step, Effects(ByExit, [], [], [], [], it.rest))
        case Interrupted => Then(step, Effects(ByInterrupt, [], [], [], [], it.rest))
        case _ => Then(step, RunLoop(pass, scripts[i + 1..], it.rest))
  {
    assert scripts[i..][0] == scripts[i] && scripts[i..][1..] == scripts[i + 1..];
  }

  /** A pass after which the loop is left. */
  predicate Stops(it: Effects<IterationEnd>)
  {
    it.end == ExitMode || it.end == Interrupted
  }

  /** The standard input left after `passes`, which started on `input`. */
  function RestAfter(passes: seq<Effects<IterationEnd>>, input: seq<Line>): seq<Line>
  {
    if passes == [] then input else passes[|passes| - 1].rest
  }

  /** The `k`-th pass is the pass of `scripts[k]` over what the earlier passes left of the input. */
  predicate PassAt(pass: PassFn, scripts: seq<TurnScript>, input: seq<Line>, passes: seq<Effects<IterationEnd>>, k: nat)
  {
    k < |passes| && k < |scripts| &&
    passes[k] == pass(scripts[k], if k == 0 then input else passes[k - 1].rest)
  }

  /** `passes` are the first passes of the loop over `scripts`, and only the last may have stopped it. */
  predicate Chain(pass: PassFn, scripts: seq<TurnScript>, input: seq<Line>, passes: seq<Effects<IterationEnd>>)
  {
    && |passes| <= |scripts|
    && (forall k :: 0 <= k < |passes| ==> PassAt(pass, scripts, input, passes, k))
    && (forall k :: 0 <= k < |passes| - 1 ==> !Stops(passes[k]))
  }

  /** The effects of `passes`, one after the other. */
  function Compose(passes: seq<Effects<IterationEnd>>, input: seq<Line>): (r: Effects<()>)
    ensures r.rest == RestAfter(passes, input)
  {
    if passes == [] then Effects((), [], [], [], [], input)
    else
      var it := passes[|passes| - 1];
      Then(Compose(passes[..|passes| - 1], input), Effects((), it.states, it.events, it.calls, it.notices, it.rest))
  }

  /** How the loop ends after `passes`: on the last pass's exit or interrupt, or with the scripts used up. */
  function LoopEnd(passes: seq<Effects<IterationEnd>>): RunEnd
  {
    if passes == [] then ScriptsExhausted
    else match passes[|passes| - 1].end
      case ExitMode => ByExit
      case Interrupted => ByInterrupt
      case _ => ScriptsExhausted
  }

  /** A pass over what the chain left of the input extends the chain. */
  lemma ChainExtend(pass: PassFn, scripts: seq<TurnScript>, input: seq<Line>, passes: seq<Effects<IterationEnd>>,
                    it: Effects<IterationEnd>)
    requires Chain(pass, scripts, input, passes) && |passes| < |scripts|
    requires passes == [] || !Stops(passes[|passes| - 1])
    requires it == pass(scripts[|passes|], RestAfter(passes, input))
    ensures Chain(pass, scripts, input, passes + [it])
    ensures Compose(passes + [it], input) ==
              Then(Compose(passes, input), Effects((), it.states, it.events, it.calls, it.notices, it.rest))
  {
    var ps := passes + [it];
    assert ps[..|ps| - 1] == passes;
    forall k | 0 <= k < |ps| ensures PassAt(pass, scripts, input, ps, k) {
      if k < |passes| {
        assert PassAt(pass, scripts, input, passes, k);
      }
    }
  }

  /** The loop over `scripts` is the first `j` passes of a chain followed by the
      loop over the remaining scripts, when none of those passes stopped it. */
  lemma {:induction false} ChainRunLoop(pass: PassFn, scripts: seq<TurnScript>, input: seq<Line>,
                                        passes: seq<Effects<IterationEnd>>, j: nat)
    requires Chain(pass, scripts, input, passes) && j <= |passes|
    requires forall k :: 0 <= k < j ==> !Stops(passes[k])
    ensures RunLoop(pass, scripts, input) ==
              Then(Compose(passes[..j], input), RunLoop(pass, scripts[j..], RestAfter(passes[..j], input)))
    decreases j
  {
    if j == 0 {
      assert passes[..0] == [] && scripts[0..] == scripts;
    } else {
      var p := j - 1;
      ChainRunLoop(pass, scripts, input, passes, p);
      var r := RestAfter(passes[..p], input);
      assert PassAt(pass, scripts, input, passes, p);
      assert passes[p] == pass(scripts[p], r);
      RunLoopStep(pass, scripts, p, r);
      var it := passes[p];
      var step := Effects((), it.states, it.events, it.calls, it.notices, it.rest);
      assert !Stops(it);
      ThenAssoc(Compose(passes[..p], input), step, RunLoop(pass, scripts[j..], it.rest));
      assert passes[..j][..p] == passes[..p];
    }
  }

  /** A finished chain: the loop's effects are those of its passes, and it ends as the last pass says. */
  lemma RunLoopChain(pass: PassFn, scripts: seq<TurnScript>, input: seq<Line>, passes: seq<Effects<IterationEnd>>)
    requires Chain(pass, scripts, input, passes)
    requires LoopEnd(passes) == ScriptsExhausted ==> |passes| == |scripts|
    ensures RunLoop(pass, scripts, input) ==
              Then(Compose(passes, input), Effects(LoopEnd(passes), [], [], [], [], RestAfter(passes, input)))
  {
    if LoopEnd(passes) == ScriptsExhausted {
      if passes != [] {
        assert !Stops(passes[|passes| - 1]);
      }
      ChainRunLoop(pass, scripts, input, passes, |passes|);
      assert passes[..|passes|] == passes && scripts[|passes|..] == [];
    } else {
      ChainStopped(pass, scripts, input, passes);
    }
  }

  /** A chain whose last pass stopped the loop: the loop's effects are those of its passes. */
  lemma ChainStopped(pass: PassFn, scripts: seq<TurnScript>, input: seq<Line>, passes: seq<Effects<IterationEnd>>)
    requires Chain(pass, scripts, input, passes) && passes != [] && Stops(passes[|passes| - 1])
    ensures RunLoop(pass, scripts, input) ==
              Then(Compose(passes, input), Effects(LoopEnd(passes), [], [], [], [], passes[|passes| - 1].rest))
  {
    var p := |passes| - 1;
    ChainRunLoop(pass, scripts, input, passes, p);
    var r := RestAfter(passes[..p], input);
    assert PassAt(pass, scripts, input, passes, p);
    RunLoopStep(pass, scripts, p, r);
    var it := passes[p];
    var step := Effects((), it.states, it.events, it.calls, it.notices, it.rest);
    var tail := Effects(LoopEnd(passes), [], [], [], [], it.rest);
    assert RunLoop(pass, scripts[p..], r) == Then(step, tail);
    ThenAssoc(Compose(passes[..p], input), step, tail);
    assert Compose(passes, input) == Then(Compose(passes[..p], input), step);
  }

  // ---------------------------------------------------------------------
  // classify_and_execute_intent

  /** The help intent shows one of the two help lines and never reaches the
      agent, whatever the clarification fields say; the first line appears
      exactly when the lower-cased text is an explicit request for help. */
  lemma HelpNeverReachesAgent(userText: string, s: TurnScript, input: seq<Line>)
    requires Classify(s.classification).Ok? && Classify(s.classification).value.intent == Some("help")
    ensures var e := IntentEffect(userText, s, input);
      && e.end == Ok(NoReply) && e.calls == [] && e.rest == input
      && e.notices == [if Lower(userText) in HELP_WORDS then HelpMenu else CannotHelp]
  {
  }

  /** A non-empty clarification question of a non-help intent is shown and ends
      the request without an agent call. */
  lemma ClarificationStops(userText: string, s: TurnScript, input: seq<Line>)
    requires Classify(s.classification).Ok?
    requires var c := Classify(s.classification).value;
      c.intent.value != "help" && c.needsClarification.value && c.clarificationQuestion.value != ""
    ensures var e := IntentEffect(userText, s, input);
      && e.end == Ok(NoReply) && e.calls == [] && e.rest == input
      && e.notices == [Question(Classify(s.classification).value.clarificationQuestion.value)]
  {
  }

  /** When the topic is asked for, an empty answer ends the request and any
      other answer, stripped, becomes the topic the agent researches. */
  lemma TopicAnswerStored(userText: string, s: TurnScript, input: seq<Line>, answer: string)
    requires Classify(s.classification).Ok? && Decide(Classify(s.classification).value, userText) == AskTopic
    requires |input| > 0 && input[0] == Typed(answer)
    ensures var e := IntentEffect(userText, s, input);
      && e.rest == input[1..] && |e.notices| > 0 && e.notices[0] == TopicPrompt
      && (Strip(answer) == "" ==> e.end == Ok(NoReply) && e.calls == [])
      && (Strip(answer) != "" ==> e.calls == [ResearchTopic(userText, Strip(answer), s.date)])
  {
  }

  /** At most one agent method is called, exactly when the request is dispatched
      (directly, or after a non-empty topic answer), and it is the method of the
      classified intent, which is never help. */
  lemma AtMostOneAgentCall(userText: string, s: TurnScript, input: seq<Line>)
    ensures var e := IntentEffect(userText, s, input);
      && |e.calls| <= 1
      && (|e.calls| == 1 <==>
            Classify(s.classification).Ok? &&
            var d := Decide(Classify(s.classification).value, userText);
            (d == Proceed ||
             (d == AskTopic && PyInput(input).0.Ok? && Strip(PyInput(input).0.value) != "")))
      && (|e.calls| == 1 ==>
            var intent := Classify(s.classification).value.intent.value;
            intent in INTENTS - {"help"} && IntentOf(e.calls[0]) == intent &&
            e.calls[0].userText == userText && e.calls[0].date == s.date)
  {
    var e := IntentEffect(userText, s, input);
    if |e.calls| == 1 {
      var c := Classify(s.classification).value;
      TaskMatchesIntent(c.intent.value, c.params.value, userText, s.date);
      if Decide(c, userText) == AskTopic {
        var topic := Strip(PyInput(input).0.value);
        TaskMatchesIntent(c.intent.value, c.params.value["topic" := topic], userText, s.date);
      }
    }
  }

  /** An exception from the agent is shown and becomes the empty reply: it never
      leaves `classify_and_execute_intent`. */
  lemma AgentExceptionNeverEscapes(userText: string, s: TurnScript, input: seq<Line>, m: string)
    requires s.agentReply == Fail(Exception(m))
    ensures var e := IntentEffect(userText, s, input);
      && (e.end.Fail? ==> e.calls == [])
      && (e.calls != [] ==> e.end == Ok(NoReply) && |e.notices| > 0 &&
                             e.notices[|e.notices| - 1] == ErrorShown("Error executing task: " + m))
  {
  }

  /** The only things `classify_and_execute_intent` raises: a `KeyboardInterrupt`,
      or the `EOFError` of the topic prompt at the end of standard input. */
  lemma EscapingFailures(userText: string, s: TurnScript, input: seq<Line>)
    ensures var e := IntentEffect(userText, s, input);
      e.end.Fail? ==>
        e.end.failure == KeyboardInterrupt ||
        (e.end.failure == EOFError && input == [] && e.calls == [] && e.notices == [TopicPrompt])
    ensures var e := IntentEffect(userText, s, input);
      e.states == [] && e.events == [] && (|e.rest| == |input| || |e.rest| == |input| - 1)
  {
  }

  // ---------------------------------------------------------------------
  // The turn handlers

  /** The states assigned follow `path` from its start and stop somewhere
      along it, possibly followed by a final `ERROR`. */
  predicate FollowsPath(states: seq<State>, path: seq<State>)
  {
    || (|states| <= |path| && states == path[..|states|])
    || (0 < |states| <= |path| + 1 && states[|states| - 1] == Error && states[..|states| - 1] == path[..|states| - 1])
  }

  /** A completed turn records exactly one metrics sample; every early return
      and every raise leaves the metrics alone. */
  predicate SampledIffCompleted(e: Effects<TurnEnd>)
  {
    && (e.end == Completed ==> |e.events| == 1 && e.events[0].Turn?)
    && (e.end != Completed ==> e.events == [])
  }

  /** A text turn passes through `THINKING` only, records `stt = tts = 0`, and
      ends at once on blank text; `ERROR` is assigned exactly when an exception escapes. */
  lemma TextTurnShape(userText: string, s: TurnScript, input: seq<Line>)
    ensures var e := TextTurn(userText, s, input);
      && FollowsPath(e.states, [Thinking])
      && SampledIffCompleted(e)
      && (e.end == Completed ==>
            e.events[0].times.stt == 0.0 && e.events[0].times.tts == 0.0 && e.events[0].times.total == s.totalTime)
      && (Error in e.states <==> e.end.Raised? && e.end.failure.Exception?)
      && (IsBlank(userText) <==> e.end == EmptyInput)
      && (IsBlank(userText) ==> e.states == [] && e.calls == [] && e.rest == input &&
                                e.notices == [ErrorShown("Empty input. Please try again.")])
  {
  }

  /** Prefixing a path's first state keeps a turn on the longer path. */
  lemma FollowsPathCons(x: State, states: seq<State>, path: seq<State>)
    requires FollowsPath(states, path)
    ensures FollowsPath([x] + states, [x] + path)
  {
    var t := [x] + states;
    if |states| <= |path| && states == path[..|states|] {
      assert t == ([x] + path)[..|t|];
    } else {
      assert t[..|t| - 1] == [x] + states[..|states| - 1];
      assert t[..|t| - 1] == ([x] + path)[..|t| - 1];
    }
  }

  /** From `THINKING` on, a voice turn follows `THINKING`, `SPEAKING`, and
      records the transcription time when it completes. */
  lemma SpokenReplyShape(text: string, s: TurnScript, input: seq<Line>)
    ensures var e := SpokenReply(text, s, input);
      && FollowsPath(e.states, [Thinking, Speaking])
      && SampledIffCompleted(e)
      && (e.end == Completed ==> e.events[0].times.stt == s.sttTime && e.events[0].times.total == s.totalTime)
      && (Error in e.states <==> e.end.Raised? && e.end.failure.Exception?)
      && e.end !in {EmptyInput, NoAudio, NotUnderstood}
  {
    var ie := IntentEffect(text, s, input);
    match ie.end
    case Fail(f) =>
    case Ok(reply) =>
      var d := Deliver(reply, s, ie.rest);
      DeliverShape(reply, s, ie.rest);
      var first := Effects((), [Thinking], [], ie.calls, ie.notices, ie.rest);
      assert SpokenReply(text, s, input) == Then(first, d);
      assert Then(first, d).states == [Thinking] + d.states && Then(first, d).events == d.events;
      FollowsPathCons(Thinking, d.states, [Speaking]);
      assert [Thinking] + [Speaking] == [Thinking, Speaking];
  }

  /** From `SPEAKING` on, a voice turn records the transcription time when it
      completes and assigns `ERROR` exactly when the speech engine raises an exception. */
  lemma DeliverShape(reply: Reply, s: TurnScript, input: seq<Line>)
    ensures var d := Deliver(reply, s, input);
      && FollowsPath(d.states, [Speaking])
      && SampledIffCompleted(d)
      && (d.end == Completed ==> d.events[0].times.stt == s.sttTime && d.events[0].times.total == s.totalTime)
      && (Error in d.states <==> d.end.Raised? && d.end.failure.Exception?)
      && d.end !in {EmptyInput, NoAudio, NotUnderstood}
  {
  }

  /** Once the audio is known, a voice turn follows `PROCESSING`, `THINKING`,
      `SPEAKING`; zero-length audio and a blank transcript end it before any
      later stage; `ERROR` is assigned exactly when an exception escapes. */
  lemma VoiceTurnWithShape(audio: seq<real>, s: TurnScript, input: seq<Line>)
    ensures var e := VoiceTurnWith(audio, s, input);
      && FollowsPath(e.states, [Processing, Thinking, Speaking])
      && SampledIffCompleted(e)
      && (e.end == Completed ==> e.events[0].times.stt == s.sttTime && e.events[0].times.total == s.totalTime)
      && (Error in e.states <==> e.end.Raised? && e.end.failure.Exception?)
      && (|audio| == 0 <==> e.end == NoAudio)
      && (|audio| == 0 ==> e.states == [] && e.calls == [] && e.rest == input)
      && (e.end == NotUnderstood <==> |audio| > 0 && s.transcript.Ok? && IsBlank(s.transcript.value))
      && (e.end == NotUnderstood ==> e.states == [Processing] && e.calls == [] && e.rest == input)
  {
    if |audio| > 0 && s.transcript.Ok? && !IsBlank(s.transcript.value) {
      var text := s.transcript.value;
      var w := SpokenReply(text, s, input);
      SpokenReplyShape(text, s, input);
      ProcessingPrefix(w, text, input);
      assert VoiceTurnWith(audio, s, input) == Then(Step([Processing], [Transcription(text)], input), w);
    }
  }

  /** Prefixing `PROCESSING` to a turn on the `THINKING`, `SPEAKING` path. */
  lemma ProcessingPrefix(w: Effects<TurnEnd>, text: string, input: seq<Line>)
    requires FollowsPath(w.states, [Thinking, Speaking]) && SampledIffCompleted(w)
    requires Error in w.states <==> w.end.Raised? && w.end.failure.Exception?
    ensures var e := Then(Step([Processing], [Transcription(text)], input), w);
      && FollowsPath(e.states, [Processing, Thinking, Speaking])
      && SampledIffCompleted(e) && e.events == w.events && e.end == w.end && e.calls == w.calls
      && (Error in e.states <==> e.end.Raised? && e.end.failure.Exception?)
  {
    FollowsPathCons(Processing, w.states, [Thinking, Speaking]);
  }

  /** A voice turn without given audio records first, in `RECORDING`. */
  lemma VoiceTurnRecordsFirst(s: TurnScript, input: seq<Line>)
    ensures var e := VoiceTurn(None, s, input);
      && FollowsPath(e.states, [Recording, Processing, Thinking, Speaking])
      && |e.states| > 0 && e.states[0] == Recording
      && SampledIffCompleted(e)
  {
    match s.recording
    case Fail(f) =>
    case Ok(audio) =>
      VoiceTurnWithShape(audio, s, input);
      RecordingPrefix(VoiceTurnWith(audio, s, input), input);
  }

  /** Prefixing `RECORDING` to a turn on the `PROCESSING`, `THINKING`, `SPEAKING` path. */
  lemma RecordingPrefix(w: Effects<TurnEnd>, input: seq<Line>)
    requires FollowsPath(w.states, [Processing, Thinking, Speaking]) && SampledIffCompleted(w)
    ensures var e := Then(Step([Recording], [], input), w);
      && FollowsPath(e.states, [Recording, Processing, Thinking, Speaking])
      && |e.states| > 0 && e.states[0] == Recording
      && SampledIffCompleted(e)
  {
    FollowsPathCons(Recording, w.states, [Processing, Thinking, Speaking]);
  }

  /** A voice turn that reaches a reply enters `SPEAKING` and calls `speak`
      exactly when the reply is non-empty; otherwise its tts time is 0. */
  lemma VoiceSpeaksIffResponse(audio: seq<real>, s: TurnScript, input: seq<Line>)
    requires |audio| > 0 && s.transcript.Ok? && !IsBlank(s.transcript.value)
    requires IntentEffect(s.transcript.value, s, input).end.Ok?
    ensures var reply := IntentEffect(s.transcript.value, s, input).end.value;
      var e := VoiceTurnWith(audio, s, input);
      && (Speaking in e.states <==> reply.text != "")
      && (reply.text != "" ==> SpeechRequest(reply.text) in e.notices && Response(reply.text) in e.notices)
      && (reply.text == "" ==> forall n :: n in e.notices ==> !n.SpeechRequest?)
      && (reply.text == "" ==>
            e.end == Completed &&
            e.events == [Metrics.Turn(Metrics.StageTimes(s.sttTime, reply.agentTime, 0.0, s.totalTime))])
      && (reply.text != "" && IsBlank(reply.text) ==> e.end == Completed)
  {
  }

  /** `speak` on blank text never fails. */
  lemma BlankSpeechIsSilent(text: string, speech: Outcome<()>)
    requires forall i :: 0 <= i < |text| ==> IsSpace(text[i])
    ensures TtsSpeak(text, speech) == Ok(())
  {
    BlankIffAllSpace(text);
  }

  // ---------------------------------------------------------------------
  // The run loop

  /** Every `ERROR` is immediately followed by `IDLE`. */
  predicate ErrorThenIdle(states: seq<State>)
  {
    forall k :: 0 <= k < |states| && states[k] == Error ==> k + 1 < |states| && states[k + 1] == Idle
  }

  /** A path without `ERROR` can only end in it: every state but the last is on the path. */
  lemma PathStates(states: seq<State>, path: seq<State>)
    requires FollowsPath(states, path) && Error !in path
    ensures forall k :: 0 <= k < |states| ==> states[k] in path || (states[k] == Error && k == |states| - 1)
  {
    forall k | 0 <= k < |states|
      ensures states[k] in path || (states[k] == Error && k == |states| - 1)
    {
      if |states| <= |path| && states == path[..|states|] {
        assert states[k] == path[k];
      } else if k < |states| - 1 {
        assert states[k] == states[..|states| - 1][k] == path[k];
      }
    }
  }

  /** A turn that stays on `path` (a path without `ERROR`, `EXIT` or `RECORDING`),
      assigns `ERROR` exactly when an exception escapes it, and records one
      metrics sample exactly when it completes. */
  predicate TurnShape(e: Effects<TurnEnd>, path: seq<State>)
  {
    && FollowsPath(e.states, path) && Error !in path && Exit !in path && Recording !in path
    && (Error in e.states <==> e.end.Raised? && e.end.failure.Exception?)
    && SampledIffCompleted(e)
  }

  /** What a pass of the loop does after `IDLE`: it never enters `EXIT` or
      `RECORDING`, follows every `ERROR` by `IDLE`, makes at most one metrics
      change, and counts an error exactly when it handled an exception, whose
      message it shows last. */
  predicate PassShape(it: Effects<IterationEnd>)
  {
    && Exit !in it.states && Recording !in it.states
    && ErrorThenIdle(it.states)
    && |it.events| <= 1
    && Metrics.Errors(it.events) == (if it.end.ErrorHandled? then 1 else 0)
    && (it.end.ErrorHandled? ==> |it.notices| > 0 && it.notices[|it.notices| - 1] == ErrorShown(it.end.message))
  }

  /** The states of a turn `e` inside a loop pass: the turn's states, and
      `IDLE` again when an exception reached the loop. */
  lemma AfterTurnShape(e: Effects<TurnEnd>, path: seq<State>)
    requires TurnShape(e, path)
    ensures PassShape(AfterTurn(e))
  {
    AfterTurnStates(e, path);
    AfterTurnErrors(e, path);
  }

  /** After a turn on `path`, every `ERROR` is followed by `IDLE`, and
      `EXIT` and `RECORDING` are never assigned. */
  lemma AfterTurnStates(e: Effects<TurnEnd>, path: seq<State>)
    requires TurnShape(e, path)
    ensures var it := AfterTurn(e);
      Exit !in it.states && Recording !in it.states && ErrorThenIdle(it.states)
  {
    PathStates(e.states, path);
    var it := AfterTurn(e);
    var n := |e.states|;
    assert it.states == e.states + Handler(e.end, e.rest).states;
    forall k | 0 <= k < |it.states| && it.states[k] == Error
      ensures k + 1 < |it.states| && it.states[k + 1] == Idle
    {
      assert k < n && it.states[k] == e.states[k];
      assert k == n - 1;
      assert e.end.Raised? && e.end.failure.Exception?;
      assert it.states == e.states + [Idle];
    }
    forall k | 0 <= k < |it.states|
      ensures it.states[k] != Exit && it.states[k] != Recording
    {
      if k < n {
        assert it.states[k] == e.states[k];
      }
    }
  }

  /** After a turn, at most one metrics change was made, an error was counted
      exactly when the loop handled an exception, and its message was shown last. */
  lemma AfterTurnErrors(e: Effects<TurnEnd>, path: seq<State>)
    requires TurnShape(e, path)
    ensures var it := AfterTurn(e);
      && |it.events| <= 1
      && Metrics.Errors(it.events) == (if it.end.ErrorHandled? then 1 else 0)
      && (it.end.ErrorHandled? ==> |it.notices| > 0 && it.notices[|it.notices| - 1] == ErrorShown(it.end.message))
  {
    var it := AfterTurn(e);
    if it.end.ErrorHandled? {
      assert e.events == [] && it.events == [Metrics.ErrorCounted];
      assert it.events[..0] == [];
    } else if |it.events| == 1 {
      assert it.events[..0] == [];
    }
  }

  /** `IDLE` followed by a pass of the shape of `PassShape` keeps that shape. */
  lemma IdlePrefix(d: Effects<IterationEnd>, input: seq<Line>)
    requires PassShape(d)
    ensures IdlePass(Then(Step([Idle], [], input), d))
  {
    assert [] + d.events == d.events && [] + d.calls == d.calls && [] + d.notices == d.notices;
    assert Then(Step([Idle], [], input), d) == d.(states := [Idle] + d.states);
    IdleThen(d.states);
  }

  /** `IDLE` followed by states that never enter `EXIT` or `RECORDING` and
      follow every `ERROR` by `IDLE`. */
  lemma IdleThen(states: seq<State>)
    requires Exit !in states && Recording !in states && ErrorThenIdle(states)
    ensures var t := [Idle] + states;
      && |t| > 0 && t[0] == Idle && Exit !in t && Recording !in t && ErrorThenIdle(t)
  {
    ErrorThenIdleConcat([Idle], states);
  }

  /** Each pass starts in `IDLE` and then has the shape of `PassShape`. */
  lemma IterationShape(s: TurnScript, input: seq<Line>)
    ensures IdlePass(Iteration(s, input))
  {
    var (choice, rest) := SelectMode(input, s.recording);
    var d := Dispatch(choice, s, rest);
    DispatchShape(choice, s, rest);
    IdlePrefix(d, input);
    assert Iteration(s, input) == Then(Step([Idle], [], input), d);
  }

  lemma DispatchShape(choice: Outcome<UserInput>, s: TurnScript, rest: seq<Line>)
    ensures PassShape(Dispatch(choice, s, rest))
  {
    match choice
    case Fail(KeyboardInterrupt) =>
    case Fail(Exception(m)) =>
      assert Dispatch(choice, s, rest).events[..0] == [];
    case Ok(ExitInput) =>
    case Ok(TextInput(text)) =>
      var e := TextTurn(text, s, rest);
      TextPass(text, s, rest);
      AfterTurnShape(e, [Thinking]);
      assert Dispatch(choice, s, rest) == AfterTurn(e);
    case Ok(VoiceInput(audio)) =>
      var e := VoiceTurn(Some(audio), s, rest);
      VoicePass(audio, s, rest);
      AfterTurnShape(e, [Processing, Thinking, Speaking]);
      assert Dispatch(choice, s, rest) == AfterTurn(e);
  }

  lemma TextPass(text: string, s: TurnScript, rest: seq<Line>)
    ensures TurnShape(TextTurn(text, s, rest), [Thinking])
  {
    TextTurnShape(text, s, rest);
  }

  lemma VoicePass(audio: seq<real>, s: TurnScript, rest: seq<Line>)
    ensures TurnShape(VoiceTurn(Some(audio), s, rest), [Processing, Thinking, Speaking])
  {
    VoiceTurnWithShape(audio, s, rest);
  }

  lemma ErrorThenIdleConcat(a: seq<State>, b: seq<State>)
    requires ErrorThenIdle(a) && ErrorThenIdle(b)
    ensures ErrorThenIdle(a + b)
  {
    forall k | 0 <= k < |a + b| && (a + b)[k] == Error
      ensures k + 1 < |a + b| && (a + b)[k + 1] == Idle
    {
      if k >= |a| {
        assert (a + b)[k] == b[k - |a|];
        assert (a + b)[k + 1] == b[k + 1 - |a|];
      }
    }
  }

  /** A pass that starts in `IDLE` and then has the shape of `PassShape`. */
  predicate IdlePass(it: Effects<IterationEnd>)
  {
    |it.states| > 0 && it.states[0] == Idle && PassShape(it)
  }

  /** The standard input left after passes over `scripts` in which nothing stops the loop. */
  function Iterate(pass: PassFn, scripts: seq<TurnScript>, input: seq<Line>): seq<Line>
    decreases |scripts|
  {
    if scripts == [] then input else pass(scripts[|scripts| - 1], Iterate(pass, scripts[..|scripts| - 1], input)).rest
  }

  lemma {:induction false} IterateCons(pass: PassFn, scripts: seq<TurnScript>, i: nat, input: seq<Line>)
    requires 0 < i <= |scripts|
    ensures Iterate(pass, scripts[..i], input) == Iterate(pass, scripts[1..][..i - 1], pass(scripts[0], input).rest)
    decreases i
  {
    if i == 1 {
      assert scripts[..1][..0] == [];
      assert scripts[1..][..0] == [];
    } else {
      IterateCons(pass, scripts, i - 1, input);
      assert scripts[..i][..i - 1] == scripts[..i - 1];
      assert scripts[1..][..i - 1][..i - 2] == scripts[1..][..i - 2];
      assert scripts[1..][..i - 1][i - 2] == scripts[i - 1];
    }
  }

  /** A loop whose every pass is an `IdlePass` never assigns `EXIT` or
      `RECORDING`, follows every `ERROR` by `IDLE`, starts in `IDLE`, and
      uses up its scripts only when no pass stopped it. */
  lemma {:induction false} RunLoopShape(pass: PassFn, scripts: seq<TurnScript>, input: seq<Line>)
    requires forall sc, inp :: IdlePass(pass(sc, inp))
    ensures var r := RunLoop(pass, scripts, input);
      && Exit !in r.states && Recording !in r.states
      && ErrorThenIdle(r.states)
      && (scripts != [] ==> |r.states| > 0 && r.states[0] == Idle)
      && (r.end == ScriptsExhausted ==>
            forall i :: 0 <= i < |scripts| ==> !Stops(pass(scripts[i], Iterate(pass, scripts[..i], input))))
    decreases |scripts|
  {
    if scripts != [] {
      var it := pass(scripts[0], input);
      assert IdlePass(it);
      if !Stops(it) {
        var r := RunLoop(pass, scripts[1..], it.rest);
        RunLoopShape(pass, scripts[1..], it.rest);
        ErrorThenIdleConcat(it.states, r.states);
        if r.end == ScriptsExhausted {
          forall i | 0 <= i < |scripts|
            ensures !Stops(pass(scripts[i], Iterate(pass, scripts[..i], input)))
          {
            if i > 0 {
              IterateCons(pass, scripts, i, input);
              assert scripts[1..][i - 1] == scripts[i];
            }
          }
        }
      } else {
        ErrorThenIdleConcat(it.states, []);
      }
    }
  }

  /** Over the whole loop of `run`, `EXIT` and `RECORDING` are never assigned,
      every `ERROR` is followed by `IDLE`, the first state is `IDLE`, and the
      loop leaves early only on the exit mode or a `KeyboardInterrupt`. */
  lemma RunShape(scripts: seq<TurnScript>, input: seq<Line>)
    ensures var r := RunFrom(scripts, input);
      && Exit !in r.states && Recording !in r.states
      && ErrorThenIdle(r.states)
      && (scripts != [] ==> |r.states| > 0 && r.states[0] == Idle)
      && (r.end == ScriptsExhausted ==>
            forall i :: 0 <= i < |scripts| ==>
              Iteration(scripts[i], Iterate(Iteration, scripts[..i], input)).end !in {ExitMode, Interrupted})
  {
    forall sc, inp ensures IdlePass(Iteration(sc, inp)) {
      IterationShape(sc, inp);
    }
    RunLoopShape(Iteration, scripts, input);
  }

  /** At the end of standard input a pass never leaves the loop: the mode
      prompt raises `EOFError`, `handle_error` counts it and shows its message,
      and the state returns to `IDLE`. */
  lemma EndOfInputPass(s: TurnScript)
    ensures Iteration(s, []) ==
      Effects(ErrorHandled(EOFError.message), [Idle, Idle], [Metrics.ErrorCounted], [], [ErrorShown(EOFError.message)], [])
  {
    assert SelectMode([], s.recording) == (Fail(EOFError), []);
  }

  /** Once standard input is exhausted the loop of `run` never ends by itself:
      every pass counts one more `EOFError` and the passes run until the
      scripts are used up. */
  lemma {:induction false} EndOfInputNeverStops(scripts: seq<TurnScript>)
    ensures var r := RunFrom(scripts, []);
      && r.end == ScriptsExhausted && r.rest == []
      && |r.events| == |scripts| && (forall i :: 0 <= i < |r.events| ==> r.events[i] == Metrics.ErrorCounted)
    decreases |scripts|
  {
    if scripts != [] {
      EndOfInputPass(scripts[0]);
      EndOfInputNeverStops(scripts[1..]);
      var it := Iteration(scripts[0], []);
      var r := RunFrom(scripts[1..], []);
      assert RunFrom(scripts, []) == Then(it, r);
      assert Then(it, r).events == [Metrics.ErrorCounted] + r.events;
    }
  }
}

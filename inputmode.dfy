/** `VoiceOrchestrator.wait_for_user_input` (src/orchestrator.py): the mode
    prompt, re-prompting on an invalid choice, and the text prompt. The
    standard input is a sequence of lines; its end makes `input()` raise. */
module InputMode {
  import opened Outcomes
  import opened PyStr

  /** One answer at an `input()` prompt: a typed line, or Ctrl-C pressed at the prompt. */
  datatype Line = Typed(text: string) | CtrlC

  /** Python's `input()`: the next line and what is left of standard input. */
  function PyInput(input: seq<Line>): (Outcome<string>, seq<Line>)
  {
    if input == [] then (Fail(EOFError), [])
    else match input[0]
      case CtrlC => (Fail(KeyboardInterrupt), input[1..])
      case Typed(text) => (Ok(text), input[1..])
  }

  /** What the stripped, lower-cased choice selects. */
  datatype Choice = VoiceChoice | TextChoice | ExitChoice | InvalidChoice

  function ParseChoice(line: string): Choice
  {
    var choice := Lower(Strip(line));
    if choice == "v" then VoiceChoice
    else if choice == "t" then TextChoice
    else if choice == "e" || choice == "/exit" then ExitChoice
    else InvalidChoice
  }

  /** The `(mode, data)` pair `wait_for_user_input` returns. */
  datatype UserInput = VoiceInput(audio: seq<real>) | TextInput(text: string) | ExitInput

  /** A typed line making choice `c`. */
  predicate Chose(line: Line, c: Choice)
  {
    line.Typed? && ParseChoice(line.text) == c
  }

  /** The number of invalid choices typed before the first valid choice (or Ctrl-C, or the end). */
  function LeadingInvalid(input: seq<Line>): (k: nat)
    ensures k <= |input|
    ensures forall i :: 0 <= i < k ==> Chose(input[i], InvalidChoice)
    ensures k < |input| ==> !Chose(input[k], InvalidChoice)
  {
    if input != [] && Chose(input[0], InvalidChoice) then 1 + LeadingInvalid(input[1..]) else 0
  }

  /** `wait_for_user_input` over standard input `input`; `recording` is what
      `record_push_to_talk` returns if voice is chosen. The second component
      is the unread rest of standard input. */
  function SelectMode(input: seq<Line>, recording: Outcome<seq<real>>): (r: (Outcome<UserInput>, seq<Line>))
    // every prompt reads a line: the rest is strictly shorter unless input was already exhausted
    ensures |r.1| < |input| || (input == [] && r.1 == [])
    // only invalid choices until the end: input() raises EOFError
    ensures LeadingInvalid(input) == |input| ==> r == (Fail(EOFError), [])
    // voice exactly when the first valid choice is v and the recording succeeded
    ensures var k := LeadingInvalid(input);
      (r.0.Ok? && r.0.value.VoiceInput?) <==> (k < |input| && Chose(input[k], VoiceChoice) && recording.Ok?)
    ensures r.0.Ok? && r.0.value.VoiceInput? ==> r.0.value.audio == recording.value
    // text exactly when the first valid choice is t and the next line, stripped, is not "/exit"
    ensures var k := LeadingInvalid(input);
      (r.0.Ok? && r.0.value.TextInput?) <==>
      (k + 1 < |input| && Chose(input[k], TextChoice) && input[k + 1].Typed? && Strip(input[k + 1].text) != "/exit")
    ensures var k := LeadingInvalid(input);
      r.0.Ok? && r.0.value.TextInput? ==> r.0.value.text == Strip(input[k + 1].text)
    // exit on e or /exit at the mode prompt, or on "/exit" typed as the question
    ensures var k := LeadingInvalid(input);
      (r.0.Ok? && r.0.value.ExitInput?) <==>
      (k < |input| && (Chose(input[k], ExitChoice) ||
        (k + 1 < |input| && Chose(input[k], TextChoice) && input[k + 1].Typed? && Strip(input[k + 1].text) == "/exit")))
    // Ctrl-C at the mode prompt raises KeyboardInterrupt; the rest follows the line read
    ensures var k := LeadingInvalid(input);
      k < |input| && input[k] == CtrlC ==> r == (Fail(KeyboardInterrupt), input[k + 1..])
    // voice and exit at the mode prompt read one line; a failed recording passes its failure on
    ensures var k := LeadingInvalid(input);
      k < |input| && (Chose(input[k], VoiceChoice) || Chose(input[k], ExitChoice)) ==> r.1 == input[k + 1..]
    ensures var k := LeadingInvalid(input);
      k < |input| && Chose(input[k], VoiceChoice) && recording.Fail? ==> r.0 == Fail(recording.failure)
    // text reads the question line too: Ctrl-C there raises KeyboardInterrupt, the end of input EOFError
    ensures var k := LeadingInvalid(input);
      k + 1 < |input| && Chose(input[k], TextChoice) ==>
        r.1 == input[k + 2..] && (input[k + 1] == CtrlC ==> r.0 == Fail(KeyboardInterrupt))
    ensures var k := LeadingInvalid(input);
      k + 1 == |input| && Chose(input[k], TextChoice) ==> r == (Fail(EOFError), [])
    decreases |input|
  {
    if input == [] then (Fail(EOFError), [])
    else match input[0]
      case CtrlC => (Fail(KeyboardInterrupt), input[1..])
      case Typed(line) =>
        match ParseChoice(line)
        case VoiceChoice =>
          (match recording
           case Ok(audio) => Ok(VoiceInput(audio))
           case Fail(f) => Fail(f), input[1..])
        case TextChoice =>
          var (answer, rest) := PyInput(input[1..]);
          (match answer
           case Fail(f) => Fail(f)
           case Ok(typed) =>
             var text := Strip(typed);
             if text == "/exit" then Ok(ExitInput) else Ok(TextInput(text)), rest)
        case ExitChoice => (Ok(ExitInput), input[1..])
        case InvalidChoice =>
          assert input[1..][LeadingInvalid(input[1..])..] == input[LeadingInvalid(input)..];
          SelectMode(input[1..], recording)
  }

  /** 'v' (in either case, with any surrounding whitespace) selects voice, and nothing else does. */
  lemma VoiceChoiceIff(line: string)
    ensures ParseChoice(line) == VoiceChoice <==> Strip(line) == "v" || Strip(line) == "V"
  {
    var s := Strip(line);
    LowerEqualsIff(s, "v");
    if Lower(s) == "v" { assert s == [s[0]]; }
  }

  /** 't' (in either case) selects text, and nothing else does. */
  lemma TextChoiceIff(line: string)
    ensures ParseChoice(line) == TextChoice <==> Strip(line) == "t" || Strip(line) == "T"
  {
    var s := Strip(line);
    LowerEqualsIff(s, "t");
    LowerEqualsIff(s, "v");
    if Lower(s) == "t" { assert s == [s[0]]; }
  }

  /** 'e' or '/exit' (in any case mix) selects exit, and nothing else does. */
  lemma ExitChoiceIff(line: string)
    ensures var s := Strip(line);
      ParseChoice(line) == ExitChoice <==>
      (s == "e" || s == "E" ||
       (|s| == 5 && s[0] == '/' && s[1] in "eE" && s[2] in "xX" && s[3] in "iI" && s[4] in "tT"))
  {
    var s := Strip(line);
    LowerEqualsIff(s, "v");
    LowerEqualsIff(s, "t");
    LowerEqualsIff(s, "e");
    LowerEqualsIff(s, "/exit");
    if Lower(s) == "e" { assert s == [s[0]]; }
  }

  /** At the question prompt "/exit" is compared stripped but not lower-cased:
      " /exit" ends the session, "/EXIT" becomes the question text. */
  lemma TextExitIsCaseSensitive(recording: Outcome<seq<real>>)
    ensures SelectMode([Typed(" t "), Typed(" /exit ")], recording).0 == Ok(ExitInput)
    ensures SelectMode([Typed("T"), Typed("/EXIT")], recording).0 == Ok(TextInput("/EXIT"))
  {
    assert TrimStart(" t ") == TrimStart("t ") == "t ";
    assert TrimEnd("t ") == TrimEnd("t") == "t";
    TextChoiceIff(" t ");
    assert LeadingInvalid([Typed(" t "), Typed(" /exit ")]) == 0;
    assert TrimStart(" /exit ") == TrimStart("/exit ") == "/exit ";
    assert TrimEnd("/exit ") == TrimEnd("/exit") == "/exit";
    assert TrimStart("T") == TrimEnd("T") == "T";
    TextChoiceIff("T");
    assert LeadingInvalid([Typed("T"), Typed("/EXIT")]) == 0;
    assert TrimStart("/EXIT") == TrimEnd("/EXIT") == "/EXIT";
  }
}

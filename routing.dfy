/** The routing decision of `VoiceOrchestrator.classify_and_execute_intent`
    (src/orchestrator.py): what a classified request leads to, and which
    agent method a dispatched intent reaches. */
module Routing {
  import opened PyStr
  import opened Classifier

  /** A call of one of the agent's task methods, with its arguments. */
  datatype AgentCall =
    | NextClassInfo(userText: string, date: string)
    | ResearchTopic(userText: string, topic: string, date: string)
    | WeeklyPlan(userText: string, date: string)
    | TrackAssignments(userText: string, track: string, date: string)

  /** Texts that count as an explicit request for help once lower-cased. */
  const HELP_WORDS: set<string> := {"help", "/help", "menu"}

  /** `params.get('topic', 'AI Agents')`. */
  const DEFAULT_TOPIC: string := "AI Agents"

  /** `params.get('track', 'Tech')`. */
  const DEFAULT_TRACK: string := "Tech"

  /** What happens to a classified request before any agent call. */
  datatype Decision =
    | ShowCapabilities(explicitRequest: bool)  // help: no agent call
    | AskClarification(question: string)       // the classifier's question is shown, no agent call
    | AskTopic                                 // the user is asked for the missing topic
    | Proceed                                  // dispatch with the classified parameters

  /** Lines 153-174 up to the prompt for a missing topic. */
  function Decide(c: RawResult, userText: string): (d: Decision)
    requires Complete(c)
    // help is decided first, whatever the clarification fields say
    ensures d.ShowCapabilities? <==> c.intent.value == "help"
    ensures d.ShowCapabilities? ==> (d.explicitRequest <==> Lower(userText) in HELP_WORDS)
    // a non-empty clarification question stops the turn ...
    ensures d.AskClarification? <==>
              c.intent.value != "help" && c.needsClarification.value && c.clarificationQuestion.value != ""
    ensures d.AskClarification? ==> d.question == c.clarificationQuestion.value
    // ... an empty one asks for a missing topic of topic_research and otherwise dispatches
    ensures d.AskTopic? <==>
              && c.intent.value == "topic_research" && c.needsClarification.value
              && c.clarificationQuestion.value == "" && "topic" !in c.params.value
    ensures d.Proceed? ==> c.intent.value != "help"
    ensures !c.needsClarification.value ==> d.ShowCapabilities? || d.Proceed?
  {
    var intent := c.intent.value;
    if intent == "help" then ShowCapabilities(Lower(userText) in HELP_WORDS)
    else if c.needsClarification.value && c.clarificationQuestion.value != "" then
      AskClarification(c.clarificationQuestion.value)
    else if c.needsClarification.value && intent == "topic_research" && "topic" !in c.params.value then
      AskTopic
    else Proceed
  }

  /** The `if/elif` chain of lines 180-196: the agent method an intent reaches. */
  function Task(intent: string, params: map<string, string>, userText: string, date: string): (call: AgentCall)
    ensures call.userText == userText && call.date == date
    ensures call.ResearchTopic? <==> intent == "topic_research"
    ensures call.WeeklyPlan? <==> intent == "weekly_plan"
    ensures call.TrackAssignments? <==> intent == "assignments"
    // every other intent, known or not, falls back to the next-class task
    ensures call.NextClassInfo? <==> intent !in {"topic_research", "weekly_plan", "assignments"}
    ensures call.ResearchTopic? ==> call.topic == if "topic" in params then params["topic"] else DEFAULT_TOPIC
    // the track is passed through as given, with no validation
    ensures call.TrackAssignments? ==> call.track == if "track" in params then params["track"] else DEFAULT_TRACK
  {
    if intent == "next_class" then NextClassInfo(userText, date)
    else if intent == "topic_research" then
      ResearchTopic(userText, if "topic" in params then params["topic"] else DEFAULT_TOPIC, date)
    else if intent == "weekly_plan" then WeeklyPlan(userText, date)
    else if intent == "assignments" then
      TrackAssignments(userText, if "track" in params then params["track"] else DEFAULT_TRACK, date)
    else NextClassInfo(userText, date)
  }

  /** The intent whose branch makes a given agent call. */
  function IntentOf(call: AgentCall): string
  {
    match call
    case NextClassInfo(_, _) => "next_class"
    case ResearchTopic(_, _, _) => "topic_research"
    case WeeklyPlan(_, _) => "weekly_plan"
    case TrackAssignments(_, _, _) => "assignments"
  }

  /** Each of the four task intents reaches its own agent method, and the
      intent can be read back from the call. */
  lemma TaskMatchesIntent(intent: string, params: map<string, string>, userText: string, date: string)
    requires intent in INTENTS - {"help"}
    ensures IntentOf(Task(intent, params, userText, date)) == intent
  {
  }

  /** Any `track` value reaches the agent unchanged; "Invalid" is not coerced to "Tech". */
  lemma TrackIsNotValidated(params: map<string, string>, userText: string, date: string)
    requires "track" in params
    ensures Task("assignments", params, userText, date) == TrackAssignments(userText, params["track"], date)
    ensures Task("assignments", map["track" := "Invalid"], userText, date).track == "Invalid"
  {
  }
}

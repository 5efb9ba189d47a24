/** The `metrics` dictionary of `VoiceOrchestrator` (src/orchestrator.py) and
    the two operations that change it: `_update_metrics` after a completed
    turn and the error count of `handle_error`. */
module Metrics {
  import opened Stats

  /** The six keys of `self.metrics`. */
  datatype Metrics = Metrics(
    totalTurns: nat,
    avgSttTime: real,
    avgAgentTime: real,
    avgTtsTime: real,
    avgTotalTime: real,
    errors: nat)

  /** The dictionary as `__init__` creates it. */
  const Initial: Metrics := Metrics(0, 0.0, 0.0, 0.0, 0.0, 0)

  /** The elapsed times of one completed turn, in seconds. */
  datatype StageTimes = StageTimes(stt: real, agent: real, tts: real, total: real)

  /** `(avg * n + sample) / (n + 1)`. */
  function RunningAverage(avg: real, n: nat, sample: real): real
  {
    (avg * n as real + sample) / (n + 1) as real
  }

  /** `_update_metrics`: one more turn, each average moved by its sample, errors untouched. */
  function Record(m: Metrics, t: StageTimes): (r: Metrics)
    ensures r.totalTurns == m.totalTurns + 1 && r.errors == m.errors
    ensures r.avgSttTime == RunningAverage(m.avgSttTime, m.totalTurns, t.stt)
    ensures r.avgAgentTime == RunningAverage(m.avgAgentTime, m.totalTurns, t.agent)
    ensures r.avgTtsTime == RunningAverage(m.avgTtsTime, m.totalTurns, t.tts)
    ensures r.avgTotalTime == RunningAverage(m.avgTotalTime, m.totalTurns, t.total)
  {
    var n := m.totalTurns;
    Metrics(n + 1,
            RunningAverage(m.avgSttTime, n, t.stt),
            RunningAverage(m.avgAgentTime, n, t.agent),
            RunningAverage(m.avgTtsTime, n, t.tts),
            RunningAverage(m.avgTotalTime, n, t.total),
            m.errors)
  }

  /** `self.metrics['errors'] += 1`. */
  function CountError(m: Metrics): (r: Metrics)
    ensures r.errors == m.errors + 1
    ensures r.(errors := m.errors) == m
  {
    m.(errors := m.errors + 1)
  }

  /** One change to the dictionary: a completed turn's times, or an error. */
  datatype Event = Turn(times: StageTimes) | ErrorCounted

  /** The dictionary `m` after the changes `events`, in order. */
  function Apply(m: Metrics, events: seq<Event>): Metrics
  {
    if events == [] then m
    else
      var before := Apply(m, events[..|events| - 1]);
      match events[|events| - 1]
      case Turn(t) => Record(before, t)
      case ErrorCounted => CountError(before)
  }

  /** The dictionary after a history of changes, starting from `Initial`. */
  function Replay(history: seq<Event>): Metrics
  {
    Apply(Initial, history)
  }

  /** The stage times of the completed turns of a history, in order. */
  function CompletedTurns(history: seq<Event>): seq<StageTimes>
  {
    if history == [] then []
    else
      var rest := CompletedTurns(history[..|history| - 1]);
      match history[|history| - 1]
      case Turn(t) => rest + [t]
      case ErrorCounted => rest
  }

  /** The number of errors in a history. */
  function Errors(history: seq<Event>): nat
  {
    if history == [] then 0
    else Errors(history[..|history| - 1]) + if history[|history| - 1].ErrorCounted? then 1 else 0
  }

  function SttTimes(ts: seq<StageTimes>): (r: seq<real>)
    ensures |r| == |ts| && forall i :: 0 <= i < |ts| ==> r[i] == ts[i].stt
  {
    seq(|ts|, i requires 0 <= i < |ts| => ts[i].stt)
  }

  function AgentTimes(ts: seq<StageTimes>): (r: seq<real>)
    ensures |r| == |ts| && forall i :: 0 <= i < |ts| ==> r[i] == ts[i].agent
  {
    seq(|ts|, i requires 0 <= i < |ts| => ts[i].agent)
  }

  function TtsTimes(ts: seq<StageTimes>): (r: seq<real>)
    ensures |r| == |ts| && forall i :: 0 <= i < |ts| ==> r[i] == ts[i].tts
  {
    seq(|ts|, i requires 0 <= i < |ts| => ts[i].tts)
  }

  function TotalTimes(ts: seq<StageTimes>): (r: seq<real>)
    ensures |r| == |ts| && forall i :: 0 <= i < |ts| ==> r[i] == ts[i].total
  {
    seq(|ts|, i requires 0 <= i < |ts| => ts[i].total)
  }

  /** The running average of the mean of `s` with one more sample is the mean of
      the longer sequence. */
  lemma RunningAverageExtendsMean(s: seq<real>, x: real)
    ensures RunningAverage(Mean(s), |s|, x) == Mean(s + [x])
  {
    MeanTimesCount(s);
    SumAppend(s, x);
  }

  /** After any history starting from the initial dictionary, `total_turns` counts
      the completed turns, `errors` counts the errors, and each average is the
      mean of its samples over the completed turns. */
  lemma {:induction false} ReplayIsMean(history: seq<Event>)
    ensures var m := Replay(history); var ts := CompletedTurns(history);
      && m.totalTurns == |ts|
      && m.errors == Errors(history)
      && m.avgSttTime == Mean(SttTimes(ts))
      && m.avgAgentTime == Mean(AgentTimes(ts))
      && m.avgTtsTime == Mean(TtsTimes(ts))
      && m.avgTotalTime == Mean(TotalTimes(ts))
    decreases |history|
  {
    if history != [] {
      var h := history[..|history| - 1];
      ReplayIsMean(h);
      assert Replay(history) == Apply(Replay(h), [history[|history| - 1]]);
      var ts := CompletedTurns(h);
      match history[|history| - 1]
      case Turn(t) =>
        assert CompletedTurns(history) == ts + [t];
        assert SttTimes(ts + [t]) == SttTimes(ts) + [t.stt];
        assert AgentTimes(ts + [t]) == AgentTimes(ts) + [t.agent];
        assert TtsTimes(ts + [t]) == TtsTimes(ts) + [t.tts];
        assert TotalTimes(ts + [t]) == TotalTimes(ts) + [t.total];
        RunningAverageExtendsMean(SttTimes(ts), t.stt);
        RunningAverageExtendsMean(AgentTimes(ts), t.agent);
        RunningAverageExtendsMean(TtsTimes(ts), t.tts);
        RunningAverageExtendsMean(TotalTimes(ts), t.total);
      case ErrorCounted =>
    }
  }
}

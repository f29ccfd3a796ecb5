/**
 * The callback object the playbook engine drives: it remembers the playbook
 * name, the start time and every failure as the run goes, and at the end
 * turns them, with the per-host statistics, into one notification.
 */
module Callback {
  import opened Wrappers
  import opened Text
  import opened Report

  /** What the callback has recorded so far. */
  datatype RunState = RunState(
    playbookName: Option<string>, startTime: Option<int>, failedTasks: seq<FailureRecord>)

  /** The engine events that reach the callback before the final statistics. */
  datatype Event =
    | PlaybookStart(fileName: string, now: int)
    | RunnerFailed(host: string, task: string, result: map<string, string>, ignoreErrors: bool)
    | RunnerUnreachable(host: string, result: map<string, string>)

  /** A fresh callback: no name, no start time, no failures. */
  function Initial(): RunState
  {
    RunState(None, None, [])
  }

  /** The record of a failed task; its message is the result's `msg`, or empty when there is none. */
  function FailedRecord(host: string, task: string, result: map<string, string>): (r: FailureRecord)
    ensures r.host == host && r.task == task && r.result == result
    ensures "msg" in result ==> r.message == result["msg"]
    ensures "msg" !in result ==> r.message == ""
  {
    FailureRecord(host, task, if "msg" in result then result["msg"] else "", result)
  }

  /** The record of an unreachable host: always the task `Connection`, message `Host unreachable`. */
  function UnreachableRecord(host: string, result: map<string, string>): (r: FailureRecord)
    ensures r.host == host && r.result == result
    ensures r.task == "Connection" && r.message == "Host unreachable"
  {
    FailureRecord(host, "Connection", "Host unreachable", result)
  }

  /** The state after the callback has handled one event. */
  function Step(s: RunState, e: Event): RunState
  {
    match e
    case PlaybookStart(fileName, now) =>
      s.(playbookName := Some(Basename(fileName)), startTime := Some(now))
    case RunnerFailed(host, task, result, ignoreErrors) =>
      if ignoreErrors then s
      else s.(failedTasks := s.failedTasks + [FailedRecord(host, task, result)])
    case RunnerUnreachable(host, result) =>
      s.(failedTasks := s.failedTasks + [UnreachableRecord(host, result)])
  }

  /** The state after the callback has handled `events` in order, starting from `s`. */
  function Run(s: RunState, events: seq<Event>): RunState
    decreases |events|
  {
    if events == [] then s else Run(Step(s, events[0]), events[1..])
  }

  /** The records a single event contributes: one per unignored failure or unreachable host. */
  function Recorded(e: Event): seq<FailureRecord>
  {
    match e
    case PlaybookStart(_, _) => []
    case RunnerFailed(host, task, result, ignoreErrors) =>
      if ignoreErrors then [] else [FailedRecord(host, task, result)]
    case RunnerUnreachable(host, result) => [UnreachableRecord(host, result)]
  }

  /** The records of `events`, in event order. */
  function AllRecorded(events: seq<Event>): seq<FailureRecord>
  {
    if events == [] then [] else Recorded(events[0]) + AllRecorded(events[1..])
  }

  /** Handling two runs of events one after the other is handling them together. */
  lemma {:induction false} RunAppend(s: RunState, a: seq<Event>, b: seq<Event>)
    ensures Run(s, a + b) == Run(Run(s, a), b)
    decreases |a|
  {
    if a == [] {
      assert a + b == b;
    } else {
      assert (a + b)[1..] == a[1..] + b;
      RunAppend(Step(s, a[0]), a[1..], b);
    }
  }

  /**
   * The failure list only ever grows: after any events it is the old list
   * followed by exactly the records of those events, in order; a playbook
   * start never clears it.
   */
  lemma {:induction false} RunRecords(s: RunState, events: seq<Event>)
    ensures Run(s, events).failedTasks == s.failedTasks + AllRecorded(events)
    decreases |events|
  {
    if events != [] {
      RunRecords(Step(s, events[0]), events[1..]);
      assert Step(s, events[0]).failedTasks == s.failedTasks + Recorded(events[0]);
    }
  }

  /** A failure the engine marks as ignored makes no difference to anything the callback records. */
  lemma IgnoredFailureInvisible(s: RunState, before: seq<Event>, after: seq<Event>,
                                host: string, task: string, result: map<string, string>)
    ensures Run(s, before + [RunnerFailed(host, task, result, true)] + after) == Run(s, before + after)
  {
    var e := RunnerFailed(host, task, result, true);
    RunAppend(s, before + [e], after);
    RunAppend(s, before, [e]);
    RunAppend(s, before, after);
  }

  /** Where to post: the environment value if set and non-empty, else the configured option if non-empty. */
  function ResolveUrl(env: Option<string>, option: Option<string>): (url: Option<string>)
    ensures url.Some? ==> url.value != ""
    ensures url.Some? <==> (env.Some? && env.value != "") || (option.Some? && option.value != "")
    ensures env.Some? && env.value != "" ==> url == env
    ensures !(env.Some? && env.value != "") && option.Some? && option.value != "" ==> url == option
  {
    if env.Some? && env.value != "" then env
    else if option.Some? && option.value != "" then option
    else None
  }

  /** What the final event does: nothing when no URL is configured, else post the report to it. */
  datatype Notification = Skip | Post(url: string, text: string)

  function Notify(s: RunState, processed: map<string, HostStats>, now: int,
                  env: Option<string>, option: Option<string>): Notification
  {
    match ResolveUrl(env, option)
    case None => Skip
    case Some(url) =>
      Post(url, ReportText(s.playbookName, ElapsedSeconds(s.startTime, now), processed, s.failedTasks))
  }

  /**
   * The final event posts nothing exactly when no URL is configured; otherwise
   * it posts to the resolved URL a text whose title says FAILED exactly when
   * some processed host failed or was unreachable.
   */
  lemma NotificationMatchesRun(s: RunState, processed: map<string, HostStats>, now: int,
                               env: Option<string>, option: Option<string>)
    ensures Notify(s, processed, now, env, option).Skip? <==> ResolveUrl(env, option).None?
    ensures Notify(s, processed, now, env, option).Post? ==>
      Notify(s, processed, now, env, option).url == ResolveUrl(env, option).value
    ensures Notify(s, processed, now, env, option).Post? && RunFailed(processed) ==>
      StartsWith(Notify(s, processed, now, env, option).text,
                 "*❌ Playbook " + NameText(s.playbookName) + " FAILED*\n\n")
    ensures Notify(s, processed, now, env, option).Post? && !RunFailed(processed) ==>
      StartsWith(Notify(s, processed, now, env, option).text,
                 "*✅ Playbook " + NameText(s.playbookName) + " SUCCESS*\n\n")
  {
    ReportTitleMatchesStatus(s.playbookName, ElapsedSeconds(s.startTime, now), processed, s.failedTasks);
  }

  class CallbackModule {
    var playbookName: Option<string>
    var startTime: Option<int>
    var failedTasks: seq<FailureRecord>

    function State(): RunState
      reads this
    {
      RunState(playbookName, startTime, failedTasks)
    }

    constructor ()
      ensures State() == Initial()
    {
      playbookName := None;
      startTime := None;
      failedTasks := [];
    }

    /** Remembers the playbook's file name (without its directories) and the start time. */
    method OnPlaybookStart(fileName: string, now: int)
      modifies this
      ensures State() == Step(old(State()), PlaybookStart(fileName, now))
      ensures playbookName == Some(Basename(fileName)) && startTime == Some(now)
      ensures failedTasks == old(failedTasks)
    {
      playbookName := Some(Basename(fileName));
      startTime := Some(now);
    }

    /** Records a failed task unless the engine says its failure is ignored. */
    method OnRunnerFailed(host: string, task: string, result: map<string, string>, ignoreErrors: bool)
      modifies this
      ensures State() == Step(old(State()), RunnerFailed(host, task, result, ignoreErrors))
      ensures ignoreErrors ==> failedTasks == old(failedTasks)
      ensures !ignoreErrors ==> failedTasks == old(failedTasks) + [FailedRecord(host, task, result)]
      ensures playbookName == old(playbookName) && startTime == old(startTime)
    {
      if !ignoreErrors {
        var message := if "msg" in result then result["msg"] else "";
        var errorDetail := FailureRecord(host, task, message, result);
        failedTasks := failedTasks + [errorDetail];
      }
    }

    /** Records an unreachable host as a failed `Connection` task, whatever the result holds. */
    method OnRunnerUnreachable(host: string, result: map<string, string>)
      modifies this
      ensures State() == Step(old(State()), RunnerUnreachable(host, result))
      ensures |failedTasks| == |old(failedTasks)| + 1
      ensures failedTasks[..|failedTasks| - 1] == old(failedTasks)
      ensures failedTasks[|failedTasks| - 1].task == "Connection"
      ensures failedTasks[|failedTasks| - 1].message == "Host unreachable"
      ensures failedTasks[|failedTasks| - 1].host == host
      ensures playbookName == old(playbookName) && startTime == old(startTime)
    {
      var errorDetail := FailureRecord(host, "Connection", "Host unreachable", result);
      failedTasks := failedTasks + [errorDetail];
    }

    /**
     * The end of the run: resolve the URL, sum the hosts' statistics, decide
     * the status and build the payload; `now` is the clock reading at this event.
     */
    method OnPlaybookStats(processed: map<string, HostStats>, now: int,
                           env: Option<string>, option: Option<string>)
      returns (n: Notification)
      ensures n == Notify(State(), processed, now, env, option)
    {
      var url := ResolveUrl(env, option);
      if url.None? {
        return Skip;
      }
      var duration := ElapsedSeconds(startTime, now);
      var hosts := SortedKeys(processed.Keys);
      var summary := Summarize(hosts, processed);
      var failing := HasFailures(summary);
      var durationText := FormatDuration(duration);
      var name := NameText(playbookName);
      var title := Title(name, failing);
      var message;
      if failing {
        var lines := FailureLines(name, durationText, summary, failedTasks);
        message := Join(lines, "\n");
      } else {
        message := Join(SuccessLines(name, durationText, summary, hosts), "\n");
      }
      n := Post(url.value, Payload(title, message));
    }
  }
}

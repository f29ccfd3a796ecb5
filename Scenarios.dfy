/**
 * Worked runs of the notifier, from the first event to the posted text.
 *
 * Concrete statistics, records and host sets enter these lemmas as parameters
 * fixed by a `requires x == ...` clause rather than as literals written in
 * place: with a literal argument the verifier unfolds `SortedKeys` and the
 * report text without bound. The small lemmas that only rewrite a text built
 * from a parameter into the literal it equals (WebHostsLine, SiteTitle,
 * DeployTitle, DeployErrorsTail) serve the same purpose.
 */
module Scenarios {
  import opened Wrappers
  import opened Text
  import opened Report
  import opened Callback

  /** Under a minute the duration is the bare number of seconds. */
  lemma ShortDuration()
    ensures FormatDuration(45) == "45s"
  {
  }

  /** From a minute on, minutes and the remaining seconds. */
  lemma LongDuration()
    ensures FormatDuration(125) == "2m 5s"
  {
  }

  /** A run that never saw its start reports zero seconds, whatever the clock says. */
  lemma UnstartedDuration(now: int)
    ensures FormatDuration(ElapsedSeconds(None, now)) == "0s"
  {
  }

  /** A file name without directories is its own base name. */
  lemma BasenamePlain(path: string)
    requires '/' !in path
    ensures Basename(path) == path
  {
  }

  /** The base name of `dir/file` is `file`. */
  lemma {:induction false} BasenameAfterSlash(dir: string, file: string)
    requires '/' !in file
    ensures Basename(dir + "/" + file) == file
    decreases |file|
  {
    var p := dir + "/" + file;
    if file == [] {
      assert p[|p| - 1] == '/';
    } else {
      var f := file[..|file| - 1];
      assert p[..|p| - 1] == dir + "/" + f;
      assert p[|p| - 1] == file[|file| - 1];
      assert '/' !in f by { assert forall i :: 0 <= i < |f| ==> f[i] == file[i]; }
      BasenameAfterSlash(dir, f);
      assert f + [file[|file| - 1]] == file;
    }
  }

  /** Starting `playbooks/site.yml` records `site.yml` and the time, and no failure. */
  lemma StartedRunState(now: int)
    ensures Run(Initial(), [PlaybookStart("playbooks/site.yml", now)]) == RunState(Some("site.yml"), Some(now), [])
  {
    SingleStart(Initial(), "playbooks/site.yml", now);
    SiteBasename("playbooks/site.yml");
  }

  /** Helper: the base name of `playbooks/site.yml`, with the path kept abstract. */
  lemma SiteBasename(path: string)
    requires path == "playbooks/site.yml"
    ensures Basename(path) == "site.yml"
  {
    assert path == "playbooks" + "/" + "site.yml";
    BasenameAfterSlash("playbooks", "site.yml");
  }

  /** Helper: a run of one start event is one Step, stated over an abstract path. */
  lemma SingleStart(s: RunState, path: string, now: int)
    ensures Run(s, [PlaybookStart(path, now)]) == s.(playbookName := Some(Basename(path)), startTime := Some(now))
  {
    assert [PlaybookStart(path, now)][1..] == [];
  }

  /** Two host names come out of the sorting in string order. */
  lemma WebHostsSorted(keys: set<string>)
    requires keys == {"web2", "web1"}
    ensures SortedKeys(keys) == ["web1", "web2"]
  {
    assert Below("web1", "web2");
    SortedKeysUnique(keys, ["web1", "web2"]);
  }

  /** Two hosts, `web2` and `web1`, neither of which failed a task or was unreachable. */
  lemma WebStats(processed: map<string, HostStats>)
    requires processed == map["web2" := HostStats(3, 1, 0, 0, 0, 0, 0), "web1" := HostStats(3, 0, 0, 0, 1, 0, 0)]
    ensures SortedKeys(processed.Keys) == ["web1", "web2"]
    ensures !RunFailed(processed)
  {
    assert processed.Keys == {"web2", "web1"};
    WebHostsSorted(processed.Keys);
    forall h | h in processed ensures !HostFailed(processed[h]) { }
  }

  /** A text that ends with the joined list of `web1` and `web2` ends with their line. */
  lemma WebHostsLine(t: string, hosts: seq<string>)
    requires hosts == ["web1", "web2"]
    requires EndsWith(t, "Hosts: " + Join(hosts, ", "))
    ensures EndsWith(t, "Hosts: web1, web2")
  {
    assert Join(["web1", "web2"], ", ") == "web1, web2";
  }

  /** A run in which no host failed, with `web1` and `web2` as its hosts. */
  lemma WebHostsReport(name: Option<string>, elapsed: int, processed: map<string, HostStats>, failed: seq<FailureRecord>)
    requires !RunFailed(processed)
    requires SortedKeys(processed.Keys) == ["web1", "web2"]
    ensures StartsWith(ReportText(name, elapsed, processed, failed), "*✅ Playbook " + NameText(name) + " SUCCESS*\n\n")
    ensures EndsWith(ReportText(name, elapsed, processed, failed), "Hosts: web1, web2")
  {
    ReportTitleMatchesStatus(name, elapsed, processed, failed);
    SuccessReportListsHosts(name, elapsed, processed, failed);
    WebHostsLine(ReportText(name, elapsed, processed, failed), SortedKeys(processed.Keys));
  }

  /** The title of a report on `site.yml` that starts with the SUCCESS title of that name. */
  lemma SiteTitle(t: string, name: string)
    requires name == "site.yml"
    requires StartsWith(t, "*✅ Playbook " + name + " SUCCESS*\n\n")
    ensures StartsWith(t, "*✅ Playbook site.yml SUCCESS*\n\n")
  {
  }

  /**
   * A run of `playbooks/site.yml` whose two hosts only report ok, changed or
   * skipped tasks: the payload carries the SUCCESS title with the file's base
   * name and ends with both host names in order.
   */
  lemma SuccessfulRun(now: int, later: int, processed: map<string, HostStats>)
    requires processed == map["web2" := HostStats(3, 1, 0, 0, 0, 0, 0), "web1" := HostStats(3, 0, 0, 0, 1, 0, 0)]
    ensures
      var s := Run(Initial(), [PlaybookStart("playbooks/site.yml", now)]);
      var text := ReportText(s.playbookName, ElapsedSeconds(s.startTime, later), processed, s.failedTasks);
      StartsWith(text, "*✅ Playbook site.yml SUCCESS*\n\n") && EndsWith(text, "Hosts: web1, web2")
  {
    StartedRunState(now);
    WebStats(processed);
    var s := Run(Initial(), [PlaybookStart("playbooks/site.yml", now)]);
    var text := ReportText(s.playbookName, ElapsedSeconds(s.startTime, later), processed, s.failedTasks);
    WebHostsReport(s.playbookName, ElapsedSeconds(s.startTime, later), processed, s.failedTasks);
    SiteTitle(text, NameText(s.playbookName));
  }

  /** The events of a run with one failed task. */
  function FailedRunEvents(now: int): seq<Event>
  {
    [PlaybookStart("deploy.yml", now), RunnerFailed("db1", "migrate", map["msg" := "timeout", "stderr" := ""], false)]
  }

  /** After those events the callback holds the playbook's name, its start and the one failure. */
  lemma FailedRunState(now: int)
    ensures Run(Initial(), FailedRunEvents(now))
         == RunState(Some("deploy.yml"), Some(now),
                     [FailureRecord("db1", "migrate", "timeout", map["msg" := "timeout", "stderr" := ""])])
  {
    var events := FailedRunEvents(now);
    TwoEvents(Initial(), events[0], events[1]);
    DeployBasename("deploy.yml");
  }

  /** Helper: a run of two events is two Steps. */
  lemma TwoEvents(s: RunState, first: Event, second: Event)
    ensures Run(s, [first, second]) == Step(Step(s, first), second)
  {
    assert [first, second][1..] == [second] && [second][1..] == [];
    assert Run(s, [first, second]) == Run(Step(s, first), [second]);
    assert Run(Step(s, first), [second]) == Run(Step(Step(s, first), second), []);
  }

  /** Helper: the base name of `deploy.yml`, with the path kept abstract. */
  lemma DeployBasename(path: string)
    requires path == "deploy.yml"
    ensures Basename(path) == "deploy.yml"
  {
    BasenamePlain(path);
  }

  /** The error block of that failure: its four header lines and no STDERR, since that entry is empty. */
  lemma FirstErrorBlock(e: FailureRecord)
    requires e == FailureRecord("db1", "migrate", "timeout", map["msg" := "timeout", "stderr" := ""])
    ensures ErrorBlock(1, e) == ["\n[Error 1]", "Host: db1", "Task: migrate", "Message: timeout"]
  {
    assert !HasText(e.result, "stderr") && !HasText(e.result, "stdout") && "exception" !in e.result;
    assert Decimal(1) == "1";
    assert ErrorBlock(1, e) == ErrorHeader(1, e);
    assert "\n[Error " + Decimal(1) + "]" == "\n[Error 1]";
    assert "Host: " + e.host == "Host: db1";
    assert "Task: " + e.task == "Task: migrate";
    assert "Message: " + e.message == "Message: timeout";
    assert ErrorHeader(1, e) == ["\n[Error " + Decimal(1) + "]", "Host: " + e.host, "Task: " + e.task, "Message: " + e.message];
  }

  /** The title of a report on `deploy.yml` that starts with the FAILED title of that name. */
  lemma DeployTitle(t: string, name: string)
    requires name == "deploy.yml"
    requires StartsWith(t, "*❌ Playbook " + name + " FAILED*\n\n")
    ensures StartsWith(t, "*❌ Playbook deploy.yml FAILED*\n\n")
  {
  }

  /** The error section of a single failure is that failure's block, numbered 1. */
  lemma SingleErrorSection(failed: seq<FailureRecord>)
    requires |failed| == 1
    ensures ErrorSection(failed, 1) == ErrorBlock(1, failed[0])
  {
    assert failed[..0] == [];
  }

  /** The lines of the `db1` block, joined by newlines. */
  lemma DeployBlockJoined(block: seq<string>)
    requires block == ["\n[Error 1]", "Host: db1", "Task: migrate", "Message: timeout"]
    ensures Join(block, "\n") == "\n[Error 1]\nHost: db1\nTask: migrate\nMessage: timeout"
  {
    var one, two, three := block[..1], block[..2], block[..3];
    assert two[..1] == one && three[..2] == two && block[..3] == three;
    assert Join(one, "\n") == "\n[Error 1]";
    assert Join(two, "\n") == "\n[Error 1]\nHost: db1";
    assert Join(three, "\n") == "\n[Error 1]\nHost: db1\nTask: migrate";
  }

  /** A text ending with the Errors heading and the `db1` block ends with their joined text. */
  lemma DeployErrorsTail(t: string, section: seq<string>)
    requires section == ["\n[Error 1]", "Host: db1", "Task: migrate", "Message: timeout"]
    requires EndsWith(t, "\U{1F525} Errors:" + Tail(section))
    ensures EndsWith(t, "\U{1F525} Errors:" + "\n" + "\n[Error 1]\nHost: db1\nTask: migrate\nMessage: timeout")
  {
    DeployBlockJoined(section);
    assert "\U{1F525} Errors:" + Tail(section)
        == "\U{1F525} Errors:" + "\n" + "\n[Error 1]\nHost: db1\nTask: migrate\nMessage: timeout";
  }

  /**
   * One failed task on one host, then the final statistics: the payload
   * carries the FAILED title and ends with the Errors heading and the block
   * naming that host, task and message; the empty STDERR is left out.
   */
  lemma FailedRun(now: int, later: int, processed: map<string, HostStats>)
    requires processed == map["db1" := HostStats(2, 0, 0, 1, 0, 0, 0)]
    ensures
      var s := Run(Initial(), FailedRunEvents(now));
      var text := ReportText(s.playbookName, ElapsedSeconds(s.startTime, later), processed, s.failedTasks);
      && |s.failedTasks| == 1
      && StartsWith(text, "*❌ Playbook deploy.yml FAILED*\n\n")
      && ErrorBlock(1, s.failedTasks[0]) == ["\n[Error 1]", "Host: db1", "Task: migrate", "Message: timeout"]
      && EndsWith(text, "\U{1F525} Errors:" + "\n" + "\n[Error 1]\nHost: db1\nTask: migrate\nMessage: timeout")
  {
    FailedRunState(now);
    var s := Run(Initial(), FailedRunEvents(now));
    FirstErrorBlock(s.failedTasks[0]);
    assert RunFailed(processed) by { assert "db1" in processed; }
    var elapsed := ElapsedSeconds(s.startTime, later);
    var text := ReportText(s.playbookName, elapsed, processed, s.failedTasks);
    ReportTitleMatchesStatus(s.playbookName, elapsed, processed, s.failedTasks);
    DeployTitle(text, NameText(s.playbookName));
    FailureReportListsErrors(s.playbookName, elapsed, processed, s.failedTasks);
    SingleErrorSection(s.failedTasks);
    DeployErrorsTail(text, ErrorSection(s.failedTasks, 1));
  }
}

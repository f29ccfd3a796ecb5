/**
 * The deterministic part of `v2_playbook_on_stats`: summing the per-host
 * statistics, deciding the run's status, formatting the duration and building
 * the title, the message body and the `text` payload that is posted.
 */
module Report {
  import opened Wrappers
  import opened Text

  /** One host's counters, as `stats.summarize(host)` hands them over. */
  datatype HostStats = HostStats(
    ok: nat, changed: nat, unreachable: nat, failures: nat,
    skipped: nat, rescued: nat, ignored: nat)

  /** The seven keys of a per-host summary. */
  datatype Category = Ok | Changed | Unreachable | Failures | Skipped | Rescued | Ignored

  function Count(s: HostStats, c: Category): nat
  {
    match c
    case Ok => s.ok
    case Changed => s.changed
    case Unreachable => s.unreachable
    case Failures => s.failures
    case Skipped => s.skipped
    case Rescued => s.rescued
    case Ignored => s.ignored
  }

  /** The run-wide `summary` dictionary; its `failed` entry collects the hosts' `failures`. */
  datatype Summary = Summary(
    ok: nat, changed: nat, unreachable: nat, failed: nat,
    skipped: nat, rescued: nat, ignored: nat)

  /**
   * A failure the callback recorded: host, task, short message and the
   * engine's whole result mapping (only its string entries are modelled).
   */
  datatype FailureRecord = FailureRecord(host: string, task: string, message: string, result: map<string, string>)

  // ---------------------------------------------------------------------------
  // Aggregation

  predicate Covers(hosts: seq<string>, processed: map<string, HostStats>)
  {
    forall h :: h in hosts ==> h in processed
  }

  /** The sum over `hosts` of one counter. */
  function SumOf(hosts: seq<string>, processed: map<string, HostStats>, c: Category): nat
    requires Covers(hosts, processed)
  {
    if hosts == [] then 0
    else SumOf(hosts[..|hosts| - 1], processed, c) + Count(processed[hosts[|hosts| - 1]], c)
  }

  /** Each run-wide counter is the sum of the matching per-host counter. */
  function Tally(hosts: seq<string>, processed: map<string, HostStats>): Summary
    requires Covers(hosts, processed)
  {
    Summary(
      SumOf(hosts, processed, Ok), SumOf(hosts, processed, Changed),
      SumOf(hosts, processed, Unreachable), SumOf(hosts, processed, Failures),
      SumOf(hosts, processed, Skipped), SumOf(hosts, processed, Rescued),
      SumOf(hosts, processed, Ignored))
  }

  /** The accumulation loop over the sorted hosts. */
  method Summarize(hosts: seq<string>, processed: map<string, HostStats>) returns (summary: Summary)
    requires Covers(hosts, processed)
    ensures summary == Tally(hosts, processed)
  {
    summary := Summary(0, 0, 0, 0, 0, 0, 0);
    var i := 0;
    while i < |hosts|
      invariant 0 <= i <= |hosts|
      invariant Covers(hosts[..i], processed)
      invariant summary == Tally(hosts[..i], processed)
    {
      var s := processed[hosts[i]];
      summary := summary.(
        ok := summary.ok + s.ok,
        changed := summary.changed + s.changed,
        unreachable := summary.unreachable + s.unreachable,
        failed := summary.failed + s.failures,
        skipped := summary.skipped + s.skipped,
        rescued := summary.rescued + s.rescued,
        ignored := summary.ignored + s.ignored);
      assert hosts[..i + 1][..i] == hosts[..i];
      i := i + 1;
    }
    assert hosts[..i] == hosts;
  }

  // ---------------------------------------------------------------------------
  // Status

  /** `has_failures`: some task failed or some host was unreachable. */
  predicate HasFailures(s: Summary)
  {
    s.failed > 0 || s.unreachable > 0
  }

  /** The `status` string. */
  function StatusName(s: Summary): (r: string)
    ensures r == "failed" || r == "success"
    ensures r == "failed" <==> s.failed > 0 || s.unreachable > 0
  {
    if HasFailures(s) then "failed" else "success"
  }

  predicate HostFailed(s: HostStats)
  {
    s.failures > 0 || s.unreachable > 0
  }

  lemma {:induction false} SumPositive(hosts: seq<string>, processed: map<string, HostStats>, c: Category)
    requires Covers(hosts, processed)
    ensures SumOf(hosts, processed, c) > 0 <==> exists i :: 0 <= i < |hosts| && Count(processed[hosts[i]], c) > 0
  {
    if hosts != [] {
      var init := hosts[..|hosts| - 1];
      SumPositive(init, processed, c);
      if SumOf(init, processed, c) > 0 {
        var i :| 0 <= i < |init| && Count(processed[init[i]], c) > 0;
        assert hosts[i] == init[i];
      }
      if exists i :: 0 <= i < |hosts| && Count(processed[hosts[i]], c) > 0 {
        var i :| 0 <= i < |hosts| && Count(processed[hosts[i]], c) > 0;
        if i < |init| {
          assert init[i] == hosts[i];
        }
      }
    }
  }

  /** The run counts as failed exactly when one of its hosts had a failure or was unreachable. */
  lemma TallyFailsIffSomeHostFails(hosts: seq<string>, processed: map<string, HostStats>)
    requires Covers(hosts, processed)
    ensures HasFailures(Tally(hosts, processed)) <==> exists i :: 0 <= i < |hosts| && HostFailed(processed[hosts[i]])
  {
    SumPositive(hosts, processed, Failures);
    SumPositive(hosts, processed, Unreachable);
  }

  // ---------------------------------------------------------------------------
  // Duration

  const MicrosPerSecond: nat := 1000000

  /**
   * `int()` of the elapsed time between two clock readings taken in
   * microseconds, truncated toward zero; 0 when no start was recorded.
   */
  function ElapsedSeconds(start: Option<int>, now: int): (d: int)
    ensures start.None? ==> d == 0
    ensures start.Some? && start.value <= now ==>
      0 <= d && d * MicrosPerSecond <= now - start.value < (d + 1) * MicrosPerSecond
    ensures start.Some? && now < start.value ==>
      d <= 0 && -d * MicrosPerSecond <= start.value - now < (-d + 1) * MicrosPerSecond
  {
    match start
    case None => 0
    case Some(t) =>
      if t <= now then (now - t) / MicrosPerSecond else -((t - now) / MicrosPerSecond)
  }

  /** `Ns` below a minute, `Mm Ss` from a minute on. */
  function FormatDuration(d: int): (r: string)
    ensures EndsWith(r, "s")
    ensures 'm' in r <==> d >= 60
  {
    if d >= 60 then
      var r := Decimal(d / 60) + "m " + Decimal(d % 60) + "s";
      assert r[|Decimal(d / 60)|] == 'm';
      r
    else
      var r := IntText(d) + "s";
      assert forall i :: 0 <= i < |IntText(d)| ==> r[i] == IntText(d)[i];
      r
  }

  /** Reads a duration text back: minutes and seconds, the seconds below 60. */
  function ParseDuration(t: string): Option<int>
  {
    if |t| == 0 || t[|t| - 1] != 's' then None
    else
      var body := t[..|t| - 1];
      match IndexOf(body, 'm')
      case None =>
        (match ParseInt(body)
         case Some(v) => if v < 60 then Some(v) else None
         case None => None)
      case Some(i) =>
        if i + 1 < |body| && body[i + 1] == ' ' then
          match (ParseDecimal(body[..i]), ParseDecimal(body[i + 2..]))
          case (Some(minutes), Some(seconds)) =>
            if 1 <= minutes && seconds < 60 then Some(minutes * 60 + seconds) else None
          case _ => None
        else None
  }

  /**
   * The duration text determines the duration: it reads back as minutes and
   * seconds below 60 with minutes * 60 + seconds == d, or as d itself below a minute.
   */
  lemma DurationRoundTrip(d: int)
    ensures ParseDuration(FormatDuration(d)) == Some(d)
  {
    if d >= 60 {
      MinutesRoundTrip(d);
    } else {
      var t := FormatDuration(d);
      assert t[..|t| - 1] == IntText(d);
      IntRoundTrip(d);
    }
  }

  /** Helper: DurationRoundTrip from a minute on. */
  lemma MinutesRoundTrip(d: int)
    requires d >= 60
    ensures ParseDuration(FormatDuration(d)) == Some(d)
  {
    var a, b := Decimal(d / 60), Decimal(d % 60);
    assert FormatDuration(d) == a + "m " + b + "s";
    ReadMinutes(a, b);
    DecimalRoundTrip(d / 60);
    DecimalRoundTrip(d % 60);
  }

  /** Helper: how ParseDuration reads a text with a minutes part. */
  lemma ReadMinutes(a: string, b: string)
    requires 'm' !in a
    ensures ParseDuration(a + "m " + b + "s")
         == match (ParseDecimal(a), ParseDecimal(b))
            case (Some(minutes), Some(seconds)) =>
              if 1 <= minutes && seconds < 60 then Some(minutes * 60 + seconds) else None
            case _ => None
  {
    var t := a + "m " + b + "s";
    var body := t[..|t| - 1];
    assert body == a + ['m'] + ([' '] + b);
    IndexOfAfter(a, 'm', [' '] + b);
    assert body[..|a|] == a;
    assert body[|a| + 2..] == b;
  }

  /**
   * Every text the reader accepts is the text of what it reads, so
   * `FormatDuration` is the one spelling of each duration: no leading zeros,
   * no `0m`, seconds below 60 after the minutes.
   */
  lemma DurationExact(t: string)
    requires ParseDuration(t).Some?
    ensures FormatDuration(ParseDuration(t).value) == t
  {
    var body := t[..|t| - 1];
    assert t == body + "s";
    match IndexOf(body, 'm')
    case None =>
      IntTextExact(body);
    case Some(i) =>
      MinutesExact(t, body, i);
  }

  /** Helper: DurationExact for a text with a minutes part. */
  lemma MinutesExact(t: string, body: string, i: nat)
    requires ParseDuration(t).Some? && |t| > 0 && body == t[..|t| - 1]
    requires IndexOf(body, 'm') == Some(i)
    ensures FormatDuration(ParseDuration(t).value) == t
  {
    var a, b := body[..i], body[i + 2..];
    ParseDecimalExact(a);
    ParseDecimalExact(b);
    var minutes, seconds := ParseDecimal(a).value, ParseDecimal(b).value;
    var d := minutes * 60 + seconds;
    assert ParseDuration(t).value == d;
    assert d / 60 == minutes && d % 60 == seconds;
    assert body == a + "m " + b;
    assert t == body + "s";
  }

  // ---------------------------------------------------------------------------
  // Message text

  /** `'key' in result and result['key']`: present and non-empty. */
  predicate HasText(result: map<string, string>, key: string)
  {
    key in result && result[key] != ""
  }

  /** Some line of `lines` starts with `tag`. */
  predicate HasLine(lines: seq<string>, tag: string)
  {
    exists i :: 0 <= i < |lines| && StartsWith(lines[i], tag)
  }

  function Flag(b: bool): nat { if b then 1 else 0 }

  /** The four lines that open every error block. */
  function ErrorHeader(index: nat, e: FailureRecord): seq<string>
  {
    ["\n[Error " + Decimal(index) + "]", "Host: " + e.host, "Task: " + e.task, "Message: " + e.message]
  }

  /** A headed block of the entry `key` of a result, when `shown`. */
  function Detail(shown: bool, heading: string, result: map<string, string>, key: string): seq<string>
    requires shown ==> key in result
  {
    if shown then [heading + result[key]] else []
  }

  /**
   * The lines of one numbered error: header, host, task and message, then a
   * STDERR and a STDOUT block when that entry is present and non-empty, and an
   * Exception block whenever the entry is present.
   */
  function ErrorBlock(index: nat, e: FailureRecord): (lines: seq<string>)
    ensures |lines| == 4 + Flag(HasText(e.result, "stderr")) + Flag(HasText(e.result, "stdout"))
                         + Flag("exception" in e.result)
    ensures lines[..4] == ErrorHeader(index, e)
    ensures HasText(e.result, "stderr") ==> lines[4] == "STDERR:\n" + e.result["stderr"]
    ensures HasText(e.result, "stdout") ==>
      lines[4 + Flag(HasText(e.result, "stderr"))] == "STDOUT:\n" + e.result["stdout"]
    ensures "exception" in e.result ==> lines[|lines| - 1] == "Exception:\n" + e.result["exception"]
  {
    var lines := ErrorHeader(index, e)
      + Detail(HasText(e.result, "stderr"), "STDERR:\n", e.result, "stderr")
      + Detail(HasText(e.result, "stdout"), "STDOUT:\n", e.result, "stdout")
      + Detail("exception" in e.result, "Exception:\n", e.result, "exception");
    assert lines[..4] == ErrorHeader(index, e);
    lines
  }

  /** Helper: a line of a concatenation is a line of one of its parts. */
  lemma HasLineConcat(a: seq<string>, b: seq<string>, tag: string)
    ensures HasLine(a + b, tag) <==> HasLine(a, tag) || HasLine(b, tag)
  {
    if HasLine(a + b, tag) {
      var i :| 0 <= i < |a + b| && StartsWith((a + b)[i], tag);
      if i >= |a| { assert (a + b)[i] == b[i - |a|]; }
    }
    if HasLine(a, tag) {
      var i :| 0 <= i < |a| && StartsWith(a[i], tag);
      assert (a + b)[i] == a[i];
    }
    if HasLine(b, tag) {
      var i :| 0 <= i < |b| && StartsWith(b[i], tag);
      assert (a + b)[i + |a|] == b[i];
    }
  }

  /** Helper: a line that differs from `tag` at position `k` does not start with it. */
  lemma NotTagged(line: string, tag: string, k: nat)
    requires k < |line| && k < |tag| && line[k] != tag[k]
    ensures !StartsWith(line, tag)
  {
  }

  /** Helper: none of the four header lines starts with a detail heading. */
  lemma HeaderUntagged(index: nat, e: FailureRecord, tag: string)
    requires tag == "STDERR:\n" || tag == "STDOUT:\n" || tag == "Exception:\n"
    ensures !HasLine(ErrorHeader(index, e), tag)
  {
    var head := ErrorHeader(index, e);
    forall i | 0 <= i < 4 ensures !StartsWith(head[i], tag) {
      NotTagged(head[i], tag, 0);
    }
  }

  /** Helper: a detail block has a line starting with `tag` exactly when it is shown and its heading does. */
  lemma DetailTagged(shown: bool, heading: string, result: map<string, string>, key: string, tag: string)
    requires shown ==> key in result
    ensures HasLine(Detail(shown, heading, result, key), tag) <==> shown && StartsWith(heading + result[key], tag)
  {
    if shown {
      assert Detail(shown, heading, result, key)[0] == heading + result[key];
    }
  }

  /** Helper: a heading followed by text starts with the heading. */
  lemma Headed(heading: string, text: string)
    ensures StartsWith(heading + text, heading)
  {
    assert (heading + text)[..|heading|] == heading;
  }

  /** The lines of an error block that start with `tag` are among its optional blocks. */
  lemma ErrorBlockTagged(index: nat, e: FailureRecord, tag: string)
    requires tag == "STDERR:\n" || tag == "STDOUT:\n" || tag == "Exception:\n"
    ensures HasLine(ErrorBlock(index, e), tag) <==>
      (HasText(e.result, "stderr") && StartsWith("STDERR:\n" + e.result["stderr"], tag))
      || (HasText(e.result, "stdout") && StartsWith("STDOUT:\n" + e.result["stdout"], tag))
      || ("exception" in e.result && StartsWith("Exception:\n" + e.result["exception"], tag))
  {
    var r := e.result;
    var head := ErrorHeader(index, e);
    var err := Detail(HasText(r, "stderr"), "STDERR:\n", r, "stderr");
    var out := Detail(HasText(r, "stdout"), "STDOUT:\n", r, "stdout");
    var exc := Detail("exception" in r, "Exception:\n", r, "exception");
    assert ErrorBlock(index, e) == head + err + out + exc;
    HasLineConcat(head + err + out, exc, tag);
    HasLineConcat(head + err, out, tag);
    HasLineConcat(head, err, tag);
    HeaderUntagged(index, e, tag);
    DetailTagged(HasText(r, "stderr"), "STDERR:\n", r, "stderr", tag);
    DetailTagged(HasText(r, "stdout"), "STDOUT:\n", r, "stdout", tag);
    DetailTagged("exception" in r, "Exception:\n", r, "exception", tag);
  }

  /**
   * An error block has a STDERR (STDOUT) line exactly when that entry is
   * present and non-empty, and an Exception line exactly when that entry is
   * present, empty or not.
   */
  lemma ErrorBlockDetails(index: nat, e: FailureRecord)
    ensures HasLine(ErrorBlock(index, e), "STDERR:\n") <==> HasText(e.result, "stderr")
    ensures HasLine(ErrorBlock(index, e), "STDOUT:\n") <==> HasText(e.result, "stdout")
    ensures HasLine(ErrorBlock(index, e), "Exception:\n") <==> "exception" in e.result
  {
    var r := e.result;
    ErrorBlockTagged(index, e, "STDERR:\n");
    ErrorBlockTagged(index, e, "STDOUT:\n");
    ErrorBlockTagged(index, e, "Exception:\n");
    if HasText(r, "stderr") {
      Headed("STDERR:\n", r["stderr"]);
      NotTagged("STDERR:\n" + r["stderr"], "STDOUT:\n", 3);
      NotTagged("STDERR:\n" + r["stderr"], "Exception:\n", 0);
    }
    if HasText(r, "stdout") {
      Headed("STDOUT:\n", r["stdout"]);
      NotTagged("STDOUT:\n" + r["stdout"], "STDERR:\n", 3);
      NotTagged("STDOUT:\n" + r["stdout"], "Exception:\n", 0);
    }
    if "exception" in r {
      Headed("Exception:\n", r["exception"]);
      NotTagged("Exception:\n" + r["exception"], "STDERR:\n", 0);
      NotTagged("Exception:\n" + r["exception"], "STDOUT:\n", 0);
    }
  }

  /** The error blocks of `records`, numbered from `first` in order. */
  function ErrorSection(records: seq<FailureRecord>, first: nat): seq<string>
  {
    if records == [] then []
    else ErrorSection(records[..|records| - 1], first)
         + ErrorBlock(first + |records| - 1, records[|records| - 1])
  }

  /** Helper: the definition of ErrorSection at its last record, stated once for its callers. */
  lemma ErrorSectionLast(records: seq<FailureRecord>, first: nat)
    requires records != []
    ensures ErrorSection(records, first)
         == ErrorSection(records[..|records| - 1], first)
          + ErrorBlock(first + |records| - 1, records[|records| - 1])
  {
  }

  /** Helper: concatenation regrouped, stated over plain sequences so its callers stay cheap. */
  lemma Regroup(x: seq<string>, y: seq<string>, z: seq<string>)
    ensures (x + y) + z == x + (y + z)
  {
  }

  lemma {:induction false} ErrorSectionAppend(a: seq<FailureRecord>, b: seq<FailureRecord>, first: nat)
    ensures ErrorSection(a + b, first) == ErrorSection(a, first) + ErrorSection(b, first + |a|)
    decreases |b|
  {
    if b == [] {
      assert a + b == a;
    } else {
      var ab, b' := a + b, b[..|b| - 1];
      assert ab[..|ab| - 1] == a + b' && ab[|ab| - 1] == b[|b| - 1];
      ErrorSectionLast(ab, first);
      ErrorSectionLast(b, first + |a|);
      ErrorSectionAppend(a, b', first);
      Regroup(ErrorSection(a, first), ErrorSection(b', first + |a|), ErrorBlock(first + |ab| - 1, b[|b| - 1]));
    }
  }

  lemma ErrorSectionSnoc(records: seq<FailureRecord>, j: nat)
    requires j < |records|
    ensures ErrorSection(records[..j + 1], 1) == ErrorSection(records[..j], 1) + ErrorBlock(j + 1, records[j])
  {
    assert records[..j + 1][..j] == records[..j];
  }

  /**
   * The error section is block j (numbered j + 1) preceded by exactly the
   * blocks of the records before it and followed by those after it.
   */
  lemma ErrorSectionAt(records: seq<FailureRecord>, j: nat)
    requires j < |records|
    ensures ErrorSection(records, 1)
         == ErrorSection(records[..j], 1) + ErrorBlock(j + 1, records[j])
          + ErrorSection(records[j + 1..], j + 2)
  {
    var before, after := records[..j + 1], records[j + 1..];
    assert records == before + after;
    ErrorSectionAppend(before, after, 1);
    ErrorSectionSnoc(records, j);
  }

  /** The playbook name as an f-string shows it: `None` before any start event. */
  function NameText(name: Option<string>): (r: string)
    ensures name.Some? ==> r == name.value
    ensures name.None? ==> r == "None"
  {
    match name
    case Some(n) => n
    case None => "None"
  }

  /** The fixed lines of the failure message, before the errors. */
  function FailureHeader(name: string, duration: string, s: Summary): seq<string>
  {
    [ "Playbook: " + name,
      "Status: FAILED",
      "Duration: " + duration,
      "",
      "\U{1F4CA} Summary:",
      "  • OK: " + Decimal(s.ok),
      "  • Changed: " + Decimal(s.changed),
      "  • Failed: " + Decimal(s.failed),
      "  • Unreachable: " + Decimal(s.unreachable),
      "  • Skipped: " + Decimal(s.skipped),
      "",
      "\U{1F525} Errors:" ]
  }

  /** One pass of the error loop: the numbered block of `error` appended line by line. */
  method AppendErrorBlock(lines: seq<string>, index: nat, error: FailureRecord) returns (out: seq<string>)
    ensures out == lines + ErrorBlock(index, error)
  {
    out := lines;
    out := out + ["\n[Error " + Decimal(index) + "]"];
    out := out + ["Host: " + error.host];
    out := out + ["Task: " + error.task];
    out := out + ["Message: " + error.message];
    assert out == lines + ErrorHeader(index, error);
    var result := error.result;
    ghost var head := out;
    if "stderr" in result && result["stderr"] != "" {
      out := out + ["STDERR:\n" + result["stderr"]];
    }
    assert out == head + Detail(HasText(result, "stderr"), "STDERR:\n", result, "stderr");
    head := out;
    if "stdout" in result && result["stdout"] != "" {
      out := out + ["STDOUT:\n" + result["stdout"]];
    }
    assert out == head + Detail(HasText(result, "stdout"), "STDOUT:\n", result, "stdout");
    head := out;
    if "exception" in result {
      out := out + ["Exception:\n" + result["exception"]];
    }
    assert out == head + Detail("exception" in result, "Exception:\n", result, "exception");
    assert out == lines + ErrorBlock(index, error);
  }

  /** Appends the block of every failure to `lines`, numbering them from 1 in order. */
  method AppendErrorSection(lines: seq<string>, failed: seq<FailureRecord>) returns (out: seq<string>)
    ensures out == lines + ErrorSection(failed, 1)
  {
    out := lines;
    var idx := 0;
    while idx < |failed|
      invariant 0 <= idx <= |failed|
      invariant out == lines + ErrorSection(failed[..idx], 1)
    {
      ErrorSectionSnoc(failed, idx);
      Regroup(lines, ErrorSection(failed[..idx], 1), ErrorBlock(idx + 1, failed[idx]));
      out := AppendErrorBlock(out, idx + 1, failed[idx]);
      idx := idx + 1;
    }
    assert failed[..idx] == failed;
  }

  /** The lines of the failure message: the fixed header, then each error's block in turn. */
  method FailureLines(name: string, duration: string, s: Summary, failed: seq<FailureRecord>)
    returns (lines: seq<string>)
    ensures lines == FailureHeader(name, duration, s) + ErrorSection(failed, 1)
  {
    lines := FailureHeader(name, duration, s);
    lines := AppendErrorSection(lines, failed);
  }

  /** The lines of the concise success message. */
  function SuccessLines(name: string, duration: string, s: Summary, hosts: seq<string>): seq<string>
  {
    [ "Playbook: " + name,
      "Status: SUCCESS",
      "Duration: " + duration,
      "",
      "\U{1F4CA} Summary:",
      "  • OK: " + Decimal(s.ok),
      "  • Changed: " + Decimal(s.changed),
      "  • Skipped: " + Decimal(s.skipped),
      "",
      "Hosts: " + Join(hosts, ", ") ]
  }

  /** The title: a status glyph, the playbook name and FAILED or SUCCESS. */
  function Title(name: string, failing: bool): (t: string)
    ensures failing ==> EndsWith(t, " FAILED")
    ensures !failing ==> EndsWith(t, " SUCCESS")
  {
    if failing then "❌ Playbook " + name + " FAILED"
    else "✅ Playbook " + name + " SUCCESS"
  }

  /** The `text` field of the payload: the emphasised title, a blank line, the message. */
  function Payload(title: string, message: string): (text: string)
    ensures StartsWith(text, "*" + title + "*\n\n")
    ensures EndsWith(text, message)
    ensures |text| == |title| + 4 + |message|
  {
    var text := "*" + title + "*\n\n" + message;
    assert text[..|title| + 4] == "*" + title + "*\n\n";
    text
  }

  /** The detailed message of a failed run, the concise one of a successful run. */
  function Message(name: string, duration: string, s: Summary, hosts: seq<string>,
                   failed: seq<FailureRecord>): string
  {
    if HasFailures(s) then Join(FailureHeader(name, duration, s) + ErrorSection(failed, 1), "\n")
    else Join(SuccessLines(name, duration, s, hosts), "\n")
  }

  /** `"\n" + sep.join(lines)` for a non-empty tail of lines, nothing for an empty one. */
  function Tail(lines: seq<string>): string
  {
    if lines == [] then "" else "\n" + Join(lines, "\n")
  }

  /** Joining `header + section` where the section is `before + block + rest`. */
  lemma JoinAround(header: seq<string>, section: seq<string>,
                   before: seq<string>, block: seq<string>, rest: seq<string>)
    requires |header| > 0 && |block| > 0 && section == before + block + rest
    ensures Join(header + section, "\n")
         == Join(header + before, "\n") + "\n" + Join(block, "\n") + Tail(rest)
  {
    assert header + section == (header + before) + block + rest;
    JoinConcat(header + before, block, "\n");
    if rest != [] {
      JoinConcat(header + before + block, rest, "\n");
    } else {
      assert header + before + block + rest == header + before + block;
    }
  }

  /** Below any non-empty header, the joined error section splits around error j. */
  lemma JoinedSectionAt(header: seq<string>, failed: seq<FailureRecord>, j: nat)
    requires |header| > 0 && j < |failed|
    ensures Join(header + ErrorSection(failed, 1), "\n")
         == Join(header + ErrorSection(failed[..j], 1), "\n")
          + "\n" + Join(ErrorBlock(j + 1, failed[j]), "\n")
          + Tail(ErrorSection(failed[j + 1..], j + 2))
  {
    ErrorSectionAt(failed, j);
    JoinAround(header, ErrorSection(failed, 1), ErrorSection(failed[..j], 1),
               ErrorBlock(j + 1, failed[j]), ErrorSection(failed[j + 1..], j + 2));
  }

  /**
   * The failure message is the header and the blocks of the errors before
   * error j, then the block of error j numbered j + 1, then the blocks of the
   * errors after it, in the order the errors were recorded.
   */
  lemma FailureMessageBlocks(name: string, duration: string, s: Summary, hosts: seq<string>,
                             failed: seq<FailureRecord>, j: nat)
    requires HasFailures(s) && j < |failed|
    ensures Message(name, duration, s, hosts, failed)
         == Join(FailureHeader(name, duration, s) + ErrorSection(failed[..j], 1), "\n")
          + "\n" + Join(ErrorBlock(j + 1, failed[j]), "\n")
          + Tail(ErrorSection(failed[j + 1..], j + 2))
  {
    var header := FailureHeader(name, duration, s);
    assert |header| > 0;
    JoinedSectionAt(header, failed, j);
  }

  /** Joined lines followed by more lines end with the last of the first lines and then the rest. */
  lemma JoinedEndsWithLast(header: seq<string>, section: seq<string>)
    requires |header| > 0
    ensures EndsWith(Join(header + section, "\n"), header[|header| - 1] + Tail(section))
  {
    JoinEnds(header, "\n");
    if section == [] {
      assert header + section == header;
    } else {
      JoinConcat(header, section, "\n");
    }
    EndsWithAppend(Join(header, "\n"), header[|header| - 1], Tail(section));
  }

  /** A failed run's message ends with the Errors heading followed by every error's block. */
  lemma FailureMessageEnds(name: string, duration: string, s: Summary, hosts: seq<string>,
                           failed: seq<FailureRecord>)
    requires HasFailures(s)
    ensures EndsWith(Message(name, duration, s, hosts, failed),
                     "\U{1F525} Errors:" + Tail(ErrorSection(failed, 1)))
  {
    var header := FailureHeader(name, duration, s);
    assert header[|header| - 1] == "\U{1F525} Errors:";
    JoinedEndsWithLast(header, ErrorSection(failed, 1));
  }

  /** The whole `text` posted at the end of a run. */
  function ReportText(name: Option<string>, elapsed: int, processed: map<string, HostStats>,
                      failed: seq<FailureRecord>): string
  {
    var hosts := SortedKeys(processed.Keys);
    var s := Tally(hosts, processed);
    var n := NameText(name);
    Payload(Title(n, HasFailures(s)), Message(n, FormatDuration(elapsed), s, hosts, failed))
  }

  /** Some processed host had a failed task or was unreachable. */
  predicate RunFailed(processed: map<string, HostStats>)
  {
    exists h :: h in processed && HostFailed(processed[h])
  }

  lemma SortedTallyFails(processed: map<string, HostStats>)
    ensures HasFailures(Tally(SortedKeys(processed.Keys), processed)) <==> RunFailed(processed)
  {
    var hosts := SortedKeys(processed.Keys);
    TallyFailsIffSomeHostFails(hosts, processed);
    if RunFailed(processed) {
      var h :| h in processed && HostFailed(processed[h]);
      assert h in hosts;
      var i :| 0 <= i < |hosts| && hosts[i] == h;
    }
  }

  /** The posted text opens with the emphasised title that the summed status selects. */
  lemma ReportStartsWithTitle(name: Option<string>, elapsed: int,
                               processed: map<string, HostStats>, failed: seq<FailureRecord>)
    ensures StartsWith(ReportText(name, elapsed, processed, failed),
                       "*" + Title(NameText(name), HasFailures(Tally(SortedKeys(processed.Keys), processed))) + "*\n\n")
  {
  }

  /** The emphasised title in full, for either status. */
  lemma EmphasisedTitle(n: string, failing: bool)
    ensures failing ==> "*" + Title(n, failing) + "*\n\n" == "*❌ Playbook " + n + " FAILED*\n\n"
    ensures !failing ==> "*" + Title(n, failing) + "*\n\n" == "*✅ Playbook " + n + " SUCCESS*\n\n"
  {
  }

  /**
   * The payload opens with the FAILED title exactly when some host failed or
   * was unreachable, and with the SUCCESS title otherwise.
   */
  lemma ReportTitleMatchesStatus(name: Option<string>, elapsed: int,
                                 processed: map<string, HostStats>, failed: seq<FailureRecord>)
    ensures RunFailed(processed) ==>
      StartsWith(ReportText(name, elapsed, processed, failed), "*❌ Playbook " + NameText(name) + " FAILED*\n\n")
    ensures !RunFailed(processed) ==>
      StartsWith(ReportText(name, elapsed, processed, failed), "*✅ Playbook " + NameText(name) + " SUCCESS*\n\n")
  {
    SortedTallyFails(processed);
    ReportStartsWithTitle(name, elapsed, processed, failed);
    EmphasisedTitle(NameText(name), RunFailed(processed));
  }

  /** A successful run's payload ends with the host names, sorted and joined by ", ". */
  lemma SuccessReportListsHosts(name: Option<string>, elapsed: int,
                                processed: map<string, HostStats>, failed: seq<FailureRecord>)
    requires !RunFailed(processed)
    ensures EndsWith(ReportText(name, elapsed, processed, failed),
                     "Hosts: " + Join(SortedKeys(processed.Keys), ", "))
  {
    SortedTallyFails(processed);
    var hosts := SortedKeys(processed.Keys);
    var s := Tally(hosts, processed);
    var n := NameText(name);
    var lines := SuccessLines(n, FormatDuration(elapsed), s, hosts);
    JoinEnds(lines, "\n");
    var m := Message(n, FormatDuration(elapsed), s, hosts, failed);
    var text := ReportText(name, elapsed, processed, failed);
    assert EndsWith(text, m);
    assert EndsWith(m, "Hosts: " + Join(hosts, ", "));
  }

  /**
   * A failed run's payload ends with the Errors heading and then the blocks of
   * all recorded failures, numbered from 1 in the order they were recorded.
   */
  lemma FailureReportListsErrors(name: Option<string>, elapsed: int,
                                 processed: map<string, HostStats>, failed: seq<FailureRecord>)
    requires RunFailed(processed)
    ensures EndsWith(ReportText(name, elapsed, processed, failed),
                     "\U{1F525} Errors:" + Tail(ErrorSection(failed, 1)))
  {
    SortedTallyFails(processed);
    var hosts := SortedKeys(processed.Keys);
    var s := Tally(hosts, processed);
    var n := NameText(name);
    FailureMessageEnds(n, FormatDuration(elapsed), s, hosts, failed);
    var m := Message(n, FormatDuration(elapsed), s, hosts, failed);
    EndsWithTrans(ReportText(name, elapsed, processed, failed), m,
                  "\U{1F525} Errors:" + Tail(ErrorSection(failed, 1)));
  }
}

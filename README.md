# Webhook notification callback — a Dafny model

This project models the Ansible callback plugin
`ansible/callback_plugins/webhook_notification.py`. The playbook engine drives
the plugin with events:

- a playbook start records the playbook's base file name and the start time;
- each failed task that is not ignored, and each unreachable host, appends one
  failure record (host, task, message, the engine's result mapping);
- the final statistics event resolves a webhook URL, sums the per-host counters
  over the sorted host names, decides FAILED or SUCCESS, formats the duration,
  and builds the `text` payload that is posted, a JSON object with one `text` field.

The model is split into four modules, plus one of worked runs:

- `Text` holds the Python built-ins the plugin relies on: `str()` of an
  integer, `str.join`, string ordering with `sorted`, and `os.path.basename`.
- `Report` holds the deterministic part of `v2_playbook_on_stats`. It has the
  summing loop (`Summarize`), the status, the duration text, the error blocks
  built by an appending loop (`FailureLines`), and the payload text
  (`ReportText`).
- `Callback` holds the plugin object as a class, `CallbackModule`. Its fields
  are the playbook name, the start time and the failure list, and its methods
  update them in place. Each method is tied to a pure transition function,
  `Step`. Its replay over a sequence of events, `Run`, carries the lemmas about
  many events. `OnPlaybookStats` returns the `Notification` it would post:
  `Skip`, or `Post(url, text)`.
- `Scenarios` holds concrete runs: a successful two-host run and a run with
  one failed task.

Inputs outside the plugin become parameters:

- the clock reading `now`, in integer microseconds, the resolution of
  `datetime`;
- the `ANSIBLE_WEBHOOK_URL` environment value and the configured
  `webhook_url` option, each an `Option<string>`;
- the per-host statistics, as a map from host name to `HostStats`.

A playbook name that was never set is rendered as `None`, as a Python f-string
renders it.

The model follows the code as written; note in particular:

- A playbook start does not clear the failure list (lines 62-65 only set the
  name and the time). `RunRecords` proves that the list only ever grows.
- The `Exception:` block is added whenever the result has an `exception` key,
  even an empty one (line 176). `STDERR:` and `STDOUT:` need a non-empty value
  (lines 172-175). `ErrorBlockDetails` states both rules.
- The title and the body are chosen by `has_failures`. The `status` string
  (line 135) is computed but never used afterwards. It is modelled by
  `StatusName`.

## Model

| member | source | states |
|---|---|---|
| Text.Decimal | ansible/callback_plugins/webhook_notification.py:155-159 | the decimal text of a counter is non-empty, all digits, starts with `0` only for 0 itself, and is one digit exactly below 10 |
| Text.ParseDecimal | ansible/callback_plugins/webhook_notification.py:155-159 | definition of the reader of decimal text; Text.DecimalRoundTrip and Text.ParseDecimalExact state that it undoes Text.Decimal |
| Text.DecimalRoundTrip | ansible/callback_plugins/webhook_notification.py:155-159 | reading the decimal text of a counter back gives the counter: the rendering loses nothing |
| Text.ParseDecimalExact | ansible/callback_plugins/webhook_notification.py:155-159 | every text the reader accepts is the decimal text of the value it reads, so `str(n)` is the one spelling of `n` |
| Text.IntText | ansible/callback_plugins/webhook_notification.py:138 | `str` of an int: non-empty, all digits exactly when non-negative, a leading `-` exactly when negative |
| Text.IntRoundTrip | ansible/callback_plugins/webhook_notification.py:138 | the text of any integer reads back to that integer |
| Text.IntTextExact | ansible/callback_plugins/webhook_notification.py:138 | every text the integer reader accepts is the text of the value it reads: no `-0`, no leading zeros |
| Text.Join | ansible/callback_plugins/webhook_notification.py:179 | definition of `sep.join`; its properties are stated by Text.JoinEnds and Text.JoinConcat |
| Text.JoinEnds | ansible/callback_plugins/webhook_notification.py:179 | a joined list of lines starts with its first line and ends with its last |
| Text.JoinConcat | ansible/callback_plugins/webhook_notification.py:179 | joining two non-empty lists is joining each, with the separator in between |
| Text.Below | ansible/callback_plugins/webhook_notification.py:112 | definition of Python's `<` on `str` that `sorted` uses; Text.BelowIrreflexive, Text.BelowTransitive and Text.BelowTotal state that it is a strict total order |
| Text.BelowIrreflexive | ansible/callback_plugins/webhook_notification.py:112 | string order is irreflexive |
| Text.BelowTransitive | ansible/callback_plugins/webhook_notification.py:112 | string order is transitive |
| Text.BelowTotal | ansible/callback_plugins/webhook_notification.py:112 | any two distinct strings are ordered one way or the other |
| Text.BelowAsymmetric | ansible/callback_plugins/webhook_notification.py:112 | no two strings are each below the other |
| Text.LeastExists | ansible/callback_plugins/webhook_notification.py:112 | every non-empty set of host names has a least element |
| Text.Least | ansible/callback_plugins/webhook_notification.py:112 | the chosen name is in the set and below every other member |
| Text.SortedKeys | ansible/callback_plugins/webhook_notification.py:112 | `sorted(keys)`: as many entries as keys, exactly the keys, strictly increasing |
| Text.SortedKeysUnique | ansible/callback_plugins/webhook_notification.py:112 | any strictly increasing listing of the keys is the sorted one, so the host order is determined |
| Text.Basename | ansible/callback_plugins/webhook_notification.py:64 | the base name has no `/`, is a suffix of the path, and is preceded by a `/` when shorter than the path |
| Report.Tally | ansible/callback_plugins/webhook_notification.py:113-131 | definition of the `summary` dict as per-category sums over the hosts; Report.Summarize is proved equal to it and Report.SumPositive states when a sum is positive |
| Report.Summarize | ansible/callback_plugins/webhook_notification.py:113-131 | the loop over the hosts leaves every run-wide counter equal to the sum of that host counter; `failed` sums `failures` |
| Report.SumPositive | ansible/callback_plugins/webhook_notification.py:123-131 | a summed counter is positive exactly when some host's counter is |
| Report.TallyFailsIffSomeHostFails | ansible/callback_plugins/webhook_notification.py:134 | the run has failures exactly when some host failed a task or was unreachable |
| Report.HasFailures | ansible/callback_plugins/webhook_notification.py:134 | definition of `has_failures`; its meaning over the hosts is stated by Report.TallyFailsIffSomeHostFails |
| Report.StatusName | ansible/callback_plugins/webhook_notification.py:135 | the status is `failed` or `success`, and `failed` exactly when failed or unreachable is positive |
| Report.ElapsedSeconds | ansible/callback_plugins/webhook_notification.py:109 | 0 without a start; otherwise the elapsed microseconds truncated toward zero to whole seconds, in both directions of the clock |
| Report.FormatDuration | ansible/callback_plugins/webhook_notification.py:138 | the duration text ends in `s` and contains `m` exactly from 60 seconds on |
| Report.DurationRoundTrip | ansible/callback_plugins/webhook_notification.py:138 | the duration text reads back to the same number of seconds, negative values included |
| Report.DurationExact | ansible/callback_plugins/webhook_notification.py:138 | every duration text the reader accepts is the one FormatDuration produces for its value; with DurationRoundTrip, the text of each duration is unique |
| Report.HasText | ansible/callback_plugins/webhook_notification.py:172-175 | definition of the `'k' in result and result['k']` test; Report.ErrorBlockDetails states the gates built on it |
| Report.ErrorHeader | ansible/callback_plugins/webhook_notification.py:165-168 | definition of the four lines opening each error block; Report.ErrorBlock states that every block starts with them |
| Report.ErrorBlock | ansible/callback_plugins/webhook_notification.py:165-177 | a block is the four header lines, then `STDERR:` and the stderr text, then `STDOUT:` and the stdout text, then `Exception:` and the exception text, each present exactly under its gate, in that order and with nothing else |
| Report.ErrorBlockDetails | ansible/callback_plugins/webhook_notification.py:172-177 | a block has a STDERR (STDOUT) line exactly when that entry is present and non-empty, and an Exception line exactly when the key is present |
| Report.ErrorSection | ansible/callback_plugins/webhook_notification.py:164-177 | definition of what the enumerate loop appends: each record's block, numbered from the given start; Report.ErrorSectionSnoc, Report.ErrorSectionAt and Report.AppendErrorSection state its properties |
| Report.ErrorSectionAppend | ansible/callback_plugins/webhook_notification.py:164-177 | the blocks of two lists of failures are the blocks of the first, then those of the second numbered on |
| Report.ErrorSectionSnoc | ansible/callback_plugins/webhook_notification.py:164-168 | one more failure adds exactly its block, numbered by its position from 1 |
| Report.ErrorSectionAt | ansible/callback_plugins/webhook_notification.py:164-177 | error j's block, numbered j + 1, sits between the blocks of the errors before and after it |
| Report.FailureHeader | ansible/callback_plugins/webhook_notification.py:149-162 | definition of the twelve fixed lines of the failure message; Report.FailureMessageEnds states that they end with the Errors heading |
| Report.AppendErrorBlock | ansible/callback_plugins/webhook_notification.py:165-177 | the appends for one error extend the lines by exactly that error's block |
| Report.AppendErrorSection | ansible/callback_plugins/webhook_notification.py:164-177 | the loop over the failures extends the lines by the blocks of all failures, in order, numbered from 1 |
| Report.FailureLines | ansible/callback_plugins/webhook_notification.py:149-177 | the failure lines are the fixed header followed by the blocks of all failures |
| Report.NameText | ansible/callback_plugins/webhook_notification.py:142-150 | a set playbook name is shown as itself and an unset one as `None`, as an f-string renders it |
| Report.SuccessLines | ansible/callback_plugins/webhook_notification.py:182-193 | definition of the success lines; Report.SuccessReportListsHosts states their host line |
| Report.Message | ansible/callback_plugins/webhook_notification.py:147-194 | definition of the message body for either status; Report.FailureMessageBlocks and Report.FailureMessageEnds state its failure form |
| Report.Title | ansible/callback_plugins/webhook_notification.py:141-144 | the title ends with ` FAILED` when failing and ` SUCCESS` otherwise |
| Report.EmphasisedTitle | ansible/callback_plugins/webhook_notification.py:141-144 | the emphasised title is `*❌ Playbook <name> FAILED*` or `*✅ Playbook <name> SUCCESS*`, then a blank line |
| Report.Payload | ansible/callback_plugins/webhook_notification.py:197-199 | the payload text is the emphasised title, a blank line and the message, and nothing else (prefix, suffix and total length) |
| Report.JoinedSectionAt | ansible/callback_plugins/webhook_notification.py:179 | below a header, the joined error section splits around any error's block |
| Report.FailureMessageBlocks | ansible/callback_plugins/webhook_notification.py:147-179 | in a failed run's message, every recorded failure's block appears, numbered by position, after the blocks of earlier failures and before later ones |
| Report.FailureMessageEnds | ansible/callback_plugins/webhook_notification.py:149-179 | a failed run's message ends with the Errors heading followed by the blocks of all failures, numbered from 1 in order |
| Report.ReportText | ansible/callback_plugins/webhook_notification.py:108-199 | definition of the posted text; Report.ReportTitleMatchesStatus, Report.SuccessReportListsHosts and Report.FailureReportListsErrors state its shape |
| Report.SortedTallyFails | ansible/callback_plugins/webhook_notification.py:112-134 | summing over the sorted hosts flags failure exactly when some processed host failed |
| Report.ReportStartsWithTitle | ansible/callback_plugins/webhook_notification.py:141-199 | the posted text opens with the emphasised title chosen by the summed status |
| Report.ReportTitleMatchesStatus | ansible/callback_plugins/webhook_notification.py:133-144 | the posted text opens with the FAILED title when some host failed or was unreachable, and with the SUCCESS title otherwise |
| Report.SuccessReportListsHosts | ansible/callback_plugins/webhook_notification.py:181-194 | a successful run's text ends with `Hosts: ` and the sorted host names joined by `, ` |
| Report.FailureReportListsErrors | ansible/callback_plugins/webhook_notification.py:147-199 | a failed run's posted text ends with the Errors heading followed by the blocks of all recorded failures, numbered from 1 in recording order |
| Callback.Initial | ansible/callback_plugins/webhook_notification.py:56-59 | definition of the state set by the constructor; Callback.CallbackModule.constructor is proved to produce it |
| Callback.FailedRecord | ansible/callback_plugins/webhook_notification.py:73-78 | a failure record keeps host, task and result, and its message is `msg` or empty when absent |
| Callback.UnreachableRecord | ansible/callback_plugins/webhook_notification.py:85-90 | an unreachable host's record keeps host and result, with task `Connection` and message `Host unreachable` |
| Callback.Step | ansible/callback_plugins/webhook_notification.py:62-91 | definition of one event's effect; the class methods are proved against it |
| Callback.Run | ansible/callback_plugins/webhook_notification.py:62-91 | definition of a run of events; Callback.RunAppend, Callback.RunRecords and Callback.IgnoredFailureInvisible state its properties |
| Callback.RunAppend | ansible/callback_plugins/webhook_notification.py:62-91 | handling two runs of events one after the other is handling them together |
| Callback.RunRecords | ansible/callback_plugins/webhook_notification.py:59-91 | after any events the failure list is the old list followed by exactly one record per unignored failure or unreachable host, in order; a start never clears it |
| Callback.IgnoredFailureInvisible | ansible/callback_plugins/webhook_notification.py:67-69 | an ignored failure leaves the recorded state as if it had never happened |
| Callback.ResolveUrl | ansible/callback_plugins/webhook_notification.py:100-106 | the environment value wins when non-empty, then the option; a URL exists exactly when one of them is non-empty, and it is never empty |
| Callback.Notify | ansible/callback_plugins/webhook_notification.py:100-199 | definition of the final event's outcome; Callback.NotificationMatchesRun states its properties |
| Callback.NotificationMatchesRun | ansible/callback_plugins/webhook_notification.py:100-144 | the final event posts nothing exactly when no URL resolves; otherwise it posts to that URL a text titled FAILED exactly when a host failed |
| Callback.CallbackModule.constructor | ansible/callback_plugins/webhook_notification.py:54-60 | a new callback has no name, no start time and no failures |
| Callback.CallbackModule.OnPlaybookStart | ansible/callback_plugins/webhook_notification.py:62-65 | sets the base name and the start time, and keeps the failure list |
| Callback.CallbackModule.OnRunnerFailed | ansible/callback_plugins/webhook_notification.py:67-80 | an ignored failure changes nothing; otherwise exactly its record is appended |
| Callback.CallbackModule.OnRunnerUnreachable | ansible/callback_plugins/webhook_notification.py:82-91 | appends one record for the host with task `Connection` and message `Host unreachable`, keeping the earlier ones |
| Callback.CallbackModule.OnPlaybookStats | ansible/callback_plugins/webhook_notification.py:93-199 | the notification is the one determined by the recorded state, the statistics, the clock and the URL sources |
| Scenarios.ShortDuration | ansible/callback_plugins/webhook_notification.py:138 | 45 seconds read `45s` |
| Scenarios.LongDuration | ansible/callback_plugins/webhook_notification.py:138 | 125 seconds read `2m 5s` |
| Scenarios.UnstartedDuration | ansible/callback_plugins/webhook_notification.py:109 | without a start the duration reads `0s` |
| Scenarios.BasenamePlain | ansible/callback_plugins/webhook_notification.py:64 | a name without `/` is its own base name |
| Scenarios.BasenameAfterSlash | ansible/callback_plugins/webhook_notification.py:64 | the base name of `dir/file` is `file` |
| Scenarios.StartedRunState | ansible/callback_plugins/webhook_notification.py:62-65 | starting `playbooks/site.yml` records `site.yml` and the start time |
| Scenarios.WebHostsSorted | ansible/callback_plugins/webhook_notification.py:112 | `web2` and `web1` sort as `web1, web2` |
| Scenarios.WebStats | ansible/callback_plugins/webhook_notification.py:112-134 | two hosts with only ok, changed and skipped tasks sort in name order and count as a success |
| Scenarios.WebHostsReport | ansible/callback_plugins/webhook_notification.py:141-194 | a run with no failed host and hosts `web1`, `web2` has the SUCCESS title and ends with `Hosts: web1, web2` |
| Scenarios.SuccessfulRun | ansible/callback_plugins/webhook_notification.py:62-199 | from the start of `playbooks/site.yml` to the final event: SUCCESS title with `site.yml`, ending with `Hosts: web1, web2` |
| Scenarios.FailedRunState | ansible/callback_plugins/webhook_notification.py:62-80 | a start and one unignored failure leave the name, the time and exactly that failure's record |
| Scenarios.FirstErrorBlock | ansible/callback_plugins/webhook_notification.py:164-177 | the block of that failure is its four header lines; its empty STDERR is left out |
| Scenarios.SingleErrorSection | ansible/callback_plugins/webhook_notification.py:164-177 | the error section of a single failure is its block numbered 1 |
| Scenarios.DeployBlockJoined | ansible/callback_plugins/webhook_notification.py:179 | the `db1` block joins to `\n[Error 1]\nHost: db1\nTask: migrate\nMessage: timeout` |
| Scenarios.FailedRun | ansible/callback_plugins/webhook_notification.py:62-199 | from the start of `deploy.yml` to the final event: one record, the FAILED title, and a text ending with the Errors heading and the `db1`/`migrate`/`timeout` block, without STDERR |

## Left out

- The `HAS_REQUESTS` gate (lines 16-20, 95-97) is left out. It depends on whether a Python package can be imported, so the model assumes the package is present.
- The HTTP call and its outcome (lines 202-217) are left out: the request, its 10-second timeout, the status-code check and the exception handling. The model stops at the `Post(url, text)` value that would be sent.
- Warnings and display messages are left out (lines 96, 105, 211-217). Logging has no effect on the callback's state.
- The `errors` and `stats` fields (lines 58, 60) are never used after they are set, so they are not fields of `CallbackModule`.
- The class constants and the `DOCUMENTATION` block (lines 23-42, 49-52) are plugin metadata and are not modelled.
- The clock is not read by the model. `datetime.now()` becomes a parameter `now` in whole microseconds, the resolution of `datetime`.
- Report.ElapsedSeconds does not model the float value of `total_seconds()`. It works on whole microseconds and truncates to seconds toward zero, as `int()` does. For durations from 60 s on, `//` and `%` of the float give the same minutes and seconds as the integer arithmetic. Below 60 s (negative included), `int()` truncates in the same way.
- Result mappings only have string values in the model. Non-string entries, such as a numeric `rc` or a structured `exception`, are outside it. The truthiness of `stderr` and `stdout` is modelled as being non-empty.
- The host name and task name reach the model already extracted (`get_name()`, lines 70-71, 84). The per-host statistics are given as a map, replacing `stats.summarize` (line 124).
- Report.Title states only the ending of the title. Its full text is stated by Report.EmphasisedTitle and Report.ReportTitleMatchesStatus.

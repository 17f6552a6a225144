# get_grains host-status reduction, in Dafny

`get_grains` asks a fleet-command tool (salt) for the grains of a set of
minions. The answer is mixed text and JSON. The tool reduces it to one
`Host` record per minion, each with a definitive `HostStatus`. Then it
re-queries every minion that is not a success, a bounded number of times.
This project models that reduction and the retry loop, and proves what they
guarantee.

Modules, one concept each:

- `Wrappers`: `Option` and `Result`.
- `Errors`: the two fatal errors of the core. The fleet query fails, or the
  report text is not JSON.
- `Json`: the part of serde_json's `Value` that the classifier inspects,
  with `get` and `as_u64`.
- `Hosts` (`src/host.rs`): `Host`, `HostStatus`, their defaults and
  `is_success`.
- `Retcodes`: `Retcode`, `From<u64>`, `is_failure`, `Default`.
- `Classifier`: `parse_minions_from_json`. It has a pure per-member
  decision `Classify` and the insertion loop `ParseMinionsFromJson`.
- `Text`: the text as `'\n'`-separated lines, which is how the multiline
  `^`/`$` anchors see it.
- `Prefilter`: the two line patterns of `parse_minions_from_minions_data`.
  It covers capture, `replace_all` and insertion.
- `Reducer`: the whole of `parse_minions_from_minions_data`, including the
  final `append`.
- `Order`: the key order of a `BTreeMap<String, _>`. `values().next()`
  yields the value at the least key.
- `Retry`: the retry loop of `run_run_salt`, and `run_run_salt` from the
  first fleet answer to the report it hands to the writer.

A line matches a pattern exactly when it is `prefix + name + suffix` and
`name` has no Unicode `White_Space` character. This is how `\S*` reads.
`name` may be empty. `replace_all` empties a matching line and keeps its
`'\n'`.

The fleet query and the JSON decoder are parameters:

- `Decoder` is `string -> Option<Value>`. It stands for `serde_json::from_str`.
- `Query` is `(hostid, retry) -> Option<string>`. It gives the answer to the
  `retry`-th re-query of `hostid`, or `None` when the command failed.

The model follows the code on three points that are easy to misread:

- The loop `for retry_count in 1..3` makes two re-queries, not three.
- A re-query whose answer fails to parse aborts the whole run, because of
  the `?` at `src/main.rs:128`. It is not a forfeited attempt. Only a
  failed query forfeits an attempt.
- The replace guard tests the pre-retry `host`. It should test `new_host`
  (see Findings). `Guard` selects between the two:
  - `PreRetryHost` is the source as written.
  - `NewHost` is the evidently intended guard.

## Model

| member | source | states |
|---|---|---|
| Json.Get | src/main.rs:326 | `values.get(key)` is `Some` exactly on an object holding the key, and then it is that member. Every other shape gives `None`. |
| Json.AsU64 | src/main.rs:355-362 | `as_u64` is `Some` exactly for a non-negative integer below 2^64, and it keeps its value. |
| Hosts.DefaultStatus | src/host.rs:34-38 | The default status is not a success. |
| Hosts.DefaultHost | src/host.rs:7-12 | `Host::default()` has an empty hostname, no data and the default status, and it is not a success. |
| Hosts.StatusesAreTen | src/host.rs:20-32 | Every status is one of the ten listed, and the ten are distinct. |
| Hosts.SuccessIsTheOnlySuccess | src/host.rs:40-44 | `is_success` holds for `Success` and for no other status. |
| Hosts.HostSuccessIsStatusSuccess | src/host.rs:14-18 | A host is a success exactly when its status is. Two hosts with the same status agree. |
| Retcodes.DefaultRetcode | src/main.rs:301-305 | The default return code is a failure. |
| Retcodes.FromU64 | src/main.rs:307-314 | A `u64` converts to `Success` exactly when it is 0. |
| Retcodes.IsFailureIffNonZero | src/main.rs:278-282 | `is_failure` of a converted code holds exactly when the number is non-zero. |
| Retcodes.ConversionTests | src/main.rs:284-299 | 0 converts to `Success`, and each of 1 to 9 converts to `Failure`. |
| Classifier.Classify | src/main.rs:322-406 | The result carries the member's own name and is never `Uninitialized`. It holds data exactly when it is a success, and that data is the whole member value. |
| Classifier.ClassifySuccessIff | src/main.rs:326-406 | A member is classified `Success` exactly when it has the good-payload shape: a non-empty object without `ret`, or `retcode` 0 with a non-empty object `ret`. Its data is then the member value. |
| Classifier.ClassifyWithoutRet | src/main.rs:326-351 | Without `ret`: a non-object gives `RetValueNotObject`, an empty object gives `RetValueObjectIsEmpty`, and a non-empty object gives a success carrying itself. |
| Classifier.ClassifyRetcodeFirst | src/main.rs:353-375 | With `ret`, the return code is judged first. A missing `retcode` gives `NoReturnCode`, a non-`u64` gives `ReturnCodeNotNumber`, and a non-zero `u64` gives `RetCodeWasNotNull`. |
| Classifier.ClassifyRetShape | src/main.rs:386-406 | With `ret` and `retcode` 0, the shape of `ret` decides: `RetValueNotObject`, `RetValueObjectIsEmpty`, or a success carrying the whole member. |
| Classifier.RetValueIsNoneUnreachable | src/main.rs:377-384 | No member is ever classified `RetValueIsNone`. |
| Classifier.ClassifyExamples | src/main.rs:326-375 | `{"a":1}` is a success carrying itself. `{}` is `RetValueObjectIsEmpty`. `{"retcode":1,"ret":{}}` is `RetCodeWasNotNull`. |
| Classifier.ClassifyAllIsLocal | src/main.rs:319-324 | A member's record depends only on its key and its own value, not on the other members. |
| Classifier.ClassifyAllWellFormed | src/main.rs:316-410 | The classified map has the object's keys. Every record carries its key as hostname, has a definitive status, and holds data exactly when it is a success. |
| Classifier.ParseMinionsFromJson | src/main.rs:316-410 | The insertion loop over the object's members builds exactly the classified map, which is well formed. |
| Prefilter.MatchLineIff | src/main.rs:209 | The matcher captures `name` on a line exactly when the line is `prefix + name + suffix` and `name` has no whitespace. |
| Prefilter.CapturesIff | src/main.rs:211-214 | A name is among the captures exactly when some line matches with that name. |
| Prefilter.CaptureNames | src/main.rs:211-214 | The capture loop pushes the captured names in line order. |
| Prefilter.ReplaceAllLines | src/main.rs:216-217 | After `replace_all` the text has the same lines. Matching lines are emptied and every other line is kept. |
| Prefilter.InsertFailed | src/main.rs:221-228 | Inserting the captured names gives the old map plus one record per name, with no data and the pattern's status. |
| Prefilter.StripShape | src/main.rs:205-231 | One pattern block returns the map with that pattern's records added and the text with its lines blanked. |
| Prefilter.ShapesAreDisjoint | src/main.rs:234 | No line matches both the did-not-respond and the deleted-minion pattern. |
| Prefilter.SecondPassSeesAllDeleted | src/main.rs:233-256 | On the blanked text, the deleted-minion pass captures what it would capture on the raw text. |
| Prefilter.PrefilterHostsSpec | src/main.rs:204-259 | The pre-filter records exactly the names a line of either pattern captures. A deleted-minion capture wins over a did-not-respond capture of the same name. Records have no data. |
| Prefilter.CleanedTextSpec | src/main.rs:204-259 | The text handed to the decoder has the same number of lines. No line matches either pattern, and every line that matched neither is unchanged and in place. |
| Prefilter.RunPrefilter | src/main.rs:204-259 | The two blocks, did-not-respond first, return the pre-filter map and the cleaned text. |
| Reducer.ParseMinionsMerge | src/main.rs:261-265 | Decoding is the only failure. On success the keys are the captured names plus the JSON keys. A JSON key holds its classified record, and a name only the pre-filter saw keeps its pre-filter record. |
| Reducer.PrefilterHostsWellFormed | src/main.rs:221-253 | Pre-filter records are well formed, with status `DidNotRespond` or `DeletedMinion`. |
| Reducer.AppendWellFormed | src/main.rs:265 | `append` of a well-formed map onto a well-formed map is well formed. |
| Reducer.ParseMinionsComplete | src/main.rs:201-270 | A name is in the report exactly when a pattern line or a JSON key names it. The report has one well-formed record per name and never `Uninitialized`. |
| Reducer.ParseMinionsFromMinionsData | src/main.rs:201-270 | The stage returns the reduced report of the text, or `JsonDecodeFailed`, and a returned report is well formed. |
| Order.LeastExists | src/main.rs:130 | Every non-empty set of keys has a least element in `String` order. |
| Order.MinKey | src/main.rs:130 | The key chosen is the least key of the map. |
| Order.FirstValue | src/main.rs:130 | `values().next().unwrap()` on a non-empty map yields the value at the least key. |
| Retry.Reattempt | src/main.rs:123-130 | One retry yields one of three outcomes: a failed query, a parse error, or the first host of the parsed answer. |
| Retry.RetryHost | src/main.rs:119-135 | The inner loop ends as the retry state machine over the outcomes of retries 1 and 2 ends. It makes as many attempts as that machine consumes. |
| Retry.RetryOne | src/main.rs:114-135 | A success host is skipped with no attempt. Any other host goes through the inner loop. |
| Retry.RetryFailedHosts | src/main.rs:114-136 | The loop aborts with `JsonDecodeFailed` exactly when some host's retries hit a parse error. Otherwise it returns the updated report. Its attempts belong to the report's hosts, none repeats, and a completed run logs every attempt. |
| Retry.RunSkipsPasses | src/main.rs:123-126 | A failed query, or a parsed host the guard rejects, only uses up its attempt. |
| Retry.RunDecidedByFirstStop | src/main.rs:119-135 | The first attempt that stops the retries decides the host: aborted by a parse error, or replaced by the accepted host. With no such attempt the host is kept after every attempt. |
| Retry.AsWrittenNeverReplaces | src/main.rs:131-134 | As written, a failed host is never replaced. It aborts exactly when one of its answers fails to parse, and otherwise it uses every attempt. |
| Retry.AsWrittenKeepsReport | src/main.rs:114-136 | As written, the retry loop leaves the report unchanged. |
| Retry.AsWrittenRetriesAll | src/main.rs:119-121 | As written, a failed host that does not abort is re-queried twice. |
| Retry.SuccessHostIsSkipped | src/main.rs:115-117 | A success host is kept and never re-queried. |
| Retry.AsWrittenHostAbortsIff | src/main.rs:128 | As written, a failed host aborts the run exactly when one of its retries gets an answer that fails to parse. |
| Retry.AsWrittenAbortsIff | src/main.rs:114-136 | As written, the run aborts exactly when some failed host gets an answer that fails to parse. |
| Retry.IntendedReplacesWithFirstSuccess | src/main.rs:131-134 | With the intended guard, a host is replaced by `h` exactly when `h` is a success and is the first parsed success, with only failed queries and non-success hosts before it. |
| Retry.IntendedOnlyImproves | src/main.rs:114-136 | With the intended guard, the loop keeps every key and only turns a failed host into a success host. |
| Retry.GuardDiscrepancy | src/main.rs:131 | A failed host whose first retry returns a success host, and whose second retry does not fail to parse, keeps its failed record as written, after two attempts. It takes the success host as intended, after one. |
| Retry.SecondRetrySucceeds | src/main.rs:119-135 | Suppose the first query fails and the second returns a success host. Then the intended guard replaces the host after exactly two attempts, and the guard as written keeps it. |
| Retry.RunRunSalt | src/main.rs:102-136 | No first answer gives `SaltQueryFailed`, and an unparsable one gives `JsonDecodeFailed`. Otherwise the run aborts exactly as the retries do, or it returns the updated report. As written, that report is the first one unchanged. |

## Left out

- Command-line parsing, logging setup, `run_read_file`, saving the raw
  answer, and `serialize_minions` (writing files per host). These are I/O
  around the core.
- `get_minions_data_from_salt` is a parameter. It is the first answer
  (`Option<string>`) and the `Query` oracle for re-queries. The 120-second
  and 30-second timeouts and the subprocess are not modelled.
- `serde_json::from_str` is the `Decoder` parameter. Floating-point and
  negative numbers share one `OtherNumber` tag. An integer of 2^64 or more
  may carry either `OtherNumber` or `UInt`. `as_u64` rejects all of them
  alike.
- The regex engine is not modelled. Each pattern is described by what it
  matches, one line at a time. `Regex::new` cannot fail on these constant
  patterns, so its error path is left out.
- The `chain_err` message chains are collapsed into the two `Error` tags.
- Panics become preconditions:
  - `as_object().unwrap()` becomes `ParseMinionsFromJson`'s `requires` and
    `DecodesToObject`.
  - `values().next().unwrap()` becomes `ResponseUsable`.
- Retry.RetryFailedHosts: `ResponsesUsable` asks every retry answer of
  every failed host to be free of those panics. That includes answers the
  loop never requests after an abort or a replacement, so it requires more
  than the source reaches.
- Retry.RetryHost: `HostResponsesUsable` asks retry 2's answer to be free of
  those panics even when retry 1 already aborted the run or was accepted.
  The source never requests that answer, so inputs where only it would
  panic are excluded.
- Retry.RetryOne: requires `HostResponsesUsable` for a failed host, with the
  same excess as Retry.RetryHost.
- Retry.RunRunSalt: requires `ResponsesUsable` of the first report. That
  includes the answers of hosts the loop would reach only after another
  host aborted the run, and retry 2's answer after retry 1 stopped. Which
  hosts come after an abort depends on the iteration order, which the
  model leaves arbitrary.
- BTreeMap iteration order in the two `for` loops is an arbitrary choice of
  the next key. The report does not depend on it. The order of hosts in the
  retry `log` is therefore not stated, only its set of entries and that
  none repeats.
- The `debug!` line "trying again to get grains" is modelled as the `log`
  out-parameter. The other `debug!`/`trace!` output is left out.
- `parse_minions_from_json` returns a `Result` that is never `Err`. The
  model returns the map directly.
- Order.FirstValue scans the keys for the least one. The B-tree finds it
  by descending, and the result is the same.

## Findings

| source | as written | input that shows it | evidently intended | confidence | as-written member | corrected member |
|---|---|---|---|---|---|---|
| src/main.rs:131 | `if host.is_success()` tests the host being retried, which is never a success there, so no retry result is ever merged | A host with status `DidNotRespond` whose first re-query parses to a `Success` host and whose second re-query fails or parses: as written it keeps `DidNotRespond` | `if new_host.is_success()`: merge the first successful retry and stop | not executed | Retry.GuardDiscrepancy | Retry.IntendedReplacesWithFirstSuccess |

/** The retry loop of `run_run_salt`: every host that is not a success
    after the first pass is queried again, on its own, a bounded number of
    times; a fresh result may replace its record. The fleet query is an
    oracle. */
module Retry {
  import opened Wrappers
  import opened Hosts
  import opened Errors
  import opened Order
  import opened Reducer

  /** The re-query of one host: `query(hostid, retry)` is the output of the
      `retry`-th re-query of `hostid` (sent with a 30-second timeout), or
      `None` when the command failed. */
  type Query = (string, nat) -> Option<string>

  /** `for retry_count in 1..3`: retries 1 and 2. */
  const FIRST_RETRY: nat := 1
  const RETRY_END: nat := 3

  /** One `trying again to get grains for <hostid> (retry <retry>)` step. */
  datatype Attempt = Attempt(hostid: string, retry: nat)

  /** Which host the replace guard tests: the source tests the pre-retry
      `host`; `NewHost` is the evidently intended `new_host`. */
  datatype Guard = PreRetryHost | NewHost

  predicate GuardHolds(guard: Guard, host: Host, newHost: Host)
  {
    match guard
    case PreRetryHost => HostIsSuccess(host)
    case NewHost => HostIsSuccess(newHost)
  }

  /** A re-query output the source can process without panicking: its
      decoded form, if any, is an object, and a successful parse yields at
      least one host (`values().next().unwrap()`). */
  predicate ResponseUsable(data: string, decode: Decoder)
  {
    && DecodesToObject(decode, data)
    && (ParseMinions(data, decode).Ok? ==> |ParseMinions(data, decode).value| > 0)
  }

  predicate HostResponsesUsable(hostid: string, query: Query, decode: Decoder)
  {
    forall retry | FIRST_RETRY <= retry < RETRY_END && query(hostid, retry).Some? ::
      ResponseUsable(query(hostid, retry).value, decode)
  }

  predicate ResponsesUsable(minions: map<string, Host>, query: Query, decode: Decoder)
  {
    forall hostid | hostid in minions && !HostIsSuccess(minions[hostid]) ::
      HostResponsesUsable(hostid, query, decode)
  }

  /** What one retry produces. */
  datatype AttemptOutcome = QueryFailed | ParseFailed | Parsed(newHost: Host)

  ghost function AttemptOutcomeOf(hostid: string, retry: nat, query: Query, decode: Decoder): AttemptOutcome
    requires query(hostid, retry).Some? ==> ResponseUsable(query(hostid, retry).value, decode)
  {
    match query(hostid, retry)
    case None => QueryFailed
    case Some(data) =>
      match ParseMinions(data, decode)
      case Err(_) => ParseFailed
      case Ok(minion) => Parsed(minion[MinKey(minion.Keys)])
  }

  /** How the retries of one host end: its record kept, its record replaced,
      or the whole run aborted by a fatal parse error. */
  datatype HostOutcome = Kept | Replaced(newHost: Host) | Aborted

  /** The retries of one host as a state machine over the outcomes of its
      attempts, in order: a failed query forfeits the attempt, a parse error
      aborts, a parsed host replaces the record when the guard holds and
      stops the retries. */
  function Run(host: Host, guard: Guard, outcomes: seq<AttemptOutcome>): HostOutcome
    decreases |outcomes|
  {
    if outcomes == [] then Kept
    else
      match outcomes[0]
      case QueryFailed => Run(host, guard, outcomes[1..])
      case ParseFailed => Aborted
      case Parsed(newHost) =>
        if GuardHolds(guard, host, newHost) then Replaced(newHost) else Run(host, guard, outcomes[1..])
  }

  /** How many attempts the state machine makes before it stops. */
  function Consumed(host: Host, guard: Guard, outcomes: seq<AttemptOutcome>): (n: nat)
    ensures n <= |outcomes|
    decreases |outcomes|
  {
    if outcomes == [] then 0
    else
      match outcomes[0]
      case QueryFailed => 1 + Consumed(host, guard, outcomes[1..])
      case ParseFailed => 1
      case Parsed(newHost) =>
        if GuardHolds(guard, host, newHost) then 1 else 1 + Consumed(host, guard, outcomes[1..])
  }

  /** The outcomes of the retries `1..3` of one host. */
  ghost function Outcomes(hostid: string, query: Query, decode: Decoder): (outcomes: seq<AttemptOutcome>)
    requires HostResponsesUsable(hostid, query, decode)
    ensures |outcomes| == RETRY_END - FIRST_RETRY
    ensures forall retry | FIRST_RETRY <= retry < RETRY_END ::
              outcomes[retry - FIRST_RETRY] == AttemptOutcomeOf(hostid, retry, query, decode)
  {
    seq(RETRY_END - FIRST_RETRY, i requires 0 <= i < RETRY_END - FIRST_RETRY =>
      AttemptOutcomeOf(hostid, FIRST_RETRY + i, query, decode))
  }

  /** A host that is already a success is skipped. */
  ghost function HostOutcomeOf(hostid: string, host: Host, query: Query, decode: Decoder, guard: Guard): HostOutcome
    requires !HostIsSuccess(host) ==> HostResponsesUsable(hostid, query, decode)
  {
    if HostIsSuccess(host) then Kept else Run(host, guard, Outcomes(hostid, query, decode))
  }

  /** How many retries the host gets. */
  ghost function HostRetries(hostid: string, host: Host, query: Query, decode: Decoder, guard: Guard): nat
    requires !HostIsSuccess(host) ==> HostResponsesUsable(hostid, query, decode)
  {
    if HostIsSuccess(host) then 0 else Consumed(host, guard, Outcomes(hostid, query, decode))
  }

  /** The record a host holds after its retries, when they did not abort. */
  function Final(host: Host, outcome: HostOutcome): Host
  {
    match outcome
    case Replaced(newHost) => newHost
    case _ => host
  }

  /** The report after the loop, when nothing aborted it. */
  ghost function Updated(minions: map<string, Host>, query: Query, decode: Decoder, guard: Guard): map<string, Host>
    requires ResponsesUsable(minions, query, decode)
  {
    map hostid | hostid in minions :: Final(minions[hostid], HostOutcomeOf(hostid, minions[hostid], query, decode, guard))
  }

  /** Some host's retries hit a parse error. */
  ghost predicate Aborts(minions: map<string, Host>, query: Query, decode: Decoder, guard: Guard)
    requires ResponsesUsable(minions, query, decode)
  {
    exists hostid | hostid in minions :: HostOutcomeOf(hostid, minions[hostid], query, decode, guard) == Aborted
  }

  /** The outcome of a retry, read off the query answer and its parse. */
  lemma {:induction false} AttemptOutcomeOfResponse(hostid: string, retry: nat, query: Query, decode: Decoder, minion: Result<map<string, Host>, Error>)
    requires query(hostid, retry).Some? && ResponseUsable(query(hostid, retry).value, decode)
    requires minion == ParseMinions(query(hostid, retry).value, decode)
    ensures minion.Err? ==> AttemptOutcomeOf(hostid, retry, query, decode) == ParseFailed
    ensures minion.Ok? ==> AttemptOutcomeOf(hostid, retry, query, decode) == Parsed(minion.value[MinKey(minion.value.Keys)])
  {
  }

  /** The body of the inner loop up to the guard: re-query, re-parse (a
      parse error is fatal), take the first host of the fresh report. */
  method Reattempt(hostid: string, retry: nat, query: Query, decode: Decoder) returns (attempt: AttemptOutcome)
    requires query(hostid, retry).Some? ==> ResponseUsable(query(hostid, retry).value, decode)
    ensures attempt == AttemptOutcomeOf(hostid, retry, query, decode)
  {
    var response := query(hostid, retry);
    if response.None? {
      return QueryFailed;
    }
    var minion := ParseMinionsFromMinionsData(response.value, decode);
    AttemptOutcomeOfResponse(hostid, retry, query, decode, minion);
    if minion.Err? {
      return ParseFailed;
    }
    var newHost := FirstValue(minion.value);
    attempt := Parsed(newHost);
  }

  /** The inner `for` loop for one host that is not a success; `tried` is
      the number of retries it made. */
  method RetryHost(hostid: string, host: Host, query: Query, decode: Decoder, guard: Guard)
    returns (outcome: HostOutcome, tried: nat)
    requires HostResponsesUsable(hostid, query, decode)
    ensures outcome == Run(host, guard, Outcomes(hostid, query, decode))
    ensures tried == Consumed(host, guard, Outcomes(hostid, query, decode))
  {
    ghost var outcomes := Outcomes(hostid, query, decode);
    outcome := Kept;
    tried := 0;
    for retry := FIRST_RETRY to RETRY_END
      invariant tried == retry - FIRST_RETRY
      invariant Run(host, guard, outcomes) == Run(host, guard, outcomes[tried..])
      invariant Consumed(host, guard, outcomes) == tried + Consumed(host, guard, outcomes[tried..])
    {
      var attempt := Reattempt(hostid, retry, query, decode);
      assert attempt == outcomes[tried];
      tried := tried + 1;
      assert outcomes[tried - 1..][1..] == outcomes[tried..];
      match attempt {
        case QueryFailed =>
          continue;
        case ParseFailed =>
          return Aborted, tried;
        case Parsed(newHost) =>
          if GuardHolds(guard, host, newHost) {
            return Replaced(newHost), tried;
          }
      }
    }
  }

  /** The attempts logged for one host: retries `1` to `tried`, in order. */
  function AttemptsOf(hostid: string, tried: nat): (log: seq<Attempt>)
    ensures |log| == tried
    ensures forall i | 0 <= i < tried :: log[i] == Attempt(hostid, FIRST_RETRY + i)
  {
    seq(tried, i requires 0 <= i < tried => Attempt(hostid, FIRST_RETRY + i))
  }

  /** Every logged attempt belongs to a processed host and lies within the
      retries that host gets. */
  ghost predicate LogSound(log: seq<Attempt>, done: set<string>, retriesOf: map<string, nat>)
  {
    forall a | a in log ::
      a.hostid in done && a.hostid in retriesOf && FIRST_RETRY <= a.retry < FIRST_RETRY + retriesOf[a.hostid]
  }

  /** Every retry of a processed host is logged. */
  ghost predicate LogComplete(log: seq<Attempt>, done: set<string>, retriesOf: map<string, nat>)
  {
    forall h, retry | h in done && h in retriesOf && FIRST_RETRY <= retry < FIRST_RETRY + retriesOf[h] ::
      Attempt(h, retry) in log
  }

  ghost predicate NoRepeats(log: seq<Attempt>)
  {
    forall i, j | 0 <= i < j < |log| :: log[i] != log[j]
  }

  /** Appending the attempts of a newly processed host keeps the log sound,
      complete and free of repeats. */
  lemma {:induction false} LogStep(log: seq<Attempt>, done: set<string>, retriesOf: map<string, nat>, hostid: string, tried: nat)
    requires LogSound(log, done, retriesOf) && LogComplete(log, done, retriesOf) && NoRepeats(log)
    requires hostid !in done && hostid in retriesOf && retriesOf[hostid] == tried
    ensures LogSound(log + AttemptsOf(hostid, tried), done + {hostid}, retriesOf)
    ensures LogComplete(log + AttemptsOf(hostid, tried), done + {hostid}, retriesOf)
    ensures NoRepeats(log + AttemptsOf(hostid, tried))
  {
    var added := AttemptsOf(hostid, tried);
    var after := log + added;
    forall retry | FIRST_RETRY <= retry < FIRST_RETRY + tried
      ensures Attempt(hostid, retry) in after
    {
      assert after[|log| + (retry - FIRST_RETRY)] == Attempt(hostid, retry);
    }
    assert forall a | a in log :: a in after;
    forall i, j | 0 <= i < j < |after| ensures after[i] != after[j] {
      if j >= |log| && i < |log| {
        assert after[i] in log;
      }
    }
  }

  /** The outcome of every host of the report. */
  ghost function OutcomesOf(minions: map<string, Host>, query: Query, decode: Decoder, guard: Guard): (outcomeOf: map<string, HostOutcome>)
    requires ResponsesUsable(minions, query, decode)
    ensures outcomeOf.Keys == minions.Keys
  {
    map hostid | hostid in minions :: HostOutcomeOf(hostid, minions[hostid], query, decode, guard)
  }

  /** The number of retries of every host of the report. */
  ghost function RetriesOf(minions: map<string, Host>, query: Query, decode: Decoder, guard: Guard): (retriesOf: map<string, nat>)
    requires ResponsesUsable(minions, query, decode)
    ensures retriesOf.Keys == minions.Keys
  {
    map hostid | hostid in minions :: HostRetries(hostid, minions[hostid], query, decode, guard)
  }

  /** The hosts in `done` are processed and none aborted; each holds its
      final record, every other host still its original one. */
  ghost predicate Settled(current: map<string, Host>, done: set<string>, minions: map<string, Host>,
                          outcomeOf: map<string, HostOutcome>, updated: map<string, Host>)
  {
    && current.Keys == minions.Keys
    && (forall h | h in done :: h in outcomeOf && h in updated && h in current && outcomeOf[h] != Aborted && current[h] == updated[h])
    && (forall h | h in minions && h !in done :: current[h] == minions[h])
  }

  /** Settling one more host keeps the report settled. */
  lemma {:induction false} SettleStep(current: map<string, Host>, done: set<string>, minions: map<string, Host>,
                   outcomeOf: map<string, HostOutcome>, updated: map<string, Host>, hostid: string)
    requires Settled(current, done, minions, outcomeOf, updated)
    requires hostid in minions && hostid !in done && hostid in outcomeOf && hostid in updated
    requires outcomeOf[hostid] != Aborted && updated[hostid] == Final(minions[hostid], outcomeOf[hostid])
    ensures Settled(current[hostid := Final(current[hostid], outcomeOf[hostid])], done + {hostid}, minions, outcomeOf, updated)
  {
  }

  /** One pass of the outer loop's body: a success host is skipped, any
      other host is retried. */
  method RetryOne(hostid: string, host: Host, query: Query, decode: Decoder, guard: Guard)
    returns (outcome: HostOutcome, tried: nat)
    requires !HostIsSuccess(host) ==> HostResponsesUsable(hostid, query, decode)
    ensures outcome == HostOutcomeOf(hostid, host, query, decode, guard)
    ensures tried == HostRetries(hostid, host, query, decode, guard)
  {
    if HostIsSuccess(host) {
      return Kept, 0;
    }
    outcome, tried := RetryHost(hostid, host, query, decode, guard);
  }

  /** The outer loop over a snapshot of the report (`minions.clone()`):
      success hosts are skipped, every other host is retried; a fatal parse
      error aborts, otherwise the report is the one `Updated` describes.
      `log` is the sequence of retries made, one entry per attempt: each
      belongs to a host of the report, none is made twice, and when the loop
      runs to its end every retry of every host is in it. */
  method RetryFailedHosts(minions: map<string, Host>, query: Query, decode: Decoder, guard: Guard)
    returns (r: Result<map<string, Host>, Error>, log: seq<Attempt>)
    requires ResponsesUsable(minions, query, decode)
    ensures r.Err? <==> Aborts(minions, query, decode, guard)
    ensures r.Err? ==> r.error == JsonDecodeFailed
    ensures r.Ok? ==> r.value == Updated(minions, query, decode, guard)
    ensures LogSound(log, minions.Keys, RetriesOf(minions, query, decode, guard))
    ensures r.Ok? ==> LogComplete(log, minions.Keys, RetriesOf(minions, query, decode, guard))
    ensures NoRepeats(log)
  {
    ghost var outcomeOf := OutcomesOf(minions, query, decode, guard);
    ghost var retriesOf := RetriesOf(minions, query, decode, guard);
    ghost var updated := Updated(minions, query, decode, guard);
    ghost var done: set<string> := {};
    var current := minions;
    var todo := minions.Keys;
    log := [];
    while todo != {}
      invariant todo !! done && todo + done == minions.Keys
      invariant Settled(current, done, minions, outcomeOf, updated)
      invariant LogSound(log, done, retriesOf) && LogComplete(log, done, retriesOf) && NoRepeats(log)
      decreases todo
    {
      var hostid :| hostid in todo;
      todo := todo - {hostid};
      var outcome, tried := RetryOne(hostid, minions[hostid], query, decode, guard);
      assert outcome == outcomeOf[hostid] && tried == retriesOf[hostid];
      LogStep(log, done, retriesOf, hostid, tried);
      log := log + AttemptsOf(hostid, tried);
      if outcome.Aborted? {
        return Err(JsonDecodeFailed), log;
      }
      SettleStep(current, done, minions, outcomeOf, updated, hostid);
      current := current[hostid := Final(current[hostid], outcome)];
      done := done + {hostid};
    }
    r := Ok(current);
  }

  /** An attempt after which the retries go on: its query failed, or it
      parsed a host the guard rejects. */
  predicate Passes(guard: Guard, host: Host, attempt: AttemptOutcome)
  {
    || attempt.QueryFailed?
    || (attempt.Parsed? && !GuardHolds(guard, host, attempt.newHost))
  }

  /** The attempts before `i` all let the retries go on. */
  predicate PassesUpTo(guard: Guard, host: Host, outcomes: seq<AttemptOutcome>, i: nat)
    requires i <= |outcomes|
  {
    forall k | 0 <= k < i :: Passes(guard, host, outcomes[k])
  }

  /** Attempts that let the retries go on change nothing but the count:
      a failed query forfeits only its own attempt. */
  lemma {:induction false} RunSkipsPasses(host: Host, guard: Guard, outcomes: seq<AttemptOutcome>, i: nat)
    requires i <= |outcomes| && PassesUpTo(guard, host, outcomes, i)
    ensures Run(host, guard, outcomes) == Run(host, guard, outcomes[i..])
    ensures Consumed(host, guard, outcomes) == i + Consumed(host, guard, outcomes[i..])
    decreases i
  {
    if i > 0 {
      assert Passes(guard, host, outcomes[0]);
      assert outcomes[1..][i - 1..] == outcomes[i..];
      RunSkipsPasses(host, guard, outcomes[1..], i - 1);
    }
  }

  /** The first attempt that does not let the retries go on decides the
      host: the host is kept exactly when there is none, replaced by the
      first parsed host the guard accepts, aborted by the first parse
      error. */
  lemma {:induction false} RunDecidedByFirstStop(host: Host, guard: Guard, outcomes: seq<AttemptOutcome>)
    ensures Run(host, guard, outcomes) == Kept <==> PassesUpTo(guard, host, outcomes, |outcomes|)
    ensures Run(host, guard, outcomes) == Kept ==> Consumed(host, guard, outcomes) == |outcomes|
    ensures forall i | 0 <= i < |outcomes| && PassesUpTo(guard, host, outcomes, i) && !Passes(guard, host, outcomes[i]) ::
              && Consumed(host, guard, outcomes) == i + 1
              && (outcomes[i].ParseFailed? ==> Run(host, guard, outcomes) == Aborted)
              && (outcomes[i].Parsed? ==> Run(host, guard, outcomes) == Replaced(outcomes[i].newHost))
  {
    var n := 0;
    while n < |outcomes| && Passes(guard, host, outcomes[n])
      invariant n <= |outcomes| && PassesUpTo(guard, host, outcomes, n)
    {
      n := n + 1;
    }
    RunSkipsPasses(host, guard, outcomes, n);
    assert outcomes[n..] == [] <==> n == |outcomes|;
  }

  /** As written, the guard tests the host that failed, so for a host that
      is not a success every attempt but a parse error lets the retries go
      on: the host is never replaced, it is aborted exactly when one of its
      attempts hits a parse error, and otherwise every attempt is made. */
  lemma {:induction false} AsWrittenNeverReplaces(host: Host, outcomes: seq<AttemptOutcome>)
    requires !HostIsSuccess(host)
    ensures !Run(host, PreRetryHost, outcomes).Replaced?
    ensures Run(host, PreRetryHost, outcomes) == Aborted <==> ParseFailed in outcomes
    ensures Run(host, PreRetryHost, outcomes) == Kept ==> Consumed(host, PreRetryHost, outcomes) == |outcomes|
    decreases |outcomes|
  {
    if outcomes != [] {
      AsWrittenNeverReplaces(host, outcomes[1..]);
      assert outcomes == [outcomes[0]] + outcomes[1..];
    }
  }

  /** As written, the retry loop never changes the report. */
  lemma {:induction false} AsWrittenKeepsReport(minions: map<string, Host>, query: Query, decode: Decoder)
    requires ResponsesUsable(minions, query, decode)
    ensures Updated(minions, query, decode, PreRetryHost) == minions
  {
    forall hostid | hostid in minions && !HostIsSuccess(minions[hostid])
      ensures !HostOutcomeOf(hostid, minions[hostid], query, decode, PreRetryHost).Replaced?
    {
      AsWrittenNeverReplaces(minions[hostid], Outcomes(hostid, query, decode));
    }
  }

  /** As written, a host that is not a success and does not abort the run
      is re-queried for every retry, `RETRY_END - FIRST_RETRY` times. */
  lemma {:induction false} AsWrittenRetriesAll(hostid: string, host: Host, query: Query, decode: Decoder)
    requires !HostIsSuccess(host) && HostResponsesUsable(hostid, query, decode)
    requires HostOutcomeOf(hostid, host, query, decode, PreRetryHost) != Aborted
    ensures HostRetries(hostid, host, query, decode, PreRetryHost) == RETRY_END - FIRST_RETRY
  {
    AsWrittenNeverReplaces(host, Outcomes(hostid, query, decode));
  }

  /** A host that is already a success is neither re-queried nor changed. */
  lemma {:induction false} SuccessHostIsSkipped(hostid: string, host: Host, query: Query, decode: Decoder, guard: Guard)
    requires HostIsSuccess(host)
    ensures HostOutcomeOf(hostid, host, query, decode, guard) == Kept
    ensures HostRetries(hostid, host, query, decode, guard) == 0
  {
  }

  /** With the intended guard, a host is only ever replaced by a host that
      is a success, namely the first one an attempt parses, and only when
      no parse error came before it. */
  lemma {:induction false} IntendedReplacesWithFirstSuccess(host: Host, outcomes: seq<AttemptOutcome>, newHost: Host)
    ensures Run(host, NewHost, outcomes) == Replaced(newHost) <==>
              exists i | 0 <= i < |outcomes| ::
                && (forall k | 0 <= k < i :: outcomes[k].QueryFailed? || (outcomes[k].Parsed? && !HostIsSuccess(outcomes[k].newHost)))
                && outcomes[i] == Parsed(newHost)
                && HostIsSuccess(newHost)
    decreases |outcomes|
  {
    if outcomes != [] {
      IntendedReplacesWithFirstSuccess(host, outcomes[1..], newHost);
      if Run(host, NewHost, outcomes) == Replaced(newHost) {
        if outcomes[0] != Parsed(newHost) || !HostIsSuccess(newHost) {
          var i :| 0 <= i < |outcomes[1..]| &&
            (forall k | 0 <= k < i :: outcomes[1..][k].QueryFailed? || (outcomes[1..][k].Parsed? && !HostIsSuccess(outcomes[1..][k].newHost))) &&
            outcomes[1..][i] == Parsed(newHost) && HostIsSuccess(newHost);
          assert outcomes[i + 1] == Parsed(newHost);
        }
      } else {
        forall i | 0 <= i < |outcomes| && outcomes[i] == Parsed(newHost) && HostIsSuccess(newHost)
          ensures exists k | 0 <= k < i :: !(outcomes[k].QueryFailed? || (outcomes[k].Parsed? && !HostIsSuccess(outcomes[k].newHost)))
        {
          if i > 0 && (outcomes[0].QueryFailed? || (outcomes[0].Parsed? && !HostIsSuccess(outcomes[0].newHost))) {
            assert outcomes[1..][i - 1] == Parsed(newHost);
            var k :| 0 <= k < i - 1 && !(outcomes[1..][k].QueryFailed? || (outcomes[1..][k].Parsed? && !HostIsSuccess(outcomes[1..][k].newHost)));
            assert outcomes[k + 1] == outcomes[1..][k];
          } else if i > 0 {
            assert !(outcomes[0].QueryFailed? || (outcomes[0].Parsed? && !HostIsSuccess(outcomes[0].newHost)));
          }
        }
      }
    }
  }

  /** The guard as written and as intended part ways on the simplest case:
      a failed host whose first retry answers with a success host, and
      whose second retry does not hit a parse error, keeps its failed
      record as written, and takes the success record as intended. */
  lemma {:induction false} GuardDiscrepancy(host: Host, newHost: Host, second: AttemptOutcome)
    requires !HostIsSuccess(host) && HostIsSuccess(newHost) && !second.ParseFailed?
    ensures Run(host, PreRetryHost, [Parsed(newHost), second]) == Kept
    ensures Consumed(host, PreRetryHost, [Parsed(newHost), second]) == 2
    ensures Run(host, NewHost, [Parsed(newHost), second]) == Replaced(newHost)
    ensures Consumed(host, NewHost, [Parsed(newHost), second]) == 1
  {
    assert [Parsed(newHost), second][1..] == [second];
    assert [second][1..] == [];
    assert Run(host, PreRetryHost, [second]) == Kept;
    assert Consumed(host, PreRetryHost, [second]) == 1;
  }

  /** A failed host whose first retry's query fails and whose second
      retry parses a success host: with the intended guard it takes that
      host after exactly two attempts; as written it keeps its failed record
      after the same two attempts. */
  lemma {:induction false} SecondRetrySucceeds(host: Host, newHost: Host)
    requires !HostIsSuccess(host) && HostIsSuccess(newHost)
    ensures Run(host, NewHost, [QueryFailed, Parsed(newHost)]) == Replaced(newHost)
    ensures Consumed(host, NewHost, [QueryFailed, Parsed(newHost)]) == 2
    ensures Run(host, PreRetryHost, [QueryFailed, Parsed(newHost)]) == Kept
    ensures Consumed(host, PreRetryHost, [QueryFailed, Parsed(newHost)]) == 2
  {
    assert [QueryFailed, Parsed(newHost)][1..] == [Parsed(newHost)];
    assert [Parsed(newHost)][1..] == [];
    assert Run(host, PreRetryHost, [Parsed(newHost)]) == Kept;
    assert Consumed(host, PreRetryHost, [Parsed(newHost)]) == 1;
  }

  /** As written, a host that is not a success aborts the run exactly when
      one of its retries gets a fleet answer that fails to parse. */
  lemma {:induction false} AsWrittenHostAbortsIff(hostid: string, host: Host, query: Query, decode: Decoder)
    requires !HostIsSuccess(host) && HostResponsesUsable(hostid, query, decode)
    ensures HostOutcomeOf(hostid, host, query, decode, PreRetryHost) == Aborted <==>
              exists retry | FIRST_RETRY <= retry < RETRY_END :: AttemptOutcomeOf(hostid, retry, query, decode) == ParseFailed
  {
    var outcomes := Outcomes(hostid, query, decode);
    AsWrittenNeverReplaces(host, outcomes);
    if ParseFailed in outcomes {
      var i :| 0 <= i < |outcomes| && outcomes[i] == ParseFailed;
      assert AttemptOutcomeOf(hostid, FIRST_RETRY + i, query, decode) == ParseFailed;
    }
    forall retry | FIRST_RETRY <= retry < RETRY_END && AttemptOutcomeOf(hostid, retry, query, decode) == ParseFailed
      ensures ParseFailed in outcomes
    {
      assert outcomes[retry - FIRST_RETRY] == ParseFailed;
    }
  }

  /** As written, the run aborts exactly when some host that is not a
      success gets a fleet answer, on one of its retries, that fails to
      parse. */
  lemma {:induction false} AsWrittenAbortsIff(minions: map<string, Host>, query: Query, decode: Decoder)
    requires ResponsesUsable(minions, query, decode)
    ensures Aborts(minions, query, decode, PreRetryHost) <==>
              exists hostid, retry | hostid in minions && !HostIsSuccess(minions[hostid]) && FIRST_RETRY <= retry < RETRY_END ::
                AttemptOutcomeOf(hostid, retry, query, decode) == ParseFailed
  {
    forall hostid | hostid in minions && !HostIsSuccess(minions[hostid])
      ensures HostOutcomeOf(hostid, minions[hostid], query, decode, PreRetryHost) == Aborted <==>
                exists retry | FIRST_RETRY <= retry < RETRY_END :: AttemptOutcomeOf(hostid, retry, query, decode) == ParseFailed
    {
      AsWrittenHostAbortsIff(hostid, minions[hostid], query, decode);
    }
  }

  /** With the intended guard, the retry loop only ever turns a failed host
      into a success host, and keeps every key. */
  lemma {:induction false} IntendedOnlyImproves(minions: map<string, Host>, query: Query, decode: Decoder)
    requires ResponsesUsable(minions, query, decode)
    ensures Updated(minions, query, decode, NewHost).Keys == minions.Keys
    ensures forall hostid | hostid in minions && Updated(minions, query, decode, NewHost)[hostid] != minions[hostid] ::
              !HostIsSuccess(minions[hostid]) && HostIsSuccess(Updated(minions, query, decode, NewHost)[hostid])
  {
    var updated := Updated(minions, query, decode, NewHost);
    forall hostid | hostid in minions && updated[hostid] != minions[hostid]
      ensures !HostIsSuccess(minions[hostid]) && HostIsSuccess(updated[hostid])
    {
      var outcome := HostOutcomeOf(hostid, minions[hostid], query, decode, NewHost);
      assert outcome.Replaced?;
      IntendedReplacesWithFirstSuccess(minions[hostid], Outcomes(hostid, query, decode), outcome.newHost);
    }
  }

  /** `run_run_salt` from the first fleet answer to the report it would
      write out: no answer is an error, an answer that fails to parse is an
      error, then the failed hosts are retried. With the guard as written
      (`PreRetryHost`) the report written is the first one, unless a retry
      aborts the run; with the intended guard (`NewHost`) it is the first
      one with some failed hosts replaced by success hosts. */
  method RunRunSalt(minionsData: Option<string>, query: Query, decode: Decoder, guard: Guard)
    returns (r: Result<map<string, Host>, Error>, log: seq<Attempt>)
    requires minionsData.Some? ==> DecodesToObject(decode, minionsData.value)
    requires minionsData.Some? && ParseMinions(minionsData.value, decode).Ok? ==>
               ResponsesUsable(ParseMinions(minionsData.value, decode).value, query, decode)
    ensures minionsData.None? ==> r == Err(SaltQueryFailed) && log == []
    ensures minionsData.Some? && ParseMinions(minionsData.value, decode).Err? ==> r == Err(JsonDecodeFailed) && log == []
    ensures minionsData.Some? && ParseMinions(minionsData.value, decode).Ok? ==>
              var report := ParseMinions(minionsData.value, decode).value;
              && (r.Err? <==> Aborts(report, query, decode, guard))
              && (r.Err? ==> r.error == JsonDecodeFailed)
              && (r.Ok? ==> r.value == Updated(report, query, decode, guard))
              && (r.Ok? && guard == PreRetryHost ==> r.value == report)
  {
    if minionsData.None? {
      return Err(SaltQueryFailed), [];
    }
    var parsed := ParseMinionsFromMinionsData(minionsData.value, decode);
    if parsed.Err? {
      return Err(JsonDecodeFailed), [];
    }
    if guard == PreRetryHost {
      AsWrittenKeepsReport(parsed.value, query, decode);
    }
    r, log := RetryFailedHosts(parsed.value, query, decode, guard);
  }
}

/** The candidate and retry loop of a chat completion, and the breaker calls it makes. */
module Failover {
  import opened PyValue
  import opened Breaker

  /** What one request comes back with. `PayloadError` is raised while the request is being built. */
  datatype Response =
    | Valid(result: Object)
    | InvalidJson
    | Status(code: int)
    | Timeout
    | NetworkError
    | PayloadError(message: string)
    | Cancelled
  {
    predicate Aborts() {
      Status? && (code == 401 || code == 403)
    }

    predicate Deterministic() {
      Status? && (code == 400 || code == 413 || code == 422)
    }

    /** The whole run ends here. */
    predicate Decisive() {
      Valid? || PayloadError? || Cancelled? || Aborts()
    }

    /** The same model is worth another attempt. */
    predicate Retries() {
      InvalidJson? || (Status? && !Aborts() && !Deterministic() && code != 429)
    }

    predicate CountsAsFailure() {
      InvalidJson? || Timeout? || NetworkError? || (Status? && !Deterministic())
    }
  }

  datatype Outcome =
    | NoCandidates
    | Completed(model: string, result: Object)
    | PayloadRejected(message: string)
    | Aborted(code: int)
    | Interrupted
    | AllModelsFailed(attempted: seq<string>)

  datatype Try = Try(candidate: nat, attempt: nat)

  /** The outside world: the answer to every attempt, and when the breaker is told about it. */
  datatype World = World(respond: (nat, nat) -> Response, clock: (nat, nat) -> real) {
    function Answer(t: Try): Response {
      respond(t.candidate, t.attempt)
    }
  }

  // ---- The policy

  function Successor(w: World, attempts: nat, t: Try): Try {
    if w.Answer(t).Retries() && t.attempt + 1 < attempts then Try(t.candidate, t.attempt + 1)
    else Try(t.candidate + 1, 0)
  }

  ghost predicate StepAt(w: World, attempts: nat, log: seq<Try>, k: nat)
    requires 0 < k < |log|
  {
    !w.Answer(log[k - 1]).Decisive() && log[k] == Successor(w, attempts, log[k - 1])
  }

  /** Every try is the policy's successor of the one before, and only the last may end the run. */
  ghost predicate Follows(w: World, count: nat, attempts: nat, log: seq<Try>) {
    && (log != [] ==> log[0] == Try(0, 0))
    && (forall k | 0 < k < |log| :: StepAt(w, attempts, log, k))
    && (forall k | 0 <= k < |log| :: log[k].candidate < count && log[k].attempt < attempts)
  }

  ghost predicate Complete(w: World, count: nat, attempts: nat, log: seq<Try>) {
    if log == [] then count == 0
    else
      var last := log[|log| - 1];
      w.Answer(last).Decisive() || Successor(w, attempts, last).candidate == count
  }

  function BreakerEvents(w: World, ids: seq<string>, log: seq<Try>): seq<Event>
    requires forall t | t in log :: t.candidate < |ids|
  {
    if log == [] then []
    else
      var t := log[|log| - 1];
      assert t in log;
      BreakerEvents(w, ids, log[..|log| - 1]) + Effect(w, ids, t)
  }

  function Effect(w: World, ids: seq<string>, t: Try): seq<Event>
    requires t.candidate < |ids|
  {
    var id, now := ids[t.candidate], w.clock(t.candidate, t.attempt);
    if w.Answer(t).Valid? then [Event.Success(id, now)]
    else if w.Answer(t).CountsAsFailure() then [Event.Failure(id, now)]
    else []
  }

  function Verdict(w: World, ids: seq<string>, log: seq<Try>, attempted: seq<string>): Outcome
    requires forall t | t in log :: t.candidate < |ids|
  {
    if log == [] then NoCandidates
    else
      var last := log[|log| - 1];
      assert last in log;
      match w.Answer(last)
      case Valid(result) => Completed(ids[last.candidate], result)
      case PayloadError(message) => PayloadRejected(message)
      case Cancelled => Interrupted
      case Status(code) => if code == 401 || code == 403 then Aborted(code) else AllModelsFailed(attempted)
      case _ => AllModelsFailed(attempted)
  }

  /** The ids tried, each once, in the order of their first try. */
  function Attempted(ids: seq<string>, log: seq<Try>): seq<string>
    requires forall t | t in log :: t.candidate < |ids|
  {
    if log == [] then []
    else
      var t := log[|log| - 1];
      assert t in log;
      var before := Attempted(ids, log[..|log| - 1]);
      if ids[t.candidate] != "" && ids[t.candidate] !in before then before + [ids[t.candidate]] else before
  }

  // ---- The loop

  ghost predicate Applied(tracker: ModelFailureTracker?, before: State, events: seq<Event>)
    reads tracker
  {
    tracker != null ==>
      var after := Run(tracker.cfg, before, events);
      tracker.Memory() == after.mem && tracker.disk == after.disk
  }

  /** Tells the breaker about one answer. */
  method Report(w: World, ids: seq<string>, t: Try, tracker: ModelFailureTracker?, ghost before: State,
                ghost events: seq<Event>)
    requires t.candidate < |ids| && Applied(tracker, before, events)
    modifies tracker
    ensures Applied(tracker, before, events + Effect(w, ids, t))
  {
    var id, now := ids[t.candidate], w.clock(t.candidate, t.attempt);
    ghost var e := Effect(w, ids, t);
    if |e| == 1 {
      assert (events + e)[..|events + e| - 1] == events;
    } else {
      assert events + e == events;
    }
    if tracker != null {
      if w.Answer(t).Valid? {
        tracker.RecordSuccess(id);
        assert tracker.StateAt(now).mem == tracker.Memory();
      } else if w.Answer(t).CountsAsFailure() {
        tracker.RecordFailure(id, now);
        assert tracker.StateAt(now).mem == tracker.Memory();
      }
    }
  }

  /** The log follows the policy, and the breaker and the list of attempted models reflect it. */
  ghost predicate Consistent(w: World, ids: seq<string>, attempts: nat, tracker: ModelFailureTracker?, before: State,
                             log: seq<Try>, attempted: seq<string>)
    reads tracker
  {
    && Follows(w, |ids|, attempts, log)
    && (forall t | t in log :: t.candidate < |ids|)
    && attempted == Attempted(ids, log)
    && Applied(tracker, before, BreakerEvents(w, ids, log))
  }

  /** One request to one candidate. */
  method TryOnce(w: World, ids: seq<string>, t: Try, attempts: nat, tracker: ModelFailureTracker?,
                 log0: seq<Try>, attempted0: seq<string>, ghost before: State)
    returns (log: seq<Try>, attempted: seq<string>)
    requires t.candidate < |ids| && t.attempt < attempts
    requires Consistent(w, ids, attempts, tracker, before, log0, attempted0) && NextIs(w, attempts, log0, t)
    modifies tracker
    ensures log == log0 + [t] && Consistent(w, ids, attempts, tracker, before, log, attempted)
  {
    attempted := attempted0;
    if ids[t.candidate] != "" && ids[t.candidate] !in attempted {
      attempted := attempted + [ids[t.candidate]];
    }
    Report(w, ids, t, tracker, before, BreakerEvents(w, ids, log0));
    log := log0 + [t];
    assert log[..|log| - 1] == log0 && log[|log| - 1] == t;
    FollowsSnoc(w, |ids|, attempts, log0, t);
  }

  /** All attempts on one candidate, from the try that opens it. */
  method TryCandidate(w: World, ids: seq<string>, i: nat, attempts: nat, tracker: ModelFailureTracker?,
                      log0: seq<Try>, attempted0: seq<string>, ghost before: State)
    returns (log: seq<Try>, attempted: seq<string>)
    requires i < |ids| && attempts >= 1
    requires Consistent(w, ids, attempts, tracker, before, log0, attempted0) && NextIs(w, attempts, log0, Try(i, 0))
    modifies tracker
    ensures log != [] && Consistent(w, ids, attempts, tracker, before, log, attempted)
    ensures w.Answer(log[|log| - 1]).Decisive() || NextIs(w, attempts, log, Try(i + 1, 0))
  {
    log, attempted := log0, attempted0;
    for attempt := 0 to attempts
      invariant Consistent(w, ids, attempts, tracker, before, log, attempted)
      invariant attempt < attempts ==> NextIs(w, attempts, log, Try(i, attempt))
      invariant attempt == attempts ==>
                  log != [] && (w.Answer(log[|log| - 1]).Decisive() || NextIs(w, attempts, log, Try(i + 1, 0)))
    {
      var t := Try(i, attempt);
      log, attempted := TryOnce(w, ids, t, attempts, tracker, log, attempted, before);
      assert log[|log| - 1] == t;
      if !w.Answer(t).Retries() {
        return;
      }
    }
  }

  /** The policy's next try, if the run goes on. */
  ghost predicate NextIs(w: World, attempts: nat, log: seq<Try>, t: Try) {
    if log == [] then t == Try(0, 0)
    else !w.Answer(log[|log| - 1]).Decisive() && Successor(w, attempts, log[|log| - 1]) == t
  }

  lemma FollowsSnoc(w: World, count: nat, attempts: nat, log: seq<Try>, t: Try)
    requires Follows(w, count, attempts, log) && NextIs(w, attempts, log, t)
    requires t.candidate < count && t.attempt < attempts
    ensures Follows(w, count, attempts, log + [t])
  {
    var grown := log + [t];
    forall k | 0 < k < |grown|
      ensures StepAt(w, attempts, grown, k)
    {
      assert k < |log| ==> StepAt(w, attempts, log, k);
    }
  }

  /** `maxRetries` is the configured number of attempts per model, at least one being made. */
  method ChatCompletion(w: World, ids: seq<string>, maxRetries: int, tracker: ModelFailureTracker?)
    returns (outcome: Outcome, log: seq<Try>)
    modifies tracker
    ensures var attempts := if maxRetries < 1 then 1 else maxRetries;
            Follows(w, |ids|, attempts, log) && Complete(w, |ids|, attempts, log)
    ensures forall t | t in log :: t.candidate < |ids|
    ensures outcome == Verdict(w, ids, log, Attempted(ids, log))
    ensures tracker != null ==> Applied(tracker, old(tracker.StateAt(0.0)), BreakerEvents(w, ids, log))
  {
    log := [];
    if ids == [] {
      return NoCandidates, [];
    }
    var attempts := if maxRetries < 1 then 1 else maxRetries;
    var attempted: seq<string> := [];
    ghost var before := if tracker == null then FRESH else tracker.StateAt(0.0);
    for i := 0 to |ids|
      invariant Consistent(w, ids, attempts, tracker, before, log, attempted)
      invariant NextIs(w, attempts, log, Try(i, 0)) && (i > 0 ==> log != [])
    {
      log, attempted := TryCandidate(w, ids, i, attempts, tracker, log, attempted, before);
      var last := log[|log| - 1];
      assert last in log;
      match w.Answer(last) {
        case Valid(result) => return Completed(ids[last.candidate], result), log;
        case PayloadError(message) => return PayloadRejected(message), log;
        case Cancelled => return Interrupted, log;
        case Status(code) =>
          if code == 401 || code == 403 {
            return Aborted(code), log;
          }
        case _ =>
      }
    }
    outcome := AllModelsFailed(attempted);
  }

  // ---- What the policy amounts to

  /** The policy admits one log only. */
  lemma {:induction false} PolicyDeterminesLog(w: World, count: nat, attempts: nat, a: seq<Try>, b: seq<Try>)
    requires Follows(w, count, attempts, a) && Complete(w, count, attempts, a)
    requires Follows(w, count, attempts, b) && Complete(w, count, attempts, b)
    ensures a == b
  {
    CommonPrefix(w, count, attempts, a, b, if |a| <= |b| then |a| else |b|);
    EndIsFinal(w, count, attempts, a, b);
    EndIsFinal(w, count, attempts, b, a);
  }

  lemma {:induction false} CommonPrefix(w: World, count: nat, attempts: nat, a: seq<Try>, b: seq<Try>, n: nat)
    requires Follows(w, count, attempts, a) && Follows(w, count, attempts, b) && n <= |a| && n <= |b|
    ensures a[..n] == b[..n]
  {
    if n > 0 {
      CommonPrefix(w, count, attempts, a, b, n - 1);
      if n > 1 {
        assert a[..n - 1][n - 2] == b[..n - 1][n - 2];
        assert StepAt(w, attempts, a, n - 1) && StepAt(w, attempts, b, n - 1);
      }
      assert a[..n] == a[..n - 1] + [a[n - 1]] && b[..n] == b[..n - 1] + [b[n - 1]];
    }
  }

  lemma EndIsFinal(w: World, count: nat, attempts: nat, a: seq<Try>, b: seq<Try>)
    requires Complete(w, count, attempts, a) && Follows(w, count, attempts, b)
    ensures a <= b ==> a == b
  {
    assert 0 < |a| < |b| ==> StepAt(w, attempts, b, |a|) && b[|a|].candidate < count;
  }

  /** Candidates are tried in order without gaps, each with attempts 0, 1, ... in order. */
  lemma {:induction false} TriesAreOrdered(w: World, count: nat, attempts: nat, log: seq<Try>, j: nat, k: nat)
    requires Follows(w, count, attempts, log) && j < k < |log|
    ensures log[j].candidate < log[k].candidate
         || (log[j].candidate == log[k].candidate && log[j].attempt < log[k].attempt)
  {
    assert StepAt(w, attempts, log, k);
    if j < k - 1 {
      TriesAreOrdered(w, count, attempts, log, j, k - 1);
    }
  }

  lemma {:induction false} TriedIsPrefix(w: World, count: nat, attempts: nat, log: seq<Try>, k: nat, i: nat)
    requires Follows(w, count, attempts, log) && k < |log| && i <= log[k].candidate
    ensures exists j | 0 <= j <= k :: log[j] == Try(i, 0)
  {
    if k == 0 {
      assert log[0] == Try(i, 0);
    } else {
      assert StepAt(w, attempts, log, k);
      if i <= log[k - 1].candidate {
        TriedIsPrefix(w, count, attempts, log, k - 1, i);
      } else {
        assert log[k] == Try(i, 0);
      }
    }
  }

  lemma VerdictCases(w: World, ids: seq<string>, log: seq<Try>, attempted: seq<string>)
    requires log != [] && forall t | t in log :: t.candidate < |ids|
    ensures var last := log[|log| - 1];
            && last in log
            && (Verdict(w, ids, log, attempted).AllModelsFailed? <==> !w.Answer(last).Decisive())
            && (Verdict(w, ids, log, attempted).Completed? <==> w.Answer(last).Valid?)
            && (w.Answer(last).Valid? ==>
                  Verdict(w, ids, log, attempted) == Completed(ids[last.candidate], w.Answer(last).result))
  {
  }

  /** Only the last answer of a run can be decisive. */
  lemma EarlierNotDecisive(w: World, count: nat, attempts: nat, log: seq<Try>, j: nat)
    requires Follows(w, count, attempts, log) && j + 1 < |log|
    ensures !w.Answer(log[j]).Decisive()
  {
    assert StepAt(w, attempts, log, j + 1);
  }

  /** Total failure is reported only after every candidate was tried and none of the answers was usable. */
  lemma AllFailedMeansAllTried(w: World, ids: seq<string>, attempts: nat, log: seq<Try>, i: nat)
    requires Follows(w, |ids|, attempts, log) && Complete(w, |ids|, attempts, log)
    requires forall t | t in log :: t.candidate < |ids|
    requires Verdict(w, ids, log, Attempted(ids, log)).AllModelsFailed? && i < |ids|
    ensures exists j | 0 <= j < |log| :: log[j] == Try(i, 0)
    ensures forall j | 0 <= j < |log| :: !w.Answer(log[j]).Decisive()
  {
    VerdictCases(w, ids, log, Attempted(ids, log));
    TriedIsPrefix(w, |ids|, attempts, log, |log| - 1, i);
    forall j | 0 <= j < |log|
      ensures !w.Answer(log[j]).Decisive()
    {
      if j + 1 < |log| {
        EarlierNotDecisive(w, |ids|, attempts, log, j);
      }
    }
  }

  /** A returned result is the first valid answer of the run. */
  lemma SuccessIsFirstValid(w: World, ids: seq<string>, attempts: nat, log: seq<Try>)
    requires Follows(w, |ids|, attempts, log)
    requires forall t | t in log :: t.candidate < |ids|
    requires Verdict(w, ids, log, Attempted(ids, log)).Completed?
    ensures var last := log[|log| - 1];
            && last in log && w.Answer(last).Valid?
            && Verdict(w, ids, log, Attempted(ids, log)) == Completed(ids[last.candidate], w.Answer(last).result)
    ensures forall j | 0 <= j < |log| - 1 :: !w.Answer(log[j]).Valid?
  {
    VerdictCases(w, ids, log, Attempted(ids, log));
    forall j | 0 <= j < |log| - 1
      ensures !w.Answer(log[j]).Valid?
    {
      EarlierNotDecisive(w, |ids|, attempts, log, j);
    }
  }

  /** The breaker is left untouched exactly by runs whose answers all neither succeed nor count as failures; a run
      that sees only 400, 413 and 422 is one of them. */
  lemma {:induction false} BreakerUntouchedIff(w: World, ids: seq<string>, log: seq<Try>)
    requires forall t | t in log :: t.candidate < |ids|
    ensures BreakerEvents(w, ids, log) == []
       <==> forall t | t in log :: !w.Answer(t).Valid? && !w.Answer(t).CountsAsFailure()
    ensures (forall t | t in log :: w.Answer(t).Deterministic()) ==> BreakerEvents(w, ids, log) == []
  {
    if log != [] {
      var front, last := log[..|log| - 1], log[|log| - 1];
      assert log == front + [last];
      assert last in log && forall t | t in front :: t in log;
      BreakerUntouchedIff(w, ids, front);
      assert forall t | t in log :: t in front || t == last;
    }
  }

  /** Nothing follows an authorisation error, whatever candidates remain. */
  lemma AbortEndsTheRun(w: World, ids: seq<string>, attempts: nat, log: seq<Try>, j: nat)
    requires Follows(w, |ids|, attempts, log) && j < |log| && w.Answer(log[j]).Aborts()
    ensures j == |log| - 1 && Complete(w, |ids|, attempts, log)
  {
    if j + 1 < |log| {
      EarlierNotDecisive(w, |ids|, attempts, log, j);
    }
  }

  /** In a run, an authorisation error is the last answer whatever candidates remain, and the breaker is told of a
      failure of the model that gave it, after what the earlier tries told it. */
  lemma AbortChargesTheModel(w: World, ids: seq<string>, attempts: nat, log: seq<Try>, j: nat)
    requires Follows(w, |ids|, attempts, log) && forall t | t in log :: t.candidate < |ids|
    requires j < |log| && w.Answer(log[j]).Aborts()
    ensures j == |log| - 1 && Complete(w, |ids|, attempts, log)
    ensures Verdict(w, ids, log, Attempted(ids, log)) == Aborted(w.Answer(log[j]).code)
    ensures forall t | t in log[..j] :: t in log
    ensures BreakerEvents(w, ids, log) == BreakerEvents(w, ids, log[..j])
              + [Event.Failure(ids[log[j].candidate], w.clock(log[j].candidate, log[j].attempt))]
  {
    AbortEndsTheRun(w, ids, attempts, log, j);
    assert log[j] in log;
    assert Effect(w, ids, log[j]) == [Event.Failure(ids[log[j].candidate], w.clock(log[j].candidate, log[j].attempt))];
  }

  lemma {:induction false} AttemptedIsDistinct(ids: seq<string>, log: seq<Try>)
    requires forall t | t in log :: t.candidate < |ids|
    ensures var names := Attempted(ids, log);
            && (forall i, j | 0 <= i < j < |names| :: names[i] != names[j])
            && forall t | t in log && ids[t.candidate] != "" :: ids[t.candidate] in names
  {
    if log != [] {
      var front, last := log[..|log| - 1], log[|log| - 1];
      assert log == front + [last];
      assert last in log && forall t | t in front :: t in log;
      AttemptedIsDistinct(ids, front);
      assert forall t | t in log :: t in front || t == last;
    }
  }

  // ---- The policy in codes

  /** After a try that does not end the run, an unreadable 200 and every error status but 400, 413, 422 and 429 is
      tried again while attempts are left; those four, a timeout and a network error go to the next candidate. */
  lemma NextTry(w: World, count: nat, attempts: nat, log: seq<Try>, k: nat)
    requires Follows(w, count, attempts, log) && k + 1 < |log|
    ensures var t, answer := log[k], w.Answer(log[k]);
            log[k + 1] == if (answer == InvalidJson || (answer.Status? && answer.code !in {400, 413, 422, 429}))
                             && t.attempt + 1 < attempts
                          then Try(t.candidate, t.attempt + 1) else Try(t.candidate + 1, 0)
  {
    assert StepAt(w, attempts, log, k + 1);
  }

  predicate EndsTheRun(answer: Response) {
    answer.Valid? || answer.PayloadError? || answer.Cancelled? || answer in {Status(401), Status(403)}
  }

  /** A run ends on a valid answer, a refused payload, a cancellation, 401 or 403, and otherwise only at the end of
      the candidates. */
  lemma RunEndsOn(w: World, count: nat, attempts: nat, log: seq<Try>, k: nat)
    requires Follows(w, count, attempts, log) && Complete(w, count, attempts, log) && k < |log|
    ensures EndsTheRun(w.Answer(log[k])) ==> k == |log| - 1
    ensures k == |log| - 1 ==> EndsTheRun(w.Answer(log[k])) || log[k].candidate + 1 == count
  {
    if k + 1 < |log| {
      EarlierNotDecisive(w, count, attempts, log, k);
    }
  }

  /** What the caller gets, by the last answer. */
  lemma VerdictOn(w: World, ids: seq<string>, log: seq<Try>, attempted: seq<string>)
    requires forall t | t in log :: t.candidate < |ids|
    ensures log == [] ==> Verdict(w, ids, log, attempted) == NoCandidates
    ensures log != [] ==>
              var last, v := log[|log| - 1], Verdict(w, ids, log, attempted);
              && (forall r | w.Answer(last) == Valid(r) :: last in log && v == Completed(ids[last.candidate], r))
              && (forall m | w.Answer(last) == PayloadError(m) :: v == PayloadRejected(m))
              && (w.Answer(last) == Cancelled ==> v == Interrupted)
              && (forall c | w.Answer(last) == Status(c) && c in {401, 403} :: v == Aborted(c))
              && (!EndsTheRun(w.Answer(last)) ==> v == AllModelsFailed(attempted))
  {
    if log != [] {
      assert log[|log| - 1] in log;
    }
  }

  /** The breaker hears nothing exactly of runs whose answers are all 400, 413 or 422, or end before an answer. */
  lemma {:induction false} BreakerSilentOn(w: World, ids: seq<string>, log: seq<Try>)
    requires forall t | t in log :: t.candidate < |ids|
    ensures BreakerEvents(w, ids, log) == []
       <==> forall t | t in log ::
              || w.Answer(t) in {Status(400), Status(413), Status(422)}
              || w.Answer(t).PayloadError? || w.Answer(t).Cancelled?
  {
    BreakerUntouchedIff(w, ids, log);
    assert forall t | t in log ::
        (!w.Answer(t).Valid? && !w.Answer(t).CountsAsFailure()) <==>
        (w.Answer(t) in {Status(400), Status(413), Status(422)} || w.Answer(t).PayloadError? || w.Answer(t).Cancelled?);
  }

  /** One valid answer resets the model's failures; anything else the breaker hears of is a failure of that model. */
  lemma EffectOf(w: World, ids: seq<string>, t: Try)
    requires t.candidate < |ids|
    ensures var id, now := ids[t.candidate], w.clock(t.candidate, t.attempt);
            Effect(w, ids, t) == match w.Answer(t)
                                 case Valid(_) => [Event.Success(id, now)]
                                 case PayloadError(_) => []
                                 case Cancelled => []
                                 case Status(code) => if code in {400, 413, 422} then [] else [Event.Failure(id, now)]
                                 case _ => [Event.Failure(id, now)]
  {
  }
}

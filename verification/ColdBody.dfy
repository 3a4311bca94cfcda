/**
 * The cold streaming body: pulls start the inner response lazily, closing stops it, and whoever finds that it
 * never started fails the claim. A section under the state lock never suspends, so each is one step; the
 * steps below go from one await to the next.
 */
module ColdBody {
  import opened PyValue

  datatype FailTask = NoTask | FailRunning | FailDone

  /**
   * A pull is waiting for the owner to resume, for the inner response, or for the claim to be failed; or it is over.
   */
  datatype Pull = Resuming | InInner | Failing | Over

  /** A closer is waiting for the close lock, the active pull, the inner close or the claim failure; or it is over. */
  datatype Closer = AwaitLock | AwaitPull(pull: nat) | ClosingInner(started: bool) | AwaitFail | Finished

  datatype State = State(
    created: bool,           // `_iterator` is there
    iterators: nat,          // inner iterators ever created
    innerStarted: bool,
    failTask: FailTask,
    failTasks: nat,          // claim-failure tasks ever created
    closing: bool,
    closed: bool,
    active: Option<nat>,     // `_active_pull_task`
    pulls: map<nat, Pull>,
    lock: Option<nat>,       // the closer inside the close lock
    closers: map<nat, Closer>,
    raised: bool)            // some pull has raised, the end of the iteration included

  datatype Step =
    | PullStart(p: nat)
    | ResumeReturns(p: nat, innerRuns: bool)
    | ResumeRaises(p: nat)
    | InnerYields(p: nat)
    | InnerEnds(p: nat)
    | InnerRaises(p: nat)
    | FailAwaited(p: nat)
    | FailWaitCancelled(p: nat)
    | FailTaskEnds
    | CloseStart(k: nat)
    | LockTaken(k: nat)
    | PullGone(k: nat)
    | InnerClosed(k: nat, raises: bool)
    | CloseFailAwaited(k: nat)
    | CloserCancelled(k: nat)

  const START := State(false, 0, false, NoTask, 0, false, false, None, map[], None, map[], false)

  // ---- Pulling

  /** `_fail_claim_once` up to its await. */
  function EnsureFail(s: State): State {
    s.(failTask := if s.failTask.NoTask? then FailRunning else s.failTask,
       failTasks := if s.failTask.NoTask? then s.failTasks + 1 else s.failTasks)
  }

  /** The pull leaves with an exception. */
  function Raise(s: State, p: nat, closes: bool): State {
    s.(pulls := s.pulls[p := Over], active := None, raised := true, closed := s.closed || closes)
  }

  /** The handler for an exception of a pull. */
  function Handle(s: State, p: nat): State {
    if s.innerStarted then Raise(s, p, !s.closing) else EnsureFail(s).(pulls := s.pulls[p := Failing])
  }

  /**
   * The inner iterator is created if there is none, and runs up to its first await unless it fails before it starts.
   */
  function RunInner(s: State, p: nat, innerRuns: bool): State {
    var t := s.(created := true, iterators := if s.created then s.iterators else s.iterators + 1);
    if innerRuns then t.(innerStarted := true, pulls := s.pulls[p := InInner]) else Handle(t, p)
  }

  // ---- Closing

  /** The end of closing, by return or by exception. */
  function Finish(s: State, k: nat): State {
    s.(closing := false, closed := true, lock := None, closers := s.closers[k := Finished])
  }

  /** Closing once no pull is active. */
  function CloseInner(s: State, k: nat): State {
    if s.created then s.(closers := s.closers[k := ClosingInner(s.innerStarted)])
    else EnsureFail(s).(closers := s.closers[k := AwaitFail])
  }

  function EnterLock(s: State, k: nat): State {
    if s.closed then s.(closers := s.closers[k := Finished])
    else
      var t := s.(closing := true, lock := Some(k));
      if s.active.None? then CloseInner(t, k) else t.(closers := s.closers[k := AwaitPull(s.active.value)])
  }

  // ---- Steps

  predicate PullAt(s: State, p: nat, at: Pull) {
    p in s.pulls && s.pulls[p] == at
  }

  /**
   * The owner's resume returns only while no claim failure has begun: the failure takes the owner's lock before the
   * pull that asked for it can leave, and settles the claim on every path. A finished or dead inner iterator only ends.
   */
  predicate Enabled(s: State, step: Step) {
    match step
    case PullStart(p) => p !in s.pulls
    case ResumeReturns(p, _) => PullAt(s, p, Resuming) && s.failTask.NoTask?
    case ResumeRaises(p) => PullAt(s, p, Resuming)
    case InnerYields(p) => PullAt(s, p, InInner) && s.innerStarted
    case InnerEnds(p) => PullAt(s, p, InInner)
    case InnerRaises(p) => PullAt(s, p, InInner) && s.innerStarted
    case FailAwaited(p) => PullAt(s, p, Failing) && s.failTask.FailDone?
    case FailWaitCancelled(p) => PullAt(s, p, Failing)
    case FailTaskEnds => s.failTask.FailRunning?
    case CloseStart(k) => k !in s.closers
    case LockTaken(k) => k in s.closers && s.closers[k].AwaitLock? && s.lock.None?
    case PullGone(k) => k in s.closers && s.closers[k].AwaitPull? && PullAt(s, s.closers[k].pull, Over)
    case InnerClosed(k, _) => k in s.closers && s.closers[k].ClosingInner?
    case CloseFailAwaited(k) => k in s.closers && s.closers[k].AwaitFail? && s.failTask.FailDone?
    case CloserCancelled(k) => k in s.closers && !s.closers[k].Finished?
  }

  function PullNext(s: State, p: nat): State {
    if s.closing || s.closed || s.active.Some? then s.(pulls := s.pulls[p := Over], raised := true)
    else s.(active := Some(p), pulls := s.pulls[p := if s.created then InInner else Resuming])
  }

  function Apply(s: State, step: Step): State
    requires Enabled(s, step)
  {
    match step
    case PullStart(p) => PullNext(s, p)
    case ResumeReturns(p, innerRuns) => if s.closing || s.closed then Handle(s, p) else RunInner(s, p, innerRuns)
    case ResumeRaises(p) => Handle(s, p)
    case InnerYields(p) => s.(pulls := s.pulls[p := Over], active := None)
    case InnerEnds(p) => Raise(s, p, true)
    case InnerRaises(p) => Handle(s, p)
    case FailAwaited(p) => Raise(s, p, !s.closing)
    case FailWaitCancelled(p) => Raise(s, p, false)
    case FailTaskEnds => s.(failTask := FailDone)
    case CloseStart(k) => if s.lock.Some? then s.(closers := s.closers[k := AwaitLock]) else EnterLock(s, k)
    case LockTaken(k) => EnterLock(s, k)
    case PullGone(k) => CloseInner(s, k)
    case InnerClosed(k, raises) =>
      if raises || s.closers[k].started then Finish(s, k) else EnsureFail(s).(closers := s.closers[k := AwaitFail])
    case CloseFailAwaited(k) => Finish(s, k)
    case CloserCancelled(k) =>
      if s.closers[k].AwaitLock? then s.(closers := s.closers[k := Finished]) else Finish(s, k)
  }

  // ---- Any consumer

  ghost predicate Counts(s: State) {
    && s.iterators == (if s.created then 1 else 0)
    && s.failTasks == (if s.failTask.NoTask? then 0 else 1)
  }

  predicate IsPullStep(step: Step) {
    || step.PullStart? || step.ResumeReturns? || step.ResumeRaises?
    || step.InnerYields? || step.InnerEnds? || step.InnerRaises?
    || step.FailAwaited? || step.FailWaitCancelled? || step.FailTaskEnds?
  }

  lemma PullCounts(s: State, step: Step)
    requires Counts(s) && Enabled(s, step) && IsPullStep(step)
    ensures Counts(Apply(s, step))
  {
    match step
    case ResumeReturns(p, innerRuns) => RunCounts(s, p, innerRuns);
    case _ =>
  }

  lemma RunCounts(s: State, p: nat, innerRuns: bool)
    requires Counts(s)
    ensures Counts(RunInner(s, p, innerRuns)) && Counts(Handle(s, p))
  {
  }

  lemma CloseCounts(s: State, step: Step)
    requires Counts(s) && Enabled(s, step) && !IsPullStep(step)
    ensures Counts(Apply(s, step))
  {
    match step
    case CloseStart(k) => EnterCounts(s, k);
    case LockTaken(k) => EnterCounts(s, k);
    case _ =>
  }

  lemma EnterCounts(s: State, k: nat)
    requires Counts(s)
    ensures Counts(EnterLock(s, k)) && Counts(CloseInner(s, k))
  {
  }

  ghost predicate Run(s: State, steps: seq<Step>, end: State)
    decreases |steps|
  {
    if steps == [] then end == s else Enabled(s, steps[0]) && Run(Apply(s, steps[0]), steps[1..], end)
  }

  /** Whatever the consumer does, there is at most one inner iterator and at most one claim failure. */
  lemma {:induction false} AtMostOnce(s: State, steps: seq<Step>, end: State)
    requires Counts(s) && Run(s, steps, end)
    ensures Counts(end) && end.iterators <= 1 && end.failTasks <= 1
    decreases |steps|
  {
    if steps != [] {
      if IsPullStep(steps[0]) {
        PullCounts(s, steps[0]);
      } else {
        CloseCounts(s, steps[0]);
      }
      AtMostOnce(Apply(s, steps[0]), steps[1..], end);
    }
  }

  /** The inner response was started, or the claim was failed. */
  predicate Resolved(s: State) {
    s.innerStarted || !s.failTask.NoTask?
  }

  ghost predicate PullsOk(s: State) {
    && (forall p | p in s.pulls && !s.pulls[p].Over? :: s.active == Some(p))
    && (forall p | p in s.pulls && s.pulls[p].Resuming? :: !s.created)
    && (forall p | p in s.pulls && s.pulls[p].InInner? :: Resolved(s))
    && (forall p | p in s.pulls && s.pulls[p].Failing? :: !s.innerStarted && !s.failTask.NoTask?)
    && (s.active.Some? ==> s.active.value in s.pulls && !s.pulls[s.active.value].Over?)
  }

  ghost predicate CloserOk(s: State, k: nat)
    requires k in s.closers
  {
    match s.closers[k]
    case AwaitLock => s.lock != Some(k)
    case AwaitPull(p) =>
      && s.lock == Some(k) && p in s.pulls && (s.active.None? || s.active == Some(p))
      && (s.active.None? ==> Resolved(s))
    case ClosingInner(started) => s.lock == Some(k) && s.active.None? && s.created && started == s.innerStarted
    case AwaitFail => s.lock == Some(k) && s.active.None? && !s.failTask.NoTask?
    case Finished => s.lock != Some(k)
  }

  ghost predicate BodyOk(s: State) {
    && (s.innerStarted ==> s.created)
    && !(s.innerStarted && !s.failTask.NoTask?)
    && (s.created ==> Resolved(s))
    && (s.closed && s.active.None? ==> Resolved(s))
    && (s.closing <==> s.lock.Some?)
    && (s.lock.Some? ==> s.lock.value in s.closers)
  }

  ghost predicate Inv(s: State) {
    Counts(s) && PullsOk(s) && BodyOk(s) && forall k | k in s.closers :: CloserOk(s, k)
  }

  lemma StartInv()
    ensures Inv(START)
  {
  }

  lemma HandleKeeps(s: State, p: nat)
    requires Inv(s) && p in s.pulls && (s.pulls[p].Resuming? || (s.pulls[p].InInner? && s.innerStarted))
    ensures Inv(Handle(s, p))
  {
  }

  lemma ResumeKeeps(s: State, p: nat, innerRuns: bool)
    requires Inv(s) && PullAt(s, p, Resuming) && s.failTask.NoTask? && !s.closing && !s.closed
    ensures Inv(RunInner(s, p, innerRuns))
  {
  }

  lemma PullStepKeeps(s: State, step: Step)
    requires Inv(s) && Enabled(s, step)
    requires step.PullStart? || step.ResumeReturns? || step.ResumeRaises? || step.InnerYields?
    ensures Inv(Apply(s, step))
  {
    if step.ResumeRaises? || (step.ResumeReturns? && (s.closing || s.closed)) {
      HandleKeeps(s, step.p);
    } else if step.ResumeReturns? {
      ResumeKeeps(s, step.p, step.innerRuns);
    }
  }

  lemma PullEndKeeps(s: State, step: Step)
    requires Inv(s) && Enabled(s, step)
    requires step.InnerEnds? || step.InnerRaises? || step.FailAwaited? || step.FailWaitCancelled? || step.FailTaskEnds?
    ensures Inv(Apply(s, step))
  {
  }

  lemma CloseInnerKeeps(s: State, k: nat)
    requires Counts(s) && PullsOk(s) && BodyOk(s) && s.active.None? && s.lock == Some(k) && k in s.closers
    requires forall j | j in s.closers && j != k :: CloserOk(s, j)
    ensures Inv(CloseInner(s, k))
  {
    var next := CloseInner(s, k);
    forall j | j in next.closers
      ensures CloserOk(next, j)
    {
      assert j != k ==> CloserOk(s, j);
    }
  }

  lemma EnterKeeps(s: State, k: nat)
    requires Inv(s) && s.lock.None?
    ensures Inv(EnterLock(s, k))
  {
    if !s.closed && s.active.None? {
      var t := s.(closing := true, lock := Some(k), closers := s.closers[k := AwaitFail]);
      forall j | j in t.closers && j != k
        ensures CloserOk(t, j)
      {
        assert CloserOk(s, j);
      }
      CloseInnerKeeps(t, k);
      assert CloseInner(t, k).closers == EnterLock(s, k).closers;
    }
  }

  lemma CloseStepKeeps(s: State, step: Step)
    requires Inv(s) && Enabled(s, step)
    requires step.CloseStart? || step.LockTaken? || step.PullGone?
    ensures Inv(Apply(s, step))
  {
    if step.PullGone? {
      assert CloserOk(s, step.k);
      CloseInnerKeeps(s, step.k);
    } else if s.lock.None? {
      EnterKeeps(s, step.k);
    }
  }

  lemma FinishKeeps(s: State, k: nat)
    requires Inv(s) && k in s.closers && s.lock == Some(k)
    ensures Inv(Finish(s, k))
  {
    assert CloserOk(s, k);
    forall j | j in s.closers && j != k
      ensures CloserOk(Finish(s, k), j)
    {
      assert CloserOk(s, j);
    }
  }

  lemma CloseEndKeeps(s: State, step: Step)
    requires Inv(s) && Enabled(s, step)
    requires step.InnerClosed? || step.CloseFailAwaited? || step.CloserCancelled?
    ensures Inv(Apply(s, step))
  {
    assert CloserOk(s, step.k);
    if s.lock == Some(step.k) {
      FinishKeeps(s, step.k);
    }
  }

  lemma StepKeeps(s: State, step: Step)
    requires Inv(s) && Enabled(s, step)
    ensures Inv(Apply(s, step))
  {
    if step.PullStart? || step.ResumeReturns? || step.ResumeRaises? || step.InnerYields? {
      PullStepKeeps(s, step);
    } else if IsPullStep(step) {
      PullEndKeeps(s, step);
    } else if step.CloseStart? || step.LockTaken? || step.PullGone? {
      CloseStepKeeps(s, step);
    } else {
      CloseEndKeeps(s, step);
    }
  }

  lemma {:induction false} RunKeeps(s: State, steps: seq<Step>, end: State)
    requires Inv(s) && Run(s, steps, end)
    ensures Inv(end)
    decreases |steps|
  {
    if steps != [] {
      StepKeeps(s, steps[0]);
      RunKeeps(Apply(s, steps[0]), steps[1..], end);
    }
  }

  /**
   * For every consumer, those that pull on after an exception included: the inner response is never both started and
   * disowned; once the body is closed and no pull is under way, exactly one of the two holds; and a closer at work
   * finds exactly one of them.
   */
  lemma ExactlyOneOwner(steps: seq<Step>, end: State)
    requires Run(START, steps, end)
    ensures end.iterators <= 1 && end.failTasks <= 1
    ensures !(end.innerStarted && end.failTasks == 1)
    ensures end.closed && end.active.None? ==> (end.innerStarted <==> end.failTasks == 0)
    ensures forall k | k in end.closers && (end.closers[k].AwaitFail? || end.closers[k].ClosingInner?) ::
              end.innerStarted <==> end.failTasks == 0
  {
    StartInv();
    RunKeeps(START, steps, end);
    forall k | k in end.closers && (end.closers[k].AwaitFail? || end.closers[k].ClosingInner?)
      ensures end.innerStarted <==> end.failTasks == 0
    {
      assert CloserOk(end, k);
    }
  }

  /** A closer that gets to the end of its work, rather than being cancelled, leaves exactly one of the two behind. */
  lemma ClosingDecides(s: State, step: Step)
    requires Inv(s) && Enabled(s, step)
    requires step.CloseFailAwaited? || (step.InnerClosed? && (step.raises || s.closers[step.k].started))
    ensures var next := Apply(s, step);
            next.closed && next.active.None? && (next.innerStarted <==> next.failTasks == 0)
  {
    assert CloserOk(s, step.k);
    CloseEndKeeps(s, step);
  }

  // ---- What the owner's refusal is for

  /** The claim was failed before anything started, and yet the body was left open. */
  predicate LeftOpen(s: State) {
    !s.closing && !s.closed && s.active.None? && !s.created && !s.failTask.NoTask?
  }

  /**
   * If a resume could succeed after the claim failure had begun, one more pull would start a response whose claim was
   * failed exactly when the body was left open.
   */
  lemma RefusalNeededIff(s: State, p: nat)
    requires Inv(s) && p !in s.pulls
    ensures var pulled := Apply(s, PullStart(p));
            LeftOpen(s) <==>
              PullAt(pulled, p, Resuming) && !(pulled.closing || pulled.closed) &&
              var started := RunInner(pulled, p, true); started.innerStarted && !started.failTask.NoTask?
  {
  }

  /** A pull cancelled while it waits for the claim to be failed leaves the body open. */
  lemma CancelledWaitLeavesOpen()
    ensures exists s :: Run(START, [PullStart(0), ResumeRaises(0), FailWaitCancelled(0)], s) && LeftOpen(s)
  {
    var s1 := Apply(START, PullStart(0));
    var s2 := Apply(s1, ResumeRaises(0));
    var s3 := Apply(s2, FailWaitCancelled(0));
    var tail: seq<Step> := [];
    assert Run(s3, tail, s3);
    assert [FailWaitCancelled(0)][1..] == tail;
    assert Run(s2, [FailWaitCancelled(0)], s3);
    assert [ResumeRaises(0), FailWaitCancelled(0)][1..] == [FailWaitCancelled(0)];
    assert Run(s1, [ResumeRaises(0), FailWaitCancelled(0)], s3);
    assert [PullStart(0), ResumeRaises(0), FailWaitCancelled(0)][1..] == [ResumeRaises(0), FailWaitCancelled(0)];
    assert Run(START, [PullStart(0), ResumeRaises(0), FailWaitCancelled(0)], s3);
  }

  // ---- Closed and undecided

  /**
   * For every consumer, a closed body is undecided, neither started nor failed, if and only if no failure has begun
   * and a pull still waits for the owner to resume.
   */
  lemma ClosedUndecidedIff(steps: seq<Step>, end: State)
    requires Run(START, steps, end) && end.closed
    ensures !Resolved(end) <==> end.failTask.NoTask? && exists p :: PullAt(end, p, Resuming)
  {
    StartInv();
    RunKeeps(START, steps, end);
    if !Resolved(end) {
      assert PullAt(end, end.active.value, Resuming);
    }
  }

  /** And that pull decides: however its resume ends, the closed body then has the claim failed. */
  lemma UndecidedPullFails(steps: seq<Step>, end: State, p: nat, step: Step)
    requires Run(START, steps, end) && end.closed && PullAt(end, p, Resuming)
    requires Enabled(end, step) && ((step.ResumeReturns? || step.ResumeRaises?) && step.p == p)
    ensures var next := Apply(end, step); !next.failTask.NoTask? && !next.innerStarted && PullAt(next, p, Failing)
  {
    StartInv();
    RunKeeps(START, steps, end);
  }

  /** A consumer that stops pulling after an exception. */
  predicate Stops(s: State, step: Step) {
    step.PullStart? ==> !s.raised
  }

  ghost predicate StoppingRun(s: State, steps: seq<Step>, end: State)
    decreases |steps|
  {
    if steps == [] then end == s
    else Enabled(s, steps[0]) && Stops(s, steps[0]) && StoppingRun(Apply(s, steps[0]), steps[1..], end)
  }

  /** A failure that began shuts the body to such a consumer. */
  ghost predicate Calm(s: State) {
    && (forall p | p in s.pulls && s.pulls[p].Resuming? :: s.failTask.NoTask?)
    && (!s.failTask.NoTask? && s.active.None? ==> s.raised || s.closing || s.closed)
  }

  lemma CalmPulls(s: State, step: Step)
    requires Inv(s) && Calm(s) && Enabled(s, step) && Stops(s, step) && IsPullStep(step)
    ensures Calm(Apply(s, step))
  {
  }

  lemma CalmCloses(s: State, step: Step)
    requires Inv(s) && Calm(s) && Enabled(s, step) && !IsPullStep(step)
    ensures Calm(Apply(s, step))
  {
    if !step.CloseStart? {
      assert CloserOk(s, step.k);
    }
  }

  lemma {:induction false} StoppingKeeps(s: State, steps: seq<Step>, end: State)
    requires Inv(s) && Calm(s) && StoppingRun(s, steps, end)
    ensures Inv(end) && Calm(end)
    decreases |steps|
  {
    if steps != [] {
      StepKeeps(s, steps[0]);
      if IsPullStep(steps[0]) {
        CalmPulls(s, steps[0]);
      } else {
        CalmCloses(s, steps[0]);
      }
      StoppingKeeps(Apply(s, steps[0]), steps[1..], end);
    }
  }

  /** For a consumer that stops, every pull that still resumes leaves a closed body undecided. */
  lemma StoppingUndecidedIff(steps: seq<Step>, end: State)
    requires StoppingRun(START, steps, end) && end.closed
    ensures !Resolved(end) <==> exists p :: PullAt(end, p, Resuming)
  {
    StartInv();
    StoppingKeeps(START, steps, end);
    if !Resolved(end) {
      assert PullAt(end, end.active.value, Resuming);
    }
  }

  /** A closer cancelled while it waits for a pull leaves a closed body with neither, until that pull comes back. */
  lemma CancelledCloseUndecided()
    ensures exists s ::
              && StoppingRun(START, [PullStart(0), CloseStart(0), CloserCancelled(0)], s)
              && s.closed && !Resolved(s) && Enabled(s, ResumeReturns(0, true))
              && Resolved(Apply(s, ResumeReturns(0, true)))
  {
    var s1 := Apply(START, PullStart(0));
    var s2 := Apply(s1, CloseStart(0));
    var s3 := Apply(s2, CloserCancelled(0));
    var tail: seq<Step> := [];
    assert StoppingRun(s3, tail, s3);
    assert [CloserCancelled(0)][1..] == tail;
    assert StoppingRun(s2, [CloserCancelled(0)], s3);
    assert [CloseStart(0), CloserCancelled(0)][1..] == [CloserCancelled(0)];
    assert StoppingRun(s1, [CloseStart(0), CloserCancelled(0)], s3);
    assert [PullStart(0), CloseStart(0), CloserCancelled(0)][1..] == [CloseStart(0), CloserCancelled(0)];
    assert StoppingRun(START, [PullStart(0), CloseStart(0), CloserCancelled(0)], s3);
  }

  // ---- Undisturbed use

  /** The body was neither closed nor pulled by anyone else, and its claim was not failed. */
  predicate Untouched(s: State) {
    !s.closing && !s.closed && s.active.None? && s.lock.None? && s.failTask.NoTask?
  }

  /** A first pull starts the inner response, claims nothing failed, and waits for it. */
  lemma FirstPullStarts(s: State, p: nat)
    requires Untouched(s) && !s.created && p !in s.pulls
    ensures Enabled(s, PullStart(p)) && Enabled(Apply(s, PullStart(p)), ResumeReturns(p, true))
    ensures var next := Apply(Apply(s, PullStart(p)), ResumeReturns(p, true));
            && next.created && next.innerStarted && next.failTask.NoTask? && next.iterators == s.iterators + 1
            && PullAt(next, p, InInner) && next.active == Some(p) && !next.closed && next.raised == s.raised
  {
  }

  /** A later pull goes straight to the inner response, and an item leaves the body open for the next one. */
  lemma LaterPullYields(s: State, p: nat)
    requires Untouched(s) && s.created && s.innerStarted && p !in s.pulls
    ensures Enabled(s, PullStart(p)) && Enabled(Apply(s, PullStart(p)), InnerYields(p))
    ensures var next := Apply(Apply(s, PullStart(p)), InnerYields(p));
            Untouched(next) && next.innerStarted && next.iterators == s.iterators && next.raised == s.raised
  {
  }

  /** The end of the inner response, or an error in it, closes the body without failing the claim. */
  lemma InnerEndCloses(s: State, p: nat, step: Step)
    requires PullAt(s, p, InInner) && s.active == Some(p) && s.innerStarted && !s.closing
    requires step == InnerEnds(p) || step == InnerRaises(p)
    ensures Enabled(s, step)
    ensures var next := Apply(s, step);
            next.closed && next.raised && next.active.None? && next.failTask == s.failTask && PullAt(next, p, Over)
  {
  }

  /** An owner that does not resume has its claim failed, and then the body is closed. */
  lemma FailedResumeFailsClaim(s: State, p: nat)
    requires Untouched(s) && !s.created && !s.innerStarted && p !in s.pulls
    ensures Enabled(s, PullStart(p)) && Enabled(Apply(s, PullStart(p)), ResumeRaises(p))
    ensures var s1 := Apply(Apply(s, PullStart(p)), ResumeRaises(p));
            s1.failTask.FailRunning? && s1.failTasks == s.failTasks + 1 && Enabled(s1, FailTaskEnds)
            && Enabled(Apply(s1, FailTaskEnds), FailAwaited(p))
            && Apply(Apply(s1, FailTaskEnds), FailAwaited(p)).closed && !s1.innerStarted
  {
  }

  /** Closing a body that was never pulled fails its claim. */
  lemma CloseUnpulledFailsClaim(s: State, k: nat)
    requires Untouched(s) && !s.created && k !in s.closers
    ensures Enabled(s, CloseStart(k))
    ensures var s1 := Apply(s, CloseStart(k));
            s1.failTask.FailRunning? && s1.failTasks == s.failTasks + 1 && s1.closing && Enabled(s1, FailTaskEnds)
            && Enabled(Apply(s1, FailTaskEnds), CloseFailAwaited(k))
            && Apply(Apply(s1, FailTaskEnds), CloseFailAwaited(k)).closed
  {
  }

  /** Closing a started body closes the inner response and leaves the claim to it. */
  lemma CloseStartedKeepsClaim(s: State, k: nat)
    requires Untouched(s) && s.created && s.innerStarted && k !in s.closers
    ensures Enabled(s, CloseStart(k)) && Enabled(Apply(s, CloseStart(k)), InnerClosed(k, false))
    ensures var next := Apply(Apply(s, CloseStart(k)), InnerClosed(k, false));
            next.closed && !next.closing && next.lock.None? && next.failTask.NoTask?
  {
  }

  /** A closer that finds a pull under way waits for it. */
  lemma CloseWaitsForPull(s: State, k: nat)
    requires !s.closed && s.lock.None? && s.active.Some? && k !in s.closers
    ensures var next := Apply(s, CloseStart(k));
            next.closing && next.closers[k] == AwaitPull(s.active.value) && next.failTask == s.failTask
  {
  }

  /** While a closer is at work, only the closer closes the body: a pull that fails then leaves it as it is. */
  lemma FailingPullLeavesClosing(s: State, p: nat, step: Step)
    requires s.closing && Enabled(s, step)
    requires step == FailAwaited(p) || step == FailWaitCancelled(p) || (step == InnerRaises(p) && s.innerStarted)
    ensures var next := Apply(s, step);
            next.closed == s.closed && next.closing && next.raised && PullAt(next, p, Over) && next.active.None?
  {
  }
}

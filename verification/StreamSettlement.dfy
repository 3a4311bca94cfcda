/**
 * The settlement of one streamed chat response: the response generator, the finalizer task that stores the
 * turn, the task that completes the claim, and the delivery task that stands in for a client that left.
 */
module StreamSettlement {

  datatype Config = Config(hasOwner: bool, isPrivate: bool, answerBlank: bool)

  /** The claim owner's record of how it settled. */
  datatype Settlement = Open | Completed | CompleteError | Failed | FailError | Lost

  /**
   * A completion may be refused by the fence, raise before or after it took effect, or be cancelled before it began.
   */
  datatype CompleteOutcome = CompleteApplied | CompleteRefused | RaisedBefore | RaisedAfter | CompleteCancelled

  datatype FailOutcome = FailApplied | FailRefused | FailRaised | FailCancelled

  datatype Generator =
    | Streaming
    | AwaitFinalizer
    | AwaitClaim
    | FailingClaim
    | BuildDone
    | YieldError
    | YieldDone
    | Finished

  datatype Finalizer = Unstarted | Running | Stored | Erring | Succeeded | Broken

  datatype ClaimTask = Unasked | Settling | Confirmed | Rejected

  datatype Delivery =
    | Idle
    | AwaitResult
    | AwaitEarlierClaim
    | Registering
    | CheckingClaim
    | AwaitOwnClaim
    | FailingDelivery
    | Pushing
    | Ended
  {
    /** The delivery got the finalizer's result and still works on it. */
    predicate HasResult() {
      AwaitEarlierClaim? || Registering? || CheckingClaim? || AwaitOwnClaim? || Pushing?
    }
  }

  datatype State = State(
    gen: Generator,
    finalizer: Finalizer,
    claimTask: ClaimTask,
    delivery: Delivery,
    settlement: Settlement,
    durable: bool,          // the claim is durably completed with this result
    noted: bool,            // `claim_completion_succeeded`
    suppressed: bool,       // `suppress_abort_delivery`
    done: bool,             // `done_handed_off`
    stored: bool,           // the turn is durably persisted
    outboxRow: bool,
    registered: bool,       // there is something to push
    abandoned: bool,        // a cancellation took away an attempt to settle the claim
    finalizers: nat,        // tasks ever started, and pushes ever made
    claims: nat,
    deliveries: nat,
    pushes: nat)

  /** `Abort` is a disconnect, a cancellation, or an exception while the done frame is built. */
  datatype GeneratorStep = StreamEnds | GetResult | GetClaim | FailClaim(failed: FailOutcome) | HandOff | Resume | Abort

  datatype FinalizerStep = Store | Return | Err | FailFinalizer(failed: FailOutcome)

  datatype DeliveryStep =
    | TakeResult
    | EarlierClaim
    | Register(ok: bool)
    | CheckClaim
    | OwnClaim
    | FailDelivery(failed: FailOutcome)
    | Push(sent: bool)
    | CancelDelivery

  datatype Step =
    | ByGenerator(g: GeneratorStep)
    | ByFinalizer(f: FinalizerStep)
    | ByClaim(o: CompleteOutcome)
    | ByDelivery(d: DeliveryStep)

  function Start(c: Config): State {
    State(Streaming, Unstarted, Unasked, Idle, Open,
          false, !c.hasOwner, false, false, false, false, false, false, 0, 0, 0, 0)
  }

  // ---- The claim owner

  /** `InboundClaimOwner.complete`; the task succeeds only if this leaves the claim completed. */
  function Complete(s: Settlement, o: CompleteOutcome): Settlement {
    if s != Open then s
    else
      match o
      case CompleteApplied => Completed
      case CompleteRefused => Lost
      case RaisedBefore => CompleteError
      case RaisedAfter => CompleteError
      case CompleteCancelled => Open
  }

  /** `_best_effort_fail_claim`; a claim that is durably completed can no longer be failed. */
  function Fail(c: Config, s: Settlement, durable: bool, o: FailOutcome): Settlement {
    if !c.hasOwner || !(s == Open || s == CompleteError) then s
    else
      match o
      case FailApplied => if durable then Lost else Failed
      case FailRefused => Lost
      case FailRaised => FailError
      case FailCancelled => s
  }

  // ---- Starting tasks

  function EnsureFinalizer(s: State): State {
    s.(finalizer := if s.finalizer.Unstarted? then Running else s.finalizer,
       finalizers := if s.finalizer.Unstarted? then s.finalizers + 1 else s.finalizers)
  }

  function EnsureDelivery(s: State): State {
    s.(delivery := if s.delivery.Idle? then AwaitResult else s.delivery,
       deliveries := if s.delivery.Idle? then s.deliveries + 1 else s.deliveries)
  }

  /** `complete_claim_once`, where it is called: an earlier task is awaited, not repeated. */
  function EnsureClaim(s: State, called: bool): State {
    s.(claimTask := if called && s.claimTask.Unasked? then Settling else s.claimTask,
       claims := if called && s.claimTask.Unasked? then s.claims + 1 else s.claims)
  }

  /** The generator's `finally` block. */
  function Leave(s: State): State {
    if s.done || s.suppressed then s.(gen := Finished) else EnsureDelivery(EnsureFinalizer(s)).(gen := Finished)
  }

  // ---- Steps

  predicate GeneratorEnabled(s: State, g: GeneratorStep) {
    match g
    case StreamEnds => s.gen.Streaming?
    case GetResult => s.gen.AwaitFinalizer? && (s.finalizer.Succeeded? || s.finalizer.Broken?)
    case GetClaim => s.gen.AwaitClaim? && (s.claimTask.Confirmed? || s.claimTask.Rejected?)
    case FailClaim(_) => s.gen.FailingClaim?
    case HandOff => s.gen.BuildDone?
    case Resume => s.gen.YieldError? || s.gen.YieldDone?
    case Abort => !s.gen.FailingClaim? && !s.gen.Finished?
  }

  function GeneratorNext(c: Config, s: State, g: GeneratorStep): State
    requires GeneratorEnabled(s, g)
  {
    match g
    case StreamEnds => EnsureFinalizer(s).(gen := AwaitFinalizer)
    case GetResult =>
      EnsureClaim(s, s.finalizer.Succeeded? && c.hasOwner).(
        gen := if s.finalizer.Broken? then YieldError else if c.hasOwner then AwaitClaim else BuildDone)
    case GetClaim =>
      s.(gen := if s.claimTask.Confirmed? then BuildDone else FailingClaim,
         noted := s.noted || s.claimTask.Confirmed?,
         suppressed := s.suppressed || s.claimTask.Rejected?)
    case FailClaim(failed) =>
      s.(gen := YieldError, settlement := Fail(c, s.settlement, s.durable, failed),
         abandoned := s.abandoned || failed.FailCancelled?)
    case HandOff => s.(gen := YieldDone, done := true)
    case Resume => Leave(s)
    case Abort => Leave(s)
  }

  predicate FinalizerEnabled(s: State, f: FinalizerStep) {
    match f
    case Store => s.finalizer.Running?
    case Return => s.finalizer.Stored?
    case Err => s.finalizer.Running? || s.finalizer.Stored?
    case FailFinalizer(_) => s.finalizer.Erring?
  }

  function FinalizerNext(c: Config, s: State, f: FinalizerStep): State
    requires FinalizerEnabled(s, f)
  {
    match f
    case Store => s.(finalizer := Stored, stored := true)
    case Return => s.(finalizer := Succeeded)
    case Err => s.(finalizer := Erring)
    case FailFinalizer(failed) =>
      s.(finalizer := Broken, settlement := Fail(c, s.settlement, s.durable, failed),
         abandoned := s.abandoned || failed.FailCancelled?)
  }

  function ClaimNext(s: State, o: CompleteOutcome): State {
    var after := Complete(s.settlement, o);
    s.(claimTask := if after == Completed then Confirmed else Rejected,
       settlement := after,
       durable := s.durable || (s.settlement == Open && (o == CompleteApplied || o == RaisedAfter)))
  }

  predicate DeliveryEnabled(s: State, d: DeliveryStep) {
    match d
    case TakeResult => s.delivery.AwaitResult? && (s.finalizer.Succeeded? || s.finalizer.Broken?)
    case EarlierClaim => s.delivery.AwaitEarlierClaim? && (s.claimTask.Confirmed? || s.claimTask.Rejected?)
    case Register(_) => s.delivery.Registering?
    case CheckClaim => s.delivery.CheckingClaim?
    case OwnClaim => s.delivery.AwaitOwnClaim? && (s.claimTask.Confirmed? || s.claimTask.Rejected?)
    case FailDelivery(_) => s.delivery.FailingDelivery?
    case Push(_) => s.delivery.Pushing?
    case CancelDelivery => !s.delivery.Idle? && !s.delivery.FailingDelivery? && !s.delivery.Ended?
  }

  function DeliveryNext(c: Config, s: State, d: DeliveryStep): State
    requires DeliveryEnabled(s, d)
  {
    match d
    case TakeResult =>
      s.(delivery := if s.finalizer.Broken? then Ended
                     else if c.hasOwner && !s.claimTask.Unasked? && !s.noted then AwaitEarlierClaim
                     else Registering)
    case EarlierClaim =>
      s.(delivery := if s.claimTask.Confirmed? then Registering else FailingDelivery,
         noted := s.noted || s.claimTask.Confirmed?)
    case Register(ok) =>
      s.(delivery := if c.answerBlank || ok then CheckingClaim else FailingDelivery,
         registered := !c.answerBlank && ok,
         outboxRow := !c.answerBlank && ok && c.isPrivate)
    case CheckClaim =>
      EnsureClaim(s, c.hasOwner && !s.noted).(delivery := if c.hasOwner && !s.noted then AwaitOwnClaim else Pushing)
    case OwnClaim =>
      s.(delivery := if s.claimTask.Confirmed? then Pushing else FailingDelivery,
         noted := s.noted || s.claimTask.Confirmed?)
    case FailDelivery(failed) =>
      s.(delivery := Ended, settlement := Fail(c, s.settlement, s.durable, failed),
         abandoned := s.abandoned || failed.FailCancelled?)
    case Push(sent) => s.(delivery := Ended, pushes := s.pushes + if s.registered && sent then 1 else 0)
    case CancelDelivery =>
      s.(delivery := if s.delivery.AwaitResult? || s.delivery.Pushing? then Ended else FailingDelivery,
         abandoned := s.abandoned || s.delivery.AwaitResult?)
  }

  predicate Enabled(s: State, step: Step) {
    match step
    case ByGenerator(g) => GeneratorEnabled(s, g)
    case ByFinalizer(f) => FinalizerEnabled(s, f)
    case ByClaim(_) => s.claimTask.Settling?
    case ByDelivery(d) => DeliveryEnabled(s, d)
  }

  function Apply(c: Config, s: State, step: Step): State
    requires Enabled(s, step)
  {
    match step
    case ByGenerator(g) => GeneratorNext(c, s, g)
    case ByFinalizer(f) => FinalizerNext(c, s, f)
    case ByClaim(o) => ClaimNext(s, o)
    case ByDelivery(d) => DeliveryNext(c, s, d)
  }

  // ---- What every reachable state satisfies

  /** Each task is started at most once. */
  ghost predicate Counts(s: State) {
    && s.finalizers == (if s.finalizer.Unstarted? then 0 else 1)
    && s.claims == (if s.claimTask.Unasked? then 0 else 1)
    && s.deliveries == (if s.delivery.Idle? then 0 else 1)
    && s.pushes <= (if s.delivery.Ended? then 1 else 0)
  }

  /** Where each party stands relative to the others. */
  ghost predicate Order(c: Config, s: State) {
    && (s.finalizer.Stored? || s.finalizer.Succeeded? ==> s.stored)
    && (!s.claimTask.Unasked? ==> c.hasOwner && s.finalizer.Succeeded?)
    && (s.claimTask.Confirmed? <==> s.settlement == Completed)
    && (s.settlement == Completed ==> s.durable)
    && (c.hasOwner && s.noted ==> s.claimTask.Confirmed?)
    && (!c.hasOwner ==> s.noted)
    && (s.finalizer.Broken? && c.hasOwner && !s.abandoned ==> s.settlement != Open)
    && (!s.gen.Streaming? && !s.gen.Finished? ==> !s.finalizer.Unstarted?)
    && (s.gen.AwaitClaim? || s.gen.FailingClaim? ==> !s.claimTask.Unasked?)
    && (s.gen.FailingClaim? ==> s.suppressed)
    && (s.gen.YieldDone? ==> s.done)
  }

  /** The three ways a response ends exclude each other, and one of them holds once the generator has left. */
  ghost predicate Exclusive(c: Config, s: State) {
    && (!s.gen.Finished? ==> s.delivery.Idle?)
    && (s.done ==> (s.gen.YieldDone? || s.gen.Finished?) && !s.suppressed && s.delivery.Idle?)
    && (s.suppressed ==>
        (s.gen.FailingClaim? || s.gen.YieldError? || s.gen.Finished?) && s.delivery.Idle? && c.hasOwner)
    && (s.suppressed && !s.gen.FailingClaim? && !s.abandoned ==> s.settlement != Open)
    && (s.gen.Finished? && !s.done && !s.suppressed ==> !s.delivery.Idle? && !s.finalizer.Unstarted?)
  }

  /** The done frame, and a push, come only after the result is durable. */
  ghost predicate Durability(c: Config, s: State) {
    && (s.done || s.gen.BuildDone? ==> s.finalizer.Succeeded? && s.noted)
    && (s.delivery.HasResult() ==> s.finalizer.Succeeded?)
    && (s.delivery.AwaitEarlierClaim? || s.delivery.AwaitOwnClaim? ==> !s.claimTask.Unasked?)
    && (s.delivery.Pushing? ==> s.noted)
    && (s.registered ==> s.outboxRow == c.isPrivate)
    && (s.pushes > 0 ==> s.registered && s.noted && s.finalizer.Succeeded?)
    && (s.delivery.Ended? && c.hasOwner && !s.abandoned ==> s.settlement != Open)
  }

  ghost predicate Inv(c: Config, s: State) {
    Counts(s) && Order(c, s) && Exclusive(c, s) && Durability(c, s)
  }

  lemma StartInv(c: Config)
    ensures Inv(c, Start(c))
  {
  }

  lemma LeaveKeeps(c: Config, s: State)
    requires Inv(c, s) && !s.gen.FailingClaim? && !s.gen.Finished?
    ensures Inv(c, Leave(s))
  {
  }

  lemma GeneratorKeeps(c: Config, s: State, g: GeneratorStep)
    requires Inv(c, s) && GeneratorEnabled(s, g)
    ensures Inv(c, GeneratorNext(c, s, g))
  {
    if g.Resume? || g.Abort? {
      LeaveKeeps(c, s);
    } else if g.GetResult? {
      ResultKeeps(c, s);
    }
  }

  lemma ResultKeeps(c: Config, s: State)
    requires Inv(c, s) && GeneratorEnabled(s, GetResult)
    ensures Inv(c, GeneratorNext(c, s, GetResult))
  {
  }

  lemma FinalizerKeeps(c: Config, s: State, f: FinalizerStep)
    requires Inv(c, s) && FinalizerEnabled(s, f)
    ensures Inv(c, FinalizerNext(c, s, f))
  {
  }

  lemma ClaimKeeps(c: Config, s: State, o: CompleteOutcome)
    requires Inv(c, s) && s.claimTask.Settling?
    ensures Inv(c, ClaimNext(s, o))
  {
  }

  lemma WaitingDeliveryKeeps(c: Config, s: State, d: DeliveryStep)
    requires Inv(c, s) && DeliveryEnabled(s, d) && (d.TakeResult? || d.CancelDelivery? || d.FailDelivery? || d.Push?)
    ensures Inv(c, DeliveryNext(c, s, d))
  {
  }

  lemma WorkingDeliveryKeeps(c: Config, s: State, d: DeliveryStep)
    requires Inv(c, s) && DeliveryEnabled(s, d) && (d.EarlierClaim? || d.Register? || d.CheckClaim? || d.OwnClaim?)
    ensures Inv(c, DeliveryNext(c, s, d))
  {
  }

  lemma StepKeeps(c: Config, s: State, step: Step)
    requires Inv(c, s) && Enabled(s, step)
    ensures Inv(c, Apply(c, s, step))
  {
    match step
    case ByGenerator(g) => GeneratorKeeps(c, s, g);
    case ByFinalizer(f) => FinalizerKeeps(c, s, f);
    case ByClaim(o) => ClaimKeeps(c, s, o);
    case ByDelivery(d) =>
      if d.TakeResult? || d.CancelDelivery? || d.FailDelivery? || d.Push? {
        WaitingDeliveryKeeps(c, s, d);
      } else {
        WorkingDeliveryKeeps(c, s, d);
      }
  }

  // ---- Runs

  ghost predicate Run(c: Config, s: State, steps: seq<Step>, end: State)
    decreases |steps|
  {
    if steps == [] then end == s
    else Enabled(s, steps[0]) && Run(c, Apply(c, s, steps[0]), steps[1..], end)
  }

  lemma {:induction false} RunKeeps(c: Config, s: State, steps: seq<Step>, end: State)
    requires Inv(c, s) && Run(c, s, steps, end)
    ensures Inv(c, end)
    decreases |steps|
  {
    if steps != [] {
      StepKeeps(c, s, steps[0]);
      RunKeeps(c, Apply(c, s, steps[0]), steps[1..], end);
    }
  }

  /** The turn is stored and the claim, if there is one, durably completed. */
  ghost predicate ResultDurable(c: Config, s: State) {
    s.stored && (c.hasOwner ==> s.settlement == Completed && s.durable)
  }

  /**
   * Whatever the interleaving of disconnects, task outcomes and cancellations: each task starts at most once;
   * the done frame and a push each imply a durable result, a private push also its outbox row; the client
   * never gets both; and the generator leaves in exactly one of three ways.
   */
  lemma SettlementSafety(c: Config, steps: seq<Step>, end: State)
    requires Run(c, Start(c), steps, end)
    ensures end.finalizers <= 1 && end.claims <= 1 && end.deliveries <= 1 && end.pushes <= 1
    ensures end.done ==> ResultDurable(c, end) && end.deliveries == 0 && end.pushes == 0
    ensures end.pushes == 1 ==> ResultDurable(c, end) && !end.done && (c.isPrivate ==> end.outboxRow)
    ensures end.suppressed ==> !end.done && end.deliveries == 0
    ensures end.gen.Finished? ==> end.done || end.deliveries == 1 || end.suppressed
  {
    StartInv(c);
    RunKeeps(c, Start(c), steps, end);
  }

  // ---- Every run ends, and then the claim is settled

  function GeneratorRank(g: Generator): nat {
    match g
    case Streaming => 5
    case AwaitFinalizer => 4
    case AwaitClaim => 3
    case FailingClaim => 2
    case BuildDone => 2
    case YieldError => 1
    case YieldDone => 1
    case Finished => 0
  }

  function FinalizerRank(f: Finalizer): nat {
    match f
    case Unstarted => 4
    case Running => 3
    case Stored => 2
    case Erring => 1
    case Succeeded => 0
    case Broken => 0
  }

  function ClaimRank(t: ClaimTask): nat {
    match t
    case Unasked => 2
    case Settling => 1
    case Confirmed => 0
    case Rejected => 0
  }

  function DeliveryRank(d: Delivery): nat {
    match d
    case Idle => 8
    case AwaitResult => 7
    case AwaitEarlierClaim => 6
    case Registering => 5
    case CheckingClaim => 4
    case AwaitOwnClaim => 3
    case FailingDelivery => 2
    case Pushing => 1
    case Ended => 0
  }

  function Rank(s: State): nat {
    GeneratorRank(s.gen) + FinalizerRank(s.finalizer) + ClaimRank(s.claimTask) + DeliveryRank(s.delivery)
  }

  lemma GeneratorAdvances(c: Config, s: State, g: GeneratorStep)
    requires GeneratorEnabled(s, g)
    ensures Rank(GeneratorNext(c, s, g)) < Rank(s)
  {
  }

  lemma FinalizerAdvances(c: Config, s: State, f: FinalizerStep)
    requires FinalizerEnabled(s, f)
    ensures Rank(FinalizerNext(c, s, f)) < Rank(s)
  {
  }

  lemma DeliveryAdvances(c: Config, s: State, d: DeliveryStep)
    requires DeliveryEnabled(s, d)
    ensures Rank(DeliveryNext(c, s, d)) < Rank(s)
  {
  }

  /** Every step brings some party forward and none back. */
  lemma StepAdvances(c: Config, s: State, step: Step)
    requires Enabled(s, step)
    ensures Rank(Apply(c, s, step)) < Rank(s)
  {
    match step
    case ByGenerator(g) => GeneratorAdvances(c, s, g);
    case ByFinalizer(f) => FinalizerAdvances(c, s, f);
    case ByClaim(o) =>
    case ByDelivery(d) => DeliveryAdvances(c, s, d);
  }

  lemma {:induction false} RunsAreShort(c: Config, s: State, steps: seq<Step>, end: State)
    requires Run(c, s, steps, end)
    ensures |steps| + Rank(end) <= Rank(s)
    decreases |steps|
  {
    if steps != [] {
      StepAdvances(c, s, steps[0]);
      RunsAreShort(c, Apply(c, s, steps[0]), steps[1..], end);
    }
  }

  /** Interruptions from outside, which may or may not come. */
  predicate Interrupts(step: Step) {
    step == ByGenerator(Abort) || step == ByDelivery(CancelDelivery)
  }

  ghost predicate Quiet(s: State) {
    forall step | !Interrupts(step) :: !Enabled(s, step)
  }

  lemma QuietTasks(s: State)
    requires Quiet(s)
    ensures s.finalizer.Unstarted? || s.finalizer.Succeeded? || s.finalizer.Broken?
    ensures !s.claimTask.Settling?
  {
    assert !Enabled(s, ByFinalizer(Store)) && !Enabled(s, ByFinalizer(Return));
    assert !Enabled(s, ByFinalizer(FailFinalizer(FailApplied)));
    assert !Enabled(s, ByClaim(CompleteApplied));
  }

  /** Nobody waits for a task that will not finish: where nothing can move, everything is done. */
  lemma QuietMeansDone(c: Config, s: State)
    requires Inv(c, s) && Quiet(s)
    ensures s.gen.Finished? && (s.delivery.Idle? || s.delivery.Ended?)
  {
    QuietTasks(s);
    assert !Enabled(s, ByGenerator(StreamEnds)) && !Enabled(s, ByGenerator(GetResult))
        && !Enabled(s, ByGenerator(GetClaim));
    assert !Enabled(s, ByGenerator(FailClaim(FailApplied))) && !Enabled(s, ByGenerator(Resume));
    assert !Enabled(s, ByGenerator(HandOff));
    assert !Enabled(s, ByDelivery(TakeResult)) && !Enabled(s, ByDelivery(EarlierClaim))
        && !Enabled(s, ByDelivery(Register(true)));
    assert !Enabled(s, ByDelivery(CheckClaim)) && !Enabled(s, ByDelivery(OwnClaim))
        && !Enabled(s, ByDelivery(Push(true)));
    assert !Enabled(s, ByDelivery(FailDelivery(FailApplied)));
  }

  /**
   * No run is longer than nineteen steps, and one that cannot go on has ended in exactly one way, with an
   * attempt made to settle the claim unless a cancellation took that attempt away.
   */
  lemma EveryRunSettles(c: Config, steps: seq<Step>, end: State)
    requires Run(c, Start(c), steps, end)
    ensures |steps| <= 19
    ensures Quiet(end) ==>
              && end.gen.Finished?
              && (if end.done then 1 else 0) + (if end.suppressed then 1 else 0) + end.deliveries == 1
              && (c.hasOwner && !end.abandoned ==> end.settlement != Open)
  {
    StartInv(c);
    RunKeeps(c, Start(c), steps, end);
    RunsAreShort(c, Start(c), steps, end);
    if Quiet(end) {
      QuietMeansDone(c, end);
    }
  }
}

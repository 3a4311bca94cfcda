/** Which ending a streamed response comes to, read off the steps of its run. */
module StreamEndings {
  import opened StreamSettlement

  /** What happened in a run. An abort counts only before the done frame was handed off. */
  datatype Seen = Seen(
    aborted: bool,
    handed: bool,
    returned: bool,        // the finalizer returned its result
    applied: bool,         // the claim completion took effect and was reported
    sawClaim: bool,        // the generator learned how the claim settled
    cancelled: bool,       // the delivery task was cancelled
    unregistered: bool,    // registering the delivery failed
    unsent: bool)          // the push failed

  const NOTHING := Seen(false, false, false, false, false, false, false, false)

  function Note(h: Seen, step: Step): Seen {
    Seen(h.aborted || (step == ByGenerator(Abort) && !h.handed),
         h.handed || step == ByGenerator(HandOff),
         h.returned || step == ByFinalizer(Return),
         h.applied || step == ByClaim(CompleteApplied),
         h.sawClaim || step == ByGenerator(GetClaim),
         h.cancelled || step == ByDelivery(CancelDelivery),
         h.unregistered || step == ByDelivery(Register(false)),
         h.unsent || step == ByDelivery(Push(false)))
  }

  function Notes(h: Seen, steps: seq<Step>): Seen
    decreases |steps|
  {
    if steps == [] then h else Notes(Note(h, steps[0]), steps[1..])
  }

  // ---- The notes are about the steps

  lemma {:induction false} NotesOf(h: Seen, steps: seq<Step>)
    ensures var n := Notes(h, steps);
            && n.handed == (h.handed || ByGenerator(HandOff) in steps)
            && n.returned == (h.returned || ByFinalizer(Return) in steps)
            && n.applied == (h.applied || ByClaim(CompleteApplied) in steps)
            && n.sawClaim == (h.sawClaim || ByGenerator(GetClaim) in steps)
            && n.cancelled == (h.cancelled || ByDelivery(CancelDelivery) in steps)
            && n.unregistered == (h.unregistered || ByDelivery(Register(false)) in steps)
            && n.unsent == (h.unsent || ByDelivery(Push(false)) in steps)
    decreases |steps|
  {
    if steps != [] {
      NotesOf(Note(h, steps[0]), steps[1..]);
      assert steps == [steps[0]] + steps[1..];
    }
  }

  ghost predicate AbortsFirst(steps: seq<Step>) {
    exists i | 0 <= i < |steps| :: steps[i] == ByGenerator(Abort) && ByGenerator(HandOff) !in steps[..i]
  }

  lemma {:induction false} NotesAborted(h: Seen, steps: seq<Step>)
    ensures Notes(h, steps).aborted == (h.aborted || (!h.handed && AbortsFirst(steps)))
    decreases |steps|
  {
    if steps != [] {
      var first, rest := steps[0], steps[1..];
      NotesAborted(Note(h, first), rest);
      if first == ByGenerator(Abort) {
        assert ByGenerator(HandOff) !in steps[..0];
      } else {
        AbortsLater(steps);
      }
    }
  }

  lemma AbortsLater(steps: seq<Step>)
    requires steps != [] && steps[0] != ByGenerator(Abort)
    ensures AbortsFirst(steps) <==> steps[0] != ByGenerator(HandOff) && AbortsFirst(steps[1..])
  {
    var rest := steps[1..];
    forall i | 0 <= i < |rest|
      ensures steps[..i + 1] == [steps[0]] + rest[..i]
    {
    }
    if AbortsFirst(steps) {
      var i :| 0 <= i < |steps| && steps[i] == ByGenerator(Abort) && ByGenerator(HandOff) !in steps[..i];
      assert rest[i - 1] == steps[i] && steps[..i] == [steps[0]] + rest[..i - 1];
    }
    if steps[0] != ByGenerator(HandOff) && AbortsFirst(rest) {
      var i :| 0 <= i < |rest| && rest[i] == ByGenerator(Abort) && ByGenerator(HandOff) !in rest[..i];
      assert steps[i + 1] == rest[i];
    }
  }

  // ---- State and notes

  ghost predicate GeneratorLinks(c: Config, s: State, h: Seen) {
    && (h.handed <==> s.done)
    && (h.aborted ==> s.gen.Finished? && !s.done)
    && (h.returned <==> s.finalizer.Succeeded?)
    && (s.gen.YieldError? ==> s.finalizer.Broken? || s.suppressed)
    && (!h.aborted && s.gen.Finished? ==> s.done || s.finalizer.Broken? || s.suppressed)
  }

  ghost predicate ClaimLinks(c: Config, s: State, h: Seen) {
    && (s.claimTask.Confirmed? ==> h.applied)
    && (!h.cancelled && !h.unregistered && (s.claimTask.Unasked? || s.claimTask.Settling?) ==>
          !s.delivery.FailingDelivery? && (s.finalizer.Broken? || s.settlement == Open))
    && (!h.cancelled && !h.unregistered && h.applied ==> s.claimTask.Confirmed?)
    && (s.delivery.Idle? ==> !h.cancelled && !h.unregistered && !h.unsent)
    && (s.suppressed ==> s.claimTask.Rejected? && !h.applied && h.sawClaim)
    && (h.sawClaim ==> s.suppressed || s.claimTask.Confirmed?)
  }

  ghost predicate DeliveryLinks(c: Config, s: State, h: Seen) {
    && (s.delivery.AwaitResult? || s.delivery.HasResult() ==>
          !h.cancelled && !h.unsent && (!c.answerBlank ==> !h.unregistered))
    && (s.delivery.CheckingClaim? || s.delivery.AwaitOwnClaim? || s.delivery.Pushing? ==>
          s.registered == !c.answerBlank)
    && (s.delivery.FailingDelivery? ==> h.cancelled || h.unregistered || s.claimTask.Rejected?)
    && (s.pushes == 1 ==> !h.cancelled && !h.unregistered && !h.unsent && !c.answerBlank && s.delivery.Ended?)
    && (s.delivery.Ended? && s.pushes == 0 ==>
          s.finalizer.Broken? || h.cancelled || h.unregistered || h.unsent || c.answerBlank || s.claimTask.Rejected?)
  }

  ghost predicate Links(c: Config, s: State, h: Seen) {
    GeneratorLinks(c, s, h) && ClaimLinks(c, s, h) && DeliveryLinks(c, s, h)
  }

  lemma StartLinks(c: Config)
    ensures Links(c, Start(c), NOTHING)
  {
  }

  lemma LeaveNotes(c: Config, s: State, h: Seen, g: GeneratorStep)
    requires Inv(c, s) && Links(c, s, h) && GeneratorEnabled(s, g) && (g.Resume? || g.Abort?)
    ensures Links(c, GeneratorNext(c, s, g), Note(h, ByGenerator(g)))
  {
  }

  lemma GeneratorNotes(c: Config, s: State, h: Seen, g: GeneratorStep)
    requires Inv(c, s) && Links(c, s, h) && GeneratorEnabled(s, g)
    ensures Links(c, GeneratorNext(c, s, g), Note(h, ByGenerator(g)))
  {
    if g.Resume? || g.Abort? {
      LeaveNotes(c, s, h, g);
    }
  }

  lemma FinalizerNotes(c: Config, s: State, h: Seen, f: FinalizerStep)
    requires Inv(c, s) && Links(c, s, h) && FinalizerEnabled(s, f)
    ensures Links(c, FinalizerNext(c, s, f), Note(h, ByFinalizer(f)))
  {
  }

  lemma ClaimNotes(c: Config, s: State, h: Seen, o: CompleteOutcome)
    requires Inv(c, s) && Links(c, s, h) && s.claimTask.Settling?
    ensures Links(c, ClaimNext(s, o), Note(h, ByClaim(o)))
  {
  }

  lemma DeliveryNotes(c: Config, s: State, h: Seen, d: DeliveryStep)
    requires Inv(c, s) && Links(c, s, h) && DeliveryEnabled(s, d)
    ensures Links(c, DeliveryNext(c, s, d), Note(h, ByDelivery(d)))
  {
  }

  lemma StepNotes(c: Config, s: State, h: Seen, step: Step)
    requires Inv(c, s) && Links(c, s, h) && Enabled(s, step)
    ensures Links(c, Apply(c, s, step), Note(h, step))
  {
    match step
    case ByGenerator(g) => GeneratorNotes(c, s, h, g);
    case ByFinalizer(f) => FinalizerNotes(c, s, h, f);
    case ByClaim(o) => ClaimNotes(c, s, h, o);
    case ByDelivery(d) => DeliveryNotes(c, s, h, d);
  }

  lemma {:induction false} RunNotes(c: Config, s: State, h: Seen, steps: seq<Step>, end: State)
    requires Inv(c, s) && Links(c, s, h) && Run(c, s, steps, end)
    ensures Inv(c, end) && Links(c, end, Notes(h, steps))
    decreases |steps|
  {
    if steps != [] {
      StepKeeps(c, s, steps[0]);
      StepNotes(c, s, h, steps[0]);
      RunNotes(c, Apply(c, s, steps[0]), Note(h, steps[0]), steps[1..], end);
    }
  }

  // ---- The endings

  lemma Ending(c: Config, steps: seq<Step>, end: State) returns (h: Seen)
    requires Run(c, Start(c), steps, end)
    ensures Inv(c, end) && Links(c, end, h) && h == Notes(NOTHING, steps)
    ensures h.aborted == AbortsFirst(steps)
    ensures h.returned == (ByFinalizer(Return) in steps) && h.applied == (ByClaim(CompleteApplied) in steps)
    ensures h.sawClaim == (ByGenerator(GetClaim) in steps) && h.cancelled == (ByDelivery(CancelDelivery) in steps)
    ensures h.unregistered == (ByDelivery(Register(false)) in steps) && h.unsent == (ByDelivery(Push(false)) in steps)
  {
    StartInv(c);
    StartLinks(c);
    RunNotes(c, Start(c), NOTHING, steps, end);
    NotesOf(NOTHING, steps);
    NotesAborted(NOTHING, steps);
    h := Notes(NOTHING, steps);
  }

  /** The result was stored and, where a claim is held, its completion took effect. */
  ghost predicate Settled(c: Config, steps: seq<Step>) {
    ByFinalizer(Return) in steps && (c.hasOwner ==> ByClaim(CompleteApplied) in steps)
  }

  /**
   * The client gets its done frame if and only if it stayed until the frame was handed off, the finalizer returned
   * the result, and the claim, if there is one, was completed.
   */
  lemma DoneIff(c: Config, steps: seq<Step>, end: State)
    requires Run(c, Start(c), steps, end) && Quiet(end)
    ensures end.done <==> !AbortsFirst(steps) && Settled(c, steps)
  {
    var h := Ending(c, steps, end);
    QuietMeansDone(c, end);
  }

  // ---- What the other parties do of themselves

  predicate Erred(s: State) {
    s.finalizer.Erring? || s.finalizer.Broken?
  }

  predicate Answered(s: State) {
    s.claimTask.Confirmed? || s.claimTask.Rejected?
  }

  ghost predicate Untouched(s: State, next: State) {
    (Erred(next) <==> Erred(s)) && (Answered(next) <==> Answered(s))
  }

  lemma GeneratorMeddlesNot(c: Config, s: State, g: GeneratorStep)
    requires GeneratorEnabled(s, g)
    ensures Untouched(s, GeneratorNext(c, s, g))
  {
  }

  lemma DeliveryMeddlesNot(c: Config, s: State, d: DeliveryStep)
    requires DeliveryEnabled(s, d)
    ensures Untouched(s, DeliveryNext(c, s, d))
  {
  }

  lemma FinalizerDoing(c: Config, s: State, f: FinalizerStep)
    requires FinalizerEnabled(s, f)
    ensures Erred(FinalizerNext(c, s, f)) <==> Erred(s) || f == Err
    ensures Answered(FinalizerNext(c, s, f)) <==> Answered(s)
  {
  }

  lemma OwnDoing(c: Config, s: State, step: Step)
    requires Enabled(s, step)
    ensures Erred(Apply(c, s, step)) <==> Erred(s) || step == ByFinalizer(Err)
    ensures Answered(Apply(c, s, step)) <==> Answered(s) || step.ByClaim?
  {
    match step
    case ByGenerator(g) => GeneratorMeddlesNot(c, s, g);
    case ByFinalizer(f) => FinalizerDoing(c, s, f);
    case ByClaim(o) =>
    case ByDelivery(d) => DeliveryMeddlesNot(c, s, d);
  }

  lemma {:induction false} RunOwnDoing(c: Config, s: State, steps: seq<Step>, end: State)
    requires Inv(c, s) && Run(c, s, steps, end)
    ensures Erred(end) <==> Erred(s) || ByFinalizer(Err) in steps
    ensures Answered(end) <==> Answered(s) || exists o :: ByClaim(o) in steps
    decreases |steps|
  {
    if steps != [] {
      OwnDoing(c, s, steps[0]);
      StepKeeps(c, s, steps[0]);
      RunOwnDoing(c, Apply(c, s, steps[0]), steps[1..], end);
      assert steps == [steps[0]] + steps[1..];
    }
  }

  /** A finalizer returns its result unless something raised in it. */
  lemma ReturnsIff(c: Config, steps: seq<Step>, end: State)
    requires Run(c, Start(c), steps, end) && Quiet(end)
    ensures ByFinalizer(Return) in steps <==> ByFinalizer(Err) !in steps
  {
    var h := Ending(c, steps, end);
    RunOwnDoing(c, Start(c), steps, end);
    QuietMeansDone(c, end);
    QuietTasks(end);
  }

  /** A response that nobody leaves, in which nothing raises and no completion fails, ends with its done frame. */
  lemma UndisturbedIsDone(c: Config, steps: seq<Step>, end: State)
    requires Run(c, Start(c), steps, end) && Quiet(end)
    requires ByGenerator(Abort) !in steps && ByFinalizer(Err) !in steps
    requires forall o | ByClaim(o) in steps :: o == CompleteApplied
    ensures end.done
  {
    var h := Ending(c, steps, end);
    RunOwnDoing(c, Start(c), steps, end);
    ReturnsIff(c, steps, end);
    QuietMeansDone(c, end);
    QuietTasks(end);
  }

  /** Both endings are suppressed if and only if the generator itself learned that the claim was not completed. */
  lemma SuppressedIff(c: Config, steps: seq<Step>, end: State)
    requires Run(c, Start(c), steps, end)
    ensures end.suppressed <==> ByGenerator(GetClaim) in steps && ByClaim(CompleteApplied) !in steps
  {
    var h := Ending(c, steps, end);
  }

  /**
   * The answer is pushed if and only if the client left before the done frame, the result was stored and the claim
   * completed, there is something to say, and neither the delivery nor its registration nor the push failed.
   */
  lemma PushedIff(c: Config, steps: seq<Step>, end: State)
    requires Run(c, Start(c), steps, end) && Quiet(end)
    ensures end.pushes == 1 <==>
              && AbortsFirst(steps) && Settled(c, steps) && !c.answerBlank
              && ByDelivery(CancelDelivery) !in steps && ByDelivery(Register(false)) !in steps
              && ByDelivery(Push(false)) !in steps
  {
    var h := Ending(c, steps, end);
    QuietMeansDone(c, end);
  }

  /** A delivery is started if and only if the client did not get its done frame and the claim was not seen to fail. */
  lemma DeliveredIff(c: Config, steps: seq<Step>, end: State)
    requires Run(c, Start(c), steps, end) && Quiet(end)
    ensures end.deliveries == 1 <==>
              && !(!AbortsFirst(steps) && Settled(c, steps))
              && !(ByGenerator(GetClaim) in steps && ByClaim(CompleteApplied) !in steps)
  {
    DoneIff(c, steps, end);
    SuppressedIff(c, steps, end);
    EveryRunSettles(c, steps, end);
  }

  // ---- A claim that nothing goes wrong with

  ghost predicate Well(s: State) {
    && !Erred(s) && !s.claimTask.Rejected? && (s.settlement == Open || s.settlement == Completed)
    && !s.suppressed && !s.gen.FailingClaim? && !s.delivery.FailingDelivery?
    && (s.delivery.Pushing? || s.delivery.Ended? ==> s.claimTask.Confirmed?)
  }

  /** Only an answer that is not blank has a registration that can fail. */
  predicate Mishap(c: Config, step: Step) {
    match step
    case ByGenerator(_) => false
    case ByFinalizer(f) => f == Err
    case ByClaim(o) => o != CompleteApplied
    case ByDelivery(d) => d == CancelDelivery || (d == Register(false) && !c.answerBlank)
  }

  lemma GeneratorWell(c: Config, s: State, g: GeneratorStep)
    requires Inv(c, s) && Well(s) && GeneratorEnabled(s, g)
    ensures Well(GeneratorNext(c, s, g))
  {
  }

  lemma DeliveryWell(c: Config, s: State, d: DeliveryStep)
    requires c.hasOwner && Inv(c, s) && Well(s) && DeliveryEnabled(s, d) && !Mishap(c, ByDelivery(d))
    ensures Well(DeliveryNext(c, s, d))
  {
  }

  lemma StaysWell(c: Config, s: State, step: Step)
    requires c.hasOwner && Inv(c, s) && Well(s) && Enabled(s, step) && !Mishap(c, step)
    ensures Well(Apply(c, s, step))
  {
    match step
    case ByGenerator(g) => GeneratorWell(c, s, g);
    case ByFinalizer(f) =>
    case ByClaim(o) =>
    case ByDelivery(d) => DeliveryWell(c, s, d);
  }

  lemma {:induction false} RunWell(c: Config, s: State, steps: seq<Step>, end: State)
    requires c.hasOwner && Inv(c, s) && Well(s) && Run(c, s, steps, end)
    requires forall i | 0 <= i < |steps| :: !Mishap(c, steps[i])
    ensures Inv(c, end) && Well(end)
    decreases |steps|
  {
    if steps != [] {
      StaysWell(c, s, steps[0]);
      StepKeeps(c, s, steps[0]);
      RunWell(c, Apply(c, s, steps[0]), steps[1..], end);
    }
  }

  /** Where nothing goes wrong the claim is completed, whenever the client leaves and whether or not the push fails. */
  lemma ClaimIsCompleted(c: Config, steps: seq<Step>, end: State)
    requires c.hasOwner && Run(c, Start(c), steps, end) && Quiet(end)
    requires forall i | 0 <= i < |steps| :: !Mishap(c, steps[i])
    ensures end.settlement == Completed && end.durable && end.stored
  {
    StartInv(c);
    RunWell(c, Start(c), steps, end);
    QuietMeansDone(c, end);
  }

  // ---- A result that was not stored

  /** Until the finalizer is through, nobody else touches the claim; once it has failed, nobody asks to complete it. */
  ghost predicate FinalizerFirst(s: State) {
    && (!s.finalizer.Succeeded? && !s.finalizer.Broken? ==>
          s.settlement == Open && !s.durable && (s.delivery.Idle? || s.delivery.AwaitResult? || s.delivery.Ended?))
    && (s.finalizer.Broken? ==>
          s.claimTask.Unasked? && !s.durable && (s.delivery.Idle? || s.delivery.AwaitResult? || s.delivery.Ended?)
          && !s.gen.AwaitClaim? && !s.gen.FailingClaim?)
  }

  ghost predicate KeptBroken(s: State, next: State) {
    FinalizerFirst(next) && (s.finalizer.Broken? ==> next.settlement == s.settlement && next.finalizer.Broken?)
  }

  lemma LeaveFirst(c: Config, s: State)
    requires Inv(c, s) && FinalizerFirst(s) && !s.gen.Finished? && !s.gen.FailingClaim?
    ensures KeptBroken(s, Leave(s))
  {
  }

  lemma GeneratorFirst(c: Config, s: State, g: GeneratorStep)
    requires Inv(c, s) && FinalizerFirst(s) && GeneratorEnabled(s, g)
    ensures KeptBroken(s, GeneratorNext(c, s, g))
  {
    if g.Resume? || g.Abort? {
      LeaveFirst(c, s);
    }
  }

  lemma FinalizerFirstStep(c: Config, s: State, f: FinalizerStep)
    requires Inv(c, s) && FinalizerFirst(s) && FinalizerEnabled(s, f)
    ensures KeptBroken(s, FinalizerNext(c, s, f))
  {
  }

  lemma ClaimFirst(c: Config, s: State, o: CompleteOutcome)
    requires Inv(c, s) && FinalizerFirst(s) && s.claimTask.Settling?
    ensures KeptBroken(s, ClaimNext(s, o))
  {
  }

  lemma DeliveryFirst(c: Config, s: State, d: DeliveryStep)
    requires Inv(c, s) && FinalizerFirst(s) && DeliveryEnabled(s, d)
    ensures KeptBroken(s, DeliveryNext(c, s, d))
  {
  }

  lemma FinalizerFirstKept(c: Config, s: State, step: Step)
    requires Inv(c, s) && FinalizerFirst(s) && Enabled(s, step)
    ensures KeptBroken(s, Apply(c, s, step))
  {
    match step
    case ByGenerator(g) => GeneratorFirst(c, s, g);
    case ByFinalizer(f) => FinalizerFirstStep(c, s, f);
    case ByClaim(o) => ClaimFirst(c, s, o);
    case ByDelivery(d) => DeliveryFirst(c, s, d);
  }

  /** What the finalizer makes of the claim when it fails stays so to the end of the run. */
  lemma {:induction false} BrokenStays(c: Config, s: State, steps: seq<Step>, end: State)
    requires Inv(c, s) && FinalizerFirst(s) && s.finalizer.Broken? && Run(c, s, steps, end)
    ensures end.settlement == s.settlement && end.finalizer.Broken? && !end.done && end.pushes == 0
    decreases |steps|
  {
    if steps != [] {
      StepKeeps(c, s, steps[0]);
      FinalizerFirstKept(c, s, steps[0]);
      BrokenStays(c, Apply(c, s, steps[0]), steps[1..], end);
    }
  }

  lemma {:induction false} FailsFrom(c: Config, s: State, steps: seq<Step>, end: State)
    requires Inv(c, s) && FinalizerFirst(s) && Run(c, s, steps, end)
    requires c.hasOwner && ByFinalizer(FailFinalizer(FailApplied)) in steps
    ensures end.settlement == Failed && !end.done && end.pushes == 0
    decreases |steps|
  {
    var first := steps[0];
    StepKeeps(c, s, first);
    FinalizerFirstKept(c, s, first);
    var next := Apply(c, s, first);
    if first == ByFinalizer(FailFinalizer(FailApplied)) {
      assert next.settlement == Failed;
      BrokenStays(c, next, steps[1..], end);
    } else {
      assert steps == [first] + steps[1..];
      FailsFrom(c, next, steps[1..], end);
    }
  }

  /** A finalizer that fails and fails the claim leaves a failed claim, and the client gets neither done nor a push. */
  lemma BrokenFinalizerFailsClaim(c: Config, steps: seq<Step>, end: State)
    requires Run(c, Start(c), steps, end)
    requires c.hasOwner && ByFinalizer(FailFinalizer(FailApplied)) in steps
    ensures end.settlement == Failed && !end.done && end.pushes == 0
  {
    StartInv(c);
    FailsFrom(c, Start(c), steps, end);
  }
}

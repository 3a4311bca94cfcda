/** Claimed private requests over crashes, failures and takeovers, one commit at a time. */
module PrivateClaim {
  import opened PyValue
  import opened PrivateJournal

  datatype Status = Processing | Completed(response: Completion) | Failed

  datatype Claim = Claim(status: Status, token: nat, attempts: nat)

  /**
   * Where an attempt stands between two commits. `Fresh` may still answer early; `Bound` has chosen the bridge and
   * may have paused its lease. The last three of the writing stages are threads whose attempt is gone: it was
   * cancelled, and failed its claim or tried to, while the thread goes on to commit.
   */
  datatype Stage =
    | Acquired
    | Journaled
    | Fresh
    | Bound
    | InBridge
    | ReadyTurn(turn: Turn)
    | ReadyCompletion(early: Completion)
    | LooseJournal
    | LooseTurn(turn: Turn)
    | LooseCompletion(early: Completion)
    | Persisted(stored: Completion)
    | Recovered(found: Completion)
    | Returned(sent: Completion)
    | Failing
    | Ended
  {
    /** The attempt holds a result that will be accepted if it is written, or may still come to one unchecked. */
    predicate Unchecked() {
      || Fresh?
      || ((ReadyTurn? || LooseTurn?) && ValidTurn(turn))
      || ((ReadyCompletion? || LooseCompletion?) && !early.respond)
    }

    /** The attempt found or left its own request in the journal. */
    predicate PastJournal() {
      Journaled? || Producing() || Persisted? || Recovered?
    }

    /** The attempt decided to produce a new result. */
    predicate Producing() {
      Fresh? || Bound? || InBridge? || ReadyTurn? || ReadyCompletion? || LooseTurn? || LooseCompletion?
    }

    /** The attempt goes on only after a check of its claim. */
    predicate Checked() {
      Bound? || InBridge?
    }

    /** A transaction of the attempt runs in a thread that a cancellation does not stop. */
    predicate Transacting() {
      Acquired? || ReadyTurn? || ReadyCompletion?
    }

    predicate Detached() {
      LooseJournal? || LooseTurn? || LooseCompletion?
    }

    function Loosened(): Stage
      requires Transacting()
    {
      match this
      case Acquired => LooseJournal
      case ReadyTurn(t) => LooseTurn(t)
      case ReadyCompletion(c) => LooseCompletion(c)
    }

    /** The stage after a transaction that leads an attempt to `next`; a thread without its attempt just ends. */
    function Reached(next: Stage): Stage {
      if Detached() then Ended else next
    }

    predicate Alive() {
      !Returned? && !Ended?
    }

    /** The completion this attempt stands for, once it has one. */
    function Result(): Option<Completion> {
      match this
      case Persisted(c) => Some(c)
      case Recovered(c) => Some(c)
      case Returned(c) => Some(c)
      case _ => None
    }
  }

  predicate ValidTurn(turn: Turn) {
    turn.completion.respond ==> turn.completion.reply == turn.answer
  }

  datatype Attempt = Attempt(request: Request, count: nat, stage: Stage)

  datatype Sent = Sent(key: Key, completion: Completion)

  datatype State = State(
    claims: map<Key, Claim>,
    logs: Logs,
    attempts: map<nat, Attempt>,
    bridged: seq<Key>,
    sent: seq<Sent>)

  datatype Step =
    | Acquire(token: nat, req: Request, leaseExpired: bool)
    | Journal(token: nat, content: string)
    | Recover(token: nat)
    | ChooseBridge(token: nat)
    | StartBridge(token: nat)
    | FinishBridge(token: nat, turn: Turn)
    | AnswerEarly(token: nat, turn: Turn)
    | CompleteEarly(token: nat, early: Completion)
    | WriteTurn(token: nat, pending: nat)
    | WriteCompletion(token: nat, archived: Option<string>)
    | Complete(token: nat)
    | Fail(token: nat)
    | FailDetached(token: nat, applied: bool)
    | Crash(token: nat)

  const START := State(map[], map[], map[], [], [])

  // ---- One step

  /** The compare-and-set that every change of a claim by its owner goes through. */
  predicate Owns(s: State, token: nat) {
    && token in s.attempts
    && var k := s.attempts[token].request.key;
       k in s.claims && s.claims[k].token == token && s.claims[k].status == Processing
  }

  predicate Enabled(s: State, step: Step) {
    if step.Acquire? then step.token !in s.attempts
    else
      && step.token in s.attempts
      && var stage := s.attempts[step.token].stage;
         match step
         case Journal(_, _) => stage.Acquired? || stage.LooseJournal?
         case Recover(_) => stage.Journaled?
         case ChooseBridge(_) => stage.Fresh?
         case StartBridge(_) => stage.Bound?
         case FinishBridge(_, _) => stage.InBridge?
         case AnswerEarly(_, _) => stage.Fresh?
         case CompleteEarly(_, _) => stage.Fresh?
         case WriteTurn(_, _) => stage.ReadyTurn? || stage.LooseTurn?
         case WriteCompletion(_, _) => stage.ReadyCompletion? || stage.LooseCompletion?
         case Complete(_) => stage.Persisted? || stage.Recovered?
         case Fail(_) => stage.Alive() && !stage.Detached()
         case FailDetached(_, _) => stage.Transacting()
         case _ => stage.Alive()
  }

  function SetStage(s: State, token: nat, stage: Stage): State
    requires token in s.attempts
  {
    s.(attempts := s.attempts[token := s.attempts[token].(stage := stage)])
  }

  /** A write of one slot, or the error that ends the attempt. */
  function SetThread(s: State, token: nat, r: Outcome<Thread>, stage: Stage): State
    requires token in s.attempts
  {
    var a := s.attempts[token];
    match r
    case Err(_) => SetStage(s, token, a.stage.Reached(Failing))
    case Ok(t) => SetStage(s.(logs := s.logs[SlotOf(a.request.key) := t]), token, a.stage.Reached(stage))
  }

  function ApplyAcquire(s: State, token: nat, req: Request, leaseExpired: bool): State {
    var k := req.key;
    if k !in s.claims then
      s.(claims := s.claims[k := Claim(Processing, token, 1)],
         attempts := s.attempts[token := Attempt(req, 1, Acquired)])
    else
      var c := s.claims[k];
      match c.status
      case Completed(response) => s.(sent := s.sent + [Sent(k, response)])
      case _ =>
        if c.status == Failed || leaseExpired then
          s.(claims := s.claims[k := Claim(Processing, token, c.attempts + 1)],
             attempts := s.attempts[token := Attempt(req, c.attempts + 1, Acquired)])
        else s
  }

  function Apply(sanitize: string -> string, s: State, step: Step): State
    requires Enabled(s, step)
  {
    if step.Acquire? then ApplyAcquire(s, step.token, step.req, step.leaseExpired)
    else
      var token, a := step.token, s.attempts[step.token];
      var k := a.request.key;
      var t := ThreadAt(s.logs, SlotOf(k));
      match step
      case Acquire(_, _, _) => s
      case Journal(_, content) => SetThread(s, token, EnsureJournal(t, a.request, content), Journaled)
      case Recover(_) =>
        if a.count <= 1 then SetStage(s, token, Fresh)
        else SetStage(s, token,
                      match LoadRecoverable(t, a.request)
                      case Err(_) => Failing
                      case Ok(None) => Fresh
                      case Ok(Some(c)) => Recovered(c))
      case ChooseBridge(_) => SetStage(s, token, Bound)
      case StartBridge(_) =>
        if Owns(s, token) then SetStage(s, token, InBridge).(bridged := s.bridged + [k])
        else SetStage(s, token, Failing)
      case FinishBridge(_, turn) => SetStage(s, token, if Owns(s, token) then ReadyTurn(turn) else Failing)
      case AnswerEarly(_, turn) => SetStage(s, token, ReadyTurn(turn))
      case CompleteEarly(_, early) => SetStage(s, token, ReadyCompletion(early))
      case WriteTurn(_, pending) =>
        SetThread(s, token, PersistTurn(sanitize, t, a.request, a.stage.turn, pending),
                  Persisted(a.stage.turn.completion.(pending := pending)))
      case WriteCompletion(_, archived) =>
        SetThread(s, token, PersistCompletion(t, a.request, a.stage.early, archived), Persisted(a.stage.early))
      case Complete(_) => ApplyComplete(s, token)
      case Fail(_) =>
        var after := SetStage(s, token, Ended);
        if Owns(s, token) then after.(claims := s.claims[k := s.claims[k].(status := Failed)]) else after
      case FailDetached(_, applied) =>
        var after := SetStage(s, token, a.stage.Loosened());
        if applied && Owns(s, token) then after.(claims := s.claims[k := s.claims[k].(status := Failed)]) else after
      case Crash(_) => SetStage(s, token, Ended)
  }

  /** The fenced completion: also accepted when this owner already completed with the same response. */
  function ApplyComplete(s: State, token: nat): State
    requires token in s.attempts && s.attempts[token].stage.Result().Some?
  {
    var k, c := s.attempts[token].request.key, s.attempts[token].stage.Result().value;
    if Owns(s, token) then
      SetStage(s, token, Returned(c)).(claims := s.claims[k := s.claims[k].(status := Completed(c))],
                                       sent := s.sent + [Sent(k, c)])
    else if k in s.claims && s.claims[k].token == token && s.claims[k].status == Completed(c) then
      SetStage(s, token, Returned(c)).(sent := s.sent + [Sent(k, c)])
    else SetStage(s, token, Failing)
  }

  // ---- Any run

  /** At most one journal row, which carries the fingerprint of one claim of its slot; answers only beside a journal. */
  ghost predicate ThreadShape(slot: Slot, t: Thread) {
    && |t.users| <= 1
    && (t.users == [] ==> t.assistants == [])
    && (t.users != [] ==> RowShape(slot, t.users[0]))
  }

  ghost predicate RowShape(slot: Slot, row: UserRow) {
    && row.journal && row.request.Some? && SlotOf(row.request.value.key) == slot
    && (row.recovery.Some? ==>
        row.recovery.value.key == row.request.value.key && row.recovery.value.request == row.request.value)
  }

  ghost predicate JournalIs(logs: Logs, req: Request) {
    var t := ThreadAt(logs, SlotOf(req.key));
    |t.users| == 1 && t.users[0].request == Some(req)
  }

  /** The completion stored for a claim. */
  function StoredFor(logs: Logs, k: Key): Option<Completion> {
    var t := ThreadAt(logs, SlotOf(k));
    if |t.users| == 1 && t.users[0].request.Some? && t.users[0].request.value.key == k && t.users[0].recovery.Some? then
      Some(t.users[0].recovery.value.completion)
    else None
  }

  ghost predicate Shape(s: State) {
    && (forall slot | slot in s.logs :: ThreadShape(slot, s.logs[slot]))
    && (forall token | token in s.attempts && s.attempts[token].stage.PastJournal() ::
        JournalIs(s.logs, s.attempts[token].request))
    && (forall token | token in s.attempts :: s.attempts[token].request.key in s.claims)
    && (forall slot | slot in s.logs && s.logs[slot].users != [] :: s.logs[slot].users[0].request.value.key in s.claims)
  }

  /** `t` grew into `u` by a write for `req`, which the journal already belonged to if there was one. */
  ghost predicate Extends(t: Thread, u: Thread, req: Request) {
    && ThreadShape(SlotOf(req.key), u) && |u.users| == 1 && u.users[0].request == Some(req)
    && (t.users != [] ==> |t.users| == 1 && t.users[0].request == Some(req))
  }

  lemma WritesExtend(sanitize: string -> string, t: Thread, req: Request, content: string, turn: Turn, pending: nat,
                     c: Completion, archived: Option<string>)
    requires ThreadShape(SlotOf(req.key), t)
    ensures var r := EnsureJournal(t, req, content); r.Ok? ==> Extends(t, r.value, req)
    ensures var r := PersistTurn(sanitize, t, req, turn, pending); r.Ok? ==> Extends(t, r.value, req)
    ensures var r := PersistCompletion(t, req, c, archived); r.Ok? ==> Extends(t, r.value, req)
  {
  }

  lemma StageShape(s: State, token: nat, stage: Stage)
    requires Shape(s) && token in s.attempts
    requires stage.PastJournal() ==> JournalIs(s.logs, s.attempts[token].request)
    ensures Shape(SetStage(s, token, stage))
  {
  }

  lemma ThreadKeepsShape(s: State, token: nat, r: Outcome<Thread>, stage: Stage)
    requires Shape(s) && token in s.attempts
    requires r.Ok? ==> Extends(ThreadAt(s.logs, SlotOf(s.attempts[token].request.key)), r.value,
                               s.attempts[token].request)
    ensures Shape(SetThread(s, token, r, stage))
  {
    if r.Ok? {
      var req := s.attempts[token].request;
      var mid := s.(logs := s.logs[SlotOf(req.key) := r.value]);
      assert JournalIs(mid.logs, req);
      forall other | other in s.attempts && s.attempts[other].stage.PastJournal()
        ensures JournalIs(mid.logs, s.attempts[other].request)
      {
        assert JournalIs(s.logs, s.attempts[other].request);
      }
      assert Shape(mid);
      StageShape(mid, token, s.attempts[token].stage.Reached(stage));
    } else {
      StageShape(s, token, s.attempts[token].stage.Reached(Failing));
    }
  }

  lemma AcquireShape(s: State, token: nat, req: Request, leaseExpired: bool)
    requires Shape(s) && token !in s.attempts
    ensures Shape(ApplyAcquire(s, token, req, leaseExpired))
  {
  }

  lemma SlotShape(s: State, slot: Slot)
    requires Shape(s)
    ensures ThreadShape(slot, ThreadAt(s.logs, slot))
  {
  }

  /** Every step, whatever the takeovers, keeps one journal row per request. */
  lemma ShapeKept(sanitize: string -> string, s: State, step: Step)
    requires Shape(s) && Enabled(s, step)
    ensures Shape(Apply(sanitize, s, step))
  {
    if step.Acquire? {
      AcquireShape(s, step.token, step.req, step.leaseExpired);
    } else {
      var token, a := step.token, s.attempts[step.token];
      var t := ThreadAt(s.logs, SlotOf(a.request.key));
      SlotShape(s, SlotOf(a.request.key));
      if step.Journal? {
        WritesExtend(sanitize, t, a.request, step.content, NO_TURN, 0, NO_TURN.completion, None);
        ThreadKeepsShape(s, token, EnsureJournal(t, a.request, step.content), Journaled);
      } else if step.WriteTurn? {
        WritesExtend(sanitize, t, a.request, "", a.stage.turn, step.pending, NO_TURN.completion, None);
        ThreadKeepsShape(s, token, PersistTurn(sanitize, t, a.request, a.stage.turn, step.pending),
                         Persisted(a.stage.turn.completion.(pending := step.pending)));
      } else if step.WriteCompletion? {
        WritesExtend(sanitize, t, a.request, "", NO_TURN, 0, a.stage.early, step.archived);
        ThreadKeepsShape(s, token, PersistCompletion(t, a.request, a.stage.early, step.archived),
                         Persisted(a.stage.early));
      } else {
        StageShape(s, token, Apply(sanitize, s, step).attempts[token].stage);
      }
    }
  }

  const NO_TURN := Turn("", "", Completion(false, "", 0))

  // ---- Runs whose takeovers are safe

  /** What is stored for each claim. */
  ghost function Stored(logs: Logs): Key -> Option<Completion> {
    k => StoredFor(logs, k)
  }

  /** The requests that the journal refuses. */
  ghost function Refused(logs: Logs): Request -> bool {
    (req: Request) => LoadJournal(ThreadAt(logs, SlotOf(req.key)), req).Err?
  }

  /**
   * The attempt, or the thread it left, can still write a result for its claim, and nothing checks the claim before
   * it does. An attempt that has chosen the bridge is none of these: the checks around the bridge stop it if it lost
   * its claim.
   */
  ghost predicate CanWrite(stored: Key -> Option<Completion>, refused: Request -> bool, a: Attempt) {
    && stored(a.request.key) == None
    && (a.stage.Unchecked() || a.stage.Journaled? || (a.stage.Acquired? && !refused(a.request)))
  }

  ghost predicate Hazard(s: State, token: nat) {
    token in s.attempts && CanWrite(Stored(s.logs), Refused(s.logs), s.attempts[token])
  }

  /** A claim that failed, or whose lease expired, is taken only when its owner cannot write unchecked. */
  ghost predicate SafeStep(s: State, step: Step) {
    step.Acquire? && step.req.key in s.claims ==>
      var c := s.claims[step.req.key];
      c.status == Failed || (c.status == Processing && step.leaseExpired) ==> !Hazard(s, c.token)
  }

  /** The claim is the attempt's; only a thread without its attempt may find it failed. */
  predicate Holds(c: Claim, token: nat, a: Attempt) {
    && c.token == token && c.attempts == a.count
    && (c.status == Processing || (c.status == Failed && a.stage.Detached()))
  }

  ghost predicate AttemptOk(claims: map<Key, Claim>, stored: Key -> Option<Completion>, refused: Request -> bool,
                            token: nat, a: Attempt)
  {
    var k := a.request.key;
    && k in claims && 1 <= a.count <= claims[k].attempts
    && (CanWrite(stored, refused, a) ==> Holds(claims[k], token, a))
    && (a.count == 1 && (a.stage.Journaled? || (a.stage.Acquired? && !refused(a.request))) ==> stored(k) == None)
    && (a.stage.Unchecked() ==> stored(k) == None)
    && (a.stage.Checked() && claims[k].token == token && claims[k].status == Processing ==>
          claims[k].attempts == a.count && stored(k) == None)
    && (a.stage.Result().Some? ==> stored(k) == a.stage.Result())
  }

  ghost predicate ClaimOk(attempts: map<nat, Attempt>, stored: Key -> Option<Completion>, k: Key, c: Claim) {
    && c.attempts >= 1 && c.token in attempts && attempts[c.token].request.key == k
    && (c.status.Completed? ==> stored(k) == Some(c.status.response))
  }

  /** Attempts, claims and responses agree with each other and with what is stored. */
  ghost predicate Ledger(claims: map<Key, Claim>, attempts: map<nat, Attempt>, sent: seq<Sent>,
                         stored: Key -> Option<Completion>, refused: Request -> bool)
  {
    && (forall token | token in attempts :: AttemptOk(claims, stored, refused, token, attempts[token]))
    && (forall k | k in claims :: ClaimOk(attempts, stored, k, claims[k]))
    && (forall e | e in sent :: stored(e.key) == Some(e.completion))
  }

  ghost predicate LedgerOf(s: State) {
    Ledger(s.claims, s.attempts, s.sent, Stored(s.logs), Refused(s.logs))
  }

  /** No answer before a completion is stored, at most one with it, and a reply is the answer that was archived. */
  ghost predicate AnswersOk(sanitize: string -> string, t: Thread) {
    t.users != [] ==>
      match t.users[0].recovery
      case None => t.assistants == []
      case Some(m) => |t.assistants| <= 1 && (m.completion.respond ==> t.assistants == [sanitize(m.completion.reply)])
  }

  ghost predicate Answers(sanitize: string -> string, s: State) {
    forall slot | slot in s.logs :: AnswersOk(sanitize, s.logs[slot])
  }

  ghost predicate Inv(sanitize: string -> string, s: State) {
    Shape(s) && LedgerOf(s) && Answers(sanitize, s)
  }

  // ---- How the ledger may change

  /** One attempt moves on; what is stored changes at most for its own claim, for the first time, while it may write. */
  lemma LedgerMove(claims: map<Key, Claim>, attempts: map<nat, Attempt>, sent: seq<Sent>,
                   before: Key -> Option<Completion>, after: Key -> Option<Completion>,
                   refused: Request -> bool, later: Request -> bool, token: nat, stage: Stage)
    requires Ledger(claims, attempts, sent, before, refused) && token in attempts
    requires AttemptOk(claims, after, later, token, attempts[token].(stage := stage))
    requires forall k | k != attempts[token].request.key || !CanWrite(before, refused, attempts[token]) ::
             after(k) == before(k)
    requires forall req | refused(req) :: later(req)
    ensures Ledger(claims, attempts[token := attempts[token].(stage := stage)], sent, after, later)
  {
    var moved := attempts[token := attempts[token].(stage := stage)];
    forall other | other in attempts && other != token
      ensures AttemptOk(claims, after, later, other, attempts[other])
    {
      assert AttemptOk(claims, before, refused, other, attempts[other]);
      assert AttemptOk(claims, before, refused, token, attempts[token]);
    }
    forall k | k in claims
      ensures ClaimOk(moved, after, k, claims[k])
    {
      assert ClaimOk(attempts, before, k, claims[k]);
    }
    forall e | e in sent
      ensures after(e.key) == Some(e.completion)
    {
      assert before(e.key) == Some(e.completion);
    }
  }

  /** The owner settles its claim. */
  lemma LedgerSettle(claims: map<Key, Claim>, attempts: map<nat, Attempt>, sent: seq<Sent>,
                     stored: Key -> Option<Completion>, refused: Request -> bool,
                     token: nat, stage: Stage, status: Status, extra: seq<Sent>)
    requires Ledger(claims, attempts, sent, stored, refused) && token in attempts
    requires var k := attempts[token].request.key;
             && k in claims && claims[k].token == token && status != Processing
             && (status.Completed? ==> stored(k) == Some(status.response))
             && AttemptOk(claims[k := claims[k].(status := status)], stored, refused, token,
                          attempts[token].(stage := stage))
    requires forall e | e in extra :: stored(e.key) == Some(e.completion)
    ensures var k := attempts[token].request.key;
            Ledger(claims[k := claims[k].(status := status)], attempts[token := attempts[token].(stage := stage)],
                   sent + extra, stored, refused)
  {
    var k := attempts[token].request.key;
    var settled := claims[k := claims[k].(status := status)];
    var moved := attempts[token := attempts[token].(stage := stage)];
    forall other | other in attempts
      ensures AttemptOk(settled, stored, refused, other, moved[other])
    {
      assert AttemptOk(claims, stored, refused, other, attempts[other]);
    }
    forall j | j in settled
      ensures ClaimOk(moved, stored, j, settled[j])
    {
      assert ClaimOk(attempts, stored, j, claims[j]);
    }
  }

  /** A new owner takes a claim whose earlier attempts can no longer write unchecked. */
  lemma LedgerTake(claims: map<Key, Claim>, attempts: map<nat, Attempt>, sent: seq<Sent>,
                   stored: Key -> Option<Completion>, refused: Request -> bool, token: nat, req: Request, count: nat)
    requires Ledger(claims, attempts, sent, stored, refused) && token !in attempts
    requires if req.key in claims then count == claims[req.key].attempts + 1 else count == 1 && stored(req.key) == None
    requires forall other | other in attempts && attempts[other].request.key == req.key ::
               !CanWrite(stored, refused, attempts[other])
    ensures Ledger(claims[req.key := Claim(Processing, token, count)],
                   attempts[token := Attempt(req, count, Acquired)], sent,
                   stored, refused)
  {
    var taken := claims[req.key := Claim(Processing, token, count)];
    var grown := attempts[token := Attempt(req, count, Acquired)];
    if req.key in claims {
      assert ClaimOk(attempts, stored, req.key, claims[req.key]);
    }
    forall other | other in attempts
      ensures AttemptOk(taken, stored, refused, other, attempts[other])
    {
      assert AttemptOk(claims, stored, refused, other, attempts[other]);
    }
    forall k | k in claims && k != req.key
      ensures ClaimOk(grown, stored, k, claims[k])
    {
      assert ClaimOk(attempts, stored, k, claims[k]);
    }
  }

  // ---- Every step of a run with safe takeovers

  lemma StageLedger(s: State, token: nat, stage: Stage)
    requires LedgerOf(s) && token in s.attempts
    requires AttemptOk(s.claims, Stored(s.logs), Refused(s.logs), token, s.attempts[token].(stage := stage))
    ensures LedgerOf(SetStage(s, token, stage))
  {
    LedgerMove(s.claims, s.attempts, s.sent, Stored(s.logs), Stored(s.logs), Refused(s.logs), Refused(s.logs), token,
               stage);
  }

  lemma EndLedger(s: State, token: nat, stage: Stage)
    requires LedgerOf(s) && token in s.attempts && (stage.Failing? || stage.Ended? || stage.LooseJournal?)
    ensures LedgerOf(SetStage(s, token, stage))
  {
    assert AttemptOk(s.claims, Stored(s.logs), Refused(s.logs), token, s.attempts[token]);
    StageLedger(s, token, stage);
  }

  /** A write for one request changes nothing that other claims can find. */
  lemma StoredFrame(logs: Logs, req: Request, u: Thread, other: Key)
    requires Extends(ThreadAt(logs, SlotOf(req.key)), u, req) && other != req.key
    ensures StoredFor(logs[SlotOf(req.key) := u], other) == StoredFor(logs, other)
  {
  }

  /** A write stores nothing new, or the first completion of its claim. */
  ghost predicate Stores(t: Thread, u: Thread, req: Request, stage: Stage) {
    && Extends(t, u, req)
    && if stage.Journaled? then
         u.users[0].recovery == if t.users == [] then None else t.users[0].recovery
       else stage.Persisted? && u.users[0].recovery == Some(Marker(req.key, req, stage.stored))
  }

  /** What a write leaves alone: other claims, and requests already refused. */
  lemma WriteFrame(logs: Logs, req: Request, u: Thread, stage: Stage)
    requires Stores(ThreadAt(logs, SlotOf(req.key)), u, req, stage)
             && LoadJournal(ThreadAt(logs, SlotOf(req.key)), req).Ok?
    ensures var after := logs[SlotOf(req.key) := u];
            && (forall k | k != req.key :: Stored(after)(k) == Stored(logs)(k))
            && Stored(after)(req.key) == (if stage.Journaled? then Stored(logs)(req.key) else Some(stage.stored))
            && (forall r | Refused(logs)(r) :: Refused(after)(r))
  {
    var after := logs[SlotOf(req.key) := u];
    forall k | k != req.key
      ensures Stored(after)(k) == Stored(logs)(k)
    {
      StoredFrame(logs, req, u, k);
    }
    StoredAfter(logs, req, u, stage);
    forall r | Refused(logs)(r)
      ensures Refused(after)(r)
    {
      RefusedStays(logs, req, u, r);
    }
  }

  lemma WriteLedger(s: State, token: nat, u: Thread, stage: Stage)
    requires LedgerOf(s) && token in s.attempts
    requires var a := s.attempts[token];
             && Stores(ThreadAt(s.logs, SlotOf(a.request.key)), u, a.request, stage)
             && LoadJournal(ThreadAt(s.logs, SlotOf(a.request.key)), a.request).Ok?
             && (if stage.Journaled? then a.stage.Acquired? || a.stage.LooseJournal? else a.stage.Unchecked())
    ensures LedgerOf(SetThread(s, token, Ok(u), stage))
  {
    var a := s.attempts[token];
    var logs := s.logs[SlotOf(a.request.key) := u];
    WriteFrame(s.logs, a.request, u, stage);
    WriterOk(s.claims, Stored(s.logs), Stored(logs), Refused(s.logs), Refused(logs), token, a, stage);
    LedgerMove(s.claims, s.attempts, s.sent, Stored(s.logs), Stored(logs), Refused(s.logs), Refused(logs), token,
               a.stage.Reached(stage));
  }

  lemma WriterOk(claims: map<Key, Claim>, before: Key -> Option<Completion>, after: Key -> Option<Completion>,
                 refused: Request -> bool, later: Request -> bool, token: nat, a: Attempt, stage: Stage)
    requires AttemptOk(claims, before, refused, token, a)
    requires if stage.Journaled? then (a.stage.Acquired? && !refused(a.request)) || a.stage.LooseJournal?
             else stage.Persisted? && a.stage.Unchecked()
    requires after(a.request.key) == if stage.Journaled? then before(a.request.key) else Some(stage.stored)
    ensures AttemptOk(claims, after, later, token, a.(stage := a.stage.Reached(stage)))
    ensures after(a.request.key) == before(a.request.key) || CanWrite(before, refused, a)
  {
  }

  /** A refused request stays refused: the journal never changes its fingerprint. */
  lemma RefusedStays(logs: Logs, req: Request, u: Thread, other: Request)
    requires Extends(ThreadAt(logs, SlotOf(req.key)), u, req)
    requires LoadJournal(ThreadAt(logs, SlotOf(req.key)), req).Ok?
    requires LoadJournal(ThreadAt(logs, SlotOf(other.key)), other).Err?
    ensures LoadJournal(ThreadAt(logs[SlotOf(req.key) := u], SlotOf(other.key)), other).Err?
  {
  }

  lemma StoredAfter(logs: Logs, req: Request, u: Thread, stage: Stage)
    requires Stores(ThreadAt(logs, SlotOf(req.key)), u, req, stage)
    ensures StoredFor(logs[SlotOf(req.key) := u], req.key)
            == if stage.Journaled? then StoredFor(logs, req.key) else Some(stage.stored)
  {
  }

  /** The rows written by each of the three transactions. */
  lemma WritesStore(sanitize: string -> string, t: Thread, req: Request, content: string, turn: Turn, pending: nat,
                    c: Completion, archived: Option<string>)
    requires ThreadShape(SlotOf(req.key), t) && AnswersOk(sanitize, t)
    ensures var r := EnsureJournal(t, req, content);
            r.Ok? ==> Stores(t, r.value, req, Journaled) && AnswersOk(sanitize, r.value)
    ensures var r := PersistTurn(sanitize, t, req, turn, pending);
            r.Ok? && t.users[0].recovery == None ==>
              Stores(t, r.value, req, Persisted(turn.completion.(pending := pending))) && AnswersOk(sanitize, r.value)
    ensures var r := PersistCompletion(t, req, c, archived);
            r.Ok? && t.users[0].recovery == None ==>
                Stores(t, r.value, req, Persisted(c)) && AnswersOk(sanitize, r.value)
  {
    WritesExtend(sanitize, t, req, content, turn, pending, c, archived);
  }

  lemma WriteAnswers(sanitize: string -> string, s: State, token: nat, r: Outcome<Thread>, stage: Stage)
    requires Answers(sanitize, s) && token in s.attempts && (r.Ok? ==> AnswersOk(sanitize, r.value))
    ensures Answers(sanitize, SetThread(s, token, r, stage))
  {
  }

  lemma SlotAnswers(sanitize: string -> string, s: State, slot: Slot)
    requires Answers(sanitize, s)
    ensures AnswersOk(sanitize, ThreadAt(s.logs, slot))
  {
  }

  /** An unchecked attempt finds its journal without a completion. */
  lemma NothingStored(s: State, token: nat)
    requires Shape(s) && LedgerOf(s) && token in s.attempts && s.attempts[token].stage.Unchecked()
    ensures var t := ThreadAt(s.logs, SlotOf(s.attempts[token].request.key));
            |t.users| == 1 && t.users[0].recovery == None
  {
    assert AttemptOk(s.claims, Stored(s.logs), Refused(s.logs), token, s.attempts[token]);
    assert JournalIs(s.logs, s.attempts[token].request);
  }

  lemma WriteStep(sanitize: string -> string, s: State, step: Step)
    requires Inv(sanitize, s) && Enabled(s, step) && (step.Journal? || step.WriteTurn? || step.WriteCompletion?)
    ensures LedgerOf(Apply(sanitize, s, step)) && Answers(sanitize, Apply(sanitize, s, step))
  {
    var token, a := step.token, s.attempts[step.token];
    var slot := SlotOf(a.request.key);
    var t := ThreadAt(s.logs, slot);
    SlotShape(s, slot);
    SlotAnswers(sanitize, s, slot);
    EndLedger(s, token, a.stage.Reached(Failing));
    var r, stage;
    if step.Journal? {
      r, stage := EnsureJournal(t, a.request, step.content), Journaled;
      WritesStore(sanitize, t, a.request, step.content, NO_TURN, 0, NO_TURN.completion, None);
    } else {
      if a.stage.Unchecked() {
        NothingStored(s, token);
      }
      if step.WriteTurn? {
        r := PersistTurn(sanitize, t, a.request, a.stage.turn, step.pending);
        stage := Persisted(a.stage.turn.completion.(pending := step.pending));
        WritesStore(sanitize, t, a.request, "", a.stage.turn, step.pending, NO_TURN.completion, None);
      } else {
        r, stage := PersistCompletion(t, a.request, a.stage.early, step.archived), Persisted(a.stage.early);
        WritesStore(sanitize, t, a.request, "", NO_TURN, 0, a.stage.early, step.archived);
      }
    }
    WriteAnswers(sanitize, s, token, r, stage);
    if r.Ok? {
      WriteLedger(s, token, r.value, stage);
    }
  }

  /** The stored completion agrees with the archived answer. */
  predicate Reusable(sanitize: string -> string, c: Completion) {
    !c.respond || sanitize(c.reply) == c.reply
  }

  /**
   * Looking for a completion to reuse finds exactly the stored one, unless it is a reply that the archive
   * changed, which is rejected as corrupt.
   */
  lemma RecoverFinds(sanitize: string -> string, s: State, token: nat)
    requires Shape(s) && Answers(sanitize, s) && token in s.attempts && s.attempts[token].stage.Journaled?
    ensures var a := s.attempts[token];
            var r := LoadRecoverable(ThreadAt(s.logs, SlotOf(a.request.key)), a.request);
            var stored := StoredFor(s.logs, a.request.key);
            if stored.None? then r == Ok(None)
            else if Reusable(sanitize, stored.value) then r == Ok(stored)
            else r == Err(Corrupt)
  {
    var a := s.attempts[token];
    var slot := SlotOf(a.request.key);
    assert JournalIs(s.logs, a.request);
    SlotShape(s, slot);
    SlotAnswers(sanitize, s, slot);
  }

  /** Steps that move one attempt and write neither rows nor claims. */
  predicate StageOnly(step: Step) {
    || step.Recover? || step.ChooseBridge? || step.StartBridge? || step.FinishBridge?
    || step.AnswerEarly? || step.CompleteEarly? || step.Crash?
  }

  /** Where a look for a stored completion leads. */
  function Found(sanitize: string -> string, stored: Option<Completion>): Stage {
    match stored
    case None => Fresh
    case Some(c) => if Reusable(sanitize, c) then Recovered(c) else Failing
  }

  lemma FoundOk(sanitize: string -> string, claims: map<Key, Claim>, stored: Key -> Option<Completion>,
                refused: Request -> bool, token: nat, a: Attempt)
    requires AttemptOk(claims, stored, refused, token, a) && a.stage.Journaled?
    ensures AttemptOk(claims, stored, refused, token, a.(stage := Found(sanitize, stored(a.request.key))))
    ensures a.count <= 1 ==> stored(a.request.key) == None
  {
  }

  lemma RecoverStep(sanitize: string -> string, s: State, token: nat)
    requires Inv(sanitize, s) && Enabled(s, Recover(token))
    ensures LedgerOf(Apply(sanitize, s, Recover(token)))
  {
    var a := s.attempts[token];
    var stage := Found(sanitize, Stored(s.logs)(a.request.key));
    FoundOk(sanitize, s.claims, Stored(s.logs), Refused(s.logs), token, a);
    RecoverFinds(sanitize, s, token);
    assert Apply(sanitize, s, Recover(token)) == SetStage(s, token, stage);
    StageLedger(s, token, stage);
  }

  lemma EarlyStep(s: State, token: nat, stage: Stage)
    requires LedgerOf(s) && token in s.attempts && s.attempts[token].stage.Fresh?
    requires stage.ReadyTurn? || stage.ReadyCompletion? || stage.Bound?
    ensures LedgerOf(SetStage(s, token, stage))
  {
    assert AttemptOk(s.claims, Stored(s.logs), Refused(s.logs), token, s.attempts[token]);
    StageLedger(s, token, stage);
  }

  /** What the check before the bridge is for: only an attempt that still owns its claim calls the model. */
  lemma EnterStep(s: State, token: nat)
    requires LedgerOf(s) && token in s.attempts && s.attempts[token].stage.Bound? && Owns(s, token)
    ensures LedgerOf(SetStage(s, token, InBridge)) && StoredFor(s.logs, s.attempts[token].request.key) == None
  {
    assert AttemptOk(s.claims, Stored(s.logs), Refused(s.logs), token, s.attempts[token]);
    StageLedger(s, token, InBridge);
  }

  /** What the check after the bridge is for: only an attempt that still owns its claim goes on to write. */
  lemma BridgeStep(s: State, token: nat, turn: Turn)
    requires LedgerOf(s) && token in s.attempts && s.attempts[token].stage.InBridge? && Owns(s, token)
    ensures LedgerOf(SetStage(s, token, ReadyTurn(turn)))
  {
    assert AttemptOk(s.claims, Stored(s.logs), Refused(s.logs), token, s.attempts[token]);
    StageLedger(s, token, ReadyTurn(turn));
  }

  lemma StageOnlyStep(sanitize: string -> string, s: State, step: Step)
    requires LedgerOf(s) && Enabled(s, step) && StageOnly(step) && !step.Recover?
    ensures LedgerOf(Apply(sanitize, s, step))
  {
    var token := step.token;
    if step.Crash? {
      EndLedger(s, token, Ended);
    } else if step.AnswerEarly? {
      EarlyStep(s, token, ReadyTurn(step.turn));
    } else if step.CompleteEarly? {
      EarlyStep(s, token, ReadyCompletion(step.early));
    } else if step.ChooseBridge? {
      EarlyStep(s, token, Bound);
    } else if !Owns(s, token) {
      EndLedger(s, token, Failing);
    } else if step.StartBridge? {
      EnterStep(s, token);
    } else {
      BridgeStep(s, token, step.turn);
    }
  }

  lemma CompleteStep(s: State, token: nat)
    requires LedgerOf(s) && Enabled(s, Complete(token))
    ensures LedgerOf(ApplyComplete(s, token))
  {
    assert AttemptOk(s.claims, Stored(s.logs), Refused(s.logs), token, s.attempts[token]);
    var k, c := s.attempts[token].request.key, s.attempts[token].stage.Result().value;
    if s.claims[k].token == token && (s.claims[k].status == Processing || s.claims[k].status == Completed(c)) {
      LedgerSettle(s.claims, s.attempts, s.sent, Stored(s.logs), Refused(s.logs), token, Returned(c), Completed(c),
                   [Sent(k, c)]);
      assert s.claims[k].status == Completed(c) ==> s.claims[k := s.claims[k].(status := Completed(c))] == s.claims;
    } else {
      EndLedger(s, token, Failing);
    }
  }

  lemma FailStep(sanitize: string -> string, s: State, token: nat)
    requires LedgerOf(s) && Enabled(s, Fail(token))
    ensures LedgerOf(Apply(sanitize, s, Fail(token)))
  {
    assert AttemptOk(s.claims, Stored(s.logs), Refused(s.logs), token, s.attempts[token]);
    if Owns(s, token) {
      LedgerSettle(s.claims, s.attempts, s.sent, Stored(s.logs), Refused(s.logs), token, Ended, Failed, []);
      assert s.sent + [] == s.sent;
    } else {
      EndLedger(s, token, Ended);
    }
  }

  lemma DetachStep(sanitize: string -> string, s: State, token: nat, applied: bool)
    requires LedgerOf(s) && Enabled(s, FailDetached(token, applied))
    ensures LedgerOf(Apply(sanitize, s, FailDetached(token, applied)))
  {
    var a := s.attempts[token];
    assert AttemptOk(s.claims, Stored(s.logs), Refused(s.logs), token, a);
    if applied && Owns(s, token) {
      LedgerSettle(s.claims, s.attempts, s.sent, Stored(s.logs), Refused(s.logs), token, a.stage.Loosened(), Failed,
                   []);
      assert s.sent + [] == s.sent;
    } else {
      StageLedger(s, token, a.stage.Loosened());
    }
  }

  /** Where a claim may be taken, nobody can write for it unchecked. */
  lemma NobodyWrites(claims: map<Key, Claim>, attempts: map<nat, Attempt>, sent: seq<Sent>,
                     stored: Key -> Option<Completion>, refused: Request -> bool, k: Key)
    requires Ledger(claims, attempts, sent, stored, refused)
    requires k in claims && !claims[k].status.Completed? && claims[k].token in attempts ==>
               !CanWrite(stored, refused, attempts[claims[k].token])
    ensures forall other | other in attempts && attempts[other].request.key == k ::
            !CanWrite(stored, refused, attempts[other])
  {
    forall other | other in attempts && attempts[other].request.key == k
      ensures !CanWrite(stored, refused, attempts[other])
    {
      assert AttemptOk(claims, stored, refused, other, attempts[other]);
    }
  }

  lemma LedgerSend(claims: map<Key, Claim>, attempts: map<nat, Attempt>, sent: seq<Sent>,
                   stored: Key -> Option<Completion>, refused: Request -> bool, k: Key)
    requires Ledger(claims, attempts, sent, stored, refused) && k in claims && claims[k].status.Completed?
    ensures stored(k) == Some(claims[k].status.response)
    ensures Ledger(claims, attempts, sent + [Sent(k, claims[k].status.response)], stored, refused)
  {
    assert ClaimOk(attempts, stored, k, claims[k]);
  }

  lemma NeverClaimed(s: State, k: Key)
    requires Shape(s) && k !in s.claims
    ensures Stored(s.logs)(k) == None
  {
  }

  lemma AcquireStep(s: State, step: Step)
    requires Shape(s) && LedgerOf(s) && step.Acquire? && Enabled(s, step) && SafeStep(s, step)
    ensures LedgerOf(ApplyAcquire(s, step.token, step.req, step.leaseExpired))
  {
    var k := step.req.key;
    if k in s.claims && s.claims[k].status.Completed? {
      ReplayLedger(s, step);
    } else if k !in s.claims || s.claims[k].status == Failed || step.leaseExpired {
      TakeLedger(s, step);
    } else {
      assert ApplyAcquire(s, step.token, step.req, step.leaseExpired) == s;
    }
  }

  lemma ReplayLedger(s: State, step: Step)
    requires LedgerOf(s) && step.Acquire? && step.req.key in s.claims && s.claims[step.req.key].status.Completed?
    ensures LedgerOf(ApplyAcquire(s, step.token, step.req, step.leaseExpired))
  {
    var k := step.req.key;
    LedgerSend(s.claims, s.attempts, s.sent, Stored(s.logs), Refused(s.logs), k);
    assert ApplyAcquire(s, step.token, step.req, step.leaseExpired)
        == s.(sent := s.sent + [Sent(k, s.claims[k].status.response)]);
  }

  /** The state in which `token` holds the claim. */
  function Holding(s: State, token: nat, req: Request): State {
    var count := if req.key in s.claims then s.claims[req.key].attempts + 1 else 1;
    s.(claims := s.claims[req.key := Claim(Processing, token, count)],
       attempts := s.attempts[token := Attempt(req, count, Acquired)])
  }

  lemma AcquireHolds(s: State, token: nat, req: Request, leaseExpired: bool)
    requires req.key in s.claims ==>
               !s.claims[req.key].status.Completed? && (s.claims[req.key].status == Failed || leaseExpired)
    ensures ApplyAcquire(s, token, req, leaseExpired) == Holding(s, token, req)
  {
  }

  lemma TakeLedger(s: State, step: Step)
    requires Shape(s) && LedgerOf(s) && step.Acquire? && Enabled(s, step) && SafeStep(s, step)
    requires step.req.key in s.claims ==>
               !s.claims[step.req.key].status.Completed?
                   && (s.claims[step.req.key].status == Failed || step.leaseExpired)
    ensures LedgerOf(ApplyAcquire(s, step.token, step.req, step.leaseExpired))
  {
    AcquireHolds(s, step.token, step.req, step.leaseExpired);
    AcquireTakes(s, step.token, step.req);
  }

  lemma AcquireTakes(s: State, token: nat, req: Request)
    requires Shape(s) && LedgerOf(s) && token !in s.attempts
    requires req.key in s.claims && !s.claims[req.key].status.Completed? ==> !Hazard(s, s.claims[req.key].token)
    ensures LedgerOf(Holding(s, token, req))
  {
    NobodyWrites(s.claims, s.attempts, s.sent, Stored(s.logs), Refused(s.logs), req.key);
    if req.key !in s.claims {
      NeverClaimed(s, req.key);
    }
    var count := if req.key in s.claims then s.claims[req.key].attempts + 1 else 1;
    LedgerTake(s.claims, s.attempts, s.sent, Stored(s.logs), Refused(s.logs), token, req, count);
  }

  lemma LedgerStep(sanitize: string -> string, s: State, step: Step)
    requires Inv(sanitize, s) && Enabled(s, step) && SafeStep(s, step)
    ensures LedgerOf(Apply(sanitize, s, step))
  {
    if step.Acquire? {
      AcquireStep(s, step);
    } else if step.Journal? || step.WriteTurn? || step.WriteCompletion? {
      WriteStep(sanitize, s, step);
    } else if step.Complete? {
      CompleteStep(s, step.token);
    } else if step.Fail? {
      FailStep(sanitize, s, step.token);
    } else if step.FailDetached? {
      DetachStep(sanitize, s, step.token, step.applied);
    } else if step.Recover? {
      RecoverStep(sanitize, s, step.token);
    } else {
      StageOnlyStep(sanitize, s, step);
    }
  }

  lemma LogsChangeByWrites(sanitize: string -> string, s: State, step: Step)
    requires Enabled(s, step) && !(step.Journal? || step.WriteTurn? || step.WriteCompletion?)
    ensures Apply(sanitize, s, step).logs == s.logs
  {
  }

  lemma AnswersStep(sanitize: string -> string, s: State, step: Step)
    requires Inv(sanitize, s) && Enabled(s, step)
    ensures Answers(sanitize, Apply(sanitize, s, step))
  {
    if step.Journal? || step.WriteTurn? || step.WriteCompletion? {
      WriteStep(sanitize, s, step);
    } else {
      LogsChangeByWrites(sanitize, s, step);
    }
  }

  lemma StepInv(sanitize: string -> string, s: State, step: Step)
    requires Inv(sanitize, s) && Enabled(s, step) && SafeStep(s, step)
    ensures Inv(sanitize, Apply(sanitize, s, step))
  {
    ShapeKept(sanitize, s, step);
    LedgerStep(sanitize, s, step);
    AnswersStep(sanitize, s, step);
  }

  // ---- Whole runs

  /** The state after a list of steps, as far as each is enabled. */
  function Play(sanitize: string -> string, s: State, steps: seq<Step>): Option<State>
    decreases |steps|
  {
    if steps == [] then Some(s)
    else if Enabled(s, steps[0]) then Play(sanitize, Apply(sanitize, s, steps[0]), steps[1..])
    else None
  }

  ghost predicate SafeRun(sanitize: string -> string, s: State, steps: seq<Step>, end: State)
    decreases |steps|
  {
    if steps == [] then end == s
    else
      && Enabled(s, steps[0]) && SafeStep(s, steps[0])
      && SafeRun(sanitize, Apply(sanitize, s, steps[0]), steps[1..], end)
  }

  /** The journal of a request, once there, stays with the same fingerprint. */
  lemma JournalStays(sanitize: string -> string, s: State, step: Step, req: Request)
    requires Shape(s) && Enabled(s, step) && JournalIs(s.logs, req)
    ensures JournalIs(Apply(sanitize, s, step).logs, req)
  {
    if step.Journal? || step.WriteTurn? || step.WriteCompletion? {
      var a := s.attempts[step.token];
      var t := ThreadAt(s.logs, SlotOf(a.request.key));
      SlotShape(s, SlotOf(a.request.key));
      WritesExtend(sanitize, t, a.request, if step.Journal? then step.content else "",
                   if step.WriteTurn? then a.stage.turn else NO_TURN, if step.WriteTurn? then step.pending else 0,
                   if step.WriteCompletion? then a.stage.early else NO_TURN.completion,
                   if step.WriteCompletion? then step.archived else None);
    } else {
      LogsChangeByWrites(sanitize, s, step);
    }
  }

  /** In every run, with overlapping owners too, a request has at most one journal row, for one input. */
  lemma {:induction false} OneJournal(sanitize: string -> string, s: State, steps: seq<Step>, end: State)
    requires Shape(s) && Play(sanitize, s, steps) == Some(end)
    ensures Shape(end)
    ensures forall slot :: |ThreadAt(end.logs, slot).users| <= 1
    ensures forall req | JournalIs(s.logs, req) :: JournalIs(end.logs, req)
    decreases |steps|
  {
    if steps == [] {
      forall slot
        ensures |ThreadAt(end.logs, slot).users| <= 1
      {
        SlotShape(end, slot);
      }
    } else {
      ShapeKept(sanitize, s, steps[0]);
      var next := Apply(sanitize, s, steps[0]);
      forall req | JournalIs(s.logs, req)
        ensures JournalIs(next.logs, req)
      {
        JournalStays(sanitize, s, steps[0], req);
      }
      OneJournal(sanitize, next, steps[1..], end);
    }
  }

  /** An attempt whose input differs from the journalled one, or whose platform does, fails without a trace. */
  lemma DifferentInputRejected(sanitize: string -> string, s: State, token: nat, content: string, first: Request)
    requires Shape(s) && Enabled(s, Journal(token, content)) && JournalIs(s.logs, first)
    requires SlotOf(s.attempts[token].request.key) == SlotOf(first.key) && s.attempts[token].request != first
    ensures Apply(sanitize, s, Journal(token, content)) == SetStage(s, token, s.attempts[token].stage.Reached(Failing))
  {
    SlotShape(s, SlotOf(first.key));
  }

  /** With safe takeovers a request gets at most one answer, and every response sent is the stored one. */
  lemma {:induction false} ExactlyOnce(sanitize: string -> string, s: State, steps: seq<Step>, end: State)
    requires Inv(sanitize, s) && SafeRun(sanitize, s, steps, end)
    ensures Inv(sanitize, end)
    ensures forall slot :: |ThreadAt(end.logs, slot).assistants| <= 1
    ensures forall e | e in end.sent :: StoredFor(end.logs, e.key) == Some(e.completion)
    decreases |steps|
  {
    if steps == [] {
      forall slot
        ensures |ThreadAt(end.logs, slot).assistants| <= 1
      {
        SlotShape(end, slot);
        SlotAnswers(sanitize, end, slot);
      }
    } else {
      StepInv(sanitize, s, steps[0]);
      ExactlyOnce(sanitize, Apply(sanitize, s, steps[0]), steps[1..], end);
    }
  }

  lemma StartIsSound(sanitize: string -> string)
    ensures Inv(sanitize, START)
  {
  }

  /** So from an empty database, every response that was ever sent for a claim is one and the same. */
  lemma ResponsesAgree(sanitize: string -> string, steps: seq<Step>, end: State, i: nat, j: nat)
    requires SafeRun(sanitize, START, steps, end) && i < |end.sent| && j < |end.sent|
             && end.sent[i].key == end.sent[j].key
    ensures end.sent[i] == end.sent[j]
    ensures |ThreadAt(end.logs, SlotOf(end.sent[i].key)).assistants| <= 1
  {
    StartIsSound(sanitize);
    ExactlyOnce(sanitize, START, steps, end);
    assert end.sent[i] in end.sent && end.sent[j] in end.sent;
  }

  /** What a stored completion fixes from then on. */
  ghost predicate Fixed(s: State, next: State, k: Key) {
    && StoredFor(next.logs, k) == StoredFor(s.logs, k)
    && ThreadAt(next.logs, SlotOf(k)).assistants == ThreadAt(s.logs, SlotOf(k)).assistants
    && |s.bridged| <= |next.bridged| && next.bridged[..|s.bridged|] == s.bridged
    && k !in next.bridged[|s.bridged|..]
  }

  lemma StoredStaysJournal(sanitize: string -> string, s: State, step: Step, k: Key)
    requires Inv(sanitize, s) && Enabled(s, step) && StoredFor(s.logs, k).Some? && step.Journal?
    ensures Fixed(s, Apply(sanitize, s, step), k)
  {
    var token, a := step.token, s.attempts[step.token];
    var r := EnsureJournal(ThreadAt(s.logs, SlotOf(a.request.key)), a.request, step.content);
    if SlotOf(a.request.key) != SlotOf(k) {
      ThreadFixed(s, token, r, Journaled, k);
    } else {
      JournalFixed(s, token, r, step.content, k);
    }
  }

  lemma JournalFixed(s: State, token: nat, r: Outcome<Thread>, content: string, k: Key)
    requires token in s.attempts && SlotOf(s.attempts[token].request.key) == SlotOf(k) && StoredFor(s.logs, k).Some?
    requires r == EnsureJournal(ThreadAt(s.logs, SlotOf(k)), s.attempts[token].request, content)
    ensures Fixed(s, SetThread(s, token, r, Journaled), k)
  {
  }

  lemma ThreadFixed(s: State, token: nat, r: Outcome<Thread>, stage: Stage, k: Key)
    requires token in s.attempts && SlotOf(s.attempts[token].request.key) != SlotOf(k)
    ensures Fixed(s, SetThread(s, token, r, stage), k)
  {
    var next := SetThread(s, token, r, stage);
    assert ThreadAt(next.logs, SlotOf(k)) == ThreadAt(s.logs, SlotOf(k));
  }

  /** An unchecked attempt writes elsewhere: on its own slot nothing is stored. */
  lemma WriterElsewhere(s: State, token: nat, k: Key)
    requires Shape(s) && LedgerOf(s) && token in s.attempts && s.attempts[token].stage.Unchecked()
    requires StoredFor(s.logs, k).Some?
    ensures SlotOf(s.attempts[token].request.key) != SlotOf(k)
  {
    NothingStored(s, token);
  }

  lemma StageFixed(s: State, token: nat, stage: Stage, k: Key)
    requires token in s.attempts
    ensures Fixed(s, SetStage(s, token, stage), k)
  {
  }

  /** A result that is written elsewhere, or refused as invalid, leaves the slot of `k` alone. */
  lemma WriteFixed(sanitize: string -> string, s: State, step: Step, k: Key)
    requires Enabled(s, step) && (step.WriteTurn? || step.WriteCompletion?)
    requires var a := s.attempts[step.token]; a.stage.Unchecked() ==> SlotOf(a.request.key) != SlotOf(k)
    ensures Fixed(s, Apply(sanitize, s, step), k)
  {
    var token, a := step.token, s.attempts[step.token];
    var t := ThreadAt(s.logs, SlotOf(a.request.key));
    if !a.stage.Unchecked() {
      StageFixed(s, token, a.stage.Reached(Failing), k);
    } else if step.WriteTurn? {
      ThreadFixed(s, token, PersistTurn(sanitize, t, a.request, a.stage.turn, step.pending),
                  Persisted(a.stage.turn.completion.(pending := step.pending)), k);
    } else {
      ThreadFixed(s, token, PersistCompletion(t, a.request, a.stage.early, step.archived), Persisted(a.stage.early), k);
    }
  }

  lemma StoredStaysWrite(sanitize: string -> string, s: State, step: Step, k: Key)
    requires Inv(sanitize, s) && Enabled(s, step) && StoredFor(s.logs, k).Some?
    requires step.WriteTurn? || step.WriteCompletion?
    ensures Fixed(s, Apply(sanitize, s, step), k)
  {
    if s.attempts[step.token].stage.Unchecked() {
      WriterElsewhere(s, step.token, k);
    }
    WriteFixed(sanitize, s, step, k);
  }

  lemma StoredStaysStage(sanitize: string -> string, s: State, step: Step, k: Key)
    requires LedgerOf(s) && Enabled(s, step) && StoredFor(s.logs, k).Some?
    requires !(step.Journal? || step.WriteTurn? || step.WriteCompletion?)
    ensures Fixed(s, Apply(sanitize, s, step), k)
  {
    LogsChangeByWrites(sanitize, s, step);
    if step.StartBridge? {
      assert AttemptOk(s.claims, Stored(s.logs), Refused(s.logs), step.token, s.attempts[step.token]);
    }
  }

  /** Once a completion is stored it stays, no answer is added, and the model is not called again for that claim. */
  lemma {:induction false} NeverRunsAgain(sanitize: string -> string, s: State, steps: seq<Step>, end: State, k: Key)
    requires Inv(sanitize, s) && SafeRun(sanitize, s, steps, end) && StoredFor(s.logs, k).Some?
    ensures Fixed(s, end, k)
    decreases |steps|
  {
    if steps != [] {
      var step := steps[0];
      var next := Apply(sanitize, s, step);
      StepInv(sanitize, s, step);
      if step.Journal? {
        StoredStaysJournal(sanitize, s, step, k);
      } else if step.WriteTurn? || step.WriteCompletion? {
        StoredStaysWrite(sanitize, s, step, k);
      } else {
        StoredStaysStage(sanitize, s, step, k);
      }
      NeverRunsAgain(sanitize, next, steps[1..], end, k);
      FixedTwice(s, next, end, k);
    }
  }

  lemma FixedTwice(s: State, next: State, end: State, k: Key)
    requires Fixed(s, next, k) && Fixed(next, end, k)
    ensures Fixed(s, end, k)
  {
    assert end.bridged[..|s.bridged|] == next.bridged[..|s.bridged|];
    assert end.bridged[|s.bridged|..] == next.bridged[|s.bridged|..] + end.bridged[|next.bridged|..];
  }

  // ---- What a later attempt gets

  /** A completed claim answers with its stored completion. */
  lemma ReplayIsStored(s: State, step: Step)
    requires LedgerOf(s) && step.Acquire? && step.req.key in s.claims && s.claims[step.req.key].status.Completed?
    ensures var next := ApplyAcquire(s, step.token, step.req, step.leaseExpired);
            exists c :: StoredFor(s.logs, step.req.key) == Some(c)
                && next == s.(sent := s.sent + [Sent(step.req.key, c)])
  {
    assert ClaimOk(s.attempts, Stored(s.logs), step.req.key, s.claims[step.req.key]);
  }

  /** A claim that a new attempt may take safely. */
  ghost predicate Takeable(s: State, k: Key) {
    && k in s.claims && !s.claims[k].status.Completed?
    && !Hazard(s, s.claims[k].token)
  }

  /** A new attempt with the journalled input, up to the point where it looked for a completion. */
  function Taken(s: State, token: nat, req: Request): State {
    ApplyAcquire(s, token, req, true)
  }

  lemma TakeoverTakes(sanitize: string -> string, s: State, token: nat, req: Request)
    requires Inv(sanitize, s) && token !in s.attempts && Takeable(s, req.key)
    ensures var next := Taken(s, token, req);
            && Inv(sanitize, next) && next.logs == s.logs && next.sent == s.sent && next.bridged == s.bridged
            && token in next.attempts && next.attempts[token] == Attempt(req, s.claims[req.key].attempts + 1, Acquired)
            && Owns(next, token) && s.claims[req.key].attempts >= 1
  {
    assert ClaimOk(s.attempts, Stored(s.logs), req.key, s.claims[req.key]);
    StepInv(sanitize, s, Acquire(token, req, true));
  }

  /** The journalled input is accepted again. */
  lemma JournalAccepts(sanitize: string -> string, s: State, token: nat)
    requires Shape(s) && Owns(s, token) && s.attempts[token].stage.Acquired?
    requires JournalIs(s.logs, s.attempts[token].request)
    ensures var next := Apply(sanitize, s, Journal(token, ""));
            next == SetStage(s, token, Journaled).(logs := next.logs) && Owns(next, token)
  {
    SlotShape(s, SlotOf(s.attempts[token].request.key));
  }

  /** The attempt reuses `c` and returns it, or fails without a response. */
  ghost predicate Resolves(sanitize: string -> string, s: State, token: nat, c: Completion)
    requires Enabled(s, Recover(token))
  {
    var next := Apply(sanitize, s, Recover(token));
    var k := s.attempts[token].request.key;
    && next.bridged == s.bridged
    && if Reusable(sanitize, c) then
         && next.attempts[token].stage == Recovered(c)
         && ApplyComplete(next, token).sent == s.sent + [Sent(k, c)]
         && k in next.claims && ApplyComplete(next, token).claims[k].status == Completed(c)
       else
         next.attempts[token].stage == Failing && next.sent == s.sent
  }

  lemma RecoverResolves(sanitize: string -> string, s: State, token: nat, c: Completion)
    requires Inv(sanitize, s) && Enabled(s, Recover(token)) && s.attempts[token].count > 1 && Owns(s, token)
    requires StoredFor(s.logs, s.attempts[token].request.key) == Some(c)
    ensures Resolves(sanitize, s, token, c)
  {
    RecoverFinds(sanitize, s, token);
    var stage := if Reusable(sanitize, c) then Recovered(c) else Failing;
    assert Apply(sanitize, s, Recover(token)) == SetStage(s, token, stage);
    if Reusable(sanitize, c) {
      OwnerCompletes(SetStage(s, token, stage), token, c);
    }
  }

  lemma OwnerCompletes(s: State, token: nat, c: Completion)
    requires Owns(s, token) && s.attempts[token].stage == Recovered(c)
    ensures var k, next := s.attempts[token].request.key, ApplyComplete(s, token);
            next.sent == s.sent + [Sent(k, c)] && k in next.claims && next.claims[k].status == Completed(c)
  {
  }

  /**
   * A takeover with the journalled input reuses the stored completion exactly when the archive kept its
   * reply, and then returns it; otherwise it fails. In neither case does it reach the model.
   */
  lemma TakeoverReturns(sanitize: string -> string, s: State, token: nat, req: Request, c: Completion)
    requires Inv(sanitize, s) && token !in s.attempts && Takeable(s, req.key)
    requires JournalIs(s.logs, req) && StoredFor(s.logs, req.key) == Some(c)
    ensures var taken := Taken(s, token, req);
            && Enabled(taken, Journal(token, "")) && taken.sent == s.sent
            && Enabled(Apply(sanitize, taken, Journal(token, "")), Recover(token))
            && Resolves(sanitize, Apply(sanitize, taken, Journal(token, "")), token, c)
  {
    TakeoverTakes(sanitize, s, token, req);
    var taken := Taken(s, token, req);
    JournalAccepts(sanitize, taken, token);
    StepInv(sanitize, taken, Journal(token, ""));
    StoredStaysJournal(sanitize, taken, Journal(token, ""), req.key);
    RecoverResolves(sanitize, Apply(sanitize, taken, Journal(token, "")), token, c);
  }

  // ---- Which takeovers do harm

  ghost predicate Reaches(sanitize: string -> string, s: State, end: State) {
    exists steps :: SafeRun(sanitize, s, steps, end)
  }

  lemma ReachesSelf(sanitize: string -> string, s: State)
    ensures Reaches(sanitize, s, s)
  {
    var none: seq<Step> := [];
    assert SafeRun(sanitize, s, none, s);
  }

  lemma ReachesAfter(sanitize: string -> string, s: State, step: Step, end: State)
    requires Enabled(s, step) && SafeStep(s, step) && Reaches(sanitize, Apply(sanitize, s, step), end)
    ensures Reaches(sanitize, s, end)
  {
    var steps :| SafeRun(sanitize, Apply(sanitize, s, step), steps, end);
    assert ([step] + steps)[1..] == steps;
    assert SafeRun(sanitize, s, [step] + steps, end);
  }

  /** From here on every request gets at most one answer, and what is stored stays and spares the model. */
  ghost predicate Harmless(sanitize: string -> string, s: State) {
    forall mid: State, end: State | Reaches(sanitize, s, mid) && Reaches(sanitize, mid, end) ::
      && (forall slot :: |ThreadAt(end.logs, slot).assistants| <= 1)
      && (forall k | StoredFor(mid.logs, k).Some? :: Fixed(mid, end, k))
  }

  lemma InvIsHarmless(sanitize: string -> string, s: State)
    requires Inv(sanitize, s)
    ensures Harmless(sanitize, s)
  {
    forall mid: State, end: State | Reaches(sanitize, s, mid) && Reaches(sanitize, mid, end)
      ensures forall slot :: |ThreadAt(end.logs, slot).assistants| <= 1
      ensures forall k | StoredFor(mid.logs, k).Some? :: Fixed(mid, end, k)
    {
      var first :| SafeRun(sanitize, s, first, mid);
      var second :| SafeRun(sanitize, mid, second, end);
      ExactlyOnce(sanitize, s, first, mid);
      ExactlyOnce(sanitize, mid, second, end);
      forall k | StoredFor(mid.logs, k).Some?
        ensures Fixed(mid, end, k)
      {
        NeverRunsAgain(sanitize, mid, second, end, k);
      }
    }
  }

  /** The attempt `a` at `req` stands at `stage`, and the claim belongs to an attempt `b` that has crashed. */
  ghost predicate Stale(s: State, a: nat, b: nat, req: Request, stage: Stage) {
    && a in s.attempts && s.attempts[a].request == req && s.attempts[a].stage == stage
    && b in s.attempts && s.attempts[b].stage == Ended
    && req.key in s.claims && s.claims[req.key].status == Processing && s.claims[req.key].token == b
    && s.claims[req.key].attempts >= 1
  }

  /** The journal of the request is there, without a completion or an answer. */
  ghost predicate Blank(logs: Logs, req: Request) {
    var t := ThreadAt(logs, SlotOf(req.key));
    && |t.users| == 1 && t.users[0].journal && t.users[0].request == Some(req)
    && t.users[0].recovery == None && t.assistants == []
  }

  /** As `Stale`, and a new owner `c` stands at `other`. */
  ghost predicate Duo(s: State, a: nat, c: nat, req: Request, stage: Stage, other: Stage) {
    && a != c && a in s.attempts && s.attempts[a].request == req && s.attempts[a].stage == stage
    && c in s.attempts && s.attempts[c].request == req && s.attempts[c].stage == other && s.attempts[c].count > 1
  }

  const EXAMPLE_TURN := Turn("", "hi", Completion(true, "hi", 0))

  /** The harm: a second answer, or a stored completion replaced by another. */
  ghost predicate Harmed(mid: State, end: State, req: Request, stage: Stage) {
    if stage.ReadyCompletion? || stage.LooseCompletion? then
      StoredFor(mid.logs, req.key) == Some(stage.early) && StoredFor(end.logs, req.key) == Some(EXAMPLE_TURN.completion)
    else
      |ThreadAt(end.logs, SlotOf(req.key)).assistants| == 2
  }

  lemma BothWriteTurns(sanitize: string -> string, s: State, a: nat, c: nat, req: Request, stage: Stage)
    returns (mid: State, end: State)
    requires Duo(s, a, c, req, stage, ReadyTurn(EXAMPLE_TURN)) && Blank(s.logs, req)
    requires (stage.ReadyTurn? || stage.LooseTurn?) && ValidTurn(stage.turn)
    ensures Reaches(sanitize, s, mid) && Reaches(sanitize, mid, end) && Harmed(mid, end, req, stage)
  {
    var once := Apply(sanitize, s, WriteTurn(c, 0));
    end := Apply(sanitize, once, WriteTurn(a, 0));
    ReachesSelf(sanitize, end);
    ReachesAfter(sanitize, once, WriteTurn(a, 0), end);
    ReachesAfter(sanitize, s, WriteTurn(c, 0), end);
    mid := end;
  }

  lemma CompletionIsReplaced(sanitize: string -> string, s: State, a: nat, c: nat, req: Request, stage: Stage)
    returns (mid: State, end: State)
    requires Duo(s, a, c, req, stage, ReadyTurn(EXAMPLE_TURN)) && Blank(s.logs, req)
    requires (stage.ReadyCompletion? || stage.LooseCompletion?) && !stage.early.respond
    ensures Reaches(sanitize, s, mid) && Reaches(sanitize, mid, end) && Harmed(mid, end, req, stage)
  {
    mid := Apply(sanitize, s, WriteCompletion(a, None));
    end := Apply(sanitize, mid, WriteTurn(c, 0));
    ReachesSelf(sanitize, end);
    ReachesAfter(sanitize, mid, WriteTurn(c, 0), end);
    ReachesSelf(sanitize, mid);
    ReachesAfter(sanitize, s, WriteCompletion(a, None), mid);
  }

  lemma NewOwnerTakes(sanitize: string -> string, s: State, a: nat, b: nat, c: nat, req: Request, stage: Stage)
    requires Stale(s, a, b, req, stage) && Blank(s.logs, req) && c !in s.attempts
    ensures SafeStep(s, Acquire(c, req, true))
    ensures var next := Apply(sanitize, s, Acquire(c, req, true));
            Duo(next, a, c, req, stage, Acquired) && Blank(next.logs, req)
  {
  }

  lemma NewOwnerReads(sanitize: string -> string, s: State, a: nat, c: nat, req: Request, stage: Stage)
    requires Duo(s, a, c, req, stage, Acquired) && Blank(s.logs, req)
    ensures Enabled(s, Journal(c, ""))
    ensures var next := Apply(sanitize, s, Journal(c, ""));
            Duo(next, a, c, req, stage, Journaled) && Blank(next.logs, req)
  {
  }

  lemma NewOwnerDecides(sanitize: string -> string, s: State, a: nat, c: nat, req: Request, stage: Stage)
    requires Duo(s, a, c, req, stage, Journaled) && Blank(s.logs, req)
    ensures Enabled(s, Recover(c)) && Enabled(Apply(sanitize, s, Recover(c)), AnswerEarly(c, EXAMPLE_TURN))
    ensures var next := Apply(sanitize, Apply(sanitize, s, Recover(c)), AnswerEarly(c, EXAMPLE_TURN));
            Duo(next, a, c, req, stage, ReadyTurn(EXAMPLE_TURN)) && Blank(next.logs, req)
  {
  }

  /** The attempt that lost its claim is about to write; a third one takes the claim and gets as far. */
  lemma ReadyHarms(sanitize: string -> string, s: State, a: nat, b: nat, c: nat, req: Request, stage: Stage)
    returns (mid: State, end: State)
    requires Stale(s, a, b, req, stage) && Blank(s.logs, req) && c !in s.attempts
    requires stage.Unchecked() && !stage.Fresh?
    ensures Reaches(sanitize, s, mid) && Reaches(sanitize, mid, end) && Harmed(mid, end, req, stage)
  {
    var s1 := Apply(sanitize, s, Acquire(c, req, true));
    NewOwnerTakes(sanitize, s, a, b, c, req, stage);
    NewOwnerReads(sanitize, s1, a, c, req, stage);
    var s2 := Apply(sanitize, s1, Journal(c, ""));
    NewOwnerDecides(sanitize, s2, a, c, req, stage);
    var s3 := Apply(sanitize, s2, Recover(c));
    var s4 := Apply(sanitize, s3, AnswerEarly(c, EXAMPLE_TURN));
    if stage.ReadyTurn? || stage.LooseTurn? {
      mid, end := BothWriteTurns(sanitize, s4, a, c, req, stage);
    } else {
      mid, end := CompletionIsReplaced(sanitize, s4, a, c, req, stage);
    }
    ReachesAfter(sanitize, s3, AnswerEarly(c, EXAMPLE_TURN), mid);
    ReachesAfter(sanitize, s2, Recover(c), mid);
    ReachesAfter(sanitize, s1, Journal(c, ""), mid);
    ReachesAfter(sanitize, s, Acquire(c, req, true), mid);
  }

  /** The thread takes the request's journal, and nothing was answered or stored. */
  ghost predicate Unanswered(logs: Logs, req: Request) {
    Blank(logs, req) || ThreadAt(logs, SlotOf(req.key)) == Thread([], [])
  }

  lemma StaleJournals(sanitize: string -> string, s: State, a: nat, b: nat, req: Request)
    requires Stale(s, a, b, req, Acquired) && Unanswered(s.logs, req)
    ensures Enabled(s, Journal(a, ""))
    ensures var next := Apply(sanitize, s, Journal(a, "")); Stale(next, a, b, req, Journaled) && Blank(next.logs, req)
  {
  }

  lemma StaleDecides(sanitize: string -> string, s: State, a: nat, b: nat, req: Request)
    requires Stale(s, a, b, req, Journaled) && Blank(s.logs, req)
    ensures Enabled(s, Recover(a))
    ensures var next := Apply(sanitize, s, Recover(a)); Stale(next, a, b, req, Fresh) && Blank(next.logs, req)
  {
  }

  lemma StaleAnswers(sanitize: string -> string, s: State, a: nat, b: nat, req: Request)
    requires Stale(s, a, b, req, Fresh) && Blank(s.logs, req)
    ensures Enabled(s, AnswerEarly(a, EXAMPLE_TURN))
    ensures var next := Apply(sanitize, s, AnswerEarly(a, EXAMPLE_TURN));
            Stale(next, a, b, req, ReadyTurn(EXAMPLE_TURN)) && Blank(next.logs, req)
  {
  }

  /** From each unchecked stage the attempt that lost its claim still comes to write. */
  lemma StaleHarms(sanitize: string -> string, s: State, a: nat, b: nat, c: nat, req: Request, stage: Stage)
    returns (mid: State, end: State)
    requires Stale(s, a, b, req, stage) && c !in s.attempts
    requires if stage.Acquired? then Unanswered(s.logs, req)
             else Blank(s.logs, req) && (stage.Journaled? || stage.Unchecked())
    ensures Reaches(sanitize, s, mid) && Reaches(sanitize, mid, end) && Harmed(mid, end, req, stage)
    decreases if stage.Acquired? then 3 else if stage.Journaled? then 2 else if stage.Fresh? then 1 else 0
  {
    if stage.Acquired? {
      StaleJournals(sanitize, s, a, b, req);
      mid, end := StaleHarms(sanitize, Apply(sanitize, s, Journal(a, "")), a, b, c, req, Journaled);
      ReachesAfter(sanitize, s, Journal(a, ""), mid);
    } else if stage.Journaled? {
      StaleDecides(sanitize, s, a, b, req);
      mid, end := StaleHarms(sanitize, Apply(sanitize, s, Recover(a)), a, b, c, req, Fresh);
      ReachesAfter(sanitize, s, Recover(a), mid);
    } else if stage.Fresh? {
      StaleAnswers(sanitize, s, a, b, req);
      mid, end := StaleHarms(sanitize, Apply(sanitize, s, AnswerEarly(a, EXAMPLE_TURN)), a, b, c, req,
                             ReadyTurn(EXAMPLE_TURN));
      ReachesAfter(sanitize, s, AnswerEarly(a, EXAMPLE_TURN), mid);
    } else {
      mid, end := ReadyHarms(sanitize, s, a, b, c, req, stage);
    }
  }

  /** Where an attempt can write unchecked, nothing is answered or stored yet. */
  lemma HazardUnanswered(sanitize: string -> string, s: State, a: nat)
    requires Inv(sanitize, s) && Hazard(s, a)
    ensures var req, stage := s.attempts[a].request, s.attempts[a].stage;
            if stage.Acquired? then Unanswered(s.logs, req) else Blank(s.logs, req)
  {
    var req := s.attempts[a].request;
    var t := ThreadAt(s.logs, SlotOf(req.key));
    SlotShape(s, SlotOf(req.key));
    SlotAnswers(sanitize, s, SlotOf(req.key));
    if s.attempts[a].stage.PastJournal() {
      assert JournalIs(s.logs, req);
    } else if t.users == [] {
      assert t == Thread([], []);
    }
  }

  /**
   * Taking over a claim whose owner can write unchecked: from Acquired, Journaled, Fresh, ReadyTurn and LooseTurn
   * the request can get two answers, from ReadyCompletion and LooseCompletion the stored completion can be replaced.
   */
  lemma OverlapHarms(sanitize: string -> string, s: State, a: nat, b: nat, c: nat, req: Request)
    returns (mid: State, end: State)
    requires Inv(sanitize, s) && Hazard(s, a) && b !in s.attempts && c !in s.attempts && b != c
    requires req.key == s.attempts[a].request.key
    ensures Reaches(sanitize, Taken(s, b, req), mid) && Reaches(sanitize, mid, end)
    ensures Harmed(mid, end, s.attempts[a].request, s.attempts[a].stage)
  {
    var own, stage := s.attempts[a].request, s.attempts[a].stage;
    assert AttemptOk(s.claims, Stored(s.logs), Refused(s.logs), a, s.attempts[a]);
    HazardUnanswered(sanitize, s, a);
    var taken := Taken(s, b, req);
    var crashed := Apply(sanitize, taken, Crash(b));
    assert Stale(crashed, a, b, own, stage);
    mid, end := StaleHarms(sanitize, crashed, a, b, c, own, stage);
    ReachesAfter(sanitize, taken, Crash(b), mid);
  }

  lemma HarmedIsHarm(sanitize: string -> string, s: State, mid: State, end: State, req: Request, stage: Stage)
    requires Reaches(sanitize, s, mid) && Reaches(sanitize, mid, end) && Harmed(mid, end, req, stage)
    requires stage.ReadyCompletion? || stage.LooseCompletion? ==> !stage.early.respond
    ensures !Harmless(sanitize, s)
  {
    if stage.ReadyCompletion? || stage.LooseCompletion? {
      assert !Fixed(mid, end, req.key);
    }
  }

  lemma HazardHarms(sanitize: string -> string, s: State, a: nat, b: nat, c: nat, req: Request)
    requires Inv(sanitize, s) && Hazard(s, a) && b !in s.attempts && c !in s.attempts && b != c
    requires req.key == s.attempts[a].request.key
    ensures !Harmless(sanitize, Taken(s, b, req))
  {
    var mid, end := OverlapHarms(sanitize, s, a, b, c, req);
    HarmedIsHarm(sanitize, Taken(s, b, req), mid, end, s.attempts[a].request, s.attempts[a].stage);
  }

  /**
   * Taking a claim in progress or a failed one is harmless, whatever follows, if and only if its owner cannot write
   * unchecked: it has chosen the bridge, has written, was refused, is gone, or can find the completion stored.
   */
  lemma TakeoverHarmlessIff(sanitize: string -> string, s: State, b: nat, c: nat, req: Request)
    requires Inv(sanitize, s) && b !in s.attempts && c !in s.attempts && b != c
    requires req.key in s.claims && !s.claims[req.key].status.Completed?
    ensures Harmless(sanitize, Taken(s, b, req)) <==> !Hazard(s, s.claims[req.key].token)
  {
    var a := s.claims[req.key].token;
    assert ClaimOk(s.attempts, Stored(s.logs), req.key, s.claims[req.key]);
    if Hazard(s, a) {
      HazardHarms(sanitize, s, a, b, c, req);
    } else {
      StepInv(sanitize, s, Acquire(b, req, true));
      InvIsHarmless(sanitize, Taken(s, b, req));
    }
  }

  /** The condition read off the owner's stage, the stored completion and the journal. */
  lemma HazardByStage(sanitize: string -> string, s: State, a: nat)
    requires Inv(sanitize, s) && a in s.attempts
    ensures var stage, req := s.attempts[a].stage, s.attempts[a].request;
            Hazard(s, a) <==>
              || stage.Unchecked()
              || (stage.Journaled? && StoredFor(s.logs, req.key) == None)
              || (stage.Acquired? && StoredFor(s.logs, req.key) == None
                  && LoadJournal(ThreadAt(s.logs, SlotOf(req.key)), req).Ok?)
  {
    assert AttemptOk(s.claims, Stored(s.logs), Refused(s.logs), a, s.attempts[a]);
  }
}

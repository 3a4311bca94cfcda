/** The governance audit outbox: intents written before an external operation and resolved after it. */
module AuditOutbox {
  import opened PyValue
  import opened Text

  datatype Identity = Identity(
    admin: string, action: string, targetType: string, targetId: string, request: Object, ip: string)

  datatype Status = Prepared | Finalized | Failed | Ambiguous

  datatype Row = Row(identity: Identity, status: Status, resultTarget: string, resultDetail: Object,
                     lastError: string) {
    predicate Terminal() {
      status == Finalized || status == Failed
    }
  }

  datatype Log = Log(admin: string, action: string, targetType: string, targetId: string, detail: Object, ip: string)

  datatype Db = Db(outbox: map<string, Row>, logs: map<string, Log>)

  /** What a session sees: its pending changes on top of what is durable. */
  datatype Session = Session(committed: Db, working: Db)

  function Clean(db: Db): Session {
    Session(db, db)
  }

  /** A commit that raises may or may not have taken effect. */
  datatype Commit = Applied | LostBefore | LostAfter

  datatype Intent = Intent(id: string, identity: Identity)

  datatype Result =
    | Done(id: string, row: Row)
    | Counted(n: nat)
    | Conflict
    | PreparationError
    | FinalizationError
    | CommitRaised

  // ---- Text and keys

  predicate Printable(s: string) {
    forall k | 0 <= k < |s| :: s[k] as int >= 32
  }

  predicate Fits(s: string, maximum: nat, required: bool) {
    var t := Strip(s);
    (required ==> t != "") && |t| <= maximum && Printable(t)
  }

  function Key(id: string, phase: Status): string {
    id + match phase
         case Prepared => ":prepared"
         case Finalized => ":finalized"
         case Failed => ":failed"
         case Ambiguous => ":ambiguous"
  }

  lemma KeyInjective(a: string, p: Status, b: string, q: Status)
    requires Key(a, p) == Key(b, q)
    ensures a == b && p == q
  {
    var k, j := Key(a, p), Key(b, q);
    assert k[|k| - 3] == j[|j| - 3] && k[|k| - 5] == j[|j| - 5];
    assert p == q;
    assert a == k[..|a|] && b == j[..|b|];
  }

  // ---- Audit records

  predicate ValidLog(l: Log) {
    && Fits(l.action, 128, true) && Fits(l.targetType, 128, false) && Fits(l.targetId, 255, false)
    && Fits(l.admin, 128, true) && Fits(l.ip, 45, false)
  }

  function Normalized(l: Log): Log {
    Log(Strip(l.admin), Strip(l.action), Strip(l.targetType), Strip(l.targetId), l.detail, Strip(l.ip))
  }

  /** Adds a record under its event id; `None` if a text is refused or the id is bound to other facts. */
  function Stage(db: Db, eventId: string, l: Log): Option<Db> {
    var key := Strip(eventId);
    if !ValidLog(l) || !Fits(eventId, 96, true) then None
    else if key !in db.logs then Some(db.(logs := db.logs[key := Normalized(l)]))
    else if db.logs[key] == Normalized(l) then Some(db)
    else None
  }

  function Stamp(detail: Object, id: string, phase: string): Object {
    detail["audit_event_id" := Str(id)]["audit_phase" := Str(phase)]
  }

  function PreparedLog(id: string, who: Identity): Log {
    Log(who.admin, who.action + ".prepared", who.targetType, who.targetId,
        Stamp(map["request" := Dict(who.request)], id, "prepared"), who.ip)
  }

  function FinalLog(id: string, who: Identity, target: string, detail: Object): Log {
    Log(who.admin, who.action, who.targetType, target, Stamp(detail, id, "finalized"), who.ip)
  }

  function FailDetail(id: string, error: string): Object {
    Stamp(map["error_code" := Str(error)], id, "failed")
  }

  function FailedLog(id: string, who: Identity, error: string): Log {
    Log(who.admin, who.action + ".failed", who.targetType, who.targetId, FailDetail(id, error), who.ip)
  }

  predicate HasPrepared(db: Db, id: string, who: Identity) {
    Key(id, Prepared) in db.logs && db.logs[Key(id, Prepared)] == PreparedLog(id, who)
  }

  predicate HasFinal(db: Db, id: string, who: Identity, target: string, detail: Object) {
    Key(id, Finalized) in db.logs && db.logs[Key(id, Finalized)] == FinalLog(id, who, target, detail)
  }

  predicate IsFinalized(db: Db, id: string, target: string, detail: Object) {
    && id in db.outbox && db.outbox[id].status == Finalized
    && db.outbox[id].resultTarget == target && db.outbox[id].resultDetail == detail
    && HasFinal(db, id, db.outbox[id].identity, target, detail)
  }

  predicate IsFailed(db: Db, id: string, error: string) {
    id in db.outbox && db.outbox[id].status == Failed && db.outbox[id].lastError == error
  }

  // ---- The operations, on a session

  predicate ValidIdentity(who: Identity) {
    && Fits(who.action, 112, true) && Fits(who.targetType, 128, false) && Fits(who.targetId, 255, false)
    && Fits(who.admin, 128, true) && Fits(who.ip, 45, false)
  }

  function NormalIdentity(who: Identity): Identity {
    Identity(Strip(who.admin), Strip(who.action), Strip(who.targetType), Strip(who.targetId), who.request,
             Strip(who.ip))
  }

  /** The session after a commit: published, or rolled back by the handler that follows a failure. */
  function Settle(committed: Db, pending: Db, c: Commit): Session {
    Clean(if c == LostBefore then committed else pending)
  }

  /** `eventId` is the caller's, or the generated one; `detail` is `None` when it is not a JSON object. */
  function Prepare(s: Session, eventId: string, given: Identity, detail: Option<Object>, c: Commit): (Session, Result) {
    var id := Strip(eventId);
    if !ValidIdentity(given) || detail.None? || !Fits(eventId, 64, true) then (s, Conflict)
    else
      var who := NormalIdentity(given.(request := detail.value));
      if id in s.working.outbox then
        var row := s.working.outbox[id];
        if row.identity == who && HasPrepared(s.working, id, who) then (s, Done(id, row)) else (s, Conflict)
      else
        var staged := Stage(s.working, Key(id, Prepared), PreparedLog(id, who));
        if staged.None? then (s, Conflict)
        else
          var pending := staged.value.(outbox := staged.value.outbox[id := Row(who, Prepared, "", map[], "")]);
          ReadBackPrepared(Settle(s.committed, pending, c), id, who)
  }

  /** After the commit, what the database shows decides. */
  function ReadBackPrepared(s: Session, id: string, who: Identity): (Session, Result) {
    if id !in s.working.outbox then (s, PreparationError)
    else if s.working.outbox[id].identity != who then (s, Conflict)
    else if HasPrepared(s.working, id, who) then (s, Done(id, s.working.outbox[id]))
    else (s, PreparationError)
  }

  /** The best-effort second commit that leaves an unresolved intent visibly ambiguous. */
  function MarkAmbiguous(s: Session, id: string, error: string, c: Commit): Session {
    if id !in s.working.outbox || s.working.outbox[id].status == Finalized then s
    else
      var code := if error == "" then "audit_finalize_failed" else error;
      var row := s.working.outbox[id].(status := Ambiguous, lastError := if |code| <= 128 then code else code[..128]);
      Settle(s.committed, s.working.(outbox := s.working.outbox[id := row]), c)
  }

  function Finalize(s: Session, intent: Intent, target: string, detail: Option<Object>, error: string, c: Commit,
                    c2: Commit)
    : (Session, Result)
  {
    var id, to := intent.id, Strip(target);
    if !Fits(target, 255, false) || detail.None? then (s, Conflict)
    else if id !in s.working.outbox then (s, FinalizationError)
    else
      var row := s.working.outbox[id];
      if row.identity != intent.identity || row.status == Failed then (s, Conflict)
      else if row.status == Finalized then
        if IsFinalized(s.working, id, to, detail.value) then (s, Done(id, row)) else (s, Conflict)
      else
        var next := Row(row.identity, Finalized, to, detail.value, "");
        var changed := s.working.(outbox := s.working.outbox[id := next]);
        var staged := Stage(changed, Key(id, Finalized), FinalLog(id, row.identity, to, detail.value));
        if staged.None? then (Session(s.committed, changed), Conflict)
        else
          var after := Settle(s.committed, staged.value, c);
          if c == Applied || IsFinalized(after.working, id, to, detail.value) then
            (after, Done(id, after.working.outbox[id]))
          else (MarkAmbiguous(after, id, error, c2), FinalizationError)
  }

  function ErrorCode(error: string): string {
    if error == "" then "external_operation_failed" else error
  }

  function Fail(s: Session, intent: Intent, error: string, cause: string, c: Commit, c2: Commit): (Session, Result) {
    var id, code := intent.id, Strip(ErrorCode(error));
    if !Fits(ErrorCode(error), 128, true) then (s, Conflict)
    else if id !in s.working.outbox then (s, FinalizationError)
    else
      var row := s.working.outbox[id];
      if row.status == Finalized then (s, Conflict)
      else if IsFailed(s.working, id, code) then (s, Done(id, row))
      else
        var changed := s.working.(outbox := s.working.outbox[id := row.(status := Failed, lastError := code)]);
        var staged := Stage(changed, Key(id, Failed), FailedLog(id, intent.identity, code));
        if staged.None? then (Session(s.committed, changed), Conflict)
        else
          var after := Settle(s.committed, staged.value, c);
          if IsFailed(after.working, id, code) then (after, Done(id, after.working.outbox[id]))
          else (MarkAmbiguous(after, id, cause, c2), FinalizationError)
  }

  const RESTART_CODE := "process_restart_before_audit_finalization"

  function Restarted(row: Row): Row {
    row.(status := Ambiguous, lastError := RESTART_CODE)
  }

  /** Promotes the rows one by one up to the first that lacks its prepared record; also, whether there was none. */
  function Promote(db: Db, ids: seq<string>): (Db, bool)
    requires forall id | id in ids :: id in db.outbox
    decreases |ids|
  {
    if ids == [] then (db, true)
    else
      var id := ids[0];
      if !HasPrepared(db, id, db.outbox[id].identity) then (db, false)
      else Promote(db.(outbox := db.outbox[id := Restarted(db.outbox[id])]), ids[1..])
  }

  /** The ids of the prepared intents, in the order of the query. */
  ghost predicate PreparedIds(db: Db, ids: seq<string>) {
    && (forall id :: id in ids <==> id in db.outbox && db.outbox[id].status == Prepared)
    && Distinct(ids)
  }

  ghost predicate Distinct(ids: seq<string>) {
    forall i, j | 0 <= i < j < |ids| :: ids[i] != ids[j]
  }

  predicate ShowsRestart(db: Db, id: string) {
    id in db.outbox && db.outbox[id].status == Ambiguous && db.outbox[id].lastError == RESTART_CODE
  }

  function Reconcile(s: Session, ids: seq<string>, c: Commit): (Session, Result)
    requires forall id | id in ids :: id in s.working.outbox
  {
    if ids == [] then (s, Counted(0))
    else
      var (pending, ok) := Promote(s.working, ids);
      if !ok then (Session(s.committed, pending), Conflict)
      else
        var after := Settle(s.committed, pending, c);
        if c == Applied || forall id | id in ids :: ShowsRestart(after.working, id) then (after, Counted(|ids|))
        else (after, CommitRaised)
  }

  // ---- The session object

  class AuditSession {
    var committed: Db
    var working: Db

    ghost function State(): Session
      reads this
    {
      Session(committed, working)
    }

    constructor (db: Db)
      ensures State() == Clean(db)
    {
      committed, working := db, db;
    }

    method Rollback()
      modifies this
      ensures State() == Clean(old(committed))
    {
      working := committed;
    }

    method TryCommit(c: Commit) returns (raised: bool)
      modifies this
      ensures raised == (c != Applied) && working == old(working)
      ensures committed == if c == LostBefore then old(committed) else old(working)
    {
      if c != LostBefore {
        committed := working;
      }
      return c != Applied;
    }

    method StageAdminAudit(eventId: string, l: Log) returns (ok: bool)
      modifies this`working
      ensures var staged := Stage(old(working), eventId, l);
              ok == staged.Some? && working == if ok then staged.value else old(working)
    {
      var key := Strip(eventId);
      if !ValidLog(l) || !Fits(eventId, 96, true) {
        return false;
      }
      if key in working.logs {
        return working.logs[key] == Normalized(l);
      }
      working := working.(logs := working.logs[key := Normalized(l)]);
      return true;
    }

    method PutRow(id: string, row: Row)
      modifies this`working
      ensures working == old(working).(outbox := old(working).outbox[id := row])
    {
      working := working.(outbox := working.outbox[id := row]);
    }

    /** `generated` is the fresh id taken when the caller names none. */
    method PrepareExternal(givenId: string, generated: string, given: Identity, detail: Option<Object>, c: Commit)
      returns (r: Result)
      modifies this
      ensures (State(), r) == Prepare(old(State()), if givenId == "" then generated else givenId, given, detail, c)
    {
      var eventId := if givenId == "" then generated else givenId;
      if !ValidIdentity(given) || detail.None? || !Fits(eventId, 64, true) {
        return Conflict;
      }
      var id, who := Strip(eventId), NormalIdentity(given.(request := detail.value));
      if id in working.outbox {
        var existing := working.outbox[id];
        if existing.identity != who || !HasPrepared(working, id, existing.identity) {
          return Conflict;
        }
        return Done(id, existing);
      }
      var staged := StageAdminAudit(Key(id, Prepared), PreparedLog(id, who));
      if !staged {
        return Conflict;
      }
      PutRow(id, Row(who, Prepared, "", map[], ""));
      var raised := TryCommit(c);
      if raised {
        Rollback();
        if id in working.outbox {
          if working.outbox[id].identity != who {
            return Conflict;
          }
          if HasPrepared(working, id, who) {
            return Done(id, working.outbox[id]);
          }
        }
        return PreparationError;
      }
      if id !in working.outbox || !HasPrepared(working, id, working.outbox[id].identity) {
        return PreparationError;
      }
      return Done(id, working.outbox[id]);
    }

    method MarkAmbiguousBestEffort(id: string, error: string, c: Commit)
      modifies this
      ensures State() == MarkAmbiguous(old(State()), id, error, c)
    {
      if id !in working.outbox || working.outbox[id].status == Finalized {
        return;
      }
      var code := if error == "" then "audit_finalize_failed" else error;
      PutRow(id, working.outbox[id].(status := Ambiguous, lastError := if |code| <= 128 then code else code[..128]));
      var raised := TryCommit(c);
      if raised {
        Rollback();
      }
    }

    method FinalizeExternal(intent: Intent, target: string, detail: Option<Object>, error: string, c: Commit,
                            c2: Commit)
      returns (r: Result)
      modifies this
      ensures (State(), r) == Finalize(old(State()), intent, target, detail, error, c, c2)
    {
      var id, to := intent.id, Strip(target);
      if !Fits(target, 255, false) || detail.None? {
        return Conflict;
      }
      if id !in working.outbox {
        return FinalizationError;
      }
      var row := working.outbox[id];
      if row.identity != intent.identity {
        return Conflict;
      }
      if row.status == Finalized {
        if row.resultTarget != to || row.resultDetail != detail.value
           || !HasFinal(working, id, row.identity, to, detail.value) {
          return Conflict;
        }
        return Done(id, row);
      }
      if row.status == Failed {
        return Conflict;
      }
      PutRow(id, Row(row.identity, Finalized, to, detail.value, ""));
      var staged := StageAdminAudit(Key(id, Finalized), FinalLog(id, intent.identity, to, detail.value));
      if !staged {
        return Conflict;
      }
      var raised := TryCommit(c);
      if raised {
        Rollback();
        if IsFinalized(working, id, to, detail.value) {
          return Done(id, working.outbox[id]);
        }
        MarkAmbiguousBestEffort(id, error, c2);
        return FinalizationError;
      }
      return Done(id, working.outbox[id]);
    }

    method FailExternal(intent: Intent, error: string, cause: string, c: Commit, c2: Commit) returns (r: Result)
      modifies this
      ensures (State(), r) == Fail(old(State()), intent, error, cause, c, c2)
    {
      var id, code := intent.id, Strip(ErrorCode(error));
      if !Fits(ErrorCode(error), 128, true) {
        return Conflict;
      }
      if id !in working.outbox {
        return FinalizationError;
      }
      var row := working.outbox[id];
      if row.status == Finalized {
        return Conflict;
      }
      if row.status == Failed && row.lastError == code {
        return Done(id, row);
      }
      PutRow(id, row.(status := Failed, lastError := code));
      var staged := StageAdminAudit(Key(id, Failed), FailedLog(id, intent.identity, code));
      if !staged {
        return Conflict;
      }
      var raised := TryCommit(c);
      if raised {
        Rollback();
        if IsFailed(working, id, code) {
          return Done(id, working.outbox[id]);
        }
        MarkAmbiguousBestEffort(id, cause, c2);
        return FinalizationError;
      }
      return Done(id, working.outbox[id]);
    }

    method ReconcilePrepared(ids: seq<string>, c: Commit) returns (r: Result)
      requires PreparedIds(working, ids)
      modifies this
      ensures (State(), r) == Reconcile(old(State()), ids, c)
    {
      if ids == [] {
        return Counted(0);
      }
      for k := 0 to |ids|
        invariant committed == old(committed)
        invariant forall id | id in ids :: id in working.outbox
        invariant Promote(old(working), ids) == Promote(working, ids[k..])
      {
        var id := ids[k];
        assert ids[k..][0] == id && ids[k..][1..] == ids[k + 1..];
        if !HasPrepared(working, id, working.outbox[id].identity) {
          return Conflict;
        }
        PutRow(id, Restarted(working.outbox[id]));
      }
      var raised := TryCommit(c);
      if raised {
        Rollback();
        if forall id | id in ids :: ShowsRestart(working, id) {
          return Counted(|ids|);
        }
        return CommitRaised;
      }
      return Counted(|ids|);
    }
  }

  // ---- What a durable database satisfies

  ghost predicate StoredIdentity(who: Identity) {
    ValidIdentity(who) && NormalIdentity(who) == who
  }

  ghost predicate StoredId(id: string) {
    Strip(id) == id && Fits(id, 64, true)
  }

  /**
   * The intent has its prepared record, and the record of a resolution exactly when it is resolved that way.
   * `h` says that failures were only reported with the intent they belong to: the record of a failure takes
   * its identity from the caller.
   */
  ghost predicate RowOk(h: bool, db: Db, id: string)
    requires id in db.outbox
  {
    var row := db.outbox[id];
    && StoredId(id) && StoredIdentity(row.identity)
    && HasPrepared(db, id, row.identity)
    && (Key(id, Finalized) in db.logs <==> row.status == Finalized)
    && (row.status == Finalized ==> HasFinal(db, id, row.identity, row.resultTarget, row.resultDetail))
    && (Key(id, Failed) in db.logs <==> row.status == Failed)
    && (row.status == Failed ==>
          var record := db.logs[Key(id, Failed)];
          && record.detail == FailDetail(id, row.lastError)
          && (h ==> record == FailedLog(id, row.identity, row.lastError)))
  }

  ghost predicate Inv(h: bool, db: Db) {
    && (forall id | id in db.outbox :: RowOk(h, db, id))
    && (forall id, phase | Key(id, phase) in db.logs :: id in db.outbox)
  }

  /** How a durable database may change: records stay, identities stay, resolved intents stay. */
  ghost predicate Evolves(a: Db, b: Db) {
    && (forall key | key in a.logs :: key in b.logs && b.logs[key] == a.logs[key])
    && (forall id | id in a.outbox :: id in b.outbox && RowEvolves(a.outbox[id], b.outbox[id]))
  }

  ghost predicate RowEvolves(a: Row, b: Row) {
    && a.identity == b.identity
    && (a.Terminal() ==> a == b)
    && (a.status == Ambiguous ==> b.status != Prepared)
  }

  /** `b` is `a` with one row and possibly one record of that row written. */
  ghost predicate Differs(a: Db, b: Db, id: string, row: Row, phase: Status) {
    && b.outbox == a.outbox[id := row]
    && (forall key | key != Key(id, phase) ::
        (key in b.logs <==> key in a.logs) && (key in a.logs ==> b.logs[key] == a.logs[key]))
  }

  /** Writing one row leaves every other row as sound as it was. */
  lemma OthersKept(h: bool, a: Db, b: Db, id: string, row: Row, phase: Status)
    requires Inv(h, a) && Differs(a, b, id, row, phase)
    ensures forall other | other in a.outbox && other != id :: RowOk(h, b, other)
    ensures forall other, p | Key(other, p) in b.logs :: other in b.outbox
  {
    forall other | other in a.outbox && other != id
      ensures RowOk(h, b, other)
    {
      assert RowOk(h, a, other);
      OtherKeys(id, phase, other);
    }
    forall other, p | Key(other, p) in b.logs
      ensures other in b.outbox
    {
      if Key(other, p) == Key(id, phase) {
        KeyInjective(other, p, id, phase);
      }
    }
  }

  lemma OtherKeys(id: string, phase: Status, other: string)
    requires id != other
    ensures forall p: Status :: Key(other, p) != Key(id, phase)
  {
    forall p: Status
      ensures Key(other, p) != Key(id, phase)
    {
      if Key(other, p) == Key(id, phase) {
        KeyInjective(other, p, id, phase);
      }
    }
  }

  lemma PhasesDiffer(id: string)
    ensures Key(id, Prepared) != Key(id, Finalized) && Key(id, Prepared) != Key(id, Failed)
    ensures Key(id, Finalized) != Key(id, Failed)
    ensures forall p: Status | p != Ambiguous :: Key(id, p) != Key(id, Ambiguous)
  {
    forall p: Status, q: Status | Key(id, p) == Key(id, q)
      ensures p == q
    {
      KeyInjective(id, p, id, q);
    }
  }

  // ---- Texts kept by the outbox are accepted by the audit records

  lemma Suffixed(s: string, suffix: string, room: nat)
    requires Strip(s) == s && s != "" && suffix != "" && !IsSpace(suffix[|suffix| - 1])
    requires Printable(s) && Printable(suffix) && |s| + |suffix| <= room
    ensures Strip(s + suffix) == s + suffix && Fits(s + suffix, room, true)
  {
    StripIsTrimmed(s);
    assert Trimmed(s + suffix);
    StripTrimmed(s + suffix);
  }

  lemma KeyAccepted(id: string, phase: Status)
    requires StoredId(id)
    ensures Strip(Key(id, phase)) == Key(id, phase) && Fits(Key(id, phase), 96, true)
  {
    var suffix := Key("", phase);
    assert Key(id, phase) == id + suffix;
    Suffixed(id, suffix, 96);
  }

  lemma PreparedAccepted(id: string, who: Identity)
    requires StoredIdentity(who)
    ensures ValidLog(PreparedLog(id, who)) && Normalized(PreparedLog(id, who)) == PreparedLog(id, who)
  {
    Suffixed(who.action, ".prepared", 128);
  }

  lemma FailedAccepted(id: string, who: Identity, error: string)
    requires StoredIdentity(who)
    ensures ValidLog(FailedLog(id, who, error)) && Normalized(FailedLog(id, who, error)) == FailedLog(id, who, error)
  {
    Suffixed(who.action, ".failed", 128);
  }

  lemma NormalIsStored(who: Identity)
    requires ValidIdentity(who)
    ensures StoredIdentity(NormalIdentity(who))
  {
    StripIsTrimmed(who.admin);
    StripIsTrimmed(who.action);
    StripIsTrimmed(who.targetType);
    StripIsTrimmed(who.targetId);
    StripIsTrimmed(who.ip);
  }

  // ---- Each operation, on a session without pending changes

  lemma RowsEvolve(a: Db, b: Db, id: string, row: Row, phase: Status)
    requires Differs(a, b, id, row, phase) && (Key(id, phase) !in a.logs || a.logs == b.logs)
    requires id in a.outbox ==> RowEvolves(a.outbox[id], row)
    ensures Evolves(a, b)
  {
    forall other | other in a.outbox
      ensures RowEvolves(a.outbox[other], b.outbox[other])
    {
      assert other != id ==> b.outbox[other] == a.outbox[other];
    }
  }

  /** Writing one sound row, in a way the row allows, keeps the whole database sound. */
  lemma WriteKeeps(h: bool, a: Db, b: Db, id: string, row: Row, phase: Status)
    requires Inv(h, a) && Differs(a, b, id, row, phase)
    requires RowOk(h, b, id) && (Key(id, phase) !in a.logs || a.logs == b.logs)
    requires id in a.outbox ==> RowEvolves(a.outbox[id], row)
    ensures Inv(h, b) && Evolves(a, b)
  {
    OthersKept(h, a, b, id, row, phase);
    assert forall other | other in b.outbox :: other == id || other in a.outbox;
    RowsEvolve(a, b, id, row, phase);
  }

  lemma NothingChanges(db: Db)
    ensures Evolves(db, db)
  {
  }

  /** The database with a new intent and its record. */
  function WithIntent(db: Db, id: string, who: Identity): Db {
    Db(db.outbox[id := Row(who, Prepared, "", map[], "")], db.logs[Key(id, Prepared) := PreparedLog(id, who)])
  }

  lemma IntentKeeps(h: bool, db: Db, id: string, who: Identity)
    requires Inv(h, db) && id !in db.outbox && StoredId(id) && StoredIdentity(who)
    ensures Inv(h, WithIntent(db, id, who)) && Evolves(db, WithIntent(db, id, who))
  {
    var next := WithIntent(db, id, who);
    PhasesDiffer(id);
    assert forall p :: Key(id, p) !in db.logs;
    assert RowOk(h, next, id);
    WriteKeeps(h, db, next, id, next.outbox[id], Prepared);
  }

  lemma IntentStaged(h: bool, db: Db, id: string, who: Identity)
    requires Inv(h, db) && id !in db.outbox && StoredId(id) && StoredIdentity(who)
    ensures Stage(db, Key(id, Prepared), PreparedLog(id, who)) == Some(WithIntent(db, id, who).(outbox := db.outbox))
  {
    KeyAccepted(id, Prepared);
    PreparedAccepted(id, who);
    assert Key(id, Prepared) !in db.logs;
  }

  ghost predicate PrepareReports(db: Db, id: string, who: Identity, next: Db, r: Result) {
    match r
    case Done(i, row) => i == id && id in next.outbox && next.outbox[id] == row && row.identity == who
    case Conflict => next == db
    case PreparationError => next == db && id !in db.outbox
    case _ => false
  }

  predicate PrepareAccepts(eventId: string, given: Identity, detail: Option<Object>) {
    ValidIdentity(given) && detail.Some? && Fits(eventId, 64, true)
  }

  lemma PrepareNew(h: bool, db: Db, eventId: string, given: Identity, detail: Option<Object>, c: Commit)
    requires Inv(h, db) && PrepareAccepts(eventId, given, detail) && Strip(eventId) !in db.outbox
    ensures var id, who := Strip(eventId), NormalIdentity(given.(request := detail.value));
            var next := WithIntent(db, id, who);
            && Prepare(Clean(db), eventId, given, detail, c)
               == (if c == LostBefore then (Clean(db), PreparationError) else (Clean(next), Done(id, next.outbox[id])))
            && StoredId(id) && StoredIdentity(who)
  {
    StripIsTrimmed(eventId);
    var id, who := Strip(eventId), NormalIdentity(given.(request := detail.value));
    assert StoredId(id);
    NormalIsStored(given.(request := detail.value));
    IntentStaged(h, db, id, who);
    var next := WithIntent(db, id, who);
    assert ReadBackPrepared(Clean(next), id, who) == (Clean(next), Done(id, next.outbox[id]));
  }

  lemma PrepareKeeps(h: bool, db: Db, eventId: string, given: Identity, detail: Option<Object>, c: Commit)
    requires Inv(h, db)
    ensures var (s, r) := Prepare(Clean(db), eventId, given, detail, c);
            && s == Clean(s.committed) && Inv(h, s.committed) && Evolves(db, s.committed)
            && if detail.None? then r.Conflict? && s.committed == db
               else PrepareReports(db, Strip(eventId), NormalIdentity(given.(request := detail.value)), s.committed, r)
  {
    NothingChanges(db);
    if PrepareAccepts(eventId, given, detail) && Strip(eventId) !in db.outbox {
      PrepareNew(h, db, eventId, given, detail, c);
      IntentKeeps(h, db, Strip(eventId), NormalIdentity(given.(request := detail.value)));
    } else {
      assert Prepare(Clean(db), eventId, given, detail, c).0 == Clean(db);
    }
  }

  /** The best-effort mark keeps an open intent open. */
  lemma MarkKeeps(h: bool, db: Db, id: string, error: string, c: Commit)
    requires Inv(h, db) && id in db.outbox && !db.outbox[id].Terminal()
    ensures var s := MarkAmbiguous(Clean(db), id, error, c);
            && s == Clean(s.committed) && Inv(h, s.committed) && Evolves(db, s.committed)
            && id in s.committed.outbox && !s.committed.outbox[id].Terminal()
            && (c != LostBefore ==> s.committed.outbox[id].status == Ambiguous)
  {
    NothingChanges(db);
    var code := if error == "" then "audit_finalize_failed" else error;
    var row := db.outbox[id].(status := Ambiguous, lastError := if |code| <= 128 then code else code[..128]);
    ReopenKeeps(h, db, id, row);
    assert MarkAmbiguous(Clean(db), id, error, c) == Settle(db, db.(outbox := db.outbox[id := row]), c);
  }

  /** Changing an open intent to ambiguous needs no record. */
  lemma ReopenKeeps(h: bool, db: Db, id: string, row: Row)
    requires Inv(h, db) && id in db.outbox && !db.outbox[id].Terminal()
    requires row.status == Ambiguous && row.identity == db.outbox[id].identity
    ensures Inv(h, db.(outbox := db.outbox[id := row])) && Evolves(db, db.(outbox := db.outbox[id := row]))
  {
    var next := db.(outbox := db.outbox[id := row]);
    assert RowOk(h, db, id);
    assert RowOk(h, next, id);
    WriteKeeps(h, db, next, id, row, Ambiguous);
  }

  /** The database with an intent resolved and the record of its resolution. */
  function WithResolution(db: Db, id: string, row: Row, record: Log): Db {
    Db(db.outbox[id := row], db.logs[Key(id, row.status) := record])
  }

  lemma FinalKeeps(h: bool, db: Db, id: string, row: Row)
    requires Inv(h, db) && id in db.outbox && !db.outbox[id].Terminal()
    requires row.status == Finalized && row.identity == db.outbox[id].identity
    ensures var next := WithResolution(db, id, row, FinalLog(id, row.identity, row.resultTarget, row.resultDetail));
            Inv(h, next) && Evolves(db, next)
  {
    var next := WithResolution(db, id, row, FinalLog(id, row.identity, row.resultTarget, row.resultDetail));
    assert RowOk(h, db, id);
    PhasesDiffer(id);
    assert RowOk(h, next, id);
    WriteKeeps(h, db, next, id, row, Finalized);
  }

  lemma FailedKeeps(h: bool, db: Db, id: string, row: Row, record: Log)
    requires Inv(h, db) && id in db.outbox && !db.outbox[id].Terminal()
    requires row.status == Failed && row.identity == db.outbox[id].identity
    requires record.detail == FailDetail(id, row.lastError)
    requires h ==> record == FailedLog(id, row.identity, row.lastError)
    ensures var next := WithResolution(db, id, row, record);
            Inv(h, next) && Evolves(db, next)
  {
    var next := WithResolution(db, id, row, record);
    assert RowOk(h, db, id);
    PhasesDiffer(id);
    assert RowOk(h, next, id);
    WriteKeeps(h, db, next, id, row, Failed);
  }

  lemma FinalStaged(h: bool, db: Db, id: string, row: Row)
    requires Inv(h, db) && id in db.outbox && !db.outbox[id].Terminal() && row.identity == db.outbox[id].identity
    requires row.status == Finalized && Fits(row.resultTarget, 255, false)
             && Strip(row.resultTarget) == row.resultTarget
    ensures var final := FinalLog(id, row.identity, row.resultTarget, row.resultDetail);
            Stage(db.(outbox := db.outbox[id := row]), Key(id, Finalized), final)
                == Some(WithResolution(db, id, row, final))
  {
    assert RowOk(h, db, id);
    KeyAccepted(id, Finalized);
  }

  /** Finalizing an open intent: the record and the row become durable together, or the intent stays open. */
  lemma FinalizeOpen(h: bool, db: Db, intent: Intent, target: string, detail: Object, error: string, c: Commit,
                     c2: Commit)
    requires Inv(h, db) && Fits(target, 255, false)
    requires intent.id in db.outbox && !db.outbox[intent.id].Terminal()
             && db.outbox[intent.id].identity == intent.identity
    ensures var id, row := intent.id, Row(intent.identity, Finalized, Strip(target), detail, "");
            var next := WithResolution(db, id, row, FinalLog(id, row.identity, row.resultTarget, row.resultDetail));
            Finalize(Clean(db), intent, target, Some(detail), error, c, c2)
            == if c == LostBefore then (MarkAmbiguous(Clean(db), id, error, c2), FinalizationError)
               else (Clean(next), Done(id, row))
  {
    var id, row := intent.id, Row(intent.identity, Finalized, Strip(target), detail, "");
    StripIsTrimmed(target);
    FinalStaged(h, db, id, row);
    var next := WithResolution(db, id, row, FinalLog(id, row.identity, row.resultTarget, row.resultDetail));
    assert IsFinalized(next, id, row.resultTarget, row.resultDetail);
  }

  ghost predicate Unresolved(db: Db, id: string) {
    id in db.outbox && !db.outbox[id].Terminal()
  }

  ghost predicate FinalizeReports(db: Db, intent: Intent, target: string, detail: Object, next: Db, r: Result) {
    match r
    case Done(id, row) =>
      && id == intent.id && id in next.outbox && next.outbox[id] == row && row.identity == intent.identity
      && IsFinalized(next, id, target, detail)
    case Conflict => next == db
    case FinalizationError => if intent.id in db.outbox then Unresolved(next, intent.id) else next == db
    case _ => false
  }

  predicate FinalizeAccepts(db: Db, intent: Intent, target: string, detail: Option<Object>) {
    && Fits(target, 255, false) && detail.Some? && intent.id in db.outbox && !db.outbox[intent.id].Terminal()
    && db.outbox[intent.id].identity == intent.identity
  }

  /** Anything but an open intent is only read. */
  lemma FinalizeClosed(db: Db, intent: Intent, target: string, detail: Option<Object>, error: string, c: Commit,
                       c2: Commit)
    requires !FinalizeAccepts(db, intent, target, detail)
    ensures var (s, r) := Finalize(Clean(db), intent, target, detail, error, c, c2);
            && s == Clean(db)
            && if detail.None? then r.Conflict? else FinalizeReports(db, intent, Strip(target), detail.value, db, r)
  {
  }

  lemma FinalizeKeeps(h: bool, db: Db, intent: Intent, target: string, detail: Option<Object>, error: string,
                      c: Commit, c2: Commit)
    requires Inv(h, db)
    ensures var (s, r) := Finalize(Clean(db), intent, target, detail, error, c, c2);
            && s == Clean(s.committed) && Inv(h, s.committed) && Evolves(db, s.committed)
            && if detail.None? then r.Conflict? && s.committed == db
               else FinalizeReports(db, intent, Strip(target), detail.value, s.committed, r)
  {
    NothingChanges(db);
    var id := intent.id;
    if FinalizeAccepts(db, intent, target, detail) {
      FinalizeOpen(h, db, intent, target, detail.value, error, c, c2);
      FinalKeeps(h, db, id, Row(intent.identity, Finalized, Strip(target), detail.value, ""));
      MarkKeeps(h, db, id, error, c2);
    } else {
      FinalizeClosed(db, intent, target, detail, error, c, c2);
    }
  }

  /** The record of a failure is refused: the caller's intent carries a text that records do not accept. */
  predicate FailRefused(intent: Intent, code: string) {
    !ValidLog(FailedLog(intent.id, intent.identity, code))
  }

  lemma FailStaged(h: bool, db: Db, intent: Intent, row: Row)
    requires Inv(h, db) && intent.id in db.outbox && !db.outbox[intent.id].Terminal() && row.status == Failed
    ensures var record := FailedLog(intent.id, intent.identity, row.lastError);
            Stage(db.(outbox := db.outbox[intent.id := row]), Key(intent.id, Failed), record)
            == if FailRefused(intent, row.lastError) then None
               else Some(WithResolution(db, intent.id, row, Normalized(record)))
  {
    assert RowOk(h, db, intent.id);
    KeyAccepted(intent.id, Failed);
  }

  lemma FailOpen(h: bool, db: Db, intent: Intent, error: string, cause: string, c: Commit, c2: Commit)
    requires Inv(h, db) && Fits(ErrorCode(error), 128, true) && intent.id in db.outbox
             && !db.outbox[intent.id].Terminal()
    ensures var id, code := intent.id, Strip(ErrorCode(error));
            var row := db.outbox[id].(status := Failed, lastError := code);
            var next := WithResolution(db, id, row, Normalized(FailedLog(id, intent.identity, code)));
            Fail(Clean(db), intent, error, cause, c, c2)
            == if FailRefused(intent, code) then (Session(db, db.(outbox := db.outbox[id := row])), Conflict)
               else if c == LostBefore then (MarkAmbiguous(Clean(db), id, cause, c2), FinalizationError)
               else (Clean(next), Done(id, row))
  {
    var id, code := intent.id, Strip(ErrorCode(error));
    var row := db.outbox[id].(status := Failed, lastError := code);
    FailStaged(h, db, intent, row);
    var next := WithResolution(db, id, row, Normalized(FailedLog(id, intent.identity, code)));
    assert IsFailed(next, id, code);
    assert !IsFailed(db, id, code);
  }

  /** A failed intent takes no other error, but the refusal comes after the row was changed. */
  lemma FailAgain(h: bool, db: Db, intent: Intent, error: string, cause: string, c: Commit, c2: Commit)
    requires Inv(h, db) && Fits(ErrorCode(error), 128, true)
    requires intent.id in db.outbox && db.outbox[intent.id].status == Failed
    requires db.outbox[intent.id].lastError != Strip(ErrorCode(error))
    ensures var id, code := intent.id, Strip(ErrorCode(error));
            Fail(Clean(db), intent, error, cause, c, c2)
            == (Session(db, db.(outbox := db.outbox[id := db.outbox[id].(lastError := code)])), Conflict)
  {
    var id, code := intent.id, Strip(ErrorCode(error));
    assert RowOk(h, db, id);
    KeyAccepted(id, Failed);
    var kept := db.outbox[id].lastError;
    assert FailDetail(id, kept)["error_code"] == Str(kept) && FailDetail(id, code)["error_code"] == Str(code);
    assert FailDetail(id, kept) != FailDetail(id, code);
    var changed := db.(outbox := db.outbox[id := db.outbox[id].(status := Failed, lastError := code)]);
    assert Stage(changed, Key(id, Failed), FailedLog(id, intent.identity, code)) == None;
  }

  ghost predicate FailReports(db: Db, intent: Intent, code: string, next: Db, r: Result) {
    match r
    case Done(id, row) => id == intent.id && IsFailed(next, id, code) && next.outbox[id] == row
    case Conflict => next == db
    case FinalizationError => if intent.id in db.outbox then Unresolved(next, intent.id) else next == db
    case _ => false
  }

  /** Changes are left pending exactly when the row was changed before its record was refused. */
  predicate FailDirties(db: Db, intent: Intent, error: string) {
    var code := Strip(ErrorCode(error));
    && Fits(ErrorCode(error), 128, true) && intent.id in db.outbox && db.outbox[intent.id].status != Finalized
    && (if db.outbox[intent.id].status == Failed then db.outbox[intent.id].lastError != code
        else FailRefused(intent, code))
  }

  lemma FailClosed(db: Db, intent: Intent, error: string, cause: string, c: Commit, c2: Commit)
    requires intent.id in db.outbox ==> db.outbox[intent.id].Terminal() || !Fits(ErrorCode(error), 128, true)
    requires !FailDirties(db, intent, error)
    ensures var (s, r) := Fail(Clean(db), intent, error, cause, c, c2);
            s == Clean(db) && FailReports(db, intent, Strip(ErrorCode(error)), db, r)
  {
  }

  lemma FailKeeps(h: bool, db: Db, intent: Intent, error: string, cause: string, c: Commit, c2: Commit)
    requires Inv(h, db) && (h && intent.id in db.outbox ==> db.outbox[intent.id].identity == intent.identity)
    ensures var (s, r) := Fail(Clean(db), intent, error, cause, c, c2);
            && Inv(h, s.committed) && Evolves(db, s.committed)
            && FailReports(db, intent, Strip(ErrorCode(error)), s.committed, r)
            && (s == Clean(s.committed) <==> !FailDirties(db, intent, error))
            && (FailDirties(db, intent, error) ==> r == Conflict)
  {
    NothingChanges(db);
    var id, code := intent.id, Strip(ErrorCode(error));
    if Fits(ErrorCode(error), 128, true) && id in db.outbox && !db.outbox[id].Terminal() {
      FailOpen(h, db, intent, error, cause, c, c2);
      var row := db.outbox[id].(status := Failed, lastError := code);
      if h {
        assert RowOk(h, db, id);
        FailedAccepted(id, intent.identity, code);
      }
      FailedKeeps(h, db, id, row, Normalized(FailedLog(id, intent.identity, code)));
      MarkKeeps(h, db, id, cause, c2);
      assert db.(outbox := db.outbox[id := row]).outbox[id] != db.outbox[id];
    } else if FailDirties(db, intent, error) {
      FailAgain(h, db, intent, error, cause, c, c2);
      var row := db.outbox[id].(lastError := code);
      assert db.(outbox := db.outbox[id := row]).outbox[id] != db.outbox[id];
    } else {
      FailClosed(db, intent, error, cause, c, c2);
    }
  }

  // ---- Reconciliation at start-up

  lemma EvolvesTransitive(a: Db, b: Db, c: Db)
    requires Evolves(a, b) && Evolves(b, c)
    ensures Evolves(a, c)
  {
    forall id | id in a.outbox
      ensures id in c.outbox && RowEvolves(a.outbox[id], c.outbox[id])
    {
      assert RowEvolves(a.outbox[id], b.outbox[id]) && RowEvolves(b.outbox[id], c.outbox[id]);
    }
    forall key | key in a.logs
      ensures key in c.logs && c.logs[key] == a.logs[key]
    {
      assert key in b.logs && b.logs[key] == a.logs[key];
    }
  }

  ghost predicate AllPrepared(db: Db, ids: seq<string>) {
    forall id | id in ids :: id in db.outbox && db.outbox[id].status == Prepared
  }

  /** The rows named are promoted and no other row is touched. */
  ghost predicate Promoted(a: Db, ids: seq<string>, b: Db) {
    && b.outbox.Keys == a.outbox.Keys
    && (forall id | id in a.outbox :: b.outbox[id] == if id in ids then Restarted(a.outbox[id]) else a.outbox[id])
  }

  lemma {:induction false} PromoteKeeps(h: bool, db: Db, ids: seq<string>)
    requires Inv(h, db) && AllPrepared(db, ids) && Distinct(ids)
    ensures Promote(db, ids).1
    ensures var next := Promote(db, ids).0; Inv(h, next) && Evolves(db, next) && Promoted(db, ids, next)
    decreases |ids|
  {
    if ids == [] {
      NothingChanges(db);
    } else {
      var id, rest := ids[0], ids[1..];
      var mid := db.(outbox := db.outbox[id := Restarted(db.outbox[id])]);
      assert ids == [id] + rest;
      PromoteOne(h, db, mid, id, rest);
      PromoteRest(db, mid, id, rest);
      PromoteKeeps(h, mid, rest);
      var next := Promote(mid, rest).0;
      EvolvesTransitive(db, mid, next);
      PromotedFirst(db, mid, next, id, rest);
    }
  }

  lemma PromoteOne(h: bool, db: Db, mid: Db, id: string, rest: seq<string>)
    requires Inv(h, db) && AllPrepared(db, [id] + rest)
    requires mid == db.(outbox := db.outbox[id := Restarted(db.outbox[id])])
    ensures Inv(h, mid) && Evolves(db, mid) && Promote(db, [id] + rest) == Promote(mid, rest)
  {
    assert id in [id] + rest && ([id] + rest)[1..] == rest;
    assert RowOk(h, db, id);
    ReopenKeeps(h, db, id, Restarted(db.outbox[id]));
  }

  lemma PromotedFirst(db: Db, mid: Db, next: Db, id: string, rest: seq<string>)
    requires id in db.outbox && mid.outbox == db.outbox[id := Restarted(db.outbox[id])]
    requires id !in rest && Promoted(mid, rest, next)
    ensures Promoted(db, [id] + rest, next)
  {
  }

  lemma PromoteRest(db: Db, mid: Db, id: string, rest: seq<string>)
    requires AllPrepared(db, [id] + rest) && Distinct([id] + rest)
    requires mid.outbox == db.outbox[id := Restarted(db.outbox[id])]
    ensures AllPrepared(mid, rest) && Distinct(rest) && id !in rest
  {
    var ids := [id] + rest;
    forall k | 0 <= k < |rest|
      ensures rest[k] != id && rest[k] in ids
    {
      assert ids[0] != ids[k + 1] && ids[k + 1] == rest[k];
    }
    forall i, j | 0 <= i < j < |rest|
      ensures rest[i] != rest[j]
    {
      assert ids[i + 1] == rest[i] && ids[j + 1] == rest[j];
    }
  }

  ghost predicate ReconcileReports(db: Db, ids: seq<string>, next: Db, r: Result) {
    match r
    case Counted(n) =>
      && n == |ids| && Promoted(db, ids, next)
      && (forall id | id in next.outbox :: next.outbox[id].status != Prepared)
    case CommitRaised => next == db && ids != []
    case _ => false
  }

  lemma ReconcileIs(db: Db, ids: seq<string>, c: Commit)
    requires PreparedIds(db, ids) && Promote(db, ids).1 && Promoted(db, ids, Promote(db, ids).0)
    ensures Reconcile(Clean(db), ids, c)
            == if ids == [] then (Clean(db), Counted(0))
               else if c == LostBefore then (Clean(db), CommitRaised)
               else (Clean(Promote(db, ids).0), Counted(|ids|))
  {
    if ids != [] {
      assert ids[0] in ids && !ShowsRestart(db, ids[0]);
      var next := Promote(db, ids).0;
      assert forall id | id in ids :: ShowsRestart(next, id);
    }
  }

  lemma NoneLeft(db: Db, ids: seq<string>, next: Db)
    requires PreparedIds(db, ids) && Promoted(db, ids, next)
    ensures forall id | id in next.outbox :: next.outbox[id].status != Prepared
  {
  }

  lemma ReconcileKeeps(h: bool, db: Db, ids: seq<string>, c: Commit)
    requires Inv(h, db) && PreparedIds(db, ids)
    ensures var (s, r) := Reconcile(Clean(db), ids, c);
            && s == Clean(s.committed) && Inv(h, s.committed) && Evolves(db, s.committed)
            && ReconcileReports(db, ids, s.committed, r)
  {
    NothingChanges(db);
    PromoteKeeps(h, db, ids);
    ReconcileIs(db, ids, c);
    NoneLeft(db, ids, Promote(db, ids).0);
  }

  // ---- Runs

  datatype Op =
    | PrepareOp(eventId: string, given: Identity, requested: Option<Object>, c: Commit)
    | FinalizeOp(intent: Intent, target: string, detail: Option<Object>, error: string, c: Commit, c2: Commit)
    | FailOp(intent: Intent, error: string, cause: string, c: Commit, c2: Commit)
    | ReconcileOp(ids: seq<string>, c: Commit)

  /** The start-up query returns the prepared rows, whatever their order. */
  ghost predicate Allowed(h: bool, db: Db, op: Op) {
    && (op.ReconcileOp? ==> PreparedIds(db, op.ids))
    && (h && op.FailOp? && op.intent.id in db.outbox ==> db.outbox[op.intent.id].identity == op.intent.identity)
  }

  ghost function Apply(s: Session, op: Op): (Session, Result)
    requires op.ReconcileOp? ==> PreparedIds(s.working, op.ids)
  {
    match op
    case PrepareOp(eventId, given, requested, c) => Prepare(s, eventId, given, requested, c)
    case FinalizeOp(intent, target, detail, error, c, c2) => Finalize(s, intent, target, detail, error, c, c2)
    case FailOp(intent, error, cause, c, c2) => Fail(s, intent, error, cause, c, c2)
    case ReconcileOp(ids, c) => Reconcile(s, ids, c)
  }

  /** What the caller may conclude from the result about the durable database. */
  ghost predicate Reports(db: Db, op: Op, next: Db, r: Result) {
    match op
    case PrepareOp(eventId, given, requested, _) =>
      if requested.None? then r.Conflict? && next == db
      else PrepareReports(db, Strip(eventId), NormalIdentity(given.(request := requested.value)), next, r)
    case FinalizeOp(intent, target, detail, _, _, _) =>
      if detail.None? then r.Conflict? && next == db
      else FinalizeReports(db, intent, Strip(target), detail.value, next, r)
    case FailOp(intent, error, _, _, _) => FailReports(db, intent, Strip(ErrorCode(error)), next, r)
    case ReconcileOp(ids, _) => ReconcileReports(db, ids, next, r)
  }

  /**
   * One call on a session without pending changes keeps the database sound and reports it truthfully: a
   * normal return names a durable row, a conflict or a failed preparation changed nothing, and a failed
   * resolution leaves the intent open. Only a refused failure leaves changes pending.
   */
  lemma StepKeeps(h: bool, db: Db, op: Op)
    requires Inv(h, db) && Allowed(h, db, op)
    ensures var (s, r) := Apply(Clean(db), op);
            && Inv(h, s.committed) && Evolves(db, s.committed) && Reports(db, op, s.committed, r)
            && (s == Clean(s.committed) <==> !(op.FailOp? && FailDirties(db, op.intent, op.error)))
  {
    match op
    case PrepareOp(eventId, given, requested, c) => PrepareKeeps(h, db, eventId, given, requested, c);
    case FinalizeOp(intent, target, detail, error, c, c2) => FinalizeKeeps(h, db, intent, target, detail, error, c, c2);
    case FailOp(intent, error, cause, c, c2) => FailKeeps(h, db, intent, error, cause, c, c2);
    case ReconcileOp(ids, c) => ReconcileKeeps(h, db, ids, c);
  }

  /** What one call makes durable, on a session whose pending changes were rolled back or never existed. */
  ghost function Next(db: Db, op: Op): Db
    requires op.ReconcileOp? ==> PreparedIds(db, op.ids)
  {
    Apply(Clean(db), op).0.committed
  }

  ghost predicate Run(h: bool, db: Db, ops: seq<Op>, end: Db)
    decreases |ops|
  {
    if ops == [] then end == db
    else Allowed(h, db, ops[0]) && Run(h, Next(db, ops[0]), ops[1..], end)
  }

  /** Over every run the database stays sound, records are only added, and a resolved intent never changes. */
  lemma {:induction false} OutboxSafety(h: bool, db: Db, ops: seq<Op>, end: Db)
    requires Inv(h, db) && Run(h, db, ops, end)
    ensures Inv(h, end) && Evolves(db, end)
    decreases |ops|
  {
    if ops == [] {
      NothingChanges(db);
    } else {
      StepKeeps(h, db, ops[0]);
      OutboxSafety(h, Next(db, ops[0]), ops[1..], end);
      EvolvesTransitive(db, Next(db, ops[0]), end);
    }
  }

  /**
   * So no run records both a success and a failure of one event, and every intent it leaves has its prepared record.
   */
  lemma NeverBothOutcomes(h: bool, db: Db, ops: seq<Op>, end: Db, id: string)
    requires Inv(h, db) && Run(h, db, ops, end)
    ensures !(Key(id, Finalized) in end.logs && Key(id, Failed) in end.logs)
    ensures id in end.outbox ==> HasPrepared(end, id, end.outbox[id].identity)
    ensures Key(id, Prepared) in end.logs ==> id in end.outbox
  {
    OutboxSafety(h, db, ops, end);
    if id in end.outbox {
      assert RowOk(h, end, id);
    }
  }

  const EMPTY := Db(map[], map[])

  lemma EmptyIsSound(h: bool)
    ensures Inv(h, EMPTY)
  {
  }

  /** A run from an empty database, with failures reported honestly, leaves every failed intent its own record. */
  lemma FailuresAreRecorded(ops: seq<Op>, end: Db, id: string)
    requires Run(true, EMPTY, ops, end) && id in end.outbox && end.outbox[id].status == Failed
    ensures Key(id, Failed) in end.logs
    ensures end.logs[Key(id, Failed)] == FailedLog(id, end.outbox[id].identity, end.outbox[id].lastError)
    ensures Key(id, Finalized) !in end.logs
  {
    EmptyIsSound(true);
    OutboxSafety(true, EMPTY, ops, end);
    assert RowOk(true, end, id);
  }

  // ---- A session that is not rolled back

  /** The session after a failure was refused: the row says failed and nothing else was written. */
  function Pending(db: Db, id: string, code: string): Session
    requires id in db.outbox
  {
    Session(db, db.(outbox := db.outbox[id := db.outbox[id].(status := Failed, lastError := code)]))
  }

  lemma FailLeavesPending(h: bool, db: Db, intent: Intent, error: string, cause: string, c: Commit, c2: Commit)
    requires Inv(h, db) && FailDirties(db, intent, error)
    ensures var s := Pending(db, intent.id, Strip(ErrorCode(error)));
            && Fail(Clean(db), intent, error, cause, c, c2) == (s, Conflict)
            && s.working.outbox[intent.id] != s.committed.outbox[intent.id]
  {
    if db.outbox[intent.id].status == Failed {
      FailAgain(h, db, intent, error, cause, c, c2);
    } else {
      FailOpen(h, db, intent, error, cause, c, c2);
    }
  }

  /** The result is a row that the database does not hold. */
  predicate Misleads(s: Session, r: Result) {
    r.Done? && !(r.id in s.committed.outbox && s.committed.outbox[r.id] == r.row)
  }

  /** Reporting a failure again on the same session, without rolling it back, whatever became of the first call. */
  function FailTwice(db: Db, intent: Intent, error: string, cause: string, c: Commit, c2: Commit, c3: Commit,
                     c4: Commit)
    : (Session, Result)
  {
    Fail(Fail(Clean(db), intent, error, cause, c, c2).0, intent, error, cause, c3, c4)
  }

  /** Repeating a refused report returns a row nobody committed. */
  lemma PendingRowReturned(h: bool, db: Db, intent: Intent, error: string, cause: string,
                           c: Commit, c2: Commit, c3: Commit, c4: Commit)
    requires Inv(h, db) && FailDirties(db, intent, error)
    ensures var s := Pending(db, intent.id, Strip(ErrorCode(error)));
            && FailTwice(db, intent, error, cause, c, c2, c3, c4) == (s, Done(intent.id, s.working.outbox[intent.id]))
            && Misleads(s, Done(intent.id, s.working.outbox[intent.id]))
  {
    FailLeavesPending(h, db, intent, error, cause, c, c2);
    assert IsFailed(Pending(db, intent.id, Strip(ErrorCode(error))).working, intent.id, Strip(ErrorCode(error)));
  }

  /** What holds of honest reports holds without the honesty. */
  lemma InvWeakens(h: bool, db: Db)
    requires Inv(h, db)
    ensures Inv(false, db)
  {
    forall id | id in db.outbox
      ensures RowOk(false, db, id)
    {
      assert RowOk(h, db, id);
    }
  }

  lemma CleanRowReturned(h: bool, db: Db, intent: Intent, error: string, cause: string,
                         c: Commit, c2: Commit, c3: Commit, c4: Commit)
    requires Inv(h, db) && !FailDirties(db, intent, error)
    ensures var (s, r) := FailTwice(db, intent, error, cause, c, c2, c3, c4); !Misleads(s, r)
  {
    InvWeakens(h, db);
    FailKeeps(false, db, intent, error, cause, c, c2);
    var next := Fail(Clean(db), intent, error, cause, c, c2).0.committed;
    FailKeeps(false, next, intent, error, cause, c3, c4);
  }

  /**
   * Over all databases and commit outcomes, the repeated report misleads if and only if the first one was refused
   * late.
   */
  lemma RepeatMisleadsIff(h: bool, db: Db, intent: Intent, error: string, cause: string,
                          c: Commit, c2: Commit, c3: Commit, c4: Commit)
    requires Inv(h, db)
    ensures var (s, r) := FailTwice(db, intent, error, cause, c, c2, c3, c4);
            Misleads(s, r) <==> FailDirties(db, intent, error)
  {
    if FailDirties(db, intent, error) {
      PendingRowReturned(h, db, intent, error, cause, c, c2, c3, c4);
    } else {
      CleanRowReturned(h, db, intent, error, cause, c, c2, c3, c4);
    }
  }

  lemma PreparePublishes(s: Session, eventId: string, given: Identity, detail: Object)
    requires PrepareAccepts(eventId, given, Some(detail)) && Strip(eventId) !in s.working.outbox
    requires Key(Strip(eventId), Prepared) !in s.working.logs
    ensures Prepare(s, eventId, given, Some(detail), Applied).0
            == Clean(WithIntent(s.working, Strip(eventId), NormalIdentity(given.(request := detail))))
  {
    var id, who := Strip(eventId), NormalIdentity(given.(request := detail));
    StripIsTrimmed(eventId);
    NormalIsStored(given.(request := detail));
    KeyAccepted(id, Prepared);
    PreparedAccepted(id, who);
  }

  /** And preparing any other intent on that session makes the row durable against its records. */
  lemma PendingRowPublished(h: bool, db: Db, intent: Intent, error: string, cause: string, c: Commit, c2: Commit,
                            eventId: string, given: Identity, detail: Object)
    requires Inv(h, db) && FailDirties(db, intent, error)
    requires PrepareAccepts(eventId, given, Some(detail)) && Strip(eventId) !in db.outbox
    ensures var s := Fail(Clean(db), intent, error, cause, c, c2).0;
            !Inv(h, Prepare(s, eventId, given, Some(detail), Applied).0.committed)
  {
    var id, code := intent.id, Strip(ErrorCode(error));
    var s, other, who := Pending(db, id, code), Strip(eventId), NormalIdentity(given.(request := detail));
    FailLeavesPending(h, db, intent, error, cause, c, c2);
    assert Key(other, Prepared) !in db.logs;
    PreparePublishes(s, eventId, given, detail);
    PublishedMismatch(h, db, id, code, other, who, WithIntent(s.working, other, who));
  }

  lemma PublishedMismatch(h: bool, db: Db, id: string, code: string, other: string, who: Identity, next: Db)
    requires Inv(h, db) && id in db.outbox && other !in db.outbox
    requires db.outbox[id].status == Failed ==> db.outbox[id].lastError != code
    requires next.logs == db.logs[Key(other, Prepared) := PreparedLog(other, who)]
    requires id in next.outbox && next.outbox[id] == db.outbox[id].(status := Failed, lastError := code)
    ensures !Inv(h, next)
  {
    assert RowOk(h, db, id);
    OtherKeys(other, Prepared, id);
    if db.outbox[id].status == Failed {
      assert next.logs[Key(id, Failed)] == db.logs[Key(id, Failed)];
      FailedMismatch(h, next, id, db.outbox[id].lastError);
    }
  }

  lemma FailedMismatch(h: bool, db: Db, id: string, recorded: string)
    requires id in db.outbox && db.outbox[id].status == Failed && db.outbox[id].lastError != recorded
    requires Key(id, Failed) in db.logs && db.logs[Key(id, Failed)].detail == FailDetail(id, recorded)
    ensures !RowOk(h, db, id)
  {
    var error := db.outbox[id].lastError;
    assert FailDetail(id, recorded)["error_code"] == Str(recorded) && FailDetail(id, error)["error_code"] == Str(error);
  }
}

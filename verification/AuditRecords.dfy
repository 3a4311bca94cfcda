/** What the durable records of the audit outbox say, in their own words. */
module AuditRecords {
  import opened PyValue
  import opened Text
  import opened AuditOutbox

  /** The record names the actor, the action, the object and the address. */
  ghost predicate Names(l: Log, admin: string, action: string, targetType: string, target: string, ip: string) {
    l.admin == admin && l.action == action && l.targetType == targetType && l.targetId == target && l.ip == ip
  }

  /** The detail carries the event, its phase, and exactly these other fields. */
  ghost predicate Details(l: Log, id: string, phase: string, fields: Object) {
    && l.detail.Keys == fields.Keys + {"audit_event_id", "audit_phase"}
    && l.detail["audit_event_id"] == Str(id) && l.detail["audit_phase"] == Str(phase)
    && (forall f | f in fields && f != "audit_event_id" && f != "audit_phase" :: l.detail[f] == fields[f])
  }

  ghost predicate PreparedSays(db: Db, id: string, who: Identity) {
    && id + ":prepared" in db.logs
    && Names(db.logs[id + ":prepared"], who.admin, who.action + ".prepared", who.targetType, who.targetId, who.ip)
    && Details(db.logs[id + ":prepared"], id, "prepared", map["request" := Dict(who.request)])
  }

  ghost predicate FinalizedSays(db: Db, id: string, who: Identity, target: string, result: Object) {
    && id + ":finalized" in db.logs
    && Names(db.logs[id + ":finalized"], who.admin, who.action, who.targetType, target, who.ip)
    && Details(db.logs[id + ":finalized"], id, "finalized", result)
  }

  ghost predicate FailedSays(db: Db, id: string, who: Identity, error: string) {
    && id + ":failed" in db.logs
    && Names(db.logs[id + ":failed"], who.admin, who.action + ".failed", who.targetType, who.targetId, who.ip)
    && Details(db.logs[id + ":failed"], id, "failed", map["error_code" := Str(error)])
  }

  lemma DetailsOfStamp(fields: Object, id: string, phase: string, l: Log)
    requires l.detail == Stamp(fields, id, phase)
    ensures Details(l, id, phase, fields)
  {
  }

  lemma PreparedWords(id: string, who: Identity)
    ensures var l := PreparedLog(id, who);
            && Names(l, who.admin, who.action + ".prepared", who.targetType, who.targetId, who.ip)
            && Details(l, id, "prepared", map["request" := Dict(who.request)])
  {
  }

  lemma FinalWords(id: string, who: Identity, target: string, result: Object)
    ensures var l := FinalLog(id, who, target, result);
            Names(l, who.admin, who.action, who.targetType, target, who.ip) && Details(l, id, "finalized", result)
  {
  }

  lemma FailedWords(id: string, who: Identity, error: string)
    ensures var l := FailedLog(id, who, error);
            && Names(l, who.admin, who.action + ".failed", who.targetType, who.targetId, who.ip)
            && Details(l, id, "failed", map["error_code" := Str(error)])
  {
  }

  /** An intent and its records: what was asked, and what became of it. */
  ghost predicate RecordsSay(db: Db, id: string)
    requires id in db.outbox
  {
    var row := db.outbox[id];
    && PreparedSays(db, id, row.identity)
    && (if row.status == Finalized then FinalizedSays(db, id, row.identity, row.resultTarget, row.resultDetail)
        else id + ":finalized" !in db.logs)
    && (if row.status == Failed then FailedSays(db, id, row.identity, row.lastError) else id + ":failed" !in db.logs)
  }

  /** In a sound database with honestly reported failures, every intent's records say what its row says. */
  lemma SoundRecordsSay(db: Db, id: string)
    requires Inv(true, db) && id in db.outbox
    ensures RecordsSay(db, id)
  {
    var row := db.outbox[id];
    assert RowOk(true, db, id);
    PreparedWords(id, row.identity);
    FinalWords(id, row.identity, row.resultTarget, row.resultDetail);
    FailedWords(id, row.identity, row.lastError);
  }

  /** So after every run from an empty database. */
  lemma RunRecordsSay(ops: seq<Op>, end: Db, id: string)
    requires Run(true, EMPTY, ops, end) && id in end.outbox
    ensures RecordsSay(end, id)
  {
    EmptyIsSound(true);
    OutboxSafety(true, EMPTY, ops, end);
    SoundRecordsSay(end, id);
  }

  // ---- After each operation

  /** A prepared intent is on record with the trimmed texts of the caller, and a new one is open and without result. */
  lemma PrepareRecords(h: bool, db: Db, eventId: string, given: Identity, detail: Option<Object>, c: Commit)
    requires Inv(h, db)
    ensures var (s, r) := Prepare(Clean(db), eventId, given, detail, c);
            r.Done? ==>
              && r.id == Strip(eventId) && detail.Some?
              && PreparedSays(s.committed, r.id,
                              Identity(Strip(given.admin), Strip(given.action), Strip(given.targetType),
                                       Strip(given.targetId), detail.value, Strip(given.ip)))
              && (r.id !in db.outbox ==>
                    && r.row.status == Prepared && r.row.lastError == ""
                    && r.row.resultTarget == "" && r.row.resultDetail == map[])
  {
    PrepareKeeps(h, db, eventId, given, detail, c);
    if PrepareAccepts(eventId, given, detail) && Strip(eventId) !in db.outbox {
      PrepareNew(h, db, eventId, given, detail, c);
    }
    var (s, r) := Prepare(Clean(db), eventId, given, detail, c);
    if r.Done? {
      assert RowOk(h, s.committed, r.id);
      PreparedWords(r.id, r.row.identity);
    }
  }

  /** A finalized intent is on record with its own action, the trimmed target and every field of the result. */
  lemma FinalizeRecords(h: bool, db: Db, intent: Intent, target: string, detail: Option<Object>, error: string,
                        c: Commit, c2: Commit)
    requires Inv(h, db)
    ensures var (s, r) := Finalize(Clean(db), intent, target, detail, error, c, c2);
            r.Done? ==>
              && r.id == intent.id && detail.Some? && r.row.status == Finalized
              && FinalizedSays(s.committed, intent.id, intent.identity, Strip(target), detail.value)
  {
    FinalizeKeeps(h, db, intent, target, detail, error, c, c2);
    if detail.Some? {
      FinalWords(intent.id, intent.identity, Strip(target), detail.value);
    }
  }

  /** A failed intent, reported for itself, is on record as failed with the error. */
  lemma FailRecords(db: Db, intent: Intent, error: string, cause: string, c: Commit, c2: Commit)
    requires Inv(true, db) && (intent.id in db.outbox ==> db.outbox[intent.id].identity == intent.identity)
    ensures var (s, r) := Fail(Clean(db), intent, error, cause, c, c2);
            r.Done? ==>
              && r.id == intent.id && r.row.status == Failed
              && FailedSays(s.committed, intent.id, intent.identity,
                            Strip(if error == "" then "external_operation_failed" else error))
  {
    FailKeeps(true, db, intent, error, cause, c, c2);
    var (s, r) := Fail(Clean(db), intent, error, cause, c, c2);
    if r.Done? {
      assert RowEvolves(db.outbox[intent.id], s.committed.outbox[intent.id]);
      SoundRecordsSay(s.committed, intent.id);
    }
  }

  // ---- When each operation succeeds

  /** A new intent is prepared if and only if its texts are accepted and the commit took effect. */
  lemma PrepareDoneIff(h: bool, db: Db, eventId: string, given: Identity, detail: Option<Object>, c: Commit)
    requires Inv(h, db) && Strip(eventId) !in db.outbox
    ensures Prepare(Clean(db), eventId, given, detail, c).1.Done?
       <==> PrepareAccepts(eventId, given, detail) && c != LostBefore
  {
    if PrepareAccepts(eventId, given, detail) {
      PrepareNew(h, db, eventId, given, detail, c);
    }
  }

  /**
   * An open intent is finalized if and only if the caller names it truly, the texts are accepted and the commit took
   * effect.
   */
  lemma FinalizeDoneIff(h: bool, db: Db, intent: Intent, target: string, detail: Option<Object>, error: string,
                        c: Commit, c2: Commit)
    requires Inv(h, db) && intent.id in db.outbox && !db.outbox[intent.id].Terminal()
    ensures Finalize(Clean(db), intent, target, detail, error, c, c2).1.Done?
       <==> FinalizeAccepts(db, intent, target, detail) && c != LostBefore
  {
    if FinalizeAccepts(db, intent, target, detail) {
      FinalizeOpen(h, db, intent, target, detail.value, error, c, c2);
    }
  }

  /** An open intent is failed if and only if error and texts are accepted and the commit took effect. */
  lemma FailDoneIff(h: bool, db: Db, intent: Intent, error: string, cause: string, c: Commit, c2: Commit)
    requires Inv(h, db) && intent.id in db.outbox && !db.outbox[intent.id].Terminal()
    ensures Fail(Clean(db), intent, error, cause, c, c2).1.Done?
       <==> Fits(ErrorCode(error), 128, true) && !FailRefused(intent, Strip(ErrorCode(error))) && c != LostBefore
  {
    if Fits(ErrorCode(error), 128, true) {
      FailOpen(h, db, intent, error, cause, c, c2);
    }
  }

  // ---- What is left when a resolution was not confirmed

  /** After a failed commit the intent stays open; if the second commit takes effect it is ambiguous with the cause. */
  lemma UnconfirmedIsMarked(h: bool, db: Db, intent: Intent, target: string, detail: Object, error: string, c2: Commit)
    requires Inv(h, db) && Unresolved(db, intent.id) && FinalizeAccepts(db, intent, target, Some(detail))
    ensures var (s, r) := Finalize(Clean(db), intent, target, Some(detail), error, LostBefore, c2);
            && r == FinalizationError && s.working == s.committed && s.committed.logs == db.logs
            && (c2 == LostBefore ==> s.committed == db)
            && (c2 != LostBefore ==> Marked(db, s.committed, intent.id, error))
  {
    FinalizeOpen(h, db, intent, target, detail, error, LostBefore, c2);
  }

  lemma FailureUnconfirmedIsMarked(h: bool, db: Db, intent: Intent, error: string, cause: string, c2: Commit)
    requires Inv(h, db) && Unresolved(db, intent.id) && Fits(ErrorCode(error), 128, true)
    requires !FailRefused(intent, Strip(ErrorCode(error)))
    ensures var (s, r) := Fail(Clean(db), intent, error, cause, LostBefore, c2);
            && r == FinalizationError && s.working == s.committed && s.committed.logs == db.logs
            && (c2 == LostBefore ==> s.committed == db)
            && (c2 != LostBefore ==> Marked(db, s.committed, intent.id, cause))
  {
    FailOpen(h, db, intent, error, cause, LostBefore, c2);
  }

  /** Only the row changed: it is ambiguous, with the name of the error cut to 128 characters. */
  ghost predicate Marked(db: Db, next: Db, id: string, error: string) {
    && next.outbox.Keys == db.outbox.Keys && id in db.outbox
    && (forall other | other in db.outbox && other != id :: next.outbox[other] == db.outbox[other])
    && next.outbox[id].status == Ambiguous && next.outbox[id].identity == db.outbox[id].identity
    && (error != "" && |error| <= 128 ==> next.outbox[id].lastError == error)
    && (error == "" ==> next.outbox[id].lastError == "audit_finalize_failed")
    && (|error| > 128 ==> next.outbox[id].lastError == error[..128])
  }

  /** The start-up pass turns exactly the prepared intents ambiguous, and says why. */
  lemma RestartMarks(h: bool, db: Db, ids: seq<string>, c: Commit)
    requires Inv(h, db) && PreparedIds(db, ids)
    ensures var (s, r) := Reconcile(Clean(db), ids, c);
            && (c == LostBefore && ids != [] ==> r == CommitRaised && s.committed == db)
            && (c != LostBefore ==>
                  && r == Counted(|ids|) && s.committed.logs == db.logs && s.committed.outbox.Keys == db.outbox.Keys
                  && forall id | id in db.outbox ::
                       if db.outbox[id].status == Prepared then
                         && s.committed.outbox[id].status == Ambiguous
                         && s.committed.outbox[id].lastError == "process_restart_before_audit_finalization"
                         && s.committed.outbox[id].identity == db.outbox[id].identity
                       else s.committed.outbox[id] == db.outbox[id])
  {
    PromoteKeeps(h, db, ids);
    ReconcileIs(db, ids, c);
    PromoteLogs(db, ids);
  }

  lemma {:induction false} PromoteLogs(db: Db, ids: seq<string>)
    requires forall id | id in ids :: id in db.outbox
    ensures Promote(db, ids).0.logs == db.logs
    decreases |ids|
  {
    if ids != [] && HasPrepared(db, ids[0], db.outbox[ids[0]].identity) {
      PromoteLogs(db.(outbox := db.outbox[ids[0] := Restarted(db.outbox[ids[0]])]), ids[1..]);
    }
  }

  // ---- Staging one record

  /** The record says what was asked, with its texts trimmed. */
  ghost predicate Says(stored: Log, asked: Log) {
    && stored.admin == Strip(asked.admin) && stored.action == Strip(asked.action) && stored.detail == asked.detail
    && stored.targetType == Strip(asked.targetType) && stored.targetId == Strip(asked.targetId)
    && stored.ip == Strip(asked.ip)
  }

  /** A staged record is added under its id; staged again it is accepted if and only if it says the same. */
  lemma StagedTwice(db: Db, eventId: string, asked: Log, again: Log)
    requires Stage(db, eventId, asked).Some? && ValidLog(again)
    ensures var next := Stage(db, eventId, asked).value;
            && next.outbox == db.outbox && next.logs.Keys == db.logs.Keys + {Strip(eventId)}
            && (forall key | key in db.logs :: next.logs[key] == db.logs[key])
            && Says(next.logs[Strip(eventId)], asked)
            && Stage(next, eventId, again) == if Says(next.logs[Strip(eventId)], again) then Some(next) else None
  {
  }
}

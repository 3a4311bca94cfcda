/** Rows of one private request: its journal, its answer, and the recoverable completion. */
module PrivateJournal {
  import opened PyValue

  datatype Key = Key(platform: string, session: string, message: string)

  /** The business input of a claimed request. Its fingerprint is taken to be injective, so it stands for itself. */
  datatype Request = Request(key: Key, input: string)

  datatype Completion = Completion(respond: bool, reply: string, pending: nat)

  datatype Marker = Marker(key: Key, request: Request, completion: Completion)

  /** A user row. `request` is the stored fingerprint, `journal` whether its kind is that of a request journal. */
  datatype UserRow = UserRow(request: Option<Request>, journal: bool, content: string, recovery: Option<Marker>)

  /** The rows found under one session id and message id; the platform is not part of the lookup. */
  datatype Slot = Slot(session: string, message: string)

  datatype Thread = Thread(users: seq<UserRow>, assistants: seq<string>)

  type Logs = map<Slot, Thread>

  function SlotOf(k: Key): Slot {
    Slot(k.session, k.message)
  }

  function ThreadAt(logs: Logs, slot: Slot): Thread {
    if slot in logs then logs[slot] else Thread([], [])
  }

  datatype Error = Corrupt | Mismatch | Invalid | CommitFailed

  datatype Outcome<T> = Ok(value: T) | Err(error: Error)

  // ---- Reading

  /** The unique journal of the request, if there is one. */
  function LoadJournal(t: Thread, req: Request): Outcome<Option<UserRow>> {
    if t.users == [] then Ok(None)
    else if |t.users| != 1 || t.users[0].request.None? then Err(Corrupt)
    else if t.users[0].request.value != req then Err(Mismatch)
    else if !t.users[0].journal then Err(Corrupt)
    else Ok(Some(t.users[0]))
  }

  function DecodeMarker(m: Marker, req: Request): Outcome<Completion> {
    if m.key != req.key || m.request != req then Err(Corrupt) else Ok(m.completion)
  }

  /** The completion to reuse, if one was stored; a reply must agree with the stored answer. */
  function LoadRecoverable(t: Thread, req: Request): Outcome<Option<Completion>> {
    match LoadJournal(t, req)
    case Err(e) => Err(e)
    case Ok(None) => Ok(None)
    case Ok(Some(row)) =>
      if row.recovery.None? then Ok(None)
      else
        match DecodeMarker(row.recovery.value, req)
        case Err(e) => Err(e)
        case Ok(c) =>
          if c.respond && t.assistants != [c.reply] then Err(Corrupt) else Ok(Some(c))
  }

  // ---- Writing

  function EnsureJournal(t: Thread, req: Request, content: string): Outcome<Thread> {
    match LoadJournal(t, req)
    case Err(e) => Err(e)
    case Ok(None) => Ok(t.(users := t.users + [UserRow(Some(req), true, content, None)]))
    case Ok(Some(row)) => Ok(t.(users := [row.(content := if row.content == "" then content else row.content)]))
  }

  /** One claimed turn: its texts as they are archived, and the completion to recover. */
  datatype Turn = Turn(display: string, answer: string, completion: Completion)

  /** The turn's rows and its completion, which counts the logs pending at that moment. */
  function PersistTurn(sanitize: string -> string, t: Thread, req: Request, turn: Turn, pending: nat): Outcome<Thread> {
    if turn.completion.respond && turn.completion.reply != turn.answer then Err(Invalid)
    else
      match LoadJournal(t, req)
      case Err(e) => Err(e)
      case Ok(None) => Err(Corrupt)
      case Ok(Some(row)) =>
        var marker := Marker(req.key, req, turn.completion.(pending := pending));
        Ok(Thread([row.(content := turn.display, recovery := Some(marker))], t.assistants + [sanitize(turn.answer)]))
  }

  /** A completion without a reply; the one already stored must be the same. */
  function PersistCompletion(t: Thread, req: Request, c: Completion, content: Option<string>): Outcome<Thread> {
    if c.respond then Err(Invalid)
    else
      match LoadJournal(t, req)
      case Err(e) => Err(e)
      case Ok(None) => Err(Corrupt)
      case Ok(Some(row)) =>
        if row.recovery.Some? then
          match DecodeMarker(row.recovery.value, req)
          case Err(e) => Err(e)
          case Ok(stored) => if stored == c then Ok(t) else Err(Corrupt)
        else
          var text := if content.Some? then content.value else row.content;
          Ok(t.(users := [row.(content := text, recovery := Some(Marker(req.key, req, c)))]))
  }

  // ---- The repository: pending changes, commits that may find the database locked, and the retry around them

  /** A commit that fails was not applied. */
  datatype Commit = Committed | Locked | Broken

  const ATTEMPTS: nat := 4

  /** Some attempt commits, after attempts that found the database locked. */
  ghost predicate Lands(commit: nat -> Commit) {
    exists k: nat :: k < ATTEMPTS && LandsAt(commit, k)
  }

  ghost predicate LandsAt(commit: nat -> Commit, k: nat) {
    commit(k) == Committed && forall j: nat | j < k :: commit(j) == Locked
  }

  class ChatRepository {
    var committed: Logs
    var working: Logs

    constructor (logs: Logs)
      ensures committed == logs && working == logs
    {
      committed, working := logs, logs;
    }

    ghost predicate Clean()
      reads this
    {
      working == committed
    }

    method Rollback()
      modifies this`working
      ensures Clean()
    {
      working := committed;
    }

    method TryCommit(c: Commit) returns (ok: bool)
      modifies this`committed
      ensures ok == (c == Committed) && committed == if ok then working else old(committed)
    {
      if c == Committed {
        committed := working;
      }
      return c == Committed;
    }

    method PutThread(slot: Slot, t: Thread)
      modifies this`working
      ensures working == old(working)[slot := t]
    {
      working := working[slot := t];
    }

    /** The slot holds `want` and nothing else changed, or nothing did; retries leave no trace of their own. */
    ghost predicate Settled(before: Logs, slot: Slot, want: Outcome<Thread>, commit: nat -> Commit,
                            failure: Option<Error>)
      reads this
    {
      && Clean()
      && match want
         case Err(e) => committed == before && failure == Some(e)
         case Ok(t) =>
           if Lands(commit) then failure == None && committed == before[slot := t]
           else failure == Some(CommitFailed) && committed == before
    }

    /** One execution of the turn's transaction, up to its commit. */
    method WriteTurn(sanitize: string -> string, req: Request, turn: Turn, pending: nat)
      returns (failure: Option<Error>)
      modifies this`working
      ensures var slot := SlotOf(req.key);
              var t := ThreadAt(old(working), slot);
              var want := PersistTurn(sanitize, t, req, turn, pending);
              if want.Err? && want.error != Invalid then failure == Some(want.error)
              else want.Ok? ==> failure == None && working == old(working)[slot := want.value]
    {
      var slot := SlotOf(req.key);
      var t := ThreadAt(working, slot);
      match LoadJournal(t, req)
      case Err(e) => return Some(e);
      case Ok(None) => return Some(Corrupt);
      case Ok(Some(row)) =>
        var journal := row.(content := turn.display);
        PutThread(slot, t.(users := [journal]));
        PutThread(slot, Thread([journal], t.assistants + [sanitize(turn.answer)]));
        var final := turn.completion.(pending := pending);
        journal := journal.(recovery := Some(Marker(req.key, req, final)));
        PutThread(slot, Thread([journal], t.assistants + [sanitize(turn.answer)]));
        return None;
    }

    method PersistClaimedTurn(sanitize: string -> string, req: Request, turn: Turn, pending: nat, commit: nat -> Commit)
      returns (failure: Option<Error>)
      requires Clean()
      modifies this
      ensures Settled(old(committed), SlotOf(req.key),
                      PersistTurn(sanitize, ThreadAt(old(committed), SlotOf(req.key)), req, turn, pending),
                      commit, failure)
    {
      if turn.completion.respond && turn.completion.reply != turn.answer {
        return Some(Invalid);
      }
      ghost var want := PersistTurn(sanitize, ThreadAt(committed, SlotOf(req.key)), req, turn, pending);
      for attempt := 0 to ATTEMPTS
        invariant attempt > 0 ==> want.Ok?
        invariant Clean() && committed == old(committed)
        invariant forall j: nat | j < attempt :: commit(j) == Locked
      {
        failure := WriteTurn(sanitize, req, turn, pending);
        if failure.Some? {
          Rollback();
          return;
        }
        var ok := TryCommit(commit(attempt));
        if ok {
          assert LandsAt(commit, attempt);
          return None;
        }
        Rollback();
        if commit(attempt) != Locked {
          return Some(CommitFailed);
        }
      }
      return Some(CommitFailed);
    }

    method EnsureRequestJournal(req: Request, content: string, commit: nat -> Commit) returns (failure: Option<Error>)
      requires Clean()
      modifies this
      ensures Settled(old(committed), SlotOf(req.key),
                      EnsureJournal(ThreadAt(old(committed), SlotOf(req.key)), req, content), commit, failure)
    {
      var slot := SlotOf(req.key);
      ghost var want := EnsureJournal(ThreadAt(committed, slot), req, content);
      for attempt := 0 to ATTEMPTS
        invariant attempt > 0 ==> want.Ok?
        invariant Clean() && committed == old(committed)
        invariant forall j: nat | j < attempt :: commit(j) == Locked
      {
        var t := ThreadAt(working, slot);
        match LoadJournal(t, req) {
          case Err(e) => return Some(e);
          case Ok(Some(row)) =>
            PutThread(slot, t.(users := [row.(content := if row.content == "" then content else row.content)]));
          case Ok(None) =>
            PutThread(slot, t.(users := t.users + [UserRow(Some(req), true, content, None)]));
        }
        var ok := TryCommit(commit(attempt));
        if ok {
          assert LandsAt(commit, attempt);
          return None;
        }
        Rollback();
        if commit(attempt) != Locked {
          return Some(CommitFailed);
        }
      }
      return Some(CommitFailed);
    }

    method PersistClaimCompletion(req: Request, c: Completion, content: Option<string>, commit: nat -> Commit)
      returns (failure: Option<Error>)
      requires Clean()
      modifies this
      ensures Settled(old(committed), SlotOf(req.key),
                      PersistCompletion(ThreadAt(old(committed), SlotOf(req.key)), req, c, content), commit, failure)
    {
      var slot := SlotOf(req.key);
      if c.respond {
        return Some(Invalid);
      }
      ghost var want := PersistCompletion(ThreadAt(committed, slot), req, c, content);
      for attempt := 0 to ATTEMPTS
        invariant attempt > 0 ==> want.Ok?
        invariant Clean() && committed == old(committed)
        invariant forall j: nat | j < attempt :: commit(j) == Locked
      {
        var t := ThreadAt(working, slot);
        match LoadJournal(t, req) {
          case Err(e) => return Some(e);
          case Ok(None) => return Some(Corrupt);
          case Ok(Some(row)) =>
            if row.recovery.Some? {
              match DecodeMarker(row.recovery.value, req) {
                case Err(e) => return Some(e);
                case Ok(stored) =>
                  if stored != c {
                    return Some(Corrupt);
                  }
              }
            } else {
              var text := if content.Some? then content.value else row.content;
              PutThread(slot, t.(users := [row.(content := text, recovery := Some(Marker(req.key, req, c)))]));
            }
        }
        var ok := TryCommit(commit(attempt));
        if ok {
          assert LandsAt(commit, attempt);
          return None;
        }
        Rollback();
        if commit(attempt) != Locked {
          return Some(CommitFailed);
        }
      }
      return Some(CommitFailed);
    }
  }

  /** A commit goes through if one of four tries commits and every try before it found the database locked. */
  lemma LandsIff(commit: nat -> Commit)
    ensures Lands(commit) <==>
              || commit(0) == Committed
              || (commit(0) == Locked
                  && (|| commit(1) == Committed
                      || (commit(1) == Locked
                          && (commit(2) == Committed || (commit(2) == Locked && commit(3) == Committed)))))
  {
    if commit(0) == Committed {
      assert LandsAt(commit, 0);
    } else if commit(0) == Locked && commit(1) == Committed {
      assert LandsAt(commit, 1);
    } else if commit(0) == Locked && commit(1) == Locked && commit(2) == Committed {
      assert LandsAt(commit, 2);
    } else if commit(0) == Locked && commit(1) == Locked && commit(2) == Locked && commit(3) == Committed {
      assert LandsAt(commit, 3);
    }
    if Lands(commit) {
      var k: nat :| k < ATTEMPTS && LandsAt(commit, k);
      assert k == 0 || k == 1 || k == 2 || k == 3;
    }
  }

  /** A journal of another request is a mismatch for whoever reads or writes the slot, and two journals are corrupt. */
  lemma OtherJournalRefused(sanitize: string -> string, t: Thread, req: Request, content: string, turn: Turn,
                            pending: nat, early: Completion, error: Error)
    requires turn.completion.respond ==> turn.completion.reply == turn.answer
    requires !early.respond
    requires if |t.users| == 1 then error == Mismatch && t.users[0].request.Some? && t.users[0].request.value != req
             else error == Corrupt && |t.users| > 1
    ensures LoadRecoverable(t, req) == Err(error) && EnsureJournal(t, req, content) == Err(error)
    ensures PersistTurn(sanitize, t, req, turn, pending) == Err(error)
    ensures PersistCompletion(t, req, early, Some(content)) == PersistCompletion(t, req, early, None) == Err(error)
  {
  }
}

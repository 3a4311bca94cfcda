/** The private-message buffer: one owner per user collects the messages of its followers until a moving deadline. */
module PrivateBuffer {
  import opened PyValue
  import opened Text

  datatype Config = Config(maxMessages: int, window: real, windowWithFiles: real)

  // ---- Joining messages and files

  const SEPARATOR := "\n---\n"

  function NonEmpty(messages: seq<string>): seq<string> {
    if messages == [] then []
    else (if messages[0] == "" then [] else [messages[0]]) + NonEmpty(messages[1..])
  }

  function Joined(parts: seq<string>): string {
    if parts == [] then ""
    else if |parts| == 1 then parts[0]
    else parts[0] + SEPARATOR + Joined(parts[1..])
  }

  function JoinMessages(messages: seq<string>): string {
    Joined(NonEmpty(messages))
  }

  function Glue(a: string, b: string): string {
    if a == "" then b else if b == "" then a else a + SEPARATOR + b
  }

  lemma GlueAssociative(a: string, b: string, c: string)
    ensures Glue(Glue(a, b), c) == Glue(a, Glue(b, c))
  {
    if a != "" && b != "" && c != "" {
      assert (a + SEPARATOR + b) + SEPARATOR + c == a + SEPARATOR + (b + SEPARATOR + c);
    }
  }

  lemma {:induction false} JoinedNotEmpty(parts: seq<string>)
    requires parts != [] && forall p | p in parts :: p != ""
    ensures Joined(parts) != ""
  {
    assert parts[0] in parts;
  }

  lemma {:induction false} NonEmptyClean(messages: seq<string>)
    ensures forall p | p in NonEmpty(messages) :: p != ""
  {
    if messages != [] {
      NonEmptyClean(messages[1..]);
    }
  }

  lemma JoinCons(message: string, rest: seq<string>)
    ensures JoinMessages([message] + rest) == Glue(message, JoinMessages(rest))
  {
    assert ([message] + rest)[1..] == rest;
    var parts := NonEmpty(rest);
    if message == "" {
      assert [] + parts == parts;
    } else {
      assert NonEmpty([message] + rest) == [message] + parts;
      assert ([message] + parts)[1..] == parts;
      if parts != [] {
        NonEmptyClean(rest);
        JoinedNotEmpty(parts);
      }
    }
  }

  lemma {:induction false} JoinConcat(a: seq<string>, b: seq<string>)
    ensures JoinMessages(a + b) == Glue(JoinMessages(a), JoinMessages(b))
  {
    if a == [] {
      assert a + b == b;
    } else {
      assert a + b == [a[0]] + (a[1..] + b) && a == [a[0]] + a[1..];
      JoinCons(a[0], a[1..] + b);
      JoinCons(a[0], a[1..]);
      JoinConcat(a[1..], b);
      GlueAssociative(a[0], JoinMessages(a[1..]), JoinMessages(b));
    }
  }

  lemma JoinPair(x: string, y: string)
    ensures JoinMessages([x]) == x && JoinMessages([x, y]) == Glue(x, y)
  {
    assert [x] == [x] + [] && [x, y] == [x] + [y] && [y] == [y] + [];
    JoinCons(x, []);
    JoinCons(y, []);
    JoinCons(x, [y]);
  }

  /** Merging the last slot with a message joins like keeping both. */
  lemma MergedSlotJoins(front: seq<string>, last: string, message: string)
    ensures JoinMessages(front + [JoinMessages([last, message])]) == JoinMessages(front + [last] + [message])
  {
    JoinPair(last, message);
    JoinPair(Glue(last, message), "");
    JoinConcat(front, [Glue(last, message)]);
    assert front + [last] + [message] == front + [last, message];
    JoinConcat(front, [last, message]);
  }

  function MergeFiles(existing: seq<string>, incoming: seq<string>): seq<string>
    decreases |incoming|
  {
    if incoming == [] then existing
    else
      var file := incoming[0];
      MergeFiles(if file != "" && file !in existing then existing + [file] else existing, incoming[1..])
  }

  /** Merging adds exactly the non-empty new names, each once. */
  lemma {:induction false} MergeFilesUnion(existing: seq<string>, incoming: seq<string>)
    ensures existing <= MergeFiles(existing, incoming)
    ensures forall f :: f in MergeFiles(existing, incoming) <==> f in existing || (f != "" && f in incoming)
    ensures forall i, j | 0 <= i < j < |MergeFiles(existing, incoming)| && |existing| <= j ::
              MergeFiles(existing, incoming)[i] != MergeFiles(existing, incoming)[j]
    decreases |incoming|
  {
    if incoming != [] {
      var file := incoming[0];
      var grown := if file != "" && file !in existing then existing + [file] else existing;
      MergeFilesUnion(grown, incoming[1..]);
      assert incoming == [file] + incoming[1..];
      var all := MergeFiles(existing, incoming);
      if grown != existing {
        assert all[|existing|] == grown[|existing|] == file;
        assert forall i | 0 <= i < |existing| :: all[i] == existing[i];
      }
    }
  }

  method MergeBufferedFiles(existing: seq<string>, incoming: seq<string>) returns (merged: seq<string>)
    ensures merged == MergeFiles(existing, incoming)
  {
    merged := existing;
    for i := 0 to |incoming|
      invariant MergeFiles(merged, incoming[i..]) == MergeFiles(existing, incoming)
    {
      assert incoming[i..][1..] == incoming[i + 1..];
      if incoming[i] != "" && incoming[i] !in merged {
        merged := merged + [incoming[i]];
      }
    }
  }

  // ---- The store

  /** Events are numbered; `done` also identifies the buffer. */
  datatype Buffer = Buffer(queries: seq<string>, files: seq<string>, done: nat, deadline: real, changed: nat)

  datatype Store = Store(buffers: map<string, Buffer>, fired: set<nat>, nextEvent: nat)

  datatype Role = OwnerStarted(done: nat) | FollowerJoined(done: nat)

  function Window(files: seq<string>, cfg: Config): real {
    if files != [] then cfg.windowWithFiles else cfg.window
  }

  predicate Open(s: Store, user: string) {
    user in s.buffers && s.buffers[user].done !in s.fired
  }

  function Appended(b: Buffer, query: string, files: seq<string>, now: real, cfg: Config): Buffer
    requires b.queries != []
  {
    var queries :=
      if |b.queries| < cfg.maxMessages then b.queries + [query]
      else Front(b.queries) + [JoinMessages([Last(b.queries), query])];
    Buffer(queries, MergeFiles(b.files, files), b.done, now + Window(files, cfg), b.changed)
  }

  function Begun(s: Store, query: string, files: seq<string>, now: real, cfg: Config): Buffer {
    Buffer([query], files, s.nextEvent, now + Window(files, cfg), s.nextEvent + 1)
  }

  ghost predicate Slotted(s: Store) {
    forall u | u in s.buffers :: s.buffers[u].queries != []
  }

  function AfterMessage(s: Store, user: string, query: string, files: seq<string>, now: real, cfg: Config): Store
    requires Slotted(s)
  {
    if Open(s, user) then
      var b := s.buffers[user];
      s.(buffers := s.buffers[user := Appended(b, query, files, now, cfg)], fired := s.fired + {b.changed})
    else
      s.(buffers := s.buffers[user := Begun(s, query, files, now, cfg)], nextEvent := s.nextEvent + 2)
  }

  function AfterFinalize(s: Store, user: string, clear: bool): Store {
    if user !in s.buffers then s
    else
      var b := s.buffers[user];
      s.(fired := s.fired + {b.changed, b.done}, buffers := if clear then s.buffers - {user} else s.buffers)
  }

  datatype Wait = Gone | Due | Sleep(deadline: real, changed: nat)

  function Checked(s: Store, user: string, now: real): Wait {
    if !Open(s, user) then Gone
    else if s.buffers[user].deadline - now <= 0.0 then Due
    else Sleep(s.buffers[user].deadline, s.buffers[user].changed)
  }

  function AfterRenew(s: Store, user: string, changed: nat): Store {
    if user in s.buffers && s.buffers[user].changed == changed then
      s.(buffers := s.buffers[user := s.buffers[user].(changed := s.nextEvent)], nextEvent := s.nextEvent + 1)
    else s
  }

  class PrivateBufferStore {
    var buffers: map<string, Buffer>
    var fired: set<nat>
    var nextEvent: nat

    ghost function State(): Store
      reads this
    {
      Store(buffers, fired, nextEvent)
    }

    constructor ()
      ensures State() == Store(map[], {}, 0)
    {
      buffers, fired, nextEvent := map[], {}, 0;
    }

    method BeginOrAppend(user: string, query: string, files: seq<string>, now: real, cfg: Config) returns (role: Role)
      requires Slotted(State())
      modifies this
      ensures State() == AfterMessage(old(State()), user, query, files, now, cfg)
      ensures role == if old(Open(State(), user)) then FollowerJoined(old(buffers[user]).done)
                      else OwnerStarted(old(nextEvent))
    {
      if user !in buffers || buffers[user].done in fired {
        var done := nextEvent;
        buffers := buffers[user := Buffer([query], files, done, now + Window(files, cfg), done + 1)];
        nextEvent := done + 2;
        return OwnerStarted(done);
      }
      var b := buffers[user];
      var queries := b.queries;
      if |queries| < cfg.maxMessages {
        queries := queries + [query];
      } else {
        queries := Front(queries) + [JoinMessages([Last(queries), query])];
      }
      var merged := MergeBufferedFiles(b.files, files);
      buffers := buffers[user := Buffer(queries, merged, b.done, now + Window(files, cfg), b.changed)];
      fired := fired + {b.changed};
      return FollowerJoined(b.done);
    }

    method Finalize(user: string, clear: bool)
      modifies this
      ensures State() == AfterFinalize(old(State()), user, clear)
    {
      if user in buffers {
        fired := fired + {buffers[user].changed, buffers[user].done};
        if clear {
          buffers := buffers - {user};
        }
      }
    }

    /** The part of the waiting loop that runs under the lock before it sleeps. */
    method CheckDeadline(user: string, now: real) returns (wait: Wait)
      ensures wait == Checked(State(), user, now)
    {
      if user !in buffers || buffers[user].done in fired {
        return Gone;
      }
      var remaining := buffers[user].deadline - now;
      if remaining <= 0.0 {
        return Due;
      }
      return Sleep(buffers[user].deadline, buffers[user].changed);
    }

    /** The part that replaces the event it woke up from. */
    method RenewChanged(user: string, changed: nat)
      modifies this
      ensures State() == AfterRenew(old(State()), user, changed)
    {
      if user in buffers && buffers[user].changed == changed {
        buffers := buffers[user := buffers[user].(changed := nextEvent)];
        nextEvent := nextEvent + 1;
      }
    }

    method Snapshot(user: string) returns (r: Option<(seq<string>, seq<string>)>)
      ensures r == if user in buffers then Some((buffers[user].queries, buffers[user].files)) else None
    {
      if user !in buffers {
        return None;
      }
      return Some((buffers[user].queries, buffers[user].files));
    }
  }

  // ---- Runs: any number of users, messages, finalizations and waiters, interleaved at every lock release

  datatype Message = Message(query: string, files: seq<string>)

  datatype Phase = Checking | Sleeping(deadline: real, changed: nat) | Woken(changed: nat) | Returned(due: bool)

  datatype Waiter = Waiter(user: string, phase: Phase)

  /** `issued` are the done events handed out with the user they were handed to; `accepted` is what each buffer,
      named by its done event, was given; `limit` is the largest slot limit used so far. */
  datatype System = System(store: Store, waiters: map<nat, Waiter>, issued: set<(string, nat)>,
                           accepted: map<nat, seq<Message>>, limit: int)

  datatype Event =
    | Say(user: string, query: string, files: seq<string>, now: real, cfg: Config)
    | Finalize(user: string, clear: bool)
    | StartWaiting(id: nat, user: string)
    | Check(id: nat, now: real)
    | TimeUp(id: nat)
    | Wake(id: nat)
    | Renew(id: nat)

  const INITIAL := System(Store(map[], {}, 0), map[], {}, map[], 1)

  ghost predicate Enabled(s: System, e: Event) {
    match e
    case Say(_, _, _, _, _) => Slotted(s.store)
    case Finalize(_, _) => true
    case StartWaiting(id, _) => id !in s.waiters
    case Check(id, _) => id in s.waiters && s.waiters[id].phase.Checking?
    case TimeUp(id) => id in s.waiters && s.waiters[id].phase.Sleeping?
    case Wake(id) => id in s.waiters && s.waiters[id].phase.Sleeping? && s.waiters[id].phase.changed in s.store.fired
    case Renew(id) => id in s.waiters && s.waiters[id].phase.Woken?
  }

  ghost function Moved(s: System, id: nat, phase: Phase): System
    requires id in s.waiters
  {
    s.(waiters := s.waiters[id := s.waiters[id].(phase := phase)])
  }

  ghost function Heard(s: System, e: Event): System
    requires e.Say? && Slotted(s.store)
  {
    var open := Open(s.store, e.user);
    var done := if open then s.store.buffers[e.user].done else s.store.nextEvent;
    var before := if open && done in s.accepted then s.accepted[done] else [];
    System(AfterMessage(s.store, e.user, e.query, e.files, e.now, e.cfg), s.waiters, s.issued + {(e.user, done)},
           s.accepted[done := before + [Message(e.query, e.files)]],
           if e.cfg.maxMessages > s.limit then e.cfg.maxMessages else s.limit)
  }

  ghost function Next(s: System, e: Event): System
    requires Enabled(s, e)
  {
    match e
    case Say(_, _, _, _, _) => Heard(s, e)
    case Finalize(user, clear) => s.(store := AfterFinalize(s.store, user, clear))
    case StartWaiting(id, user) => s.(waiters := s.waiters[id := Waiter(user, Checking)])
    case Check(id, now) =>
      (match Checked(s.store, s.waiters[id].user, now)
       case Gone => Moved(s, id, Returned(false))
       case Due => Moved(s, id, Returned(true))
       case Sleep(deadline, changed) => Moved(s, id, Sleeping(deadline, changed)))
    case TimeUp(id) => Moved(s, id, Checking)
    case Wake(id) => Moved(s, id, Woken(s.waiters[id].phase.changed))
    case Renew(id) =>
      Moved(s.(store := AfterRenew(s.store, s.waiters[id].user, s.waiters[id].phase.changed)), id, Checking)
  }

  /** Events are allocated once and never shared. */
  ghost predicate EventsSeparate(s: Store) {
    && (forall n | n in s.fired :: n < s.nextEvent)
    && (forall u | u in s.buffers :: s.buffers[u].done < s.nextEvent && s.buffers[u].changed < s.nextEvent)
    && (forall u, v | u in s.buffers && v in s.buffers :: s.buffers[u].done != s.buffers[v].changed)
    && (forall u, v | u in s.buffers && v in s.buffers && u != v ::
          s.buffers[u].done != s.buffers[v].done && s.buffers[u].changed != s.buffers[v].changed)
  }

  /** A done event that was handed out is set or belongs to the user's buffer in the map. */
  ghost predicate NoOrphan(s: System) {
    forall p | p in s.issued :: p.1 in s.store.fired || (p.0 in s.store.buffers && s.store.buffers[p.0].done == p.1)
  }

  /** A sleeping waiter holds a set event, or has read the current deadline of an open buffer and holds the event
      that the next change will set. */
  ghost predicate Alert(s: Store, w: Waiter) {
    match w.phase
    case Sleeping(deadline, changed) =>
      changed in s.fired ||
      (Open(s, w.user) && s.buffers[w.user].changed == changed && s.buffers[w.user].deadline == deadline)
    case Woken(changed) => changed in s.fired
    case _ => true
  }

  ghost predicate NoSleeper(s: System) {
    forall id | id in s.waiters :: Alert(s.store, s.waiters[id])
  }

  function Queries(messages: seq<Message>): seq<string> {
    seq(|messages|, i requires 0 <= i < |messages| => messages[i].query)
  }

  /** Slots and files of a buffer stand for all the messages it accepted. */
  ghost predicate Represents(b: Buffer, messages: seq<Message>, limit: int) {
    && b.queries != [] && messages != []
    && JoinMessages(b.queries) == JoinMessages(Queries(messages))
    && (|b.queries| == 1 || |b.queries| <= limit)
    && forall f :: f in b.files <==>
         f in messages[0].files || (f != "" && exists i | 0 < i < |messages| :: f in messages[i].files)
  }

  ghost predicate Faithful(s: System) {
    forall u | u in s.store.buffers ::
      && s.store.buffers[u].done in s.accepted
      && Represents(s.store.buffers[u], s.accepted[s.store.buffers[u].done], s.limit)
  }

  ghost predicate Inv(s: System) {
    EventsSeparate(s.store) && NoOrphan(s) && NoSleeper(s) && Faithful(s)
  }

  // ---- Preservation, one operation at a time

  lemma MessageKeepsSeparate(s: Store, user: string, query: string, files: seq<string>, now: real, cfg: Config)
    requires EventsSeparate(s) && Slotted(s)
    ensures EventsSeparate(AfterMessage(s, user, query, files, now, cfg))
  {
    if Open(s, user) {
      SameEventsSeparate(s, user, Appended(s.buffers[user], query, files, now, cfg));
    } else {
      NewEventsSeparate(s, user, Begun(s, query, files, now, cfg));
    }
  }

  lemma SameEventsSeparate(s: Store, user: string, b: Buffer)
    requires EventsSeparate(s) && user in s.buffers
    requires b.done == s.buffers[user].done && b.changed == s.buffers[user].changed
    ensures EventsSeparate(s.(buffers := s.buffers[user := b], fired := s.fired + {s.buffers[user].changed}))
  {
  }

  lemma NewEventsSeparate(s: Store, user: string, b: Buffer)
    requires EventsSeparate(s) && b.done == s.nextEvent && b.changed == s.nextEvent + 1
    ensures EventsSeparate(s.(buffers := s.buffers[user := b], nextEvent := s.nextEvent + 2))
  {
  }

  lemma MessageKeepsAlert(s: Store, user: string, query: string, files: seq<string>, now: real, cfg: Config, w: Waiter)
    requires EventsSeparate(s) && Slotted(s) && Alert(s, w)
    ensures Alert(AfterMessage(s, user, query, files, now, cfg), w)
  {
  }

  lemma FinalizeKeepsAlert(s: Store, user: string, clear: bool, w: Waiter)
    requires EventsSeparate(s) && Alert(s, w)
    ensures Alert(AfterFinalize(s, user, clear), w)
  {
  }

  lemma RenewKeepsAlert(s: Store, user: string, changed: nat, w: Waiter)
    requires EventsSeparate(s) && changed in s.fired && Alert(s, w)
    ensures Alert(AfterRenew(s, user, changed), w)
  {
  }

  lemma AppendRepresents(b: Buffer, messages: seq<Message>, limit: int, query: string, files: seq<string>, now: real,
                         cfg: Config)
    requires Represents(b, messages, limit)
    ensures Represents(Appended(b, query, files, now, cfg), messages + [Message(query, files)],
                       if cfg.maxMessages > limit then cfg.maxMessages else limit)
  {
    var b' := Appended(b, query, files, now, cfg);
    var messages' := messages + [Message(query, files)];
    assert Queries(messages') == Queries(messages) + [query];
    JoinConcat(Queries(messages), [query]);
    JoinConcat(b.queries, [query]);
    assert b.queries == Front(b.queries) + [Last(b.queries)];
    MergedSlotJoins(Front(b.queries), Last(b.queries), query);
    MergeFilesUnion(b.files, files);
    forall f
      ensures f in b'.files <==>
                f in messages'[0].files || (f != "" && exists i | 0 < i < |messages'| :: f in messages'[i].files)
    {
      FileHeard(messages, Message(query, files), f);
    }
  }

  lemma FileHeard(messages: seq<Message>, last: Message, f: string)
    requires messages != []
    ensures (exists i | 0 < i < |messages + [last]| :: f in (messages + [last])[i].files)
       <==> (exists i | 0 < i < |messages| :: f in messages[i].files) || f in last.files
  {
    var all := messages + [last];
    if i :| 0 < i < |messages| && f in messages[i].files {
      assert f in all[i].files;
    }
    if f in last.files {
      assert f in all[|messages|].files;
    }
  }

  lemma BeginRepresents(s: Store, query: string, files: seq<string>, now: real, cfg: Config, limit: int)
    ensures Represents(Begun(s, query, files, now, cfg), [Message(query, files)], limit)
  {
    assert Queries([Message(query, files)]) == [query];
  }

  lemma SayKeepsFaithful(s: System, e: Event)
    requires e.Say? && Inv(s) && Slotted(s.store)
    ensures Faithful(Heard(s, e))
  {
    var s' := Heard(s, e);
    forall u | u in s'.store.buffers
      ensures s'.store.buffers[u].done in s'.accepted
      ensures Represents(s'.store.buffers[u], s'.accepted[s'.store.buffers[u].done], s'.limit)
    {
      if u == e.user {
        if Open(s.store, u) {
          var b := s.store.buffers[u];
          AppendRepresents(b, s.accepted[b.done], s.limit, e.query, e.files, e.now, e.cfg);
        } else {
          BeginRepresents(s.store, e.query, e.files, e.now, e.cfg, s'.limit);
          assert [] + [Message(e.query, e.files)] == [Message(e.query, e.files)];
        }
      }
    }
  }

  lemma InvSlotted(s: System)
    requires Inv(s)
    ensures Slotted(s.store)
  {
  }

  lemma SayKeepsInv(s: System, e: Event)
    requires e.Say? && Inv(s) && Slotted(s.store)
    ensures Inv(Heard(s, e))
  {
    var s' := Heard(s, e);
    SayKeepsFaithful(s, e);
    MessageKeepsSeparate(s.store, e.user, e.query, e.files, e.now, e.cfg);
    forall id | id in s'.waiters
      ensures Alert(s'.store, s'.waiters[id])
    {
      MessageKeepsAlert(s.store, e.user, e.query, e.files, e.now, e.cfg, s.waiters[id]);
    }
  }

  lemma FinalizeKeepsInv(s: System, user: string, clear: bool)
    requires Inv(s)
    ensures Inv(s.(store := AfterFinalize(s.store, user, clear)))
  {
    forall id | id in s.waiters
      ensures Alert(AfterFinalize(s.store, user, clear), s.waiters[id])
    {
      FinalizeKeepsAlert(s.store, user, clear, s.waiters[id]);
    }
  }

  lemma RenewKeepsSeparate(s: Store, user: string, changed: nat)
    requires EventsSeparate(s)
    ensures EventsSeparate(AfterRenew(s, user, changed))
  {
  }

  lemma RenewKeepsFaithful(s: System, user: string, changed: nat)
    requires Faithful(s)
    ensures Faithful(s.(store := AfterRenew(s.store, user, changed)))
  {
    var s' := s.(store := AfterRenew(s.store, user, changed));
    forall u | u in s'.store.buffers
      ensures s'.store.buffers[u].done in s'.accepted
      ensures Represents(s'.store.buffers[u], s'.accepted[s'.store.buffers[u].done], s'.limit)
    {
      assert s'.store.buffers[u].queries == s.store.buffers[u].queries;
    }
  }

  lemma RenewKeepsInv(s: System, user: string, changed: nat)
    requires Inv(s) && changed in s.store.fired
    ensures Inv(s.(store := AfterRenew(s.store, user, changed)))
  {
    RenewKeepsSeparate(s.store, user, changed);
    RenewKeepsFaithful(s, user, changed);
    forall id | id in s.waiters
      ensures Alert(AfterRenew(s.store, user, changed), s.waiters[id])
    {
      RenewKeepsAlert(s.store, user, changed, s.waiters[id]);
    }
  }

  lemma MoveKeepsInv(s: System, id: nat, phase: Phase)
    requires Inv(s) && id in s.waiters && Alert(s.store, s.waiters[id].(phase := phase))
    ensures Inv(Moved(s, id, phase))
  {
  }

  lemma StepKeepsInv(s: System, e: Event)
    requires Inv(s) && Enabled(s, e)
    ensures Inv(Next(s, e))
  {
    match e
    case Say(_, _, _, _, _) => SayKeepsInv(s, e);
    case Finalize(user, clear) => FinalizeKeepsInv(s, user, clear);
    case StartWaiting(_, _) =>
    case Check(id, now) =>
      var w := Checked(s.store, s.waiters[id].user, now);
      MoveKeepsInv(s, id, if w.Gone? then Returned(false) else if w.Due? then Returned(true)
                          else Sleeping(w.deadline, w.changed));
    case TimeUp(id) => MoveKeepsInv(s, id, Checking);
    case Wake(id) => MoveKeepsInv(s, id, Woken(s.waiters[id].phase.changed));
    case Renew(id) =>
      assert Alert(s.store, s.waiters[id]);
      var user, changed := s.waiters[id].user, s.waiters[id].phase.changed;
      RenewKeepsInv(s, user, changed);
      MoveKeepsInv(s.(store := AfterRenew(s.store, user, changed)), id, Checking);
  }

  // ---- Main results

  ghost predicate Execution(states: seq<System>, events: seq<Event>) {
    && |states| == |events| + 1
    && states[0] == INITIAL
    && forall k | 0 <= k < |events| :: Enabled(states[k], events[k]) && states[k + 1] == Next(states[k], events[k])
  }

  /** In every reachable state no handed-out done event is orphaned, no waiter sleeps through a change, and every
      buffer stands for exactly the messages it accepted. */
  lemma {:induction false} BufferSafety(states: seq<System>, events: seq<Event>, k: nat)
    requires Execution(states, events) && k < |states|
    ensures Inv(states[k])
  {
    if k > 0 {
      BufferSafety(states, events, k - 1);
      assert states[(k - 1) + 1] == Next(states[k - 1], events[k - 1]);
      StepKeepsInv(states[k - 1], events[k - 1]);
    }
  }

  /** Until its own buffer is finalized, an owner or follower finds that buffer under its user, and a snapshot
      stands for exactly the messages and files accepted before it. */
  lemma SnapshotCoversOwnMessages(states: seq<System>, events: seq<Event>, k: nat, user: string, done: nat)
    requires Execution(states, events) && k < |states|
    requires (user, done) in states[k].issued && done !in states[k].store.fired
    ensures var s := states[k];
            && user in s.store.buffers && s.store.buffers[user].done == done && done in s.accepted
            && Represents(s.store.buffers[user], s.accepted[done], s.limit)
  {
    BufferSafety(states, events, k);
  }

  lemma NextMessageKeepsBufferIff(s: Store, user: string, done: nat, query: string, files: seq<string>, now: real,
                                  cfg: Config)
    requires EventsSeparate(s) && Slotted(s)
    requires done in s.fired || (user in s.buffers && s.buffers[user].done == done)
    ensures AfterMessage(s, user, query, files, now, cfg).buffers[user].done == done <==> done !in s.fired
  {
  }

  /** An owner or follower still finds its own buffer after the user's next message if and only if that buffer was
      not finalized before: otherwise the message starts a replacement. */
  lemma OwnBufferRemainsIff(states: seq<System>, events: seq<Event>, k: nat, done: nat, e: Event)
    requires Execution(states, events) && k < |states| && e.Say? && (e.user, done) in states[k].issued
    ensures Enabled(states[k], e)
    ensures var after := Next(states[k], e).store;
            e.user in after.buffers && (after.buffers[e.user].done == done <==> done !in states[k].store.fired)
  {
    BufferSafety(states, events, k);
    InvSlotted(states[k]);
    NextMessageKeepsBufferIff(states[k].store, e.user, done, e.query, e.files, e.now, e.cfg);
  }

  /** Once its buffer has been finalized, an owner can find another buffer in its place. */
  lemma StaleOwnerSeesReplacement(cfg: Config)
    returns (states: seq<System>, events: seq<Event>)
    ensures Execution(states, events)
    ensures var s := states[|states| - 1];
            && ("u", 0) in s.issued && 0 in s.store.fired
            && "u" in s.store.buffers && s.store.buffers["u"].queries == ["second"]
  {
    events := [Say("u", "first", [], 0.0, cfg), Finalize("u", true), Say("u", "second", [], 1.0, cfg)];
    var s1 := Next(INITIAL, events[0]);
    var s2 := Next(s1, events[1]);
    var s3 := Next(s2, events[2]);
    states := [INITIAL, s1, s2, s3];
  }

  // ---- When a waiter is due

  /** The user's last message before the end of `events`. */
  function LastSay(events: seq<Event>, user: string): Option<Event> {
    if events == [] then None
    else
      var e := Last(events);
      if e.Say? && e.user == user then Some(e) else LastSay(Front(events), user)
  }

  /** The time of the message plus the configured window, the longer one if it brought files. */
  function DueTime(e: Event): real
    requires e.Say?
  {
    e.now + if e.files == [] then e.cfg.window else e.cfg.windowWithFiles
  }

  ghost predicate DueAsSaid(s: System, events: seq<Event>) {
    forall u | u in s.store.buffers ::
      var last := LastSay(events, u);
      last.Some? && last.value.Say? && s.store.buffers[u].deadline == DueTime(last.value)
  }

  lemma StepKeepsDue(s: System, events: seq<Event>, e: Event)
    requires DueAsSaid(s, events) && Enabled(s, e)
    ensures DueAsSaid(Next(s, e), events + [e])
  {
    assert Front(events + [e]) == events && Last(events + [e]) == e;
  }

  lemma {:induction false} DeadlineFollowsMessages(states: seq<System>, events: seq<Event>, k: nat)
    requires Execution(states, events) && k < |states|
    ensures DueAsSaid(states[k], events[..k])
  {
    if k > 0 {
      DeadlineFollowsMessages(states, events, k - 1);
      assert states[(k - 1) + 1] == Next(states[k - 1], events[k - 1]);
      assert events[..k] == events[..k - 1] + [events[k - 1]];
      StepKeepsDue(states[k - 1], events[..k - 1], events[k - 1]);
    }
  }

  /**
   * A waiter that looks at its user's buffer leaves with nothing to do if and only if no buffer is open; otherwise it
   * is due if and only if the window of the user's last message has passed, and else sleeps exactly until then.
   */
  lemma WaiterDueIff(states: seq<System>, events: seq<Event>, k: nat, id: nat, now: real)
    requires Execution(states, events) && k < |states| && Enabled(states[k], Check(id, now))
    ensures var s, phase := states[k], Next(states[k], Check(id, now)).waiters[id].phase;
            var user := s.waiters[id].user;
            var open := user in s.store.buffers && s.store.buffers[user].done !in s.store.fired;
            && (phase == Returned(false) <==> !open)
            && (open ==>
                  var last := LastSay(events[..k], user);
                  && last.Some? && last.value.Say?
                  && (phase == Returned(true) <==> now >= DueTime(last.value))
                  && (now < DueTime(last.value) ==> phase.Sleeping? && phase.deadline == DueTime(last.value)))
  {
    DeadlineFollowsMessages(states, events, k);
  }

  // ---- What the operations do, in their own words

  /** Empty messages are ignored, and two others are joined by a line of three dashes. */
  lemma JoinWords(a: string, b: string)
    ensures JoinMessages([a]) == a && JoinMessages([a, ""]) == a && JoinMessages(["", a]) == a
    ensures a != "" && b != "" ==> JoinMessages([a, b]) == a + "\n---\n" + b
  {
    JoinPair(a, b);
    JoinPair(a, "");
    JoinPair("", a);
  }

  /** Finalizing wakes the followers and the waiters of the buffer, and takes it out of the map if asked. */
  lemma FinalizeWakes(s: Store, user: string, clear: bool)
    ensures var t := AfterFinalize(s, user, clear);
            if user in s.buffers then
              && s.buffers[user].done in t.fired && s.buffers[user].changed in t.fired
              && t.fired == s.fired + {s.buffers[user].done, s.buffers[user].changed}
              && t.buffers == (if clear then s.buffers - {user} else s.buffers) && t.nextEvent == s.nextEvent
            else t == s
  {
  }

  /** A message to an open buffer joins it and wakes its waiters; any other opens a buffer of its own. */
  lemma MessageOpensOrJoins(s: Store, user: string, query: string, files: seq<string>, now: real, cfg: Config)
    requires Slotted(s) && EventsSeparate(s)
    ensures var t := AfterMessage(s, user, query, files, now, cfg);
            && user in t.buffers && t.buffers[user].done !in t.fired
            && (forall u | u != user ::
                  (u in t.buffers <==> u in s.buffers) && (u in s.buffers ==> t.buffers[u] == s.buffers[u]))
            && if user in s.buffers && s.buffers[user].done !in s.fired then
                 && t.buffers[user].done == s.buffers[user].done && s.buffers[user].changed in t.fired
                 && |t.buffers[user].queries|
                    == |s.buffers[user].queries| + if |s.buffers[user].queries| < cfg.maxMessages then 1 else 0
               else
                 && t.buffers[user].queries == [query] && t.buffers[user].files == files && t.fired == s.fired
                 && t.buffers[user].done !in s.fired && t.buffers[user].changed !in s.fired
  {
  }
}

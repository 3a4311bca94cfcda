/** The per-model circuit breaker with exponential backoff and its state file. */
module Breaker {
  import opened PyValue

  datatype Config = Config(threshold: int, base: real, cap: real)

  /** Failure counts and cooldown expiries, in memory or in the state file. */
  datatype Snapshot = Snapshot(failures: map<string, nat>, disabledUntil: map<string, real>) {

    /** Every disabled model has a failure count. */
    ghost predicate Covered() {
      disabledUntil.Keys <= failures.Keys
    }
  }

  const EMPTY := Snapshot(map[], map[])

  function Pow2(n: nat): nat {
    if n == 0 then 1 else 2 * Pow2(n - 1)
  }

  function Min(a: real, b: real): real {
    if a <= b then a else b
  }

  function Cooldown(cfg: Config, count: nat): real
    requires count >= cfg.threshold
  {
    Min(Scaled(cfg.base, Pow2(count - cfg.threshold)), cfg.cap)
  }

  function Scaled(base: real, factor: nat): real {
    base * (factor as real)
  }

  function Failures(s: Snapshot, id: string): nat {
    if id in s.failures then s.failures[id] else 0
  }

  function AfterFailure(cfg: Config, s: Snapshot, id: string, now: real): Snapshot {
    var count := Failures(s, id) + 1;
    Snapshot(s.failures[id := count],
             if count >= cfg.threshold then s.disabledUntil[id := now + Cooldown(cfg, count)] else s.disabledUntil)
  }

  function Without(s: Snapshot, ids: set<string>): Snapshot {
    Snapshot(s.failures - ids, s.disabledUntil - ids)
  }

  lemma WithoutOneMore(s: Snapshot, ids: set<string>, id: string)
    ensures Without(Without(s, ids), {id}) == Without(s, ids + {id})
  {
    assert (s.failures - ids) - {id} == s.failures - (ids + {id});
    assert (s.disabledUntil - ids) - {id} == s.disabledUntil - (ids + {id});
  }

  function Expired(s: Snapshot, now: real): set<string> {
    set id | id in s.disabledUntil && now >= s.disabledUntil[id]
  }

  function DropExpired(s: Snapshot, now: real): Snapshot {
    Without(s, Expired(s, now))
  }

  function Load(disk: Option<Snapshot>, now: real): Snapshot {
    match disk
    case None => EMPTY
    case Some(s) => DropExpired(s, now)
  }

  predicate Blocked(s: Snapshot, id: string, now: real) {
    id in s.disabledUntil && now < s.disabledUntil[id]
  }

  class ModelFailureTracker {
    const cfg: Config
    var failures: map<string, nat>
    var disabledUntil: map<string, real>
    /** The state file. */
    var disk: Option<Snapshot>

    ghost function Memory(): Snapshot
      reads this
    {
      Snapshot(failures, disabledUntil)
    }

    ghost function StateAt(clock: real): State
      reads this
    {
      State(Memory(), disk, clock)
    }

    /** Reads the file and drops stale cooldowns, without writing the file back. */
    constructor (cfg: Config, file: Option<Snapshot>, now: real)
      ensures this.cfg == cfg && disk == file
      ensures Memory() == Load(file, now)
    {
      this.cfg, disk := cfg, file;
      failures, disabledUntil := map[], map[];
      new;
      if file.Some? {
        failures, disabledUntil := file.value.failures, file.value.disabledUntil;
        DropStale(now);
      }
    }

    method DropStale(now: real)
      modifies this`failures, this`disabledUntil
      ensures Memory() == DropExpired(old(Memory()), now)
    {
      ghost var before := Memory();
      var expired := set id | id in disabledUntil && now >= disabledUntil[id];
      ghost var dropped := {};
      while expired != {}
        invariant expired + dropped == Expired(before, now)
        invariant Memory() == Without(before, dropped)
        decreases |expired|
      {
        var id :| id in expired;
        WithoutOneMore(before, dropped, id);
        disabledUntil := disabledUntil - {id};
        failures := failures - {id};
        expired := expired - {id};
        dropped := dropped + {id};
      }
    }

    method RecordFailure(id: string, now: real)
      modifies this
      ensures StateAt(now) == Next(cfg, old(StateAt(now)), Failure(id, now))
    {
      var count := (if id in failures then failures[id] else 0) + 1;
      failures := failures[id := count];
      if count >= cfg.threshold {
        var cooldown := Cooldown(cfg, count);
        disabledUntil := disabledUntil[id := now + cooldown];
      }
      disk := Some(Snapshot(failures, disabledUntil));
    }

    /** The file is written only if a failure count was removed. */
    method RecordSuccess(id: string)
      modifies this
      ensures forall now: real :: StateAt(now) == Next(cfg, old(StateAt(now)), Success(id, now))
    {
      var changed := id in failures;
      failures := failures - {id};
      disabledUntil := disabledUntil - {id};
      if changed {
        disk := Some(Snapshot(failures, disabledUntil));
      }
    }

    method SyncIsDisabled(id: string, now: real) returns (disabled: bool)
      modifies this
      ensures disabled == Blocked(old(Memory()), id, now)
      ensures StateAt(now) == Next(cfg, old(StateAt(now)), Check(id, now))
    {
      if id !in disabledUntil {
        return false;
      }
      if now >= disabledUntil[id] {
        disabledUntil := disabledUntil - {id};
        failures := failures - {id};
        disk := Some(Snapshot(failures, disabledUntil));
        return false;
      }
      return true;
    }
  }

  // ---- Runs

  datatype Event =
    | Failure(id: string, at: real)
    | Success(id: string, at: real)
    | Check(id: string, at: real)
    | Restart(at: real)

  datatype State = State(mem: Snapshot, disk: Option<Snapshot>, clock: real)

  function Next(cfg: Config, s: State, e: Event): State {
    match e
    case Failure(id, at) =>
      var mem := AfterFailure(cfg, s.mem, id, at);
      State(mem, Some(mem), at)
    case Success(id, at) =>
      var mem := Without(s.mem, {id});
      State(mem, if id in s.mem.failures then Some(mem) else s.disk, at)
    case Check(id, at) =>
      var mem := Without(s.mem, {id});
      if id in Expired(s.mem, at) then State(mem, Some(mem), at) else s.(clock := at)
    case Restart(at) => State(Load(s.disk, at), s.disk, at)
  }

  function End(start: real, trace: seq<Event>): real {
    if trace == [] then start else trace[|trace| - 1].at
  }

  /** The clock does not go back. */
  ghost predicate Timely(start: real, trace: seq<Event>) {
    trace == [] ||
    (Timely(start, trace[..|trace| - 1]) && trace[|trace| - 1].at >= End(start, trace[..|trace| - 1]))
  }

  function Run(cfg: Config, s: State, trace: seq<Event>): State {
    if trace == [] then s
    else Next(cfg, Run(cfg, s, trace[..|trace| - 1]), trace[|trace| - 1])
  }

  lemma {:induction false} RunClock(cfg: Config, s: State, trace: seq<Event>)
    ensures Run(cfg, s, trace).clock == End(s.clock, trace)
  {
  }

  // ---- Crash consistency

  /** A restart at any later time restores what memory holds once its expired cooldowns are dropped. */
  ghost predicate Consistent(s: State) {
    forall t: real | t >= s.clock :: Load(s.disk, t) == DropExpired(s.mem, t)
  }

  lemma DropTwice(s: Snapshot, early: real, late: real)
    requires early <= late
    ensures DropExpired(DropExpired(s, early), late) == DropExpired(s, late)
  {
  }

  lemma ConsistentStep(cfg: Config, s: State, e: Event)
    requires Consistent(s) && s.mem.Covered() && e.at >= s.clock
    ensures Consistent(Next(cfg, s, e)) && Next(cfg, s, e).mem.Covered()
  {
    var s' := Next(cfg, s, e);
    if e.Restart? && s.disk.Some? {
      forall t: real | t >= e.at
        ensures Load(s.disk, t) == DropExpired(s'.mem, t)
      {
        DropTwice(s.disk.value, e.at, t);
      }
      assert Load(s.disk, e.at) == DropExpired(s.mem, e.at);
    }
    if e.Success? && e.id !in s.mem.failures {
      assert s'.mem == s.mem;
    }
  }

  /** In every run, with restarts anywhere, memory and file agree. */
  lemma {:induction false} CrashConsistency(cfg: Config, s: State, trace: seq<Event>)
    requires Consistent(s) && s.mem.Covered() && Timely(s.clock, trace)
    ensures Consistent(Run(cfg, s, trace)) && Run(cfg, s, trace).mem.Covered()
  {
    if trace != [] {
      var before := trace[..|trace| - 1];
      CrashConsistency(cfg, s, before);
      RunClock(cfg, s, before);
      ConsistentStep(cfg, Run(cfg, s, before), trace[|trace| - 1]);
    }
  }

  /** The process that has just loaded `file`. */
  function Booted(file: Snapshot, now: real): State {
    State(DropExpired(file, now), Some(file), now)
  }

  ghost predicate AlwaysConsistent(cfg: Config, s: State) {
    forall trace | Timely(s.clock, trace) :: Consistent(Run(cfg, s, trace))
  }

  /** Starting from an arbitrary file, consistency over all runs amounts to one condition on that file: each
      cooldown still running at the start has a failure count. Otherwise a success clears it in memory only. */
  lemma CrashConsistencyIff(cfg: Config, file: Snapshot, now: real)
    ensures DropExpired(file, now).Covered()
       <==> AlwaysConsistent(cfg, Booted(file, now))
  {
    var s := Booted(file, now);
    forall t: real | t >= now
      ensures Load(s.disk, t) == DropExpired(s.mem, t)
    {
      DropTwice(file, now, t);
    }
    if s.mem.Covered() {
      forall trace | Timely(now, trace)
        ensures Consistent(Run(cfg, s, trace))
      {
        CrashConsistency(cfg, s, trace);
      }
    } else {
      var id :| id in s.mem.disabledUntil && id !in s.mem.failures;
      var trace := [Success(id, now)];
      var none: seq<Event> := [];
      assert trace[..|trace| - 1] == none && Timely(now, none) && Run(cfg, s, none) == s;
      assert Timely(now, trace);
      var after := Run(cfg, s, trace);
      assert after == Next(cfg, s, Success(id, now));
      assert id in Load(after.disk, now).disabledUntil;
      assert id !in DropExpired(after.mem, now).disabledUntil;
      assert !Consistent(Run(cfg, s, trace));
    }
  }

  // ---- The breaker law

  /** Consecutive failures of one model and the time of the last one, read off the history. */
  datatype Streak = Streak(count: nat, last: real)

  function Expiry(cfg: Config, s: Streak): real
    requires s.count >= cfg.threshold
  {
    s.last + Cooldown(cfg, s.count)
  }

  function Cooled(cfg: Config, s: Streak, now: real): Streak {
    if s.count >= cfg.threshold && now >= Expiry(cfg, s) then Streak(0, s.last) else s
  }

  function StreakOf(cfg: Config, trace: seq<Event>, id: string): Streak {
    if trace == [] then Streak(0, 0.0)
    else
      var before := StreakOf(cfg, trace[..|trace| - 1], id);
      match trace[|trace| - 1]
      case Failure(m, at) => if m == id then Streak(before.count + 1, at) else before
      case Success(m, _) => if m == id then Streak(0, before.last) else before
      case Check(m, at) => if m == id then Cooled(cfg, before, at) else before
      case Restart(at) => Cooled(cfg, before, at)
  }

  /** The breaker holds exactly the streak: a count, and an expiry once the threshold is reached. */
  ghost predicate Tracks(cfg: Config, mem: Snapshot, id: string, s: Streak) {
    && (id in mem.failures <==> s.count > 0)
    && (id in mem.failures ==> mem.failures[id] == s.count)
    && (id in mem.disabledUntil <==> s.count >= cfg.threshold)
    && (id in mem.disabledUntil ==> mem.disabledUntil[id] == Expiry(cfg, s))
  }

  lemma TracksStep(cfg: Config, s: State, trace: seq<Event>, id: string)
    requires cfg.threshold >= 1 && trace != []
    requires var e := trace[|trace| - 1]; e.at >= s.clock && Consistent(s)
    requires Tracks(cfg, s.mem, id, StreakOf(cfg, trace[..|trace| - 1], id))
    ensures Tracks(cfg, Next(cfg, s, trace[|trace| - 1]).mem, id, StreakOf(cfg, trace, id))
  {
    var e := trace[|trace| - 1];
    if e.Restart? {
      assert Load(s.disk, e.at) == DropExpired(s.mem, e.at);
    }
  }

  const FRESH := State(EMPTY, None, 0.0)

  /** For every history of failures, successes, checks and restarts. */
  lemma {:induction false} BreakerLaw(cfg: Config, trace: seq<Event>, id: string)
    requires cfg.threshold >= 1 && Timely(0.0, trace)
    ensures Tracks(cfg, Run(cfg, FRESH, trace).mem, id, StreakOf(cfg, trace, id))
  {
    if trace != [] {
      var before := trace[..|trace| - 1];
      BreakerLaw(cfg, before, id);
      RunClock(cfg, FRESH, before);
      CrashConsistency(cfg, FRESH, before);
      TracksStep(cfg, Run(cfg, FRESH, before), trace, id);
    }
  }

  /** A model is refused exactly from the failure that reaches the threshold until its last expiry. */
  lemma BlockedExactly(cfg: Config, trace: seq<Event>, id: string, now: real)
    requires cfg.threshold >= 1 && Timely(0.0, trace)
    ensures Blocked(Run(cfg, FRESH, trace).mem, id, now)
       <==> var s := StreakOf(cfg, trace, id); s.count >= cfg.threshold && now < Expiry(cfg, s)
  {
    BreakerLaw(cfg, trace, id);
  }

  lemma {:induction false} Pow2Grows(a: nat, b: nat)
    requires a <= b
    ensures 1 <= Pow2(a) <= Pow2(b)
  {
    if a < b {
      Pow2Grows(a, b - 1);
    } else if a > 0 {
      Pow2Grows(a - 1, a - 1);
    }
  }

  lemma ScaleMonotone(base: real, a: nat, b: nat)
    requires base >= 0.0 && a <= b
    ensures Scaled(base, a) <= Scaled(base, b)
  {
  }

  /** Cooldowns start at the base, never shrink, and never exceed the cap. */
  lemma CooldownMonotone(cfg: Config, few: nat, many: nat)
    requires 0.0 <= cfg.base <= cfg.cap && cfg.threshold <= few <= many
    ensures cfg.base <= Cooldown(cfg, few) <= Cooldown(cfg, many) <= cfg.cap
  {
    Pow2Grows(0, few - cfg.threshold);
    Pow2Grows(few - cfg.threshold, many - cfg.threshold);
    assert Scaled(cfg.base, 1) == cfg.base;
    ScaleMonotone(cfg.base, 1, Pow2(few - cfg.threshold));
    ScaleMonotone(cfg.base, Pow2(few - cfg.threshold), Pow2(many - cfg.threshold));
  }

  /** Another failure of a disabled model never brings its expiry forward. */
  lemma ExpiryMonotone(cfg: Config, trace: seq<Event>, id: string, at: real)
    requires cfg.threshold >= 1 && 0.0 <= cfg.base <= cfg.cap
    requires Timely(0.0, trace + [Failure(id, at)])
    requires StreakOf(cfg, trace, id).count >= cfg.threshold
    ensures Expiry(cfg, StreakOf(cfg, trace, id)) <= Expiry(cfg, StreakOf(cfg, trace + [Failure(id, at)], id))
  {
    var longer := trace + [Failure(id, at)];
    assert longer[..|longer| - 1] == trace;
    assert trace != [];
    var s := StreakOf(cfg, trace, id);
    CooldownMonotone(cfg, s.count, s.count + 1);
    StreakInPast(cfg, trace, id);
  }

  lemma {:induction false} StreakInPast(cfg: Config, trace: seq<Event>, id: string)
    requires trace != [] && Timely(0.0, trace)
    ensures StreakOf(cfg, trace, id).last <= trace[|trace| - 1].at
  {
    var before := trace[..|trace| - 1];
    if before != [] {
      StreakInPast(cfg, before, id);
    } else {
      assert StreakOf(cfg, before, id).last == 0.0;
    }
  }

  /** The first cooldown is the base, each further failure doubles it, and the cap bounds them all. */
  lemma CooldownDoubles(cfg: Config, count: nat)
    requires cfg.base >= 0.0 && cfg.cap >= 0.0 && count >= cfg.threshold >= 0
    ensures Cooldown(cfg, cfg.threshold) == if cfg.base <= cfg.cap then cfg.base else cfg.cap
    ensures var twice := 2.0 * Cooldown(cfg, count);
            Cooldown(cfg, count + 1) == if twice <= cfg.cap then twice else cfg.cap
  {
    var factor := Pow2(count - cfg.threshold);
    assert Pow2(count + 1 - cfg.threshold) == 2 * factor;
    assert Scaled(cfg.base, 2 * factor) == 2.0 * Scaled(cfg.base, factor);
    assert Scaled(cfg.base, 1) == cfg.base;
  }
}

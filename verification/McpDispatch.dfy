/** Calling an MCP tool over a bounded number of reconnects. */
module McpDispatch {
  import opened PyValue

  /** `Stop` is cancellation, a keyboard interrupt or a system exit; `Other` any exception of a library. */
  datatype Exn =
    | Failure(code: string, retryable: bool, ambiguous: bool)
    | Stop
    | Other(kind: string)

  datatype Tool = Tool(name: string, schema: string)

  datatype Page = Page(tools: seq<Tool>, more: bool) | PageError(exn: Exn)

  datatype Reply = Reply(payload: Object) | ReplyError(exn: Exn)

  datatype Listing = Listed(tools: seq<Tool>) | Unlisted(exn: Exn)

  /** How the far side behaves in one session. `build` is the validation of the gathered descriptors. */
  datatype Server = Server(
    connect: Option<Exn>,
    page: nat -> Page,
    build: seq<Tool> -> Option<Exn>,
    reply: Reply,
    close: Option<Exn>)

  datatype Request = Request(tool: Tool, maxTools: int)

  const MAX_PAGES: nat := 20

  const BUDGET_EXCEEDED := Failure("server_tool_budget_exceeded", false, false)
  const PAGINATION_EXCEEDED := Failure("server_tool_pagination_exceeded", false, false)
  const SCHEMA_DRIFT := Failure("tool_schema_drift", false, false)
  const AMBIGUOUS := Failure("call_result_ambiguous", false, true)

  // ---- Listing the tools

  /** The tools of the first `n` pages. */
  function Gathered(s: Server, n: nat): seq<Tool> {
    if n == 0 then []
    else Gathered(s, n - 1) + (match s.page(n - 1) case Page(tools, _) => tools case PageError(_) => [])
  }

  /** Page `k` came, was asked for, and the tools up to it fit the budget. */
  ghost predicate Reaches(s: Server, maxTools: int, k: nat) {
    && (forall i: nat | i <= k :: s.page(i).Page? && (i < k ==> s.page(i).more))
    && |Gathered(s, k + 1)| <= maxTools
  }

  /** Page `k` is the last one, within the page limit. */
  ghost predicate EndsAt(s: Server, maxTools: int, k: nat) {
    k < MAX_PAGES && Reaches(s, maxTools, k) && !s.page(k).more
  }

  /** What the listing comes to: a complete and validated catalogue, or the first thing that went wrong. */
  ghost predicate ListingIs(s: Server, maxTools: int, r: Listing) {
    match r
    case Listed(tools) =>
      s.build(tools) == None && exists k: nat :: EndsAt(s, maxTools, k) && tools == Gathered(s, k + 1)
    case Unlisted(exn) =>
      || (exists k: nat :: EndsAt(s, maxTools, k) && s.build(Gathered(s, k + 1)) == Some(exn))
      || (exists k: nat :: k < MAX_PAGES && Breaks(s, maxTools, k, exn))
      || (exn == PAGINATION_EXCEEDED && Reaches(s, maxTools, MAX_PAGES - 1) && s.page(MAX_PAGES - 1).more)
  }

  /** The listing stops with an error on page `k`. */
  ghost predicate Breaks(s: Server, maxTools: int, k: nat, exn: Exn) {
    && (k > 0 ==> Reaches(s, maxTools, k - 1) && s.page(k - 1).more)
    && match s.page(k)
       case PageError(e) => exn == e
       case Page(_, _) => |Gathered(s, k + 1)| > maxTools && exn == BUDGET_EXCEEDED
  }

  method ListTools(s: Server, maxTools: int) returns (r: Listing)
    ensures ListingIs(s, maxTools, r)
  {
    var tools: seq<Tool> := [];
    var more := true;
    var asked: nat := 0;
    while asked < MAX_PAGES && more
      invariant asked <= MAX_PAGES && tools == Gathered(s, asked)
      invariant asked == 0 ==> more
      invariant asked > 0 ==> Reaches(s, maxTools, asked - 1) && s.page(asked - 1).more == more
    {
      match s.page(asked)
      case PageError(exn) =>
        assert Breaks(s, maxTools, asked, exn);
        return Unlisted(exn);
      case Page(found, next) =>
        tools := tools + found;
        if |tools| > maxTools {
          assert Breaks(s, maxTools, asked, BUDGET_EXCEEDED);
          return Unlisted(BUDGET_EXCEEDED);
        }
        assert Reaches(s, maxTools, asked);
        more := next;
        asked := asked + 1;
    }
    if more {
      return Unlisted(PAGINATION_EXCEEDED);
    }
    assert EndsAt(s, maxTools, asked - 1);
    match s.build(tools)
    case Some(exn) => return Unlisted(exn);
    case None => return Listed(tools);
  }

  /** A later page cannot be reached past one that ends or breaks the listing. */
  lemma ReachesAll(s: Server, maxTools: int, k: nat, j: nat)
    requires Reaches(s, maxTools, k) && j <= k
    ensures Reaches(s, maxTools, j)
    decreases k
  {
    if j < k {
      assert Reaches(s, maxTools, k - 1);
      ReachesAll(s, maxTools, k - 1, j);
    }
  }

  /** A session's listing has one result, so the description above leaves nothing open. */
  lemma ListingDetermined(s: Server, maxTools: int, a: Listing, b: Listing)
    requires ListingIs(s, maxTools, a) && ListingIs(s, maxTools, b)
    ensures a == b
  {
    forall k: nat, j: nat | EndsAt(s, maxTools, k) && EndsAt(s, maxTools, j)
      ensures k == j
    {
    }
    forall k: nat, j: nat, e: Exn | EndsAt(s, maxTools, k) && Breaks(s, maxTools, j, e)
      ensures false
    {
      if j <= k {
        ReachesAll(s, maxTools, k, j);
      }
    }
    forall k: nat, j: nat, d: Exn, e: Exn | Breaks(s, maxTools, k, d) && Breaks(s, maxTools, j, e)
      ensures d == e
    {
      BreaksOnce(s, maxTools, k, j, d, e);
    }
    forall k: nat, e: Exn | k < MAX_PAGES && Breaks(s, maxTools, k, e)
      ensures !Reaches(s, maxTools, MAX_PAGES - 1)
    {
      if Reaches(s, maxTools, MAX_PAGES - 1) {
        ReachesAll(s, maxTools, MAX_PAGES - 1, k);
      }
    }
  }

  lemma BreaksOnce(s: Server, maxTools: int, k: nat, j: nat, d: Exn, e: Exn)
    requires Breaks(s, maxTools, k, d) && Breaks(s, maxTools, j, e)
    ensures k == j && d == e
  {
    if k < j {
      ReachesAll(s, maxTools, j - 1, k);
    } else if j < k {
      ReachesAll(s, maxTools, k - 1, j);
    }
  }

  // ---- One session

  /** The tool under a name: a later descriptor replaces an earlier one. */
  function Lookup(tools: seq<Tool>, name: string): Option<Tool> {
    if tools == [] then None
    else
      var last := tools[|tools| - 1];
      if last.name == name then Some(last) else Lookup(tools[..|tools| - 1], name)
  }

  predicate SchemaMatches(tools: seq<Tool>, tool: Tool) {
    var current := Lookup(tools, tool.name);
    current.Some? && current.value.schema == tool.schema
  }

  datatype Event = Opened | Matched | Dispatched | Closed

  datatype End = Returned(payload: Object) | Raised(exn: Exn)

  /** Leaving the session: an error while closing replaces whatever the body came to. */
  function Closing(s: Server, body: End): End {
    if s.close.Some? then Raised(s.close.value) else body
  }

  /** What one session may leave behind: its events, and how the block that owns it ends. */
  ghost predicate SessionIs(s: Server, req: Request, events: seq<Event>, end: End) {
    if s.connect.Some? then
      events == [Closed] && end == Closing(s, Raised(s.connect.value))
    else
      exists listing :: ListingIs(s, req.maxTools, listing) && BodyIs(s, req, listing, events, end)
  }

  ghost predicate BodyIs(s: Server, req: Request, listing: Listing, events: seq<Event>, end: End) {
    match listing
    case Unlisted(exn) => events == [Opened, Closed] && end == Closing(s, Raised(exn))
    case Listed(tools) =>
      if SchemaMatches(tools, req.tool) then
        && events == [Opened, Matched, Dispatched, Closed]
        && end == Closing(s, match s.reply case Reply(p) => Returned(p) case ReplyError(e) => Raised(e))
      else
        events == [Opened, Closed] && end == Closing(s, Raised(SCHEMA_DRIFT))
  }

  method RunSession(s: Server, req: Request) returns (dispatched: bool, events: seq<Event>, end: End)
    ensures SessionIs(s, req, events, end) && dispatched == (Dispatched in events)
  {
    dispatched := false;
    if s.connect.Some? {
      return false, [Closed], Closing(s, Raised(s.connect.value));
    }
    events := [Opened];
    var listing := ListTools(s, req.maxTools);
    match listing {
      case Unlisted(exn) => end := Raised(exn);
      case Listed(tools) =>
        if !SchemaMatches(tools, req.tool) {
          end := Raised(SCHEMA_DRIFT);
        } else {
          events := events + [Matched];
          dispatched := true;
          events := events + [Dispatched];
          end := match s.reply case Reply(p) => Returned(p) case ReplyError(e) => Raised(e);
        }
    }
    events := events + [Closed];
    end := Closing(s, end);
    assert BodyIs(s, req, listing, events, end);
  }

  lemma SessionDetermined(s: Server, req: Request, v: seq<Event>, a: End, w: seq<Event>, b: End)
    requires SessionIs(s, req, v, a) && SessionIs(s, req, w, b)
    ensures v == w && a == b
  {
    if s.connect.None? {
      var x :| ListingIs(s, req.maxTools, x) && BodyIs(s, req, x, v, a);
      var y :| ListingIs(s, req.maxTools, y) && BodyIs(s, req, y, w, b);
      ListingDetermined(s, req.maxTools, x, y);
    }
  }

  // ---- The reconnect loop

  /** The failure recorded for an exception that may be retried. */
  function Recorded(exn: Exn): Exn {
    if exn.Failure? then exn else Failure("connect_or_validation_failed", true, false)
  }

  /** A session that ends this way is followed by another one, if the budget allows. */
  predicate Retries(events: seq<Event>, end: End) {
    Dispatched !in events && end.Raised? && (end.exn.Other? || (end.exn.Failure? && end.exn.retryable))
  }

  /** What the caller sees when the session is not retried. */
  function Settled(events: seq<Event>, end: End): End {
    if end.Raised? && end.exn.Other? then Raised(AMBIGUOUS) else end
  }

  datatype Session = Session(events: seq<Event>, end: End)

  ghost predicate AllRetried(servers: nat -> Server, req: Request, sessions: seq<Session>) {
    forall a | 0 <= a < |sessions| ::
      SessionIs(servers(a), req, sessions[a].events, sessions[a].end) && Retries(sessions[a].events, sessions[a].end)
  }

  /** One run: every session but the last was retried, and the last one decides. */
  ghost predicate Run(servers: nat -> Server, req: Request, reconnects: nat, sessions: seq<Session>, outcome: End) {
    && 1 <= |sessions| <= reconnects + 1
    && AllRetried(servers, req, sessions[..|sessions| - 1])
    && Decides(servers(|sessions| - 1), req, |sessions| == reconnects + 1, sessions[|sessions| - 1], outcome)
  }

  ghost predicate Decides(s: Server, req: Request, budgetSpent: bool, last: Session, outcome: End) {
    && SessionIs(s, req, last.events, last.end)
    && if Retries(last.events, last.end) then
         budgetSpent && outcome == Raised(Failure(Recorded(last.end.exn).code, true, false))
       else
         outcome == Settled(last.events, last.end)
  }

  /** Whether the loop goes on after one session, with the failure it remembers; else what the caller gets. */
  method Handle(dispatched: bool, end: End) returns (goOn: bool, last: Exn, outcome: End)
    ensures forall events | dispatched == (Dispatched in events) ::
              goOn == Retries(events, end) && (!goOn ==> outcome == Settled(events, end))
    ensures goOn ==> end.Raised? && last == Recorded(end.exn) && last.Failure?
  {
    goOn, last, outcome := false, Stop, end;
    match end
    case Returned(_) =>
    case Raised(exn) =>
      match exn
      case Failure(_, retryable, _) =>
        last, goOn := exn, !dispatched && retryable;
      case Stop =>
      case Other(_) =>
        if dispatched {
          outcome := Raised(AMBIGUOUS);
        } else {
          last, goOn := Recorded(exn), true;
        }
  }

  method Call(servers: nat -> Server, req: Request, reconnects: nat) returns (outcome: End, sessions: seq<Session>)
    ensures Run(servers, req, reconnects, sessions, outcome)
  {
    sessions := [];
    var lastFailure := Stop;
    for attempt := 0 to reconnects + 1
      invariant |sessions| == attempt && AllRetried(servers, req, sessions)
      invariant attempt > 0 ==> lastFailure == Recorded(sessions[attempt - 1].end.exn) && lastFailure.Failure?
    {
      var dispatched, events, end := RunSession(servers(attempt), req);
      var goOn, failure, result := Handle(dispatched, end);
      ghost var before := sessions;
      sessions := sessions + [Session(events, end)];
      assert sessions[..|sessions| - 1] == before;
      if !goOn {
        return result, sessions;
      }
      lastFailure := failure;
    }
    outcome := Raised(Failure(lastFailure.code, true, false));
  }

  // ---- What every run guarantees

  /** Sessions in which the tool was dispatched. */
  ghost function Dispatches(sessions: seq<Session>): set<nat> {
    set a: nat | a < |sessions| && Dispatched in sessions[a].events
  }

  lemma SessionShape(s: Server, req: Request, events: seq<Event>, end: End)
    requires SessionIs(s, req, events, end)
    ensures Dispatched in events ==> events == [Opened, Matched, Dispatched, Closed]
    ensures end.Returned? ==> Dispatched in events && s.reply == Reply(end.payload) && s.close == None
  {
    if s.connect.None? {
      var listing :| ListingIs(s, req.maxTools, listing) && BodyIs(s, req, listing, events, end);
    }
  }

  /**
   * A dispatch comes only after a complete listing of the same session that holds the tool with the caller's schema.
   */
  lemma DispatchAfterMatch(s: Server, req: Request, events: seq<Event>, end: End)
    requires SessionIs(s, req, events, end) && Dispatched in events
    ensures exists k: nat ::
              EndsAt(s, req.maxTools, k) && s.connect == None && SchemaMatches(Gathered(s, k + 1), req.tool)
  {
    if s.connect.None? {
      var listing :| ListingIs(s, req.maxTools, listing) && BodyIs(s, req, listing, events, end);
      var k: nat :| EndsAt(s, req.maxTools, k) && listing.tools == Gathered(s, k + 1);
    }
  }

  /**
   * The tool is dispatched at most once over all sessions, and then in the last one. A result means one
   * dispatch, and so does an ambiguous failure unless the far side raised one itself before dispatching;
   * the failure left after the last retry means none, after exactly the allowed number of sessions.
   */
  lemma AtMostOneDispatch(servers: nat -> Server, req: Request, reconnects: nat, sessions: seq<Session>, outcome: End)
    requires Run(servers, req, reconnects, sessions, outcome)
    ensures Dispatches(sessions) <= {|sessions| - 1}
    ensures outcome.Returned? ==>
              && Dispatches(sessions) == {|sessions| - 1}
              && servers(|sessions| - 1).reply == Reply(outcome.payload)
    ensures outcome.Raised? && outcome.exn.Failure? && outcome.exn.retryable && Dispatches(sessions) == {} ==>
              |sessions| == reconnects + 1
    ensures |sessions| <= reconnects ==> !Retries(sessions[|sessions| - 1].events, sessions[|sessions| - 1].end)
  {
    var n := |sessions| - 1;
    assert Dispatched in sessions[n].events ==> n in Dispatches(sessions);
    SessionShape(servers(n), req, sessions[n].events, sessions[n].end);
  }

  /** No library hands back a failure of this client that already claims to be ambiguous or retryable. */
  ghost predicate ForeignErrorsOnly(s: Server) {
    && (s.connect.Some? && s.connect.value.Failure? ==> !s.connect.value.ambiguous)
    && (s.close.Some? ==> !s.close.value.Failure?)
    && (s.reply.ReplyError? ==> !s.reply.exn.Failure?)
    && (forall k: nat :: s.page(k).PageError? ==> !s.page(k).exn.Failure?)
    && (forall tools :: s.build(tools).Some? ==> !s.build(tools).value.Failure?)
  }

  /**
   * With failures of this client raised only where the client raises them, the kind of failure counts the dispatches.
   */
  lemma FailureTellsDispatches(servers: nat -> Server, req: Request, reconnects: nat, sessions: seq<Session>,
                               outcome: End)
    requires Run(servers, req, reconnects, sessions, outcome)
    requires forall a: nat | a <= reconnects :: ForeignErrorsOnly(servers(a))
    requires outcome.Raised? && outcome.exn.Failure?
    ensures outcome.exn.ambiguous <==> Dispatches(sessions) == {|sessions| - 1}
    ensures outcome.exn.retryable ==> Dispatches(sessions) == {} && |sessions| == reconnects + 1
    ensures !outcome.exn.ambiguous <==> Dispatches(sessions) == {}
  {
    AtMostOneDispatch(servers, req, reconnects, sessions, outcome);
    var n := |sessions| - 1;
    var s, last := servers(n), sessions[n];
    assert ForeignErrorsOnly(s);
    assert Dispatches(sessions) == if Dispatched in last.events then {n} else {};
    if s.connect.None? {
      var listing :| ListingIs(s, req.maxTools, listing) && BodyIs(s, req, listing, last.events, last.end);
      if listing.Unlisted? {
        UnlistedNotAmbiguous(s, req.maxTools, listing);
      }
    }
  }

  lemma UnlistedNotAmbiguous(s: Server, maxTools: int, listing: Listing)
    requires ForeignErrorsOnly(s) && ListingIs(s, maxTools, listing) && listing.Unlisted?
    ensures listing.exn.Failure? ==> !listing.exn.ambiguous && !listing.exn.retryable
  {
  }

  lemma NoShorterRun(servers: nat -> Server, req: Request, reconnects: nat,
                     p: seq<Session>, a: End, q: seq<Session>, b: End)
    requires Run(servers, req, reconnects, p, a) && Run(servers, req, reconnects, q, b) && p <= q
    ensures p == q && a == b
  {
    if |p| < |q| {
      EarlierRetried(servers, req, reconnects, q, b, |p| - 1);
    }
  }

  lemma SameSessions(servers: nat -> Server, req: Request, reconnects: nat,
                     p: seq<Session>, a: End, q: seq<Session>, b: End, i: nat)
    requires Run(servers, req, reconnects, p, a) && Run(servers, req, reconnects, q, b) && i < |p| && i < |q|
    ensures p[i] == q[i]
  {
    assert i < |p| - 1 ==> p[..|p| - 1][i] == p[i];
    assert i < |q| - 1 ==> q[..|q| - 1][i] == q[i];
    SessionDetermined(servers(i), req, p[i].events, p[i].end, q[i].events, q[i].end);
  }

  /** The far side's behaviour decides the whole run. */
  lemma RunDetermined(servers: nat -> Server, req: Request, reconnects: nat,
                      p: seq<Session>, a: End, q: seq<Session>, b: End)
    requires Run(servers, req, reconnects, p, a) && Run(servers, req, reconnects, q, b)
    ensures p == q && a == b
  {
    forall i | 0 <= i < |p| && i < |q|
      ensures p[i] == q[i]
    {
      SameSessions(servers, req, reconnects, p, a, q, b, i);
    }
    if |p| <= |q| {
      NoShorterRun(servers, req, reconnects, p, a, q, b);
    } else {
      NoShorterRun(servers, req, reconnects, q, b, p, a);
    }
  }

  // ---- Which sessions dispatch, and what becomes of a run

  /** Descriptor `i` is the caller's tool, with the caller's schema, and no later descriptor has its name. */
  predicate Current(tools: seq<Tool>, tool: Tool, i: nat) {
    && i < |tools| && tools[i].name == tool.name && tools[i].schema == tool.schema
    && forall j | i < j < |tools| :: tools[j].name != tool.name
  }

  ghost predicate HoldsCurrent(tools: seq<Tool>, tool: Tool) {
    exists i: nat :: Current(tools, tool, i)
  }

  lemma {:induction false} MatchesIff(tools: seq<Tool>, tool: Tool)
    ensures SchemaMatches(tools, tool) <==> HoldsCurrent(tools, tool)
    decreases |tools|
  {
    if tools != [] {
      var front, n := tools[..|tools| - 1], |tools| - 1;
      MatchesIff(front, tool);
      if tools[n].name == tool.name {
        assert Current(tools, tool, n) <==> tools[n].schema == tool.schema;
        assert forall i: nat :: Current(tools, tool, i) ==> i == n;
      } else {
        assert forall i: nat :: Current(tools, tool, i) <==> Current(front, tool, i);
      }
    }
  }

  /**
   * A session that connected and listed its tools dispatches if and only if the last descriptor with the tool's name
   * has the caller's schema; otherwise its body ends in schema drift.
   */
  lemma DispatchIff(s: Server, req: Request, events: seq<Event>, end: End, k: nat)
    requires SessionIs(s, req, events, end) && s.connect == None
    requires EndsAt(s, req.maxTools, k) && s.build(Gathered(s, k + 1)) == None
    ensures Dispatched in events <==> HoldsCurrent(Gathered(s, k + 1), req.tool)
    ensures Dispatched !in events && s.close == None ==>
              end == Raised(Failure("tool_schema_drift", false, false))
  {
    var listing :| ListingIs(s, req.maxTools, listing) && BodyIs(s, req, listing, events, end);
    ListingDetermined(s, req.maxTools, listing, Listed(Gathered(s, k + 1)));
    MatchesIff(Gathered(s, k + 1), req.tool);
  }

  lemma EarlierRetried(servers: nat -> Server, req: Request, reconnects: nat, sessions: seq<Session>,
                       outcome: End, a: nat)
    requires Run(servers, req, reconnects, sessions, outcome) && a < |sessions| - 1
    ensures Retries(sessions[a].events, sessions[a].end)
  {
    assert sessions[..|sessions| - 1][a] == sessions[a];
  }

  /** Schema drift ends the run: no other session follows, and the caller sees it. */
  lemma DriftIsFinal(servers: nat -> Server, req: Request, reconnects: nat, sessions: seq<Session>,
                     outcome: End, a: nat)
    requires Run(servers, req, reconnects, sessions, outcome) && a < |sessions|
    requires sessions[a].end == Raised(Failure("tool_schema_drift", false, false))
    ensures a == |sessions| - 1 && outcome == sessions[a].end
  {
    if a < |sessions| - 1 {
      EarlierRetried(servers, req, reconnects, sessions, outcome, a);
    }
  }

  /** The session connects, lists, finds the tool as the caller knows it, and closes without trouble. */
  ghost predicate Sound(s: Server, req: Request) {
    && s.connect == None && s.close == None
    && exists k: nat, i: nat :: SoundAt(s, req, k, i)
  }

  ghost predicate SoundAt(s: Server, req: Request, k: nat, i: nat) {
    EndsAt(s, req.maxTools, k) && s.build(Gathered(s, k + 1)) == None && Current(Gathered(s, k + 1), req.tool, i)
  }

  lemma SoundSession(s: Server, req: Request, events: seq<Event>, end: End)
    requires SessionIs(s, req, events, end) && Sound(s, req)
    ensures Dispatched in events
    ensures end == match s.reply case Reply(p) => Returned(p) case ReplyError(e) => Raised(e)
  {
    var k: nat, i: nat :| SoundAt(s, req, k, i);
    DispatchIff(s, req, events, end, k);
    var listing :| ListingIs(s, req.maxTools, listing) && BodyIs(s, req, listing, events, end);
  }

  /**
   * If the first session is sound, it is the only one: the reply is returned, a failure or a cancellation is passed
   * on, and any other error while the call was out is ambiguous.
   */
  lemma SoundSessionDecides(servers: nat -> Server, req: Request, reconnects: nat, sessions: seq<Session>, outcome: End)
    requires Run(servers, req, reconnects, sessions, outcome) && Sound(servers(0), req)
    ensures |sessions| == 1
    ensures outcome == match servers(0).reply
                       case Reply(p) => Returned(p)
                       case ReplyError(Other(_)) => Raised(Failure("call_result_ambiguous", false, true))
                       case ReplyError(e) => Raised(e)
  {
    assert |sessions| > 1 ==> sessions[..|sessions| - 1][0] == sessions[0];
    SoundSession(servers(0), req, sessions[0].events, sessions[0].end);
  }

  /** A session that cannot connect for a foreign reason is retried; if all are like that, the run ends retryable. */
  lemma UnreachableRetries(servers: nat -> Server, req: Request, reconnects: nat, sessions: seq<Session>, outcome: End)
    requires Run(servers, req, reconnects, sessions, outcome)
    requires forall a: nat | a <= reconnects ::
               servers(a).connect.Some? && servers(a).connect.value.Other? && servers(a).close == None
    ensures |sessions| == reconnects + 1
    ensures outcome == Raised(Failure("connect_or_validation_failed", true, false))
  {
    var n := |sessions| - 1;
    assert servers(n).connect.Some?;
    assert sessions[n].events == [Closed];
  }

  /** A cancellation, wherever it strikes, is passed on at once. */
  lemma StopIsFinal(servers: nat -> Server, req: Request, reconnects: nat, sessions: seq<Session>,
                    outcome: End, a: nat)
    requires Run(servers, req, reconnects, sessions, outcome) && a < |sessions| && sessions[a].end == Raised(Stop)
    ensures a == |sessions| - 1 && outcome == Raised(Stop)
  {
    if a < |sessions| - 1 {
      EarlierRetried(servers, req, reconnects, sessions, outcome, a);
    }
  }

  /** A listing ends with the first of at most twenty pages that announces no other, within the budget. */
  lemma TwentyPages(s: Server, maxTools: int, k: nat)
    requires Reaches(s, maxTools, k) && !s.page(k).more && s.build(Gathered(s, k + 1)) == None
    ensures k < 20 ==> ListingIs(s, maxTools, Listed(Gathered(s, k + 1)))
    ensures k >= 20 ==> ListingIs(s, maxTools, Unlisted(Failure("server_tool_pagination_exceeded", false, false)))
  {
    if k < 20 {
      assert EndsAt(s, maxTools, k);
    } else {
      ReachesAll(s, maxTools, k, 19);
    }
  }

  /** A page that bursts the budget, after pages that announced another, ends the listing. */
  lemma BudgetBursts(s: Server, maxTools: int, k: nat)
    requires k < 20 && s.page(k).Page? && |Gathered(s, k + 1)| > maxTools
    requires k > 0 ==> Reaches(s, maxTools, k - 1) && s.page(k - 1).more
    ensures ListingIs(s, maxTools, Unlisted(Failure("server_tool_budget_exceeded", false, false)))
  {
    assert Breaks(s, maxTools, k, BUDGET_EXCEEDED);
  }
}

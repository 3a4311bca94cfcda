/** What an undisturbed attempt at a claimed private request comes to. */
module PrivateAnswers {
  import opened PyValue
  import opened PrivateJournal
  import opened PrivateClaim

  lemma PlayOne(sanitize: string -> string, s: State, step: Step, steps: seq<Step>)
    requires Enabled(s, step)
    ensures Play(sanitize, s, [step] + steps) == Play(sanitize, Apply(sanitize, s, step), steps)
  {
    assert ([step] + steps)[1..] == steps;
  }

  lemma {:induction false} PlayConcat(sanitize: string -> string, s: State, a: seq<Step>, mid: State, b: seq<Step>)
    requires Play(sanitize, s, a) == Some(mid)
    ensures Play(sanitize, s, a + b) == Play(sanitize, mid, b)
    decreases |a|
  {
    if a == [] {
      assert a + b == b;
    } else {
      PlayConcat(sanitize, Apply(sanitize, s, a[0]), a[1..], mid, b);
      assert (a + b)[1..] == a[1..] + b;
    }
  }

  /** Nobody stands in the way of a new attempt: the claim is new, failed, or its lease has expired. */
  predicate Free(s: State, k: Key, leaseExpired: bool) {
    k in s.claims ==> s.claims[k].status == Failed || (s.claims[k].status == Processing && leaseExpired)
  }

  ghost predicate OthersKept(s: State, t: State, k: Key) {
    forall slot | slot != SlotOf(k) :: ThreadAt(t.logs, slot) == ThreadAt(s.logs, slot)
  }

  /** The attempt owns its claim and stands at `stage`; since `s` nothing but its journal was written. */
  ghost predicate Standing(s: State, t: State, token: nat, req: Request, stage: Stage) {
    && token in t.attempts && t.attempts[token].request == req && t.attempts[token].stage == stage
    && Owns(t, token) && t.sent == s.sent && OthersKept(s, t, req.key)
  }

  /** The text a journal keeps: the one that was there, else the given one. */
  function JournalText(logs: Logs, req: Request, content: string): string {
    var t := ThreadAt(logs, SlotOf(req.key));
    if t.users != [] && t.users[0].content != "" then t.users[0].content else content
  }

  ghost predicate JournalledAs(logs: Logs, req: Request, text: string) {
    ThreadAt(logs, SlotOf(req.key)) == Thread([UserRow(Some(req), true, text, None)], [])
  }

  // ---- Up to the decision

  function Opening(token: nat, req: Request, leaseExpired: bool, content: string): seq<Step> {
    [Acquire(token, req, leaseExpired), Journal(token, content), Recover(token)]
  }

  lemma Acquires(s: State, token: nat, req: Request, leaseExpired: bool)
    requires token !in s.attempts && Free(s, req.key, leaseExpired)
    ensures var t := ApplyAcquire(s, token, req, leaseExpired);
            && Standing(s, t, token, req, Acquired) && t.logs == s.logs && t.bridged == s.bridged
            && t.attempts[token].count == if req.key in s.claims then s.claims[req.key].attempts + 1 else 1
  {
  }

  lemma Journals(sanitize: string -> string, s: State, t: State, token: nat, req: Request, content: string)
    requires Standing(s, t, token, req, Acquired) && Unanswered(t.logs, req)
    ensures Enabled(t, Journal(token, content))
    ensures var next := Apply(sanitize, t, Journal(token, content));
            && Standing(s, next, token, req, Journaled) && next.bridged == t.bridged
            && JournalledAs(next.logs, req, JournalText(t.logs, req, content))
  {
  }

  lemma Decides(sanitize: string -> string, s: State, t: State, token: nat, req: Request, text: string)
    requires Standing(s, t, token, req, Journaled) && JournalledAs(t.logs, req, text)
    ensures Enabled(t, Recover(token))
    ensures var next := Apply(sanitize, t, Recover(token));
            Standing(s, next, token, req, Fresh) && next.bridged == t.bridged && JournalledAs(next.logs, req, text)
  {
  }

  /** A new claim, or a takeover with nothing stored, gets to the point where it decides what to do. */
  lemma Opens(sanitize: string -> string, s: State, token: nat, req: Request, leaseExpired: bool, content: string)
    returns (mid: State)
    requires token !in s.attempts && Free(s, req.key, leaseExpired) && Unanswered(s.logs, req)
    ensures Play(sanitize, s, Opening(token, req, leaseExpired, content)) == Some(mid)
    ensures Standing(s, mid, token, req, Fresh) && mid.bridged == s.bridged
    ensures JournalledAs(mid.logs, req, JournalText(s.logs, req, content))
  {
    Acquires(s, token, req, leaseExpired);
    var s1 := Apply(sanitize, s, Acquire(token, req, leaseExpired));
    Journals(sanitize, s, s1, token, req, content);
    var s2 := Apply(sanitize, s1, Journal(token, content));
    Decides(sanitize, s, s2, token, req, JournalText(s.logs, req, content));
    mid := Apply(sanitize, s2, Recover(token));
    var none: seq<Step> := [];
    PlayOne(sanitize, s2, Recover(token), none);
    PlayOne(sanitize, s1, Journal(token, content), [Recover(token)]);
    PlayOne(sanitize, s, Acquire(token, req, leaseExpired), [Journal(token, content), Recover(token)]);
  }

  // ---- From the decision to the response

  /** The rows of an answered request. */
  function Archived(req: Request, text: string, answers: seq<string>, c: Completion): Thread {
    Thread([UserRow(Some(req), true, text, Some(Marker(req.key, req, c)))], answers)
  }

  /** The request was answered with `c`: sent once, stored, and completed; its rows hold `text` and `answers`. */
  ghost predicate Responded(s: State, end: State, token: nat, req: Request, text: string, answers: seq<string>,
                            c: Completion)
  {
    && end.sent == s.sent + [Sent(req.key, c)]
    && ThreadAt(end.logs, SlotOf(req.key)) == Archived(req, text, answers, c)
    && OthersKept(s, end, req.key)
    && req.key in end.claims && end.claims[req.key].status == Completed(c) && end.claims[req.key].token == token
    && token in end.attempts && end.attempts[token].stage == Returned(c)
  }

  lemma Chooses(sanitize: string -> string, s: State, t: State, token: nat, req: Request)
    requires Standing(s, t, token, req, Fresh)
    ensures Enabled(t, ChooseBridge(token))
    ensures var next := Apply(sanitize, t, ChooseBridge(token));
            Standing(s, next, token, req, Bound) && next.bridged == t.bridged && next.logs == t.logs
  {
  }

  /** The model is called, and the call is on record. */
  lemma Enters(sanitize: string -> string, s: State, t: State, token: nat, req: Request)
    requires Standing(s, t, token, req, Bound)
    ensures Enabled(t, StartBridge(token))
    ensures var next := Apply(sanitize, t, StartBridge(token));
            Standing(s, next, token, req, InBridge) && next.bridged == t.bridged + [req.key] && next.logs == t.logs
  {
  }

  /** An attempt that kept its claim goes on with the model's answer. */
  lemma Leaves(sanitize: string -> string, s: State, t: State, token: nat, req: Request, turn: Turn)
    requires Standing(s, t, token, req, InBridge)
    ensures Enabled(t, FinishBridge(token, turn))
    ensures var next := Apply(sanitize, t, FinishBridge(token, turn));
            Standing(s, next, token, req, ReadyTurn(turn)) && next.bridged == t.bridged && next.logs == t.logs
  {
  }

  lemma AnswersBeforeBridge(sanitize: string -> string, s: State, t: State, token: nat, req: Request, turn: Turn)
    requires Standing(s, t, token, req, Fresh)
    ensures Enabled(t, AnswerEarly(token, turn))
    ensures var next := Apply(sanitize, t, AnswerEarly(token, turn));
            Standing(s, next, token, req, ReadyTurn(turn)) && next.bridged == t.bridged && next.logs == t.logs
  {
  }

  lemma CompletesBeforeBridge(sanitize: string -> string, s: State, t: State, token: nat, req: Request, c: Completion)
    requires Standing(s, t, token, req, Fresh)
    ensures Enabled(t, CompleteEarly(token, c))
    ensures var next := Apply(sanitize, t, CompleteEarly(token, c));
            Standing(s, next, token, req, ReadyCompletion(c)) && next.bridged == t.bridged && next.logs == t.logs
  {
  }

  lemma WritesTurn(sanitize: string -> string, s: State, t: State, token: nat, req: Request, text: string, turn: Turn,
                   pending: nat)
    requires Standing(s, t, token, req, ReadyTurn(turn)) && JournalledAs(t.logs, req, text) && ValidTurn(turn)
    ensures Enabled(t, WriteTurn(token, pending))
    ensures var next, c := Apply(sanitize, t, WriteTurn(token, pending)), turn.completion.(pending := pending);
            && Standing(s, next, token, req, Persisted(c)) && next.bridged == t.bridged
            && ThreadAt(next.logs, SlotOf(req.key)) == Archived(req, turn.display, [sanitize(turn.answer)], c)
  {
  }

  lemma WritesCompletion(sanitize: string -> string, s: State, t: State, token: nat, req: Request, text: string,
                         c: Completion, archived: Option<string>)
    requires Standing(s, t, token, req, ReadyCompletion(c)) && JournalledAs(t.logs, req, text) && !c.respond
    ensures Enabled(t, WriteCompletion(token, archived))
    ensures var next := Apply(sanitize, t, WriteCompletion(token, archived));
            && Standing(s, next, token, req, Persisted(c)) && next.bridged == t.bridged
            && ThreadAt(next.logs, SlotOf(req.key))
               == Archived(req, if archived.Some? then archived.value else text, [], c)
  {
  }

  lemma Completes(sanitize: string -> string, s: State, t: State, token: nat, req: Request, text: string,
                  answers: seq<string>, c: Completion)
    requires Standing(s, t, token, req, Persisted(c))
    requires ThreadAt(t.logs, SlotOf(req.key)) == Archived(req, text, answers, c)
    ensures Enabled(t, Complete(token))
    ensures var end := Apply(sanitize, t, Complete(token));
            Responded(s, end, token, req, text, answers, c) && end.bridged == t.bridged
  {
  }

  /** The last two commits of a turn. */
  lemma TurnResponds(sanitize: string -> string, s: State, t: State, token: nat, req: Request, text: string, turn: Turn,
                     pending: nat)
    returns (end: State)
    requires Standing(s, t, token, req, ReadyTurn(turn)) && JournalledAs(t.logs, req, text) && ValidTurn(turn)
    ensures Play(sanitize, t, [WriteTurn(token, pending), Complete(token)]) == Some(end)
    ensures Responded(s, end, token, req, turn.display, [sanitize(turn.answer)], turn.completion.(pending := pending))
    ensures end.bridged == t.bridged
  {
    var c := turn.completion.(pending := pending);
    WritesTurn(sanitize, s, t, token, req, text, turn, pending);
    var t1 := Apply(sanitize, t, WriteTurn(token, pending));
    Completes(sanitize, s, t1, token, req, turn.display, [sanitize(turn.answer)], c);
    end := Apply(sanitize, t1, Complete(token));
    var none: seq<Step> := [];
    PlayOne(sanitize, t1, Complete(token), none);
    PlayOne(sanitize, t, WriteTurn(token, pending), [Complete(token)]);
  }

  // ---- Undisturbed runs

  function BridgedSteps(token: nat, turn: Turn, pending: nat): seq<Step> {
    [ChooseBridge(token), StartBridge(token), FinishBridge(token, turn), WriteTurn(token, pending), Complete(token)]
  }

  lemma BridgeResponds(sanitize: string -> string, s: State, t: State, token: nat, req: Request, text: string,
                       turn: Turn, pending: nat)
    returns (end: State)
    requires Standing(s, t, token, req, Fresh) && JournalledAs(t.logs, req, text) && ValidTurn(turn)
    ensures Play(sanitize, t, BridgedSteps(token, turn, pending)) == Some(end)
    ensures Responded(s, end, token, req, turn.display, [sanitize(turn.answer)], turn.completion.(pending := pending))
    ensures end.bridged == t.bridged + [req.key]
  {
    Chooses(sanitize, s, t, token, req);
    var t1 := Apply(sanitize, t, ChooseBridge(token));
    Enters(sanitize, s, t1, token, req);
    var t2 := Apply(sanitize, t1, StartBridge(token));
    Leaves(sanitize, s, t2, token, req, turn);
    var t3 := Apply(sanitize, t2, FinishBridge(token, turn));
    end := TurnResponds(sanitize, s, t3, token, req, text, turn, pending);
    PlayOne(sanitize, t2, FinishBridge(token, turn), [WriteTurn(token, pending), Complete(token)]);
    PlayOne(sanitize, t1, StartBridge(token),
            [FinishBridge(token, turn), WriteTurn(token, pending), Complete(token)]);
    PlayOne(sanitize, t, ChooseBridge(token),
            [StartBridge(token), FinishBridge(token, turn), WriteTurn(token, pending), Complete(token)]);
  }

  /**
   * From every state, an undisturbed attempt at a free claim with nothing answered calls the model once and answers:
   * the response is sent once, the archive holds the sanitised answer, and the claim is completed with it. The claim
   * may be new, failed, or left by an owner whose lease ran out.
   */
  lemma BridgedRunAnswers(sanitize: string -> string, s: State, token: nat, req: Request, leaseExpired: bool,
                          content: string, turn: Turn, pending: nat)
    requires token !in s.attempts && Free(s, req.key, leaseExpired) && Unanswered(s.logs, req) && ValidTurn(turn)
    ensures var end := Play(sanitize, s, Opening(token, req, leaseExpired, content)
                                         + BridgedSteps(token, turn, pending));
            && end.Some? && end.value.bridged == s.bridged + [req.key]
            && Responded(s, end.value, token, req, turn.display, [sanitize(turn.answer)],
                         turn.completion.(pending := pending))
  {
    var mid := Opens(sanitize, s, token, req, leaseExpired, content);
    var end := BridgeResponds(sanitize, s, mid, token, req, JournalText(s.logs, req, content), turn, pending);
    PlayConcat(sanitize, s, Opening(token, req, leaseExpired, content), mid, BridgedSteps(token, turn, pending));
  }

  /** The same without the model, for an answer that is ready before the bridge. */
  lemma EarlyAnswerResponds(sanitize: string -> string, s: State, token: nat, req: Request, leaseExpired: bool,
                            content: string, turn: Turn, pending: nat)
    requires token !in s.attempts && Free(s, req.key, leaseExpired) && Unanswered(s.logs, req) && ValidTurn(turn)
    ensures var end := Play(sanitize, s, Opening(token, req, leaseExpired, content)
                                         + [AnswerEarly(token, turn), WriteTurn(token, pending), Complete(token)]);
            && end.Some? && end.value.bridged == s.bridged
            && Responded(s, end.value, token, req, turn.display, [sanitize(turn.answer)],
                         turn.completion.(pending := pending))
  {
    var mid := Opens(sanitize, s, token, req, leaseExpired, content);
    AnswersBeforeBridge(sanitize, s, mid, token, req, turn);
    var t := Apply(sanitize, mid, AnswerEarly(token, turn));
    var end := TurnResponds(sanitize, s, t, token, req, JournalText(s.logs, req, content), turn, pending);
    PlayOne(sanitize, mid, AnswerEarly(token, turn), [WriteTurn(token, pending), Complete(token)]);
    PlayConcat(sanitize, s, Opening(token, req, leaseExpired, content), mid,
               [AnswerEarly(token, turn)] + [WriteTurn(token, pending), Complete(token)]);
    assert [AnswerEarly(token, turn)] + [WriteTurn(token, pending), Complete(token)]
        == [AnswerEarly(token, turn), WriteTurn(token, pending), Complete(token)];
  }

  /** And for an outcome without a reply: no answer is archived, and the journal keeps the given or its own text. */
  lemma EarlyCompletionResponds(sanitize: string -> string, s: State, token: nat, req: Request, leaseExpired: bool,
                                content: string, c: Completion, archived: Option<string>)
    requires token !in s.attempts && Free(s, req.key, leaseExpired) && Unanswered(s.logs, req) && !c.respond
    ensures var end := Play(sanitize, s, Opening(token, req, leaseExpired, content)
                                         + [CompleteEarly(token, c), WriteCompletion(token, archived),
                                            Complete(token)]);
            && end.Some? && end.value.bridged == s.bridged
            && Responded(s, end.value, token, req,
                         if archived.Some? then archived.value else JournalText(s.logs, req, content), [], c)
  {
    var text := JournalText(s.logs, req, content);
    var mid := Opens(sanitize, s, token, req, leaseExpired, content);
    CompletesBeforeBridge(sanitize, s, mid, token, req, c);
    var t := Apply(sanitize, mid, CompleteEarly(token, c));
    WritesCompletion(sanitize, s, t, token, req, text, c, archived);
    var t1 := Apply(sanitize, t, WriteCompletion(token, archived));
    Completes(sanitize, s, t1, token, req, if archived.Some? then archived.value else text, [], c);
    var none: seq<Step> := [];
    PlayOne(sanitize, t1, Complete(token), none);
    PlayOne(sanitize, t, WriteCompletion(token, archived), [Complete(token)]);
    PlayOne(sanitize, mid, CompleteEarly(token, c), [WriteCompletion(token, archived), Complete(token)]);
    PlayConcat(sanitize, s, Opening(token, req, leaseExpired, content), mid,
               [CompleteEarly(token, c)] + [WriteCompletion(token, archived), Complete(token)]);
    assert [CompleteEarly(token, c)] + [WriteCompletion(token, archived), Complete(token)]
        == [CompleteEarly(token, c), WriteCompletion(token, archived), Complete(token)];
  }

  // ---- Who gets an attempt

  /**
   * A request gets an attempt, and with it the claim, exactly when the claim is free; otherwise it is answered from
   * the completed claim, or told that an owner is at work, and no claim changes.
   */
  lemma AttemptIffFree(s: State, token: nat, req: Request, leaseExpired: bool)
    requires token !in s.attempts
    ensures var t := ApplyAcquire(s, token, req, leaseExpired);
            && (token in t.attempts <==> Free(s, req.key, leaseExpired))
            && (Free(s, req.key, leaseExpired) ==> Standing(s, t, token, req, Acquired))
            && (!Free(s, req.key, leaseExpired) ==>
                  t.claims == s.claims && t.attempts == s.attempts && t.logs == s.logs)
            && (!Free(s, req.key, leaseExpired) && s.claims[req.key].status.Completed? ==>
                  t.sent == s.sent + [Sent(req.key, s.claims[req.key].status.response)])
            && (!Free(s, req.key, leaseExpired) && s.claims[req.key].status == Processing ==> t == s)
  {
  }

  /** An owner that fails its claim, its last write done or still under way, frees it without waiting for the lease. */
  lemma FailFrees(sanitize: string -> string, s: State, token: nat)
    requires Owns(s, token)
    ensures Enabled(s, Fail(token)) ==>
              Free(Apply(sanitize, s, Fail(token)), s.attempts[token].request.key, false)
    ensures Enabled(s, FailDetached(token, true)) ==>
              Free(Apply(sanitize, s, FailDetached(token, true)), s.attempts[token].request.key, false)
  {
  }

  /** An attempt whose claim was taken, failed or completed by then cannot cross the bridge or settle the claim. */
  lemma StrangersAreStopped(sanitize: string -> string, s: State, token: nat, turn: Turn)
    requires token in s.attempts && !Owns(s, token)
    ensures Enabled(s, StartBridge(token)) ==> Apply(sanitize, s, StartBridge(token)) == SetStage(s, token, Failing)
    ensures Enabled(s, FinishBridge(token, turn)) ==>
              Apply(sanitize, s, FinishBridge(token, turn)) == SetStage(s, token, Failing)
    ensures Enabled(s, Fail(token)) ==> Apply(sanitize, s, Fail(token)).claims == s.claims
  {
  }

  /** A crash frees nothing: the claim stays with the lost owner until its lease expires. */
  lemma CrashKeepsLease(sanitize: string -> string, s: State, token: nat)
    requires Owns(s, token) && Enabled(s, Crash(token))
    ensures var t, k := Apply(sanitize, s, Crash(token)), s.attempts[token].request.key;
            && t.claims == s.claims && t.logs == s.logs && t.sent == s.sent
            && !t.attempts[token].stage.Alive() && !Free(t, k, false) && Free(t, k, true)
  {
  }
}

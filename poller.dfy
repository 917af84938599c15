/**
 * The poll loop of `main`: one cycle fetches, validates, formats and sends, then moves the
 * cursor; the `except` branches log, and notify an error unless it is the last one notified.
 * Spec functions describe a cycle and a run of cycles on values; the class Poller carries the
 * loop's local state and is proved to follow them.
 */
module Poller {
  import opened Errors
  import opened Json
  import opened Homework

  /** A raised exception object; `id` stands for its identity, fresh for every raise. */
  datatype Raised = Raised(id: nat, error: Error)

  /**
   * How the loop decides that an exception is the one last notified. `error != last_error_sent`
   * on Python exceptions compares identity (Identity); comparing kind and text is ByValue.
   */
  datatype ErrorEquality = Identity | ByValue

  predicate SameAsLast(eq: ErrorEquality, e: Raised, last: Option<Raised>)
  {
    && last.Some?
    && match eq
       case Identity => e == last.value
       case ByValue => e.error == last.value.error
  }

  /** The scripted messenger: the outcome of the k-th send of a cycle (past the script, delivery). */
  function OutcomeAt(sends: seq<SendOutcome>, k: nat): SendOutcome
  {
    if k < |sends| then sends[k] else Delivered
  }

  // ---------------------------------------------------------------------------------------
  // The `for homework in homeworks` loop

  datatype NotifyResult = NotifyResult(delivered: seq<string>, failure: Option<Error>)

  /**
   * parse_status then send_message for each homework in list order, stopping at the first
   * exception. The k-th item is sent with the k-th scripted outcome, since every earlier
   * item consumed exactly one.
   */
  function Notify(hs: seq<JsonValue>, sends: seq<SendOutcome>): (r: NotifyResult)
    ensures |r.delivered| <= |hs|
    ensures forall i :: 0 <= i < |r.delivered| ==>
      ParseStatus(hs[i]) == Ok(r.delivered[i]) && OutcomeAt(sends, i) == Delivered
    ensures r.failure.None? ==> |r.delivered| == |hs|
    ensures r.failure.Some? ==>
      && |r.delivered| < |hs|
      && match ParseStatus(hs[|r.delivered|])
         case Err(e) => r.failure.value == e
         case Ok(_) => r.failure == SendMessage(OutcomeAt(sends, |r.delivered|))
    decreases |hs|
  {
    if hs == [] then NotifyResult([], None)
    else
      var prev := Notify(hs[..|hs| - 1], sends);
      if prev.failure.Some? then prev
      else
        match ParseStatus(hs[|hs| - 1])
        case Err(e) => NotifyResult(prev.delivered, Some(e))
        case Ok(m) =>
          match SendMessage(OutcomeAt(sends, |hs| - 1))
          case Some(e) => NotifyResult(prev.delivered, Some(e))
          case None => NotifyResult(prev.delivered + [m], None)
  }

  /** Once an item has raised, later items change nothing. */
  lemma {:induction false} NotifyStaysFailed(hs: seq<JsonValue>, sends: seq<SendOutcome>, i: nat)
    requires i <= |hs|
    requires Notify(hs[..i], sends).failure.Some?
    ensures Notify(hs, sends) == Notify(hs[..i], sends)
    decreases |hs|
  {
    if i < |hs| {
      var front := hs[..|hs| - 1];
      assert front[..i] == hs[..i];
      NotifyStaysFailed(front, sends, i);
    } else {
      assert hs[..i] == hs;
    }
  }

  /** Send requests the loop made: one per delivered item, plus the one that failed, if any. */
  function NotifyAttempts(n: NotifyResult): nat
  {
    |n.delivered| + if n.failure.Some? && n.failure.value.kind == DoNotSendToBot then 1 else 0
  }

  /** The loop finishes without an exception exactly when every item parses and is delivered. */
  lemma NotifySucceedsIff(hs: seq<JsonValue>, sends: seq<SendOutcome>)
    ensures Notify(hs, sends).failure.None? <==>
      forall i :: 0 <= i < |hs| ==> ParseStatus(hs[i]).Ok? && OutcomeAt(sends, i) == Delivered
  {
    var r := Notify(hs, sends);
    if r.failure.Some? {
      var k := |r.delivered|;
      assert !(ParseStatus(hs[k]).Ok? && OutcomeAt(sends, k) == Delivered);
    }
  }

  // ---------------------------------------------------------------------------------------
  // One cycle

  /** The loop's local state: the cursor, the last error notified, and raises so far (identities). */
  datatype PollState = PollState(timestamp: int, lastErrorSent: Option<Raised>, raised: nat)

  /** The `try` block: messages delivered, send attempts, and the new cursor or the exception. */
  datatype TryResult = TryResult(delivered: seq<string>, attempts: nat, outcome: Result<int>)

  function TryBlock(fetch: FetchOutcome, sends: seq<SendOutcome>): (t: TryResult)
    ensures |t.delivered| <= t.attempts <= |t.delivered| + 1
    ensures t.outcome.Ok? ==> t.attempts == |t.delivered|
    ensures t.attempts > 0 ==> GetApiAnswer(fetch).Ok? && CheckResponse(GetApiAnswer(fetch).value).Ok?
    ensures t.outcome.Ok? ==>
      && GetApiAnswer(fetch).Ok? && WellShaped(GetApiAnswer(fetch).value)
      && t.outcome.value == GetApiAnswer(fetch).value.fields["current_date"].i
    ensures t.outcome.Err? && t.outcome.error.kind == EndpointResponse <==> fetch.Answered? && fetch.status != HTTP_OK
  {
    match GetApiAnswer(fetch)
    case Err(e) => TryResult([], 0, Err(e))
    case Ok(response) =>
      match CheckResponse(response)
      case Err(e) => TryResult([], 0, Err(e))
      case Ok(_) =>
        var hs := response.fields["homeworks"].items;
        var n := Notify(hs, sends);
        match n.failure
        case None => TryResult(n.delivered, |hs|, Ok(response.fields["current_date"].i))
        case Some(e) => TryResult(n.delivered, NotifyAttempts(n), Err(e))
  }

  /** The `except` branches: what they add to the state and to the messenger. */
  datatype HandleResult = HandleResult(next: PollState, notice: seq<string>, attempted: nat, halt: Option<Error>)

  /**
   * The `except` branches for exception `e` when `k` sends were already made this cycle.
   * DoNotSendToBot is only logged; any other exception is notified unless it is the last
   * one notified, the marker being set before the send. A failure of that send escapes.
   */
  function HandleError(eq: ErrorEquality, s: PollState, e: Error, sends: seq<SendOutcome>, k: nat)
    : (h: HandleResult)
    ensures h.next.timestamp == s.timestamp && h.next.raised == s.raised + 1
    ensures h.attempted <= 1 && h.attempted == |h.notice| + (if h.halt.Some? then 1 else 0)
    ensures h.notice == [] || h.notice == [e.msg]
    ensures h.halt.Some? ==> h.halt.value.kind == DoNotSendToBot
    ensures h.attempted == 1 <==> e.kind != DoNotSendToBot && !SameAsLast(eq, Raised(s.raised, e), s.lastErrorSent)
    ensures h.next.lastErrorSent == (if h.attempted == 1 then Some(Raised(s.raised, e)) else s.lastErrorSent)
  {
    var token := Raised(s.raised, e);
    var counted := s.(raised := s.raised + 1);
    if e.kind == DoNotSendToBot || SameAsLast(eq, token, s.lastErrorSent) then
      HandleResult(counted, [], 0, None)
    else
      var marked := counted.(lastErrorSent := Some(token));
      match SendMessage(OutcomeAt(sends, k))
      case None => HandleResult(marked, [e.msg], 1, None)
      case Some(failure) => HandleResult(marked, [], 1, Some(failure))
  }

  datatype CycleResult = CycleResult(next: PollState, delivered: seq<string>, attempts: nat, halt: Option<Error>)

  /** One pass of the `while True` body, from state `s`. */
  function CycleSpec(eq: ErrorEquality, s: PollState, fetch: FetchOutcome, sends: seq<SendOutcome>)
    : (r: CycleResult)
    ensures TryBlock(fetch, sends).delivered <= r.delivered
    ensures |r.delivered| <= r.attempts
    ensures r.halt.Some? ==> r.halt.value.kind == DoNotSendToBot && TryBlock(fetch, sends).outcome.Err?
    ensures r.next.raised == s.raised + (if TryBlock(fetch, sends).outcome.Ok? then 0 else 1)
    ensures r.next.lastErrorSent == s.lastErrorSent
            || (TryBlock(fetch, sends).outcome.Err?
                && r.next.lastErrorSent == Some(Raised(s.raised, TryBlock(fetch, sends).outcome.error)))
  {
    var t := TryBlock(fetch, sends);
    match t.outcome
    case Ok(date) => CycleResult(s.(timestamp := date), t.delivered, t.attempts, None)
    case Err(e) =>
      var h := HandleError(eq, s, e, sends, t.attempts);
      CycleResult(h.next, t.delivered + h.notice, t.attempts + h.attempted, h.halt)
  }

  /** The homeworks of an answer that validation accepted. */
  function Homeworks(fetch: FetchOutcome): seq<JsonValue>
    requires GetApiAnswer(fetch).Ok? && CheckResponse(GetApiAnswer(fetch).value).Ok?
  {
    GetApiAnswer(fetch).value.fields["homeworks"].items
  }

  /** Every step of the try block succeeds. */
  predicate CycleSucceeds(fetch: FetchOutcome, sends: seq<SendOutcome>)
  {
    && GetApiAnswer(fetch).Ok?
    && CheckResponse(GetApiAnswer(fetch).value).Ok?
    && forall i :: 0 <= i < |Homeworks(fetch)| ==>
         ParseStatus(Homeworks(fetch)[i]).Ok? && OutcomeAt(sends, i) == Delivered
  }

  /**
   * A fully successful cycle sends one message per homework, in list order, makes no other
   * send, and moves the cursor to the answer's current_date; the error marker is untouched.
   */
  lemma SuccessfulCycle(eq: ErrorEquality, s: PollState, fetch: FetchOutcome, sends: seq<SendOutcome>)
    requires CycleSucceeds(fetch, sends)
    ensures var r := CycleSpec(eq, s, fetch, sends); var hs := Homeworks(fetch);
      && r.halt.None?
      && r.next == s.(timestamp := fetch.body.value.fields["current_date"].i)
      && |r.delivered| == |hs| == r.attempts
      && forall i :: 0 <= i < |hs| ==> ParseStatus(hs[i]) == Ok(r.delivered[i])
  {
    NotifySucceedsIff(Homeworks(fetch), sends);
  }

  /** The cursor moves exactly when the cycle succeeds; nothing else ever changes it. */
  lemma CursorMovesOnlyOnSuccess(eq: ErrorEquality, s: PollState, fetch: FetchOutcome, sends: seq<SendOutcome>)
    ensures var r := CycleSpec(eq, s, fetch, sends);
      && (CycleSucceeds(fetch, sends) ==> r.next.timestamp == fetch.body.value.fields["current_date"].i)
      && (!CycleSucceeds(fetch, sends) ==> r.next.timestamp == s.timestamp)
  {
    if GetApiAnswer(fetch).Ok? && CheckResponse(GetApiAnswer(fetch).value).Ok? {
      NotifySucceedsIff(Homeworks(fetch), sends);
    }
  }

  /**
   * On any cycle, the messages sent first are those of the leading homeworks, in order; an
   * exception after them does not take them back.
   */
  lemma DeliveredInListOrder(eq: ErrorEquality, s: PollState, fetch: FetchOutcome, sends: seq<SendOutcome>)
    requires GetApiAnswer(fetch).Ok? && CheckResponse(GetApiAnswer(fetch).value).Ok?
    ensures var r := CycleSpec(eq, s, fetch, sends); var n := Notify(Homeworks(fetch), sends);
      && n.delivered <= r.delivered
      && forall i :: 0 <= i < |n.delivered| ==> ParseStatus(Homeworks(fetch)[i]) == Ok(r.delivered[i])
  {
  }

  /** A messenger failure inside the loop is only logged: no further send, marker unchanged. */
  lemma UnsendableIsOnlyLogged(eq: ErrorEquality, s: PollState, fetch: FetchOutcome, sends: seq<SendOutcome>)
    requires TryBlock(fetch, sends).outcome.Err?
    requires TryBlock(fetch, sends).outcome.error.kind == DoNotSendToBot
    ensures var r := CycleSpec(eq, s, fetch, sends); var t := TryBlock(fetch, sends);
      && r.next == s.(raised := s.raised + 1)
      && r.delivered == t.delivered && r.attempts == t.attempts
      && r.halt.None?
  {
  }

  /**
   * Any other exception: if it is not the last one notified, the marker becomes it and exactly
   * one send of its text is made, whose failure escapes; otherwise nothing is sent and the
   * marker stays. The cursor stays in both cases.
   */
  lemma SuppressionRule(eq: ErrorEquality, s: PollState, fetch: FetchOutcome, sends: seq<SendOutcome>)
    requires TryBlock(fetch, sends).outcome.Err?
    requires TryBlock(fetch, sends).outcome.error.kind != DoNotSendToBot
    ensures var r := CycleSpec(eq, s, fetch, sends); var t := TryBlock(fetch, sends);
      var e := t.outcome.error; var token := Raised(s.raised, e);
      && r.next.timestamp == s.timestamp
      && (SameAsLast(eq, token, s.lastErrorSent) ==>
            r.next.lastErrorSent == s.lastErrorSent && r.delivered == t.delivered
            && r.attempts == t.attempts && r.halt.None?)
      && (!SameAsLast(eq, token, s.lastErrorSent) ==>
            && r.next.lastErrorSent == Some(token) && r.attempts == t.attempts + 1
            && (OutcomeAt(sends, t.attempts).Delivered? ==> r.delivered == t.delivered + [e.msg] && r.halt.None?)
            && (OutcomeAt(sends, t.attempts).Failed? ==>
                  r.delivered == t.delivered && r.halt == SendMessage(OutcomeAt(sends, t.attempts))))
  {
  }

  // ---------------------------------------------------------------------------------------
  // Identity of exceptions

  /** The marker, if set, is an exception raised earlier than any still to come. */
  predicate Fresh(s: PollState)
  {
    s.lastErrorSent.Some? ==> s.lastErrorSent.value.id < s.raised
  }

  lemma CyclePreservesFresh(eq: ErrorEquality, s: PollState, fetch: FetchOutcome, sends: seq<SendOutcome>)
    requires Fresh(s)
    ensures Fresh(CycleSpec(eq, s, fetch, sends).next)
  {
  }

  /**
   * As written, the comparison at the `except` branch is by identity, and a raised exception
   * is always new: every exception other than DoNotSendToBot is notified, however often the
   * same failure recurs.
   */
  lemma IdentityNeverSuppresses(s: PollState, fetch: FetchOutcome, sends: seq<SendOutcome>)
    requires Fresh(s)
    requires TryBlock(fetch, sends).outcome.Err?
    requires TryBlock(fetch, sends).outcome.error.kind != DoNotSendToBot
    ensures var r := CycleSpec(Identity, s, fetch, sends); var t := TryBlock(fetch, sends);
      r.attempts == t.attempts + 1 && r.next.lastErrorSent == Some(Raised(s.raised, t.outcome.error))
  {
  }

  /**
   * As written: two consecutive cycles failing with the same exception value notify it twice,
   * because the second raise is a new object.
   */
  lemma {:induction false} IdentityNotifiesRepeat(s: PollState, first: FetchOutcome, second: FetchOutcome,
                                                  sends1: seq<SendOutcome>, sends2: seq<SendOutcome>)
    requires Fresh(s)
    requires TryBlock(first, sends1).outcome.Err? && TryBlock(second, sends2).outcome.Err?
    requires TryBlock(first, sends1).outcome.error == TryBlock(second, sends2).outcome.error
    requires TryBlock(first, sends1).outcome.error.kind != DoNotSendToBot
    requires CycleSpec(Identity, s, first, sends1).halt.None?
    ensures var r1 := CycleSpec(Identity, s, first, sends1); var r2 := CycleSpec(Identity, r1.next, second, sends2);
      && r1.attempts == TryBlock(first, sends1).attempts + 1
      && r2.attempts == TryBlock(second, sends2).attempts + 1
  {
    var r1 := CycleSpec(Identity, s, first, sends1);
    IdentityNeverSuppresses(s, first, sends1);
    CyclePreservesFresh(Identity, s, first, sends1);
    IdentityNeverSuppresses(r1.next, second, sends2);
  }

  /**
   * Comparing by value: once an exception is notified, the same exception on the next cycle
   * is only logged, and the marker stays.
   */
  lemma {:induction false} ByValueSuppressesRepeat(s: PollState, first: FetchOutcome, second: FetchOutcome,
                                                   sends1: seq<SendOutcome>, sends2: seq<SendOutcome>)
    requires TryBlock(first, sends1).outcome.Err? && TryBlock(second, sends2).outcome.Err?
    requires TryBlock(first, sends1).outcome.error == TryBlock(second, sends2).outcome.error
    requires TryBlock(first, sends1).outcome.error.kind != DoNotSendToBot
    requires !SameAsLast(ByValue, Raised(s.raised, TryBlock(first, sends1).outcome.error), s.lastErrorSent)
    requires CycleSpec(ByValue, s, first, sends1).halt.None?
    ensures var r1 := CycleSpec(ByValue, s, first, sends1); var r2 := CycleSpec(ByValue, r1.next, second, sends2);
      && r1.attempts == TryBlock(first, sends1).attempts + 1
      && r2.attempts == TryBlock(second, sends2).attempts
      && r2.delivered == TryBlock(second, sends2).delivered
      && r2.next.lastErrorSent == r1.next.lastErrorSent
  {
    var r1 := CycleSpec(ByValue, s, first, sends1);
    SuppressionRule(ByValue, s, first, sends1);
    SuppressionRule(ByValue, r1.next, second, sends2);
  }

  /** Two consecutive cycles failing with different exceptions notify both, under either comparison. */
  lemma {:induction false} DifferentFailures(eq: ErrorEquality, s: PollState, first: FetchOutcome, second: FetchOutcome,
                                             sends1: seq<SendOutcome>, sends2: seq<SendOutcome>)
    requires Fresh(s)
    requires TryBlock(first, sends1).outcome.Err? && TryBlock(second, sends2).outcome.Err?
    requires TryBlock(first, sends1).outcome.error != TryBlock(second, sends2).outcome.error
    requires TryBlock(first, sends1).outcome.error.kind != DoNotSendToBot
    requires TryBlock(second, sends2).outcome.error.kind != DoNotSendToBot
    requires !SameAsLast(eq, Raised(s.raised, TryBlock(first, sends1).outcome.error), s.lastErrorSent)
    requires CycleSpec(eq, s, first, sends1).halt.None?
    ensures var r1 := CycleSpec(eq, s, first, sends1); var r2 := CycleSpec(eq, r1.next, second, sends2);
      && r1.attempts == TryBlock(first, sends1).attempts + 1
      && r2.attempts == TryBlock(second, sends2).attempts + 1
  {
    var r1 := CycleSpec(eq, s, first, sends1);
    SuppressionRule(eq, s, first, sends1);
    SuppressionRule(eq, r1.next, second, sends2);
  }

  // ---------------------------------------------------------------------------------------
  // A run of cycles

  /** One scripted cycle: what the request produces and what the messenger does with each send. */
  datatype Script = Script(fetch: FetchOutcome, sends: seq<SendOutcome>)

  datatype RunResult = RunResult(next: PollState, delivered: seq<string>, attempts: nat,
                                 halt: Option<Error>, cycles: nat)

  /** The `while True` loop over a finite script; it ends early when an exception escapes. */
  function RunSpec(eq: ErrorEquality, s: PollState, script: seq<Script>): (r: RunResult)
    ensures r.cycles <= |script|
    ensures r.halt.None? ==> r.cycles == |script|
    ensures r.halt.Some? ==> r.cycles > 0 && r.halt.value.kind == DoNotSendToBot
    decreases |script|
  {
    if script == [] then RunResult(s, [], 0, None, 0)
    else
      var prev := RunSpec(eq, s, script[..|script| - 1]);
      if prev.halt.Some? then prev
      else
        var last := script[|script| - 1];
        Extend(prev, CycleSpec(eq, prev.next, last.fetch, last.sends))
  }

  /** A run followed by one more cycle. */
  function Extend(prev: RunResult, r: CycleResult): RunResult
  {
    RunResult(r.next, prev.delivered + r.delivered, prev.attempts + r.attempts, r.halt, prev.cycles + 1)
  }

  /** A two-entry run whose first cycle does not stop is the two cycles in sequence. */
  lemma TwoCycles(eq: ErrorEquality, s: PollState, a: Script, b: Script)
    requires CycleSpec(eq, s, a.fetch, a.sends).halt.None?
    ensures var c1 := CycleSpec(eq, s, a.fetch, a.sends); var c2 := CycleSpec(eq, c1.next, b.fetch, b.sends);
      RunSpec(eq, s, [a, b])
        == RunResult(c2.next, c1.delivered + c2.delivered, c1.attempts + c2.attempts, c2.halt, 2)
  {
    var c1 := CycleSpec(eq, s, a.fetch, a.sends);
    var r0 := RunSpec(eq, s, []);
    assert [a][..0] == [];
    var r1 := RunSpec(eq, s, [a]);
    assert r1 == Extend(r0, c1);
    assert [a, b][..1] == [a];
    var c2 := CycleSpec(eq, r1.next, b.fetch, b.sends);
    assert RunSpec(eq, s, [a, b]) == Extend(r1, c2);
    assert r1.delivered == c1.delivered && r1.attempts == c1.attempts && r1.cycles == 1;
  }

  /** One more scripted cycle extends the run by that cycle's result. */
  lemma RunSpecStep(eq: ErrorEquality, s: PollState, script: seq<Script>, i: nat)
    requires i < |script| && RunSpec(eq, s, script[..i]).halt.None?
    ensures var prev := RunSpec(eq, s, script[..i]);
      RunSpec(eq, s, script[..i + 1]) == Extend(prev, CycleSpec(eq, prev.next, script[i].fetch, script[i].sends))
  {
    assert script[..i + 1][..i] == script[..i];
  }

  lemma {:induction false} RunStaysHalted(eq: ErrorEquality, s: PollState, script: seq<Script>, i: nat)
    requires i <= |script|
    requires RunSpec(eq, s, script[..i]).halt.Some?
    ensures RunSpec(eq, s, script) == RunSpec(eq, s, script[..i])
    decreases |script|
  {
    if i < |script| {
      var front := script[..|script| - 1];
      assert front[..i] == script[..i];
      RunStaysHalted(eq, s, front, i);
    } else {
      assert script[..i] == script;
    }
  }

  /** The marker stays older than every exception still to come, across any run. */
  lemma {:induction false} RunPreservesFresh(eq: ErrorEquality, s: PollState, script: seq<Script>)
    requires Fresh(s)
    ensures Fresh(RunSpec(eq, s, script).next)
    decreases |script|
  {
    if script != [] {
      var front := script[..|script| - 1];
      RunPreservesFresh(eq, s, front);
      var prev := RunSpec(eq, s, front);
      if prev.halt.None? {
        var last := script[|script| - 1];
        CyclePreservesFresh(eq, prev.next, last.fetch, last.sends);
      }
    }
  }

  /** What a script entry does to the cursor: its answer's current_date when its cycle succeeds. */
  function Move(entry: Script): Option<int>
  {
    if CycleSucceeds(entry.fetch, entry.sends) then Some(entry.fetch.body.value.fields["current_date"].i) else None
  }

  function Moves(script: seq<Script>): (m: seq<Option<int>>)
    ensures |m| == |script| && forall i :: 0 <= i < |script| ==> m[i] == Move(script[i])
  {
    seq(|script|, i requires 0 <= i < |script| => Move(script[i]))
  }

  /**
   * `ts` is the cursor the first `n` moves leave from `start`: the date of the last of them
   * that moves it, or `start` when none does.
   */
  predicate CursorAfter(moves: seq<Option<int>>, n: nat, start: int, ts: int)
    requires n <= |moves|
  {
    && ((forall i :: 0 <= i < n ==> moves[i].None?) ==> ts == start)
    && (forall i :: 0 <= i < n && moves[i].Some? && (forall j :: i < j < n ==> moves[j].None?) ==>
          ts == moves[i].value)
  }

  /** CursorAfter looks only at the first `n` moves. */
  lemma CursorPrefix(front: seq<Script>, script: seq<Script>, n: nat, start: int, ts: int)
    requires n <= |front| <= |script| && front == script[..|front|]
    requires CursorAfter(Moves(front), n, start, ts)
    ensures CursorAfter(Moves(script), n, start, ts)
  {
    forall i | 0 <= i < n
      ensures Moves(front)[i] == Moves(script)[i]
    {
      assert front[i] == script[i];
    }
  }

  /** One more move: a date overwrites the cursor, no move keeps it. */
  lemma CursorStep(moves: seq<Option<int>>, n: nat, start: int, ts: int)
    requires n < |moves| && CursorAfter(moves, n, start, ts)
    ensures CursorAfter(moves, n + 1, start, if moves[n].Some? then moves[n].value else ts)
  {
  }

  /** A run that did not stop before its last entry ends with that entry's move. */
  lemma RunCursorExtend(eq: ErrorEquality, s: PollState, script: seq<Script>)
    requires script != []
    requires var prev := RunSpec(eq, s, script[..|script| - 1]);
      prev.halt.None? && CursorAfter(Moves(script), prev.cycles, s.timestamp, prev.next.timestamp)
    ensures var r := RunSpec(eq, s, script); CursorAfter(Moves(script), r.cycles, s.timestamp, r.next.timestamp)
  {
    var n := |script| - 1;
    var prev := RunSpec(eq, s, script[..n]);
    var last := script[n];
    var c := CycleSpec(eq, prev.next, last.fetch, last.sends);
    assert RunSpec(eq, s, script) == Extend(prev, c);
    CursorMovesOnlyOnSuccess(eq, prev.next, last.fetch, last.sends);
    assert c.next.timestamp == if Move(last).Some? then Move(last).value else prev.next.timestamp;
    CursorStep(Moves(script), n, s.timestamp, prev.next.timestamp);
  }

  /**
   * Each success overwrites the cursor: after a run, the cursor is the current_date of its
   * last successful cycle, and the starting cursor when no cycle succeeded.
   */
  lemma {:induction false} RunCursor(eq: ErrorEquality, s: PollState, script: seq<Script>)
    ensures var r := RunSpec(eq, s, script); CursorAfter(Moves(script), r.cycles, s.timestamp, r.next.timestamp)
    decreases |script|
  {
    if script != [] {
      var front := script[..|script| - 1];
      RunCursor(eq, s, front);
      var prev := RunSpec(eq, s, front);
      CursorPrefix(front, script, prev.cycles, s.timestamp, prev.next.timestamp);
      if prev.halt.None? {
        RunCursorExtend(eq, s, script);
      }
    }
  }

  lemma AppendAssoc<T>(a: seq<T>, b: seq<T>, c: seq<T>)
    ensures (a + b) + c == a + (b + c)
  {
  }

  // ---------------------------------------------------------------------------------------
  // The loop state of `main`

  class Poller {
    const equality: ErrorEquality
    var timestamp: int
    var lastErrorSent: Option<Raised>
    var raised: nat
    /** What the messenger delivered, in order. */
    var sent: seq<string>
    /** How many send requests were made. */
    var attempts: nat

    function State(): PollState
      reads this
    {
      PollState(timestamp, lastErrorSent, raised)
    }

    constructor (equality: ErrorEquality)
      ensures this.equality == equality
      ensures State() == PollState(0, None, 0) && Fresh(State())
      ensures sent == [] && attempts == 0
    {
      this.equality := equality;
      timestamp := 0;
      lastErrorSent := None;
      raised := 0;
      sent := [];
      attempts := 0;
    }

    /** send_message against the scripted messenger. */
    method Send(text: string, outcome: SendOutcome) returns (failure: Option<Error>)
      modifies this`sent, this`attempts
      ensures failure == SendMessage(outcome)
      ensures attempts == old(attempts) + 1
      ensures sent == if failure.None? then old(sent) + [text] else old(sent)
    {
      attempts := attempts + 1;
      failure := SendMessage(outcome);
      if failure.None? {
        sent := sent + [text];
      }
    }

    /** The `except` branches for exception `e`, after `k` sends this cycle. */
    method Handle(e: Error, sends: seq<SendOutcome>, k: nat) returns (halt: Option<Error>)
      modifies this
      ensures var h := HandleError(equality, old(State()), e, sends, k);
        && State() == h.next && sent == old(sent) + h.notice
        && attempts == old(attempts) + h.attempted && halt == h.halt
    {
      var token := Raised(raised, e);
      raised := raised + 1;
      halt := None;
      if e.kind == DoNotSendToBot {
        // logged only
      } else if !SameAsLast(equality, token, lastErrorSent) {
        lastErrorSent := Some(token);
        halt := Send(e.msg, OutcomeAt(sends, k));
      }
    }

    /** The `for homework in homeworks` loop: parse and send each, stop at the first exception. */
    method NotifyAll(homeworks: seq<JsonValue>, sends: seq<SendOutcome>) returns (failure: Option<Error>, made: nat)
      modifies this`sent, this`attempts
      ensures var n := Notify(homeworks, sends);
        && failure == n.failure && made == NotifyAttempts(n)
        && sent == old(sent) + n.delivered && attempts == old(attempts) + made
    {
      ghost var delivered: seq<string> := [];
      failure, made := None, 0;
      var i := 0;
      while i < |homeworks|
        invariant 0 <= i <= |homeworks|
        invariant sent == old(sent) + delivered && made == i && attempts == old(attempts) + made
        invariant Notify(homeworks[..i], sends) == NotifyResult(delivered, None)
        invariant failure.None?
      {
        assert homeworks[..i + 1][..i] == homeworks[..i];
        var parsed := ParseStatus(homeworks[i]);
        if parsed.Err? {
          failure := Some(parsed.error);
          NotifyStaysFailed(homeworks, sends, i + 1);
          return;
        }
        var sendFailure := Send(parsed.value, OutcomeAt(sends, i));
        made := made + 1;
        if sendFailure.Some? {
          failure := sendFailure;
          NotifyStaysFailed(homeworks, sends, i + 1);
          return;
        }
        delivered := delivered + [parsed.value];
        i := i + 1;
      }
      assert homeworks[..i] == homeworks;
    }

    /** The `try` block: fetch, validate, notify; the new cursor or the exception. */
    method Try(fetch: FetchOutcome, sends: seq<SendOutcome>) returns (outcome: Result<int>, made: nat)
      modifies this`sent, this`attempts
      ensures var t := TryBlock(fetch, sends);
        && outcome == t.outcome && made == t.attempts
        && sent == old(sent) + t.delivered && attempts == old(attempts) + made
    {
      var answer := GetApiAnswer(fetch);
      if answer.Err? {
        return Err(answer.error), 0;
      }
      var checked := CheckResponse(answer.value);
      if checked.Err? {
        return Err(checked.error), 0;
      }
      var homeworks := answer.value.fields["homeworks"].items;
      var failure;
      failure, made := NotifyAll(homeworks, sends);
      if failure.Some? {
        outcome := Err(failure.value);
      } else {
        outcome := Ok(answer.value.fields["current_date"].i);
      }
    }

    /** One pass of the `while True` body. */
    method Cycle(fetch: FetchOutcome, sends: seq<SendOutcome>) returns (halt: Option<Error>)
      modifies this
      ensures var r := CycleSpec(equality, old(State()), fetch, sends);
        && State() == r.next && sent == old(sent) + r.delivered
        && attempts == old(attempts) + r.attempts && halt == r.halt
    {
      var outcome, made := Try(fetch, sends);
      halt := None;
      match outcome
      case Ok(date) =>
        timestamp := date;
      case Err(e) =>
        halt := Handle(e, sends, made);
    }

    /** The `while True` loop over a finite script of cycles, until an exception escapes. */
    method Run(script: seq<Script>) returns (halt: Option<Error>, cycles: nat)
      modifies this
      ensures var r := RunSpec(equality, old(State()), script);
        && State() == r.next && sent == old(sent) + r.delivered
        && attempts == old(attempts) + r.attempts && halt == r.halt && cycles == r.cycles
    {
      ghost var s0, sent0, attempts0 := State(), sent, attempts;
      halt, cycles := None, 0;
      ghost var r := RunSpec(equality, s0, []);
      var i := 0;
      while i < |script| && halt.None?
        invariant 0 <= i <= |script|
        invariant r == RunSpec(equality, s0, script[..i])
        invariant State() == r.next && sent == sent0 + r.delivered
        invariant attempts == attempts0 + r.attempts && halt == r.halt && cycles == r.cycles
      {
        RunSpecStep(equality, s0, script, i);
        ghost var c := CycleSpec(equality, r.next, script[i].fetch, script[i].sends);
        ghost var sentBefore := sent;
        halt := Cycle(script[i].fetch, script[i].sends);
        AppendAssoc(sent0, r.delivered, c.delivered);
        cycles := cycles + 1;
        r := Extend(r, c);
        i := i + 1;
      }
      if halt.Some? {
        RunStaysHalted(equality, s0, script, i);
      } else {
        assert script[..i] == script;
      }
    }
  }
}

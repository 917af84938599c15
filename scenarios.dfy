/** Concrete poll cycles: an empty answer, one approved work, an unknown verdict, repeated failures. */
module Scenarios {
  import opened Errors
  import opened Json
  import opened Homework
  import opened Poller

  function Answer(homeworks: seq<JsonValue>): FetchOutcome
  {
    Answered(200, Decoded(JObj(map["current_date" := JInt(100), "homeworks" := JArr(homeworks)])))
  }

  function Work(name: string, status: string): JsonValue
  {
    JObj(map["homework_name" := JStr(name), "status" := JStr(status)])
  }

  const Start := PollState(0, None, 0)

  /** An empty list sends nothing and moves the cursor to current_date. */
  lemma EmptyAnswer(eq: ErrorEquality, s: PollState, sends: seq<SendOutcome>)
    ensures CycleSpec(eq, s, Answer([]), sends) == CycleResult(s.(timestamp := 100), [], 0, None)
  {
    assert Notify([], sends) == NotifyResult([], None);
  }

  /** One approved work: one message in the fixed template, cursor at current_date. */
  lemma OneApproved(eq: ErrorEquality, s: PollState)
    ensures var r := CycleSpec(eq, s, Answer([Work("hw1", "approved")]), []);
      && r.delivered == [Opening + "hw1" + "\". " + Verdicts["approved"]]
      && Verdicts["approved"] == "Работа проверена: ревьюеру всё понравилось. Ура!"
      && r.next == s.(timestamp := 100) && r.halt.None?
  {
    var hs := [Work("hw1", "approved")];
    var m := Opening + "hw1" + "\". " + Verdicts["approved"];
    ParseStatusText("hw1", "approved", map[]);
    assert map[]["homework_name" := JStr("hw1")]["status" := JStr("approved")] == Work("hw1", "approved").fields;
    assert ParseStatus(hs[0]) == Ok(m);
    assert hs[..0] == [];
    assert Notify(hs, []) == NotifyResult([m], None);
    assert TryBlock(Answer(hs), []) == TryResult([m], 1, Ok(100));
  }

  const Bogus := Error(ValueError, "Unexpected status of homework: bogus")

  lemma BogusTry()
    ensures TryBlock(Answer([Work("hw1", "bogus")]), []) == TryResult([], 0, Err(Bogus))
  {
    var hs := [Work("hw1", "bogus")];
    assert hs[..0] == [];
    assert hs[0].fields["status"] == JStr("bogus");
    assert "bogus" !in Verdicts;
  }

  /** An unknown verdict fails the cycle: cursor kept, the error notified once. */
  lemma UnknownVerdict(eq: ErrorEquality)
    ensures var r := CycleSpec(eq, Start, Answer([Work("hw1", "bogus")]), []);
      && r.next == PollState(0, Some(Raised(0, Bogus)), 1)
      && r.delivered == ["Unexpected status of homework: bogus"] && r.attempts == 1 && r.halt.None?
  {
    BogusTry();
    var h := HandleError(eq, Start, Bogus, [], 0);
    assert !SameAsLast(eq, Raised(0, Bogus), None);
    assert h == HandleResult(PollState(0, Some(Raised(0, Bogus)), 1), [Bogus.msg], 1, None);
    assert CycleSpec(eq, Start, Answer([Work("hw1", "bogus")]), [])
        == CycleResult(h.next, [] + h.notice, 0 + h.attempted, h.halt);
  }

  /**
   * The same unknown verdict again, from the state the first bogus cycle left: comparing by
   * value the notice is suppressed; the code's identity comparison sends it again.
   */
  lemma BogusAgain(eq: ErrorEquality)
    ensures var c := CycleSpec(eq, PollState(0, Some(Raised(0, Bogus)), 1), Answer([Work("hw1", "bogus")]), []);
      && (eq == ByValue ==> c == CycleResult(PollState(0, Some(Raised(0, Bogus)), 2), [], 0, None))
      && (eq == Identity ==> c == CycleResult(PollState(0, Some(Raised(1, Bogus)), 2), [Bogus.msg], 1, None))
  {
    BogusTry();
  }

  const Down := Error(EndpointResponse, "Endpoint response returned wrong status: 503")

  const DownCycle := Script(Answered(503, Undecodable), [])

  lemma DownTry()
    ensures TryBlock(DownCycle.fetch, DownCycle.sends) == TryResult([], 0, Err(Down))
  {
    assert NatToString(503) == NatToString(50) + ['3'];
    assert NatToString(50) == NatToString(5) + ['0'];
  }

  /** As written, every 503 cycle is a new exception, so it is notified: from any fresh state. */
  lemma DownNotified(s: PollState)
    requires Fresh(s)
    ensures var c := CycleSpec(Identity, s, DownCycle.fetch, DownCycle.sends);
      c == CycleResult(PollState(s.timestamp, Some(Raised(s.raised, Down)), s.raised + 1), [Down.msg], 1, None)
  {
    DownTry();
    assert !SameAsLast(Identity, Raised(s.raised, Down), s.lastErrorSent);
  }

  /** A 503 on two consecutive cycles, as written: two identical notices. */
  lemma UnavailableTwiceAsWritten(script: seq<Script>)
    requires script == [DownCycle, DownCycle]
    ensures RunSpec(Identity, Start, script).delivered == [Down.msg, Down.msg]
  {
    DownNotified(Start);
    var c1 := CycleSpec(Identity, Start, DownCycle.fetch, DownCycle.sends);
    assert Fresh(c1.next);
    DownNotified(c1.next);
    TwoCycles(Identity, Start, script[0], script[1]);
    assert script == [script[0], script[1]];
  }
}

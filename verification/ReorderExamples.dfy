/** Concrete runs in which the stated conditions of ReorderProofs, ReorderOrder and ReorderConservation
    fail. */
module ReorderExamples {
  import opened SequenceNumbers
  import opened ReorderSpec
  import opened ReorderProofs
  import opened ReorderOrder
  import opened ReorderConservation

  function Plain(number: int): Frame {
    Frame(0, number, 100, false, false)
  }

  /** After frame 10, frame 13 waits behind a gap. */
  function Waiting(free: nat): Rx {
    Rx(10, 8, [Plain(13)], 0, 0, free, 0, [Plain(10)], [])
  }

  /** A block-ack request starting at the held frame 13 passes it up and then expects it again, so
      its retransmission is passed up a second time. */
  lemma BarDeliversTwice()
    ensures var r := Run(Waiting(5), [Bar(13), Arrival(Plain(13), 1)], 100);
            r.up == [Plain(10), Plain(13), Plain(13)]
    ensures Disorders(Waiting(5), Bar(13)) && !Disorders(Next(Waiting(5), Bar(13), 100), Arrival(Plain(13), 1))
  {
    var r := Waiting(5);
    assert LeadLe(r.held, 13) == 1 by { assert LeadLe(r.held[1..], 13) == 0; }
    var r1 := BlockAckRequest(r, 13);
    assert Sn(r.held[0]) == 13;
    assert r1.last == 12 && r1.held == [] && r1.up == [Plain(10), Plain(13)];
    assert Next(r, Bar(13), 100) == r1;
    var e := Arrival(Plain(13), 1);
    assert Next(r1, e, 100).up == [Plain(10), Plain(13)] + [Plain(13)];
    assert [Bar(13), e][1..] == [e] && [e][1..] == [];
    assert Run(r1, [e], 100) == Run(Next(r1, e, 100), [], 100);
  }

  lemma InWindowTwelve(free: nat, f: Frame)
    requires f.number == 12
    ensures Classify(Waiting(free), f) == InWindow && LeadLe(Waiting(free).held, Sn(f)) == 0
  {
    assert Sn(f) == 12 && Sn(Plain(13)) == 13;
    assert !StepOne(12, 10) && !Smaller(12, 10) && Smaller(12, Wrap(19)) && !Smaller(13, 12);
  }

  /** With an empty pool, frame 12 is passed up at once and its held successor 13 stays behind: when
      13 is retransmitted it is passed up while its first copy is still held, to be passed up by a
      later flush. */
  lemma EmptyPoolStrandsSuccessor()
    ensures var r := Run(Waiting(0), [Arrival(Plain(12), 1), Arrival(Plain(13), 2)], 100);
            r.up == [Plain(10), Plain(12), Plain(13)] && r.held == [Plain(13)] && r.last == 13
    ensures StrandsSuccessor(Waiting(0), Plain(12)) && Disorders(Waiting(0), Arrival(Plain(12), 1))
    ensures Window(Waiting(0)) && !Window(Next(Waiting(0), Arrival(Plain(12), 1), 100))
  {
    hide LeadLe, LeadInOrder, Smaller, Wrap, StepOne;
    var e1, e2 := Arrival(Plain(12), 1), Arrival(Plain(13), 2);
    InWindowTwelve(0, Plain(12));
    Wraps();
    assert Sn(Waiting(0).held[0]) == 13 == Wrap(Sn(Plain(12)) + 1);
    WaitingIsWindow();
    NextKeepsWindow(Waiting(0), e1, 100);
    var r1 := Waiting(0).(atTimer := 1, last := 12, up := [Plain(10), Plain(12)]);
    assert Waiting(0).(atTimer := 1).held[0..] == Waiting(0).held && Waiting(0).up + [] == Waiting(0).up;
    assert Next(Waiting(0), e1, 100) == r1;
    NothingAfter13(r1);
    var r2 := r1.(atTimer := 2, last := 13, up := [Plain(10), Plain(12), Plain(13)]);
    assert r2.held[0..] == r2.held && r2.up + [] == r2.up;
    assert Next(r1, e2, 100) == r2;
    assert [e1, e2][1..] == [e2] && [e2][1..] == [];
    assert Run(r1, [e2], 100) == Run(r2, [], 100);
  }

  lemma WaitingIsWindow()
    ensures Window(Waiting(0))
  {
    assert At(Plain(13), 10) == 3;
  }

  lemma Wraps()
    ensures Wrap(12) == 12 && Wrap(13) == 13
  {
  }

  lemma NothingAfter13(r: Rx)
    requires r.last == 12 && r.held == [Plain(13)]
    ensures Classify(r, Plain(13)) == InOrder && LeadInOrder(r.held, 13) == 0
  {
  }

  /** An in-window EAPOL frame costs the pool a block. */
  lemma EapolLeaksBlock()
    ensures var f := Frame(0, 12, 100, false, true);
            var r := Arrive(Waiting(5), f, 1);
            r.free == 4 && |r.held| == 1 && r.leaked == 1 && Leaks(Waiting(5), f)
  {
    hide LeadLe, LeadInOrder, Smaller, Wrap, StepOne;
    InWindowTwelve(5, Frame(0, 12, 100, false, true));
  }
}

/** Delivery in order, as the receiver of the packets sees it: a session is safe if nothing that the
    transmitter and the timers may still do makes it deliver out of order. A step keeps a session safe
    exactly if it is not one of the two disordering steps. */
module ReorderSafety {
  import opened SequenceNumbers
  import opened ReorderSpec
  import opened ReorderProofs
  import opened ReorderOrder

  /** Whatever regular run follows, what was passed up since the last reset ascends. */
  ghost predicate Safe(t: Track, hz: nat) {
    forall es | RegularRun(t, es, hz) :: InOrderAfter(t, es, hz)
  }

  ghost predicate InOrderAfter(t: Track, es: seq<Event>, hz: nat) {
    var t' := TrackRun(t, es, hz);
    Ascending(t'.r.up, t'.start)
  }

  lemma InvIsSafe(t: Track, hz: nat)
    requires Inv(t)
    ensures Safe(t, hz)
  {
    hide RegularRun, TrackRun;
    forall es | RegularRun(t, es, hz) ensures InOrderAfter(t, es, hz) {
      RunDeliversInOrder(t, es, hz);
    }
  }

  /** A run of no steps, and one that begins with `e`. */
  lemma RunsUnfold(t: Track, e: Event, es: seq<Event>, hz: nat)
    ensures RegularRun(t, [], hz) && TrackRun(t, [], hz) == t
    ensures RegularRun(t, [e] + es, hz) <==> Near(t, e) && !Disorders(t.r, e) && RegularRun(TrackNext(t, e, hz), es, hz)
    ensures TrackRun(t, [e] + es, hz) == TrackRun(TrackNext(t, e, hz), es, hz)
  {
    hide Near, Disorders, TrackNext;
    assert ([e] + es)[1..] == es;
  }

  lemma NotSafeNow(t: Track, hz: nat)
    requires !Ascending(t.r.up, t.start)
    ensures !Safe(t, hz)
  {
    hide RegularRun, TrackRun;
    RunsUnfold(t, AddBa(0, 0), [], hz);
    assert !InOrderAfter(t, [], hz);
  }

  /** A session from which a regular step leads to an unsafe one is unsafe. */
  lemma NotSafeBefore(t: Track, e: Event, hz: nat)
    requires Near(t, e) && !Disorders(t.r, e) && !Safe(TrackNext(t, e, hz), hz)
    ensures !Safe(t, hz)
  {
    hide RegularRun, TrackRun, Near, Disorders, TrackNext;
    var u := TrackNext(t, e, hz);
    var es :| RegularRun(u, es, hz) && !InOrderAfter(u, es, hz);
    RunsUnfold(t, e, es, hz);
    assert !InOrderAfter(t, [e] + es, hz);
  }

  /** The frame with number `lastU + 1` arrives: it is delivered at once. */
  lemma NextArrives(t: Track, f: Frame, hz: nat)
    requires t.r.last != RESET_RCV_SEQ && t.r.last == Wrap(t.lastU) && f.number == t.lastU + 1
    ensures Near(t, Arrival(f, 0)) && !Disorders(t.r, Arrival(f, 0))
    ensures var u := TrackNext(t, Arrival(f, 0), hz);
            && u.start == t.start
            && u.r == DrainInOrder(Deliver(t.r.(atTimer := 0, last := Sn(f)), f))
  {
    hide Ahead, Wrap, Smaller, StepOne, DrainInOrder;
    StepOneIsSuccessor(f.number, t.lastU);
    assert Classify(t.r, f) == InOrder && Classify(t.r.(atTimer := 0), f) == InOrder;
  }

  lemma DrainExtends(r: Rx)
    ensures r.up <= DrainInOrder(r).up
  {
    hide LeadInOrder, Sn;
  }

  /** A frame passed up again, or after a later one. */
  lemma RepeatBreaks(log: seq<Frame>, start: nat, i: nat, j: nat)
    requires start <= i < j < |log| && log[i].number >= log[j].number
    ensures !Ascending(log, start)
  {
  }

  /** A request that starts at a held frame: the retransmission of that frame is passed up again. */
  lemma BarUnsafe(t: Track, number: int, hz: nat)
    requires Live(t, 2) && Near(t, Bar(number)) && Disorders(t.r, Bar(number))
    ensures !Safe(TrackNext(t, Bar(number), hz), hz)
  {
    hide Ahead, Wrap, Smaller, StepOne, Safe, LeadLe, DrainInOrder;
    LiveFacts(t, 2);
    BarIsDrop(t, number);
    SmallerIsOrder(t.lastU, number);
    var x := Wrap(number);
    var u := TrackNext(t, Bar(number), hz);
    MovedBy(t.lastU, number - 1 - t.lastU);
    assert u.r == DropLe(t.r, x).(last := Wrap(number - 1)) && u.lastU == number - 1 && u.start == t.start;
    BarRepeats(t, number);
    if !Ascending(u.r.up, u.start) {
      NotSafeNow(u, hz);
    } else {
      var i :| u.start <= i < |u.r.up| && u.r.up[i].number > number - 1;
      var f := Frame(0, number, 0, false, false);
      NextArrives(u, f, hz);
      var v := TrackNext(u, Arrival(f, 0), hz);
      var delivered := Deliver(u.r.(atTimer := 0, last := Sn(f)), f);
      DrainExtends(delivered);
      assert v.r.up[i] == u.r.up[i] && v.r.up[|u.r.up|] == f;
      RepeatBreaks(v.r.up, v.start, i, |u.r.up|);
      NotSafeNow(v, hz);
      NotSafeBefore(u, Arrival(f, 0), hz);
    }
  }

  /** The head of the list is the successor of the last number. */
  ghost predicate Stranded(t: Track) {
    && t.r.last != RESET_RCV_SEQ && t.r.last == Wrap(t.lastU) && t.start <= |t.r.up|
    && t.r.held != [] && t.r.held[0].number == t.lastU + 1
  }

  /** A stranded successor: its retransmission is passed up, and then, by the next flush, its first copy. */
  lemma StrandedUnsafe(t: Track, hz: nat)
    requires Stranded(t)
    ensures !Safe(t, hz)
  {
    hide Ahead, Wrap, Smaller, StepOne, Safe;
    var g := t.r.held[0];
    NextArrives(t, g, hz);
    var u := TrackNext(t, Arrival(g, 0), hz);
    assert !StepOne(Sn(g), Sn(g)) by { NotOwnSuccessor(Sn(g)); }
    assert u.r.held == t.r.held && u.r.up == t.r.up + [g] && u.r.last == Sn(g) != RESET_RCV_SEQ;
    var v := TrackNext(u, AddBa(0, 0), hz);
    assert v.r.up == u.r.up + t.r.held && v.start == t.start;
    assert v.r.up[|t.r.up|] == g && v.r.up[|t.r.up| + 1] == g;
    RepeatBreaks(v.r.up, v.start, |t.r.up|, |t.r.up| + 1);
    NotSafeNow(v, hz);
    NotSafeBefore(u, AddBa(0, 0), hz);
    NotSafeBefore(t, Arrival(g, 0), hz);
  }

  lemma NotOwnSuccessor(s: nat)
    ensures !StepOne(s, s)
  {
  }

  /** A frame that is passed up although its successor is held strands the successor. */
  lemma FallbackStrandsHead(t: Track, f: Frame)
    requires Live(t, 2) && f.number == t.lastU + At(f, t.r.last) && 2 <= At(f, t.r.last) <= t.r.win
    requires !Holds(t.r, Sn(f)) && Holds(t.r, Wrap(Sn(f) + 1))
    ensures Stranded(Track(Fallback(t.r, f), f.number, t.start))
  {
    hide Ahead, Wrap, Smaller, StepOne, LeadLe;
    CutAt(t.r, f);
    var n, d := LeadLe(t.r.held, Sn(f)), At(f, t.r.last);
    var i :| 0 <= i < |t.r.held| && Sn(t.r.held[i]) == Wrap(Sn(f) + 1);
    assert n <= i && At(t.r.held[i], t.r.last) == d + 1;
    assert At(t.r.held[n], t.r.last) <= At(t.r.held[i], t.r.last);
    assert i == n;
    var r := Fallback(t.r, f);
    assert r.held == t.r.held[n..] && r.held[0] == t.r.held[n];
    WrapAhead(Sn(f), t.r.last);
    WrapOfSum(t.lastU, d);
  }

  /** An in-window frame that cannot be buffered although it or its successor is held. */
  lemma ArrivalUnsafe(t: Track, f: Frame, now: nat, hz: nat)
    requires Live(t, 2) && Near(t, Arrival(f, now)) && Disorders(t.r, Arrival(f, now))
    ensures !Safe(TrackNext(t, Arrival(f, now), hz), hz)
  {
    hide Ahead, Wrap, Smaller, StepOne, Safe, LeadLe, Live, Fallback, WindowFrom;
    LiveFacts(t, 2);
    LiveRelax(t, now);
    var t1 := t.(r := t.r.(atTimer := now));
    ClassifyByDistance(t.r, f);
    DistanceOfNumber(t.lastU, t.r.last, f);
    var d := At(f, t.r.last);
    assert Classify(t1.r, f) == InWindow && !Buffers(t1.r, f);
    var u := TrackNext(t, Arrival(f, now), hz);
    assert u.r == Fallback(t1.r, f) && u.start == t.start;
    if Holds(t.r, Sn(f)) {
      assert Holds(t1.r, Sn(f));
      FallbackRepeats(t1, f);
      NotSafeNow(u, hz);
    } else {
      assert !Holds(t1.r, Sn(f)) && Holds(t1.r, Wrap(Sn(f) + 1));
      FallbackStrandsHead(t1, f);
      FallbackLast(t1.r, f);
      WrapAhead(Sn(f), t.r.last);
      WrapOfSum(t.lastU, d);
      MovedBy(t.lastU, d);
      assert u == Track(Fallback(t1.r, f), f.number, t.start);
      StrandedUnsafe(u, hz);
    }
  }

  lemma FallbackLast(r: Rx, f: Frame)
    ensures Fallback(r, f).last == Sn(f)
  {
  }

  /** A step leaves a session that never delivers out of order, whatever regular run follows, exactly if
      it is not one of the two disordering steps. */
  lemma SafeIff(t: Track, e: Event, hz: nat)
    requires Inv(t) && Near(t, e)
    ensures Safe(TrackNext(t, e, hz), hz) <==> !Disorders(t.r, e)
  {
    hide Safe, Live, Near, TrackNext, WindowFrom;
    NextKeepsInv(t, e, hz);
    if !Disorders(t.r, e) {
      InvIsSafe(TrackNext(t, e, hz), hz);
    } else {
      if t.r.last == RESET_RCV_SEQ { NextOpensStretch(t, e, hz); }
      match e
      case Arrival(f, now) => ArrivalUnsafe(t, f, now, hz);
      case Bar(number) => BarUnsafe(t, number, hz);
    }
  }

  ghost predicate NearRun(t: Track, es: seq<Event>, hz: nat)
    decreases |es|
  {
    es == [] || (Near(t, es[0]) && NearRun(TrackNext(t, es[0], hz), es[1..], hz))
  }

  /** Safe before every step of the run and after the last. */
  ghost predicate SafeThroughout(t: Track, es: seq<Event>, hz: nat)
    decreases |es|
  {
    Safe(t, hz) && (es == [] || SafeThroughout(TrackNext(t, es[0], hz), es[1..], hz))
  }

  /** A run keeps delivery in order, at every point and for every future, exactly if it takes none of the
      two disordering steps. */
  lemma {:induction false} RunSafeIff(t: Track, es: seq<Event>, hz: nat)
    requires Inv(t) && NearRun(t, es, hz)
    ensures SafeThroughout(t, es, hz) <==> RegularRun(t, es, hz)
    decreases |es|
  {
    hide Safe, Near, Disorders, TrackNext, Inv;
    InvIsSafe(t, hz);
    if es != [] {
      SafeIff(t, es[0], hz);
      NextKeepsInv(t, es[0], hz);
      if !Disorders(t.r, es[0]) {
        RunSafeIff(TrackNext(t, es[0], hz), es[1..], hz);
      } else {
        assert !SafeThroughout(TrackNext(t, es[0], hz), es[1..], hz);
      }
    }
  }
}

/** What the reordering machine keeps over whole runs. */
module ReorderProofs {
  import opened SequenceNumbers
  import opened ReorderSpec

  /** Distance of a frame from `base`, modulo 4096. */
  function At(f: Frame, base: int): nat {
    Ahead(Sn(f), base)
  }

  /** Strictly ascending distances, all within `lo..hi`. */
  ghost predicate Ordered(held: seq<Frame>, base: int, lo: int, hi: int) {
    && (forall i | 0 <= i < |held| :: lo <= At(held[i], base) <= hi)
    && (forall i, j | 0 <= i < j < |held| :: At(held[i], base) < At(held[j], base))
  }

  /** The window invariant, with the least distance a held frame may have. */
  ghost predicate WindowFrom(r: Rx, lo: nat) {
    && 1 <= r.win <= 255
    && (r.last == RESET_RCV_SEQ ==> r.held == [])
    && (r.last != RESET_RCV_SEQ ==> r.last <= MAXSEQ && Ordered(r.held, r.last, lo, r.win))
  }

  /** Every held number is 2..win ahead of the last indicated one, in ascending order. */
  ghost predicate Window(r: Rx) {
    WindowFrom(r, 2)
  }

  /** An `Enqueue` step that neither runs out of blocks nor gets an EAPOL frame. */
  predicate Buffers(r: Rx, f: Frame) {
    r.free > 0 && !f.eapol
  }

  predicate Holds(r: Rx, s: nat) {
    exists i :: 0 <= i < |r.held| && Sn(r.held[i]) == s
  }

  /** The one arrival that breaks the window: an in-window frame that cannot be buffered is passed up
      at once while its successor is held, and nothing drains the successor. */
  predicate StrandsSuccessor(r: Rx, f: Frame) {
    Classify(r, f) == InWindow && !Buffers(r, f) && Holds(r, Wrap(Sn(f) + 1))
  }

  // ----- the scans, in terms of distances -----

  lemma {:induction false} AscendingBound(held: seq<Frame>, base: int, lo: nat, hi: nat)
    requires Ordered(held, base, lo, hi)
    ensures forall i | 0 <= i < |held| :: At(held[i], base) >= lo + i
    ensures |held| == 0 || |held| <= hi - lo + 1
  {
    hide Ahead, Wrap, Smaller, StepOne;
    if |held| > 1 {
      var init := held[..|held| - 1];
      AscendingBound(init, base, lo, hi);
      assert At(held[|held| - 1], base) > At(init[|init| - 1], base);
      forall i | 0 <= i < |held| ensures At(held[i], base) >= lo + i {
        if i < |init| { assert held[i] == init[i]; }
      }
    }
    if held != [] { assert lo + |held| - 1 <= At(held[|held| - 1], base) <= hi; }
  }

  lemma SmallerByDistance(f: Frame, base: int, d: nat)
    requires d <= MAXSEQ
    requires -0x800 <= At(f, base) - d < 0x800
    ensures Smaller(Sn(f), Wrap(base + d)) <==> At(f, base) < d
    ensures Sn(f) == Wrap(base + d) <==> At(f, base) == d
  {
    hide Ahead, Wrap, Smaller, StepOne;
    WrapAhead(Sn(f), base);
    SmallerIsOrder(base + At(f, base), base + d);
    AheadOfCounter(base + d, base);
  }

  /** `LeadLe` cuts an ordered list exactly at distance `d`. */
  lemma {:induction false} LeadLeCuts(held: seq<Frame>, base: int, lo: nat, hi: nat, d: nat)
    requires Ordered(held, base, lo, hi) && hi < 0x800 && d <= lo + 0x800 && d < 0x1000
    ensures var n := LeadLe(held, Wrap(base + d));
            && (forall i | 0 <= i < n :: At(held[i], base) <= d)
            && (forall i | n <= i < |held| :: At(held[i], base) > d)
  {
    hide Ahead, Wrap, Smaller, StepOne;
    if held != [] {
      SmallerByDistance(held[0], base, d);
      if At(held[0], base) <= d {
        LeadLeCuts(held[1..], base, lo, hi, d);
        var n := LeadLe(held[1..], Wrap(base + d));
        assert forall i | 1 <= i < 1 + n :: held[i] == held[1..][i - 1];
        assert forall i | 1 + n <= i < |held| :: held[i] == held[1..][i - 1];
      }
    }
  }

  /** `LeadBefore` cuts it just below distance `d`. */
  lemma {:induction false} LeadBeforeCuts(held: seq<Frame>, base: int, lo: nat, hi: nat, d: nat)
    requires Ordered(held, base, lo, hi) && hi < 0x800 && d <= lo + 0x800 && d < 0x1000
    ensures var n := LeadBefore(held, Wrap(base + d));
            && (forall i | 0 <= i < n :: At(held[i], base) < d)
            && (forall i | n <= i < |held| :: At(held[i], base) >= d)
  {
    hide Ahead, Wrap, Smaller, StepOne;
    if held != [] {
      SmallerByDistance(held[0], base, d);
      if At(held[0], base) < d {
        LeadBeforeCuts(held[1..], base, lo, hi, d);
        var n := LeadBefore(held[1..], Wrap(base + d));
        assert forall i | 1 <= i < 1 + n :: held[i] == held[1..][i - 1];
        assert forall i | 1 + n <= i < |held| :: held[i] == held[1..][i - 1];
      }
    }
  }

  /** `LeadInOrder` takes exactly the gap-free prefix: distances d+1, d+2, ..., and then a gap. */
  lemma {:induction false} LeadInOrderCuts(held: seq<Frame>, base: int, d: nat, hi: nat)
    requires Ordered(held, base, d + 1, hi) && hi < 0x800
    ensures var n := LeadInOrder(held, Wrap(base + d));
            && (forall i | 0 <= i < n :: At(held[i], base) == d + 1 + i)
            && (forall i | n <= i < |held| :: At(held[i], base) > d + 1 + n)
  {
    hide Ahead, Wrap, Smaller, StepOne;
    if held != [] {
      WrapAhead(Sn(held[0]), base);
      StepOneIsSuccessor(base + At(held[0], base), base + d);
      if At(held[0], base) == d + 1 {
        var rest := held[1..];
        LeadInOrderCuts(rest, base, d + 1, hi);
        var n := LeadInOrder(rest, Wrap(base + d + 1));
        assert Sn(held[0]) == Wrap(base + d + 1);
        assert forall i | 1 <= i < 1 + n :: held[i] == rest[i - 1];
        assert forall i | 1 + n <= i < |held| :: held[i] == rest[i - 1];
      }
    }
  }

  // ----- steps keep the window -----

  /** A suffix whose first distance is above `d`, seen from `d` further on. */
  lemma SuffixFrom(held: seq<Frame>, n: nat, base: int, lo: nat, hi: nat, d: nat, gap: nat)
    requires Ordered(held, base, lo, hi) && n <= |held|
    requires forall i | n <= i < |held| :: At(held[i], base) >= d + gap
    ensures Ordered(held[n..], Wrap(base + d), gap, hi - d)
    ensures forall i | n <= i < |held| :: At(held[i], Wrap(base + d)) == At(held[i], base) - d
  {
    hide Ahead, Wrap, Smaller, StepOne;
    forall i | n <= i < |held| ensures At(held[i], Wrap(base + d)) == At(held[i], base) - d {
      AheadRebase(Sn(held[i]), base, d);
    }
  }

  /** Removing everything up to distance `d` and moving `last` there leaves distances from 1. */
  lemma DropToKeeps(r: Rx, d: nat)
    requires WindowFrom(r, 1) && r.last != RESET_RCV_SEQ && d <= 0x801
    ensures WindowFrom(DropLe(r, Wrap(r.last + d)).(last := Wrap(r.last + d)), 1)
  {
    hide Ahead, Wrap, Smaller, StepOne;
    var n := LeadLe(r.held, Wrap(r.last + d));
    LeadLeCuts(r.held, r.last, 1, r.win, d);
    SuffixFrom(r.held, n, r.last, 1, r.win, d, 1);
  }

  /** The in-order drain turns distances from 1 into distances from 2. */
  lemma DrainRestoresWindow(r: Rx)
    requires WindowFrom(r, 1) && r.last != RESET_RCV_SEQ
    ensures Window(DrainInOrder(r)) && DrainInOrder(r).last != RESET_RCV_SEQ
  {
    hide Ahead, Wrap, Smaller, StepOne;
    WrapSmall(r.last);
    LeadInOrderCuts(r.held, r.last, 0, r.win);
    var n := LeadInOrder(r.held, r.last);
    if n > 0 {
      WrapAhead(Sn(r.held[n - 1]), r.last);
    }
    assert DrainInOrder(r).last == Wrap(r.last + n);
    SuffixFrom(r.held, n, r.last, 1, r.win, n, 2);
  }

  lemma SkipGapKeepsWindow(r: Rx, now: nat)
    requires Window(r) && r.last != RESET_RCV_SEQ
    ensures Window(SkipGap(r, now)) && SkipGap(r, now).last != RESET_RCV_SEQ
  {
    hide Ahead, Wrap, Smaller, StepOne;
    var x := Wrap(r.last + 1);
    DropToKeeps(r, 1);
    DrainRestoresWindow(DropLe(r, x).(atTimer := now, last := x));
  }

  lemma FlushKeepsWindow(r: Rx, now: nat, hz: nat)
    requires Window(r)
    ensures Window(Flush(r, now, hz))
  {
    hide Ahead, Wrap, Smaller, StepOne;
    if r.held != [] {
      SkipGapKeepsWindow(r, now);
    }
  }

  /** The distance of an arriving frame decides its branch. */
  lemma ClassifyByDistance(r: Rx, f: Frame)
    requires 1 <= r.win <= 255 && r.last <= MAXSEQ
    ensures var d := At(f, r.last);
            Classify(r, f) ==
            if d == 1 then InOrder else if d == 0 then Duplicate
            else if d >= 0x800 then Old
            else if d <= r.win then InWindow else Beyond
  {
    hide Ahead, Wrap, Smaller, StepOne;
    var d := At(f, r.last);
    WrapAhead(Sn(f), r.last);
    WrapSmall(r.last);
    AheadOfCounter(r.last, r.last);
    StepOneIsSuccessor(r.last + d, r.last);
    if d < 0x800 {
      SmallerIsOrder(r.last + d, r.last);
      SmallerIsOrder(r.last + d, r.last + r.win + 1);
    } else {
      WrapAhead(Sn(f), r.last - 0x1000);
      WrapPeriod(r.last, Sn(f));
      SmallerIsOrder(r.last - 0x1000 + d, r.last);
    }
  }

  /** Sorted insertion keeps the order, wherever the frame falls. */
  lemma InsertKeepsOrdered(held: seq<Frame>, f: Frame, base: int, lo: nat, hi: nat)
    requires Ordered(held, base, lo, hi) && hi < 0x800 && lo <= At(f, base) <= hi
    ensures Ordered(InsertSorted(held, f), base, lo, hi)
    ensures IsDuplicate(held, f) <==> exists i :: 0 <= i < |held| && Sn(held[i]) == Sn(f)
  {
    hide Ahead, Wrap, Smaller, StepOne;
    var d := At(f, base);
    WrapAhead(Sn(f), base);
    LeadBeforeCuts(held, base, lo, hi, d);
    var p := LeadBefore(held, Sn(f));
    if p < |held| && At(held[p], base) == d {
      WrapAhead(Sn(held[p]), base);
      assert IsDuplicate(held, f);
    } else {
      assert forall i | 0 <= i < |held| :: At(held[i], base) != d;
    }
  }

  lemma BufferKeepsWindow(r: Rx, f: Frame, lo: nat)
    requires WindowFrom(r, lo) && r.last != RESET_RCV_SEQ && lo <= At(f, r.last) <= r.win && Buffers(r, f)
    ensures WindowFrom(Enqueue(r, f), lo) && Enqueue(r, f).last == r.last
  {
    hide Ahead, Wrap, Smaller, StepOne;
    InsertKeepsOrdered(r.held, f, r.last, lo, r.win);
  }

  /** The frame beyond the window becomes its upper end. */
  lemma SlidePlaces(r: Rx, f: Frame)
    requires WindowFrom(r, 1) && r.last != RESET_RCV_SEQ && r.win < At(f, r.last) < 0x800
    ensures Slide(r, f).last == Wrap(r.last + At(f, r.last) - r.win)
    ensures WindowFrom(Slide(r, f), 1) && At(f, Slide(r, f).last) == r.win && Slide(r, f).last != RESET_RCV_SEQ
  {
    hide Ahead, Wrap, Smaller, StepOne;
    var d := At(f, r.last);
    WrapAhead(Sn(f), r.last);
    WrapAhead(WinStart(Sn(f), r.win), r.last);
    AheadRebase(Sn(f), r.last, d - r.win);
    WrapMinus(r.last + d, r.win);
    DropToKeeps(r, d - r.win);
  }

  lemma WrapMinus(u: int, w: nat)
    requires w <= 255
    ensures WinStart(Wrap(u), w) == Wrap(u - w)
  {
    var q := u / 0x1000;
    assert u - w == q * 0x1000 + (Wrap(u) - w);
  }

  /** Where a frame cuts the held list, and which held frames are its equal or its successor. */
  lemma CutAt(r: Rx, f: Frame)
    requires Window(r) && r.last != RESET_RCV_SEQ && 2 <= At(f, r.last) <= r.win
    ensures var n, d := LeadLe(r.held, Sn(f)), At(f, r.last);
            && (forall i | 0 <= i < n :: At(r.held[i], r.last) <= d)
            && (forall i | n <= i < |r.held| :: At(r.held[i], r.last) >= d + 1)
            && (forall i | 0 <= i < |r.held| :: Sn(r.held[i]) == Sn(f) <==> At(r.held[i], r.last) == d)
            && (forall i | 0 <= i < |r.held| :: Sn(r.held[i]) == Wrap(Sn(f) + 1) <==> At(r.held[i], r.last) == d + 1)
  {
    hide Ahead, Wrap, Smaller, StepOne;
    var d := At(f, r.last);
    WrapAhead(Sn(f), r.last);
    WrapOfSum(r.last + d, 1);
    LeadLeCuts(r.held, r.last, 2, r.win, d);
    forall i | 0 <= i < |r.held|
      ensures Sn(r.held[i]) == Sn(f) <==> At(r.held[i], r.last) == d
      ensures Sn(r.held[i]) == Wrap(Sn(f) + 1) <==> At(r.held[i], r.last) == d + 1
    {
      SmallerByDistance(r.held[i], r.last, d);
      SmallerByDistance(r.held[i], r.last, d + 1);
    }
  }

  lemma FallbackStrands(r: Rx, f: Frame, i: nat)
    requires Window(r) && r.last != RESET_RCV_SEQ && 2 <= At(f, r.last) <= r.win
    requires i < |r.held| && Sn(r.held[i]) == Wrap(Sn(f) + 1)
    ensures !Window(Fallback(r, f))
  {
    hide Ahead, Wrap, Smaller, StepOne, LeadLe;
    var n := LeadLe(r.held, Sn(f));
    CutAt(r, f);
    WrapAhead(Sn(f), r.last);
    SuffixFrom(r.held, n, r.last, 2, r.win, At(f, r.last), 1);
    assert Fallback(r, f).held[i - n] == r.held[i];
  }

  /** A passed-up frame leaves a window exactly if its successor is not held. */
  lemma FallbackWindow(r: Rx, f: Frame)
    requires Window(r) && r.last != RESET_RCV_SEQ && 2 <= At(f, r.last) <= r.win
    ensures Window(Fallback(r, f)) <==> !Holds(r, Wrap(Sn(f) + 1))
  {
    hide Ahead, Wrap, Smaller, StepOne, LeadLe;
    if Holds(r, Wrap(Sn(f) + 1)) {
      var i :| 0 <= i < |r.held| && Sn(r.held[i]) == Wrap(Sn(f) + 1);
      FallbackStrands(r, f, i);
    } else {
      CutAt(r, f);
      WrapAhead(Sn(f), r.last);
      SuffixFrom(r.held, LeadLe(r.held, Sn(f)), r.last, 2, r.win, At(f, r.last), 2);
    }
  }

  /** A frame beyond the window that cannot be buffered flushes the whole list before it. */
  lemma FallbackBeyond(r: Rx, f: Frame)
    requires WindowFrom(r, 1) && r.last != RESET_RCV_SEQ && At(f, r.last) == r.win
    ensures Fallback(r, f).held == [] && LeadLe(r.held, Sn(f)) == |r.held|
    ensures Window(Fallback(r, f)) && DrainInOrder(Fallback(r, f)) == Fallback(r, f)
  {
    hide Ahead, Wrap, Smaller, StepOne;
    WrapAhead(Sn(f), r.last);
    LeadLeCuts(r.held, r.last, 1, r.win, r.win);
    var n := LeadLe(r.held, Sn(f));
    if r.held != [] { assert At(r.held[|r.held| - 1], r.last) <= r.win; }
  }

  lemma BeyondKeepsWindow(r: Rx, f: Frame)
    requires Window(r) && r.last != RESET_RCV_SEQ && r.win < At(f, r.last) < 0x800
    ensures Window(DrainInOrder(Enqueue(Slide(r, f), f)))
    ensures DrainInOrder(Enqueue(Slide(r, f), f)).last != RESET_RCV_SEQ
  {
    hide Ahead, Wrap, Smaller, StepOne;
    SlidePlaces(r, f);
    var r1 := Slide(r, f);
    if Buffers(r1, f) {
      BufferKeepsWindow(r1, f, 1);
      DrainRestoresWindow(Enqueue(r1, f));
    } else {
      FallbackBeyond(r1, f);
    }
  }

  /** An arrival keeps the window exactly if it does not strand a held successor. */
  lemma ArriveKeepsWindow(r: Rx, f: Frame, now: nat)
    requires Window(r)
    ensures Window(Arrive(r, f, now)) <==> !StrandsSuccessor(r, f)
    ensures Arrive(r, f, now).last != RESET_RCV_SEQ
  {
    hide Ahead, Wrap, Smaller, StepOne;
    var r1 := r.(atTimer := now);
    assert Classify(r1, f) == Classify(r, f);
    if r.last != RESET_RCV_SEQ {
      ClassifyByDistance(r1, f);
      match Classify(r1, f)
      case InOrder =>
        WrapAhead(Sn(f), r.last);
        SuffixFrom(r1.held, 0, r1.last, 2, r1.win, 1, 1);
        assert r1.held[0..] == r1.held;
        DrainRestoresWindow(Deliver(r1.(last := Sn(f)), f));
      case InWindow =>
        if Buffers(r1, f) { BufferKeepsWindow(r1, f, 2); } else { FallbackWindow(r1, f); }
      case Beyond =>
        BeyondKeepsWindow(r1, f);
      case _ =>
    }
  }

  /** The length check inside the enqueue step (common/ba_action.c:1601): at most the window. */
  lemma EnqueueLengthBounded(r: Rx, f: Frame)
    requires Window(r)
    ensures Classify(r, f) == InWindow && Buffers(r, f) ==> |Enqueue(r, f).held| <= r.win
    ensures Classify(r, f) == Beyond && Buffers(Slide(r, f), f) ==> |Enqueue(Slide(r, f), f).held| <= r.win
  {
    hide Ahead, Wrap, Smaller, StepOne;
    if r.last != RESET_RCV_SEQ {
      ClassifyByDistance(r, f);
      match Classify(r, f)
      case InWindow =>
        if Buffers(r, f) {
          BufferKeepsWindow(r, f, 2);
          AscendingBound(Enqueue(r, f).held, r.last, 2, r.win);
        }
      case Beyond =>
        SlidePlaces(r, f);
        if Buffers(Slide(r, f), f) {
          BufferKeepsWindow(Slide(r, f), f, 1);
          AscendingBound(Enqueue(Slide(r, f), f).held, Slide(r, f).last, 1, r.win);
        }
      case _ =>
    }
  }

  lemma DropBelowKeeps(r: Rx, d: nat)
    requires Window(r) && r.last != RESET_RCV_SEQ && 1 <= d <= 0x800
    ensures Window(DropLe(r, Wrap(r.last + d)).(last := Wrap(r.last + d - 1)))
  {
    hide Ahead, Wrap, Smaller, StepOne, LeadLe;
    var n := LeadLe(r.held, Wrap(r.last + d));
    LeadLeCuts(r.held, r.last, 2, r.win, d);
    SuffixFrom(r.held, n, r.last, 2, r.win, d - 1, 2);
  }

  lemma BarKeepsWindow(r: Rx, start: nat)
    requires Window(r) && start <= MAXSEQ
    ensures Window(BlockAckRequest(r, start))
  {
    hide Ahead, Wrap, Smaller, StepOne;
    if BarAdvances(r, start) && r.last != RESET_RCV_SEQ {
      BarDistance(r.last, start);
      DropBelowKeeps(r, Ahead(start, r.last));
    }
  }

  /** An accepted block-ack request moves `last` forward by its distance minus one. */
  lemma BarDistance(last: nat, start: nat)
    requires last <= MAXSEQ && start <= MAXSEQ && Smaller(last, start)
    ensures 1 <= Ahead(start, last) <= 0x800
    ensures Wrap(last + Ahead(start, last)) == start
    ensures Wrap(last + Ahead(start, last) - 1) == if start == 0 then MAXSEQ else start - 1
  {
    hide Ahead, Wrap, Smaller, StepOne;
    SmallerDistance(last, start);
    WrapAhead(start, last);
    WrapPredecessor(last + Ahead(start, last));
  }

  predicate Admissible(r: Rx, e: Event) {
    e.Arrival? ==> !StrandsSuccessor(r, e.f)
  }

  predicate AdmissibleRun(r: Rx, es: seq<Event>, hz: nat)
    decreases |es|
  {
    es == [] || (Admissible(r, es[0]) && AdmissibleRun(Next(r, es[0], hz), es[1..], hz))
  }

  lemma NextKeepsWindow(r: Rx, e: Event, hz: nat)
    requires Window(r)
    ensures Window(Next(r, e, hz)) <==> Admissible(r, e)
  {
    hide Ahead, Wrap, Smaller, StepOne;
    match e
    case Timeout(now) => FlushKeepsWindow(r, now, hz);
    case Arrival(f, now) => ArriveKeepsWindow(r, f, now);
    case Bar(number) => BarKeepsWindow(r, Wrap(number));
    case _ =>
  }

  /** `Indicate_AMPDU_Packet` is the steps a run takes for its frame. */
  lemma IndicateIsSteps(r: Rx, f: Frame, now: nat, hz: nat)
    ensures Indicate(r, f, now, hz) == Run(r, StepsOf(f, now), hz)
  {
    hide Flush, Arrive;
    if !TooLong(f) {
      assert StepsOf(f, now)[1..] == [Arrival(f, now)];
      var r1 := Flush(r, now, hz);
      assert Run(r1, [Arrival(f, now)], hz) == Run(Arrive(r1, f, now), [], hz);
    } else {
      assert Run(r, [Oversize(f)], hz) == Run(Release(r, f), [], hz);
    }
  }

  /** In every reachable state the list is sorted, duplicate-free, inside the window, and shorter
      than the window; a reset session holds nothing. */
  lemma {:induction false} RunKeepsWindow(r: Rx, es: seq<Event>, hz: nat)
    requires Window(r) && AdmissibleRun(r, es, hz)
    ensures Window(Run(r, es, hz)) && |Run(r, es, hz).held| < Run(r, es, hz).win
    decreases |es|
  {
    hide Ahead, Wrap, Smaller, StepOne;
    if es == [] {
      if r.held != [] { AscendingBound(r.held, r.last, 2, r.win); }
    } else {
      NextKeepsWindow(r, es[0], hz);
      RunKeepsWindow(Next(r, es[0], hz), es[1..], hz);
    }
  }
}

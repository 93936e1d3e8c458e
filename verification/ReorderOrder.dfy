/** In-order delivery: what is passed up between two resets ascends in the transmitter's own numbering. */
module ReorderOrder {
  import opened SequenceNumbers
  import opened ReorderSpec
  import opened ReorderProofs

  /** The session with the unbounded form of `last`, and where in the log the current reset-free
      stretch begins. */
  datatype Track = Track(r: Rx, lastU: int, start: nat)

  ghost predicate Ascending(log: seq<Frame>, start: nat) {
    forall i, j | start <= i < j < |log| :: log[i].number < log[j].number
  }

  /** Passed up since `start`: ascending, and nothing beyond `limit`. */
  ghost predicate Sent(log: seq<Frame>, start: nat, limit: int) {
    start <= |log| && Ascending(log, start) && forall i | start <= i < |log| :: log[i].number <= limit
  }

  /** Held frames carry the number their wrapped form stands for. */
  ghost predicate Numbered(r: Rx, lastU: int) {
    Wrap(lastU) == r.last && forall i | 0 <= i < |r.held| :: r.held[i].number == lastU + At(r.held[i], r.last)
  }

  ghost predicate Live(t: Track, lo: nat) {
    && WindowFrom(t.r, lo) && t.r.last != RESET_RCV_SEQ
    && Numbered(t.r, t.lastU) && Sent(t.r.up, t.start, t.lastU)
  }

  ghost predicate Inv(t: Track) {
    if t.r.last == RESET_RCV_SEQ then Window(t.r) && t.start <= |t.r.up| && Ascending(t.r.up, t.start)
    else Live(t, 2)
  }

  /** The transmitter's side of the bargain: numbers reach the receiver within half the space of `last`. */
  predicate Near(t: Track, e: Event) {
    t.r.last != RESET_RCV_SEQ ==>
      && (e.Arrival? ==> -0x800 <= e.f.number - t.lastU < 0x800)
      && (e.Bar? ==> -0x800 <= t.lastU - e.number < 0x800)
  }

  /** The two steps that repeat or overtake a held frame: a frame that cannot be buffered although
      it or its successor is held, and a block-ack request that starts at a held frame. */
  predicate Disorders(r: Rx, e: Event) {
    || (e.Arrival? && Classify(r, e.f) == InWindow && !Buffers(r, e.f)
          && (Holds(r, Sn(e.f)) || Holds(r, Wrap(Sn(e.f) + 1))))
    || (e.Bar? && BarAdvances(r, Wrap(e.number)) && Holds(r, Wrap(e.number)))
  }

  /** A step from a reset session that sets `last` opens a new stretch. */
  function TrackNext(t: Track, e: Event, hz: nat): Track {
    var r := Next(t.r, e, hz);
    if t.r.last == RESET_RCV_SEQ && r.last != RESET_RCV_SEQ then
      Track(r, if e.Arrival? then e.f.number else if e.Bar? then e.number - 1 else t.lastU, |t.r.up|)
    else
      Track(r, t.lastU + Ahead(r.last, t.lastU), t.start)
  }

  function TrackRun(t: Track, es: seq<Event>, hz: nat): Track
    decreases |es|
  {
    if es == [] then t else TrackRun(TrackNext(t, es[0], hz), es[1..], hz)
  }

  ghost predicate RegularRun(t: Track, es: seq<Event>, hz: nat)
    decreases |es|
  {
    es == [] || (Near(t, es[0]) && !Disorders(t.r, es[0]) && RegularRun(TrackNext(t, es[0], hz), es[1..], hz))
  }

  // ----- steps on a live session -----

  /** Passing up a prefix extends the ascending log up to the last frame of the prefix. */
  lemma PassUpSends(t: Track, lo: nat, n: nat, limit: int)
    requires Live(t, lo) && lo > 0 && n <= |t.r.held| && t.lastU <= limit
    requires forall i | 0 <= i < n :: t.r.held[i].number <= limit
    ensures Sent(PassUp(t.r, n).up, t.start, limit)
  {
    hide Ahead, Wrap, Smaller, StepOne;
  }

  /** Only `last`, the window, the list and the log matter; the time stamp does not. */
  lemma LiveRelax(t: Track, now: nat)
    requires Live(t, 2)
    ensures Live(t.(r := t.r.(atTimer := now)), 1) && Live(t.(r := t.r.(atTimer := now)), 2)
  {
    hide Ahead, Wrap, Smaller, StepOne;
  }

  lemma LiveFacts(t: Track, lo: nat)
    requires Live(t, lo)
    ensures t.r.last != RESET_RCV_SEQ && WindowFrom(t.r, lo) && 1 <= t.r.win <= 255 && Wrap(t.lastU) == t.r.last
  {
  }

  /** Passing up a prefix and moving `last` forward by `d`: the one step all removals share. */
  lemma PassUpTracks(t: Track, lo: nat, n: nat, d: nat, gap: nat)
    requires Live(t, lo) && lo > 0 && n <= |t.r.held|
    requires forall i | 0 <= i < n :: At(t.r.held[i], t.r.last) <= d
    requires forall i | n <= i < |t.r.held| :: At(t.r.held[i], t.r.last) >= d + gap
    ensures Live(Track(PassUp(t.r, n).(last := Wrap(t.r.last + d)), t.lastU + d, t.start), gap)
  {
    hide Ahead, Wrap, Smaller, StepOne;
    SuffixFrom(t.r.held, n, t.r.last, lo, t.r.win, d, gap);
    PassUpSends(t, lo, n, t.lastU + d);
    WrapOfSum(t.lastU, d);
    PassUpNumbered(t, n, d);
    OrderedWiden(t.r.held[n..], Wrap(t.r.last + d), gap, t.r.win - d, t.r.win);
  }

  lemma OrderedWiden(held: seq<Frame>, base: int, lo: int, hi: int, hi': int)
    requires Ordered(held, base, lo, hi) && hi <= hi'
    ensures Ordered(held, base, lo, hi')
  {
    hide Ahead, Wrap, Smaller, StepOne;
  }

  lemma PassUpNumbered(t: Track, n: nat, d: nat)
    requires Numbered(t.r, t.lastU) && n <= |t.r.held|
    requires forall i | n <= i < |t.r.held| :: At(t.r.held[i], Wrap(t.r.last + d)) == At(t.r.held[i], t.r.last) - d
    ensures Numbered(PassUp(t.r, n).(last := Wrap(t.r.last + d)), t.lastU + d)
  {
    hide Ahead, Wrap, Smaller, StepOne;
    WrapOfSum(t.lastU, d);
  }

  lemma DropToTracks(t: Track, d: nat)
    requires Live(t, 1) && d <= 0x801
    ensures var x := Wrap(t.r.last + d);
            Live(Track(DropLe(t.r, x).(last := x), t.lastU + d, t.start), 1)
  {
    hide Ahead, Wrap, Smaller, StepOne;
    LeadLeCuts(t.r.held, t.r.last, 1, t.r.win, d);
    PassUpTracks(t, 1, LeadLe(t.r.held, Wrap(t.r.last + d)), d, 1);
  }

  lemma DrainIsPassUp(r: Rx)
    requires WindowFrom(r, 1) && r.last != RESET_RCV_SEQ
    ensures var n := LeadInOrder(r.held, r.last);
            && DrainInOrder(r) == PassUp(r, n).(last := Wrap(r.last + n))
            && (forall i | 0 <= i < n :: At(r.held[i], r.last) <= n)
            && (forall i | n <= i < |r.held| :: At(r.held[i], r.last) >= n + 2)
  {
    hide Ahead, Wrap, Smaller, StepOne;
    var n := LeadInOrder(r.held, r.last);
    WrapSmall(r.last);
    LeadInOrderCuts(r.held, r.last, 0, r.win);
    if n > 0 { WrapAhead(Sn(r.held[n - 1]), r.last); }
  }

  lemma DrainTracks(t: Track)
    requires Live(t, 1)
    ensures Live(Track(DrainInOrder(t.r), t.lastU + LeadInOrder(t.r.held, t.r.last), t.start), 2)
  {
    hide Ahead, Wrap, Smaller, StepOne;
    var n := LeadInOrder(t.r.held, t.r.last);
    DrainIsPassUp(t.r);
    PassUpTracks(t, 1, n, n, 2);
  }

  lemma LeadInOrderShort(r: Rx, lo: nat)
    requires WindowFrom(r, lo) && r.last != RESET_RCV_SEQ && lo > 0
    ensures LeadInOrder(r.held, r.last) <= r.win
  {
    hide Ahead, Wrap, Smaller, StepOne;
    if r.held != [] { AscendingBound(r.held, r.last, lo, r.win); }
  }

  lemma DeliverTracks(t: Track, f: Frame)
    requires Live(t, 2) && f.number == t.lastU + 1
    ensures Live(Track(Deliver(t.r.(last := Sn(f)), f), t.lastU + 1, t.start), 1)
  {
    hide Ahead, Wrap, Smaller, StepOne;
    SuffixFrom(t.r.held, 0, t.r.last, 2, t.r.win, 1, 1);
    assert t.r.held[0..] == t.r.held;
    WrapOfSum(t.lastU, 1);
  }

  lemma BufferTracks(t: Track, f: Frame, lo: nat)
    requires Live(t, lo) && lo > 0 && Buffers(t.r, f)
    requires f.number == t.lastU + At(f, t.r.last) && lo <= At(f, t.r.last) <= t.r.win
    ensures Live(Track(Enqueue(t.r, f), t.lastU, t.start), lo)
  {
    hide Ahead, Wrap, Smaller, StepOne;
    BufferKeepsWindow(t.r, f, lo);
  }

  /** Number and distance agree for a frame in the forward half. */
  lemma DistanceOfNumber(lastU: int, last: nat, f: Frame)
    requires Wrap(lastU) == last && -0x800 <= f.number - lastU < 0x800
    ensures f.number >= lastU ==> At(f, last) == f.number - lastU
    ensures f.number < lastU ==> At(f, last) >= 0x800
  {
    hide Ahead, Wrap, Smaller, StepOne;
    if f.number >= lastU {
      AheadOfCounter(f.number, lastU);
    } else {
      AheadOfCounter(f.number, lastU - 0x1000);
      WrapPeriod(lastU, Sn(f));
      WrapPeriod(last, Sn(f));
    }
  }

  lemma SlideTracks(t: Track, f: Frame)
    requires Live(t, 2) && f.number == t.lastU + At(f, t.r.last) && t.r.win < At(f, t.r.last) < 0x800
    ensures var d := At(f, t.r.last) - t.r.win;
            && Live(Track(Slide(t.r, f), t.lastU + d, t.start), 1)
            && At(f, Slide(t.r, f).last) == t.r.win
  {
    hide Ahead, Wrap, Smaller, StepOne;
    SlidePlaces(t.r, f);
    DropToTracks(t, At(f, t.r.last) - t.r.win);
  }

  /** The unbounded form of `last` follows from how far `last` moved. */
  lemma MovedBy(lastU: int, moved: nat)
    requires moved < 0x1000
    ensures lastU + Ahead(Wrap(lastU + moved), lastU) == lastU + moved
  {
    hide Ahead, Wrap, Smaller, StepOne;
    AheadOfCounter(lastU + moved, lastU);
  }

  lemma InOrderTracks(t: Track, f: Frame)
    requires Live(t, 2) && f.number == t.lastU + 1
    ensures var r := DrainInOrder(Deliver(t.r.(last := Sn(f)), f));
            Live(Track(r, t.lastU + Ahead(r.last, t.lastU), t.start), 2)
  {
    hide Ahead, Wrap, Smaller, StepOne;
    hide Live, WindowFrom, LeadInOrder, LeadLe;
    LiveFacts(t, 2);
    DeliverTracks(t, f);
    var t1 := Track(Deliver(t.r.(last := Sn(f)), f), t.lastU + 1, t.start);
    LiveFacts(t1, 1);
    DrainTracks(t1);
    LiveFacts(Track(DrainInOrder(t1.r), t1.lastU + LeadInOrder(t1.r.held, t1.r.last), t.start), 2);
    LeadInOrderShort(t1.r, 1);
    MovedBy(t.lastU, 1 + LeadInOrder(t1.r.held, t1.r.last));
  }

  lemma FallbackBeyondTracks(t: Track, f: Frame)
    requires Live(t, 1) && f.number == t.lastU + At(f, t.r.last) && At(f, t.r.last) == t.r.win
    requires forall i | 0 <= i < |t.r.held| :: t.r.held[i].number < f.number
    ensures Live(Track(DrainInOrder(Fallback(t.r, f)), f.number, t.start), 2)
  {
    hide Ahead, Wrap, Smaller, StepOne, LeadLe;
    FallbackBeyond(t.r, f);
    PassUpSends(t, 1, |t.r.held|, f.number - 1);
  }

  lemma SlideLeavesEarlier(t: Track, f: Frame)
    requires Live(t, 2) && f.number == t.lastU + At(f, t.r.last) && t.r.win < At(f, t.r.last)
    ensures forall i | 0 <= i < |Slide(t.r, f).held| :: Slide(t.r, f).held[i].number < f.number
  {
    hide Ahead, Wrap, Smaller, StepOne, LeadLe, WinStart;
  }

  lemma BeyondTracks(t: Track, f: Frame)
    requires Live(t, 2) && f.number == t.lastU + At(f, t.r.last) && t.r.win < At(f, t.r.last) < 0x800
    ensures var r := DrainInOrder(Enqueue(Slide(t.r, f), f));
            Live(Track(r, t.lastU + Ahead(r.last, t.lastU), t.start), 2)
  {
    hide Ahead, Wrap, Smaller, StepOne;
    hide Live, WindowFrom, LeadInOrder, LeadLe, InsertSorted, IsDuplicate, WinStart;
    LiveFacts(t, 2);
    var d := At(f, t.r.last) - t.r.win;
    SlideTracks(t, f);
    var t1 := Track(Slide(t.r, f), t.lastU + d, t.start);
    LiveFacts(t1, 1);
    if Buffers(t1.r, f) {
      BufferTracks(t1, f, 1);
      var t2 := Track(Enqueue(t1.r, f), t1.lastU, t.start);
      LiveFacts(t2, 1);
      DrainTracks(t2);
      LiveFacts(Track(DrainInOrder(t2.r), t2.lastU + LeadInOrder(t2.r.held, t2.r.last), t.start), 2);
      LeadInOrderShort(t2.r, 1);
      MovedBy(t.lastU, d + LeadInOrder(t2.r.held, t2.r.last));
    } else {
      SlideLeavesEarlier(t, f);
      FallbackBeyondTracks(t1, f);
      LiveFacts(Track(DrainInOrder(Fallback(t1.r, f)), f.number, t.start), 2);
      MovedBy(t.lastU, At(f, t.r.last));
    }
  }

  lemma FallbackRepeats(t: Track, f: Frame)
    requires Live(t, 2) && f.number == t.lastU + At(f, t.r.last) && 2 <= At(f, t.r.last) <= t.r.win
    requires Holds(t.r, Sn(f))
    ensures !Ascending(Fallback(t.r, f).up, t.start)
  {
    hide Ahead, Wrap, Smaller, StepOne, LeadLe;
    CutAt(t.r, f);
    var n := LeadLe(t.r.held, Sn(f));
    var i :| 0 <= i < |t.r.held| && Sn(t.r.held[i]) == Sn(f);
    var up := Fallback(t.r, f).up;
    assert up == t.r.up + t.r.held[..n] + [f];
    assert up[|t.r.up| + i] == t.r.held[i] && up[|t.r.up| + n] == f;
  }

  lemma FallbackKeepsOrder(t: Track, f: Frame)
    requires Live(t, 2) && f.number == t.lastU + At(f, t.r.last) && 2 <= At(f, t.r.last) <= t.r.win
    requires !Holds(t.r, Sn(f)) && !Holds(t.r, Wrap(Sn(f) + 1))
    ensures Live(Track(Fallback(t.r, f), f.number, t.start), 2)
  {
    hide Ahead, Wrap, Smaller, StepOne, LeadLe;
    var d := At(f, t.r.last);
    CutAt(t.r, f);
    WrapAhead(Sn(f), t.r.last);
    var n := LeadLe(t.r.held, Sn(f));
    PassUpTracks(t, 2, n, d, 2);
    PassUpSends(t, 2, n, t.lastU + d - 1);
  }

  /** A passed-up in-window frame keeps the order invariant exactly if neither it nor its successor is
      held. */
  lemma FallbackTracks(t: Track, f: Frame)
    requires Live(t, 2) && f.number == t.lastU + At(f, t.r.last) && 2 <= At(f, t.r.last) <= t.r.win
    ensures Live(Track(Fallback(t.r, f), f.number, t.start), 2)
            <==> !Holds(t.r, Sn(f)) && !Holds(t.r, Wrap(Sn(f) + 1))
  {
    hide Ahead, Wrap, Smaller, StepOne, LeadLe;
    FallbackWindow(t.r, f);
    if Holds(t.r, Sn(f)) {
      FallbackRepeats(t, f);
    } else if !Holds(t.r, Wrap(Sn(f) + 1)) {
      FallbackKeepsOrder(t, f);
    }
  }

  lemma InWindowTracks(t: Track, f: Frame)
    requires Live(t, 2) && f.number == t.lastU + At(f, t.r.last) && 2 <= At(f, t.r.last) <= t.r.win
    ensures var r := Enqueue(t.r, f);
            Live(Track(r, t.lastU + Ahead(r.last, t.lastU), t.start), 2)
            <==> (!Buffers(t.r, f) ==> !Holds(t.r, Sn(f)) && !Holds(t.r, Wrap(Sn(f) + 1)))
  {
    hide Ahead, Wrap, Smaller, StepOne, Live, LeadLe, WindowFrom, InsertSorted, IsDuplicate;
    LiveFacts(t, 2);
    if Buffers(t.r, f) {
      BufferTracks(t, f, 2);
      LiveFacts(Track(Enqueue(t.r, f), t.lastU, t.start), 2);
      MovedBy(t.lastU, 0);
    } else {
      FallbackTracks(t, f);
      WrapAhead(Sn(f), t.r.last);
      WrapOfSum(t.lastU, At(f, t.r.last));
      MovedBy(t.lastU, At(f, t.r.last));
    }
  }

  lemma ArriveTracks(t: Track, f: Frame, now: nat, hz: nat)
    requires Live(t, 2) && Near(t, Arrival(f, now))
    ensures Inv(TrackNext(t, Arrival(f, now), hz)) <==> !Disorders(t.r, Arrival(f, now))
  {
    hide Ahead, Wrap, Smaller, StepOne, LeadLe, Live, WindowFrom, DrainInOrder, Enqueue, Slide;
    var t1 := t.(r := t.r.(atTimer := now));
    LiveFacts(t, 2);
    LiveRelax(t, now);
    ArriveKeepsWindow(t.r, f, now);
    assert Classify(t1.r, f) == Classify(t.r, f);
    ClassifyByDistance(t1.r, f);
    DistanceOfNumber(t.lastU, t.r.last, f);
    match Classify(t1.r, f)
    case InOrder => InOrderTracks(t1, f);
    case InWindow => InWindowTracks(t1, f);
    case Beyond => BeyondTracks(t1, f);
    case _ => ReleaseTracks(t1, f);
  }

  lemma ReleaseTracks(t: Track, f: Frame)
    requires Live(t, 2)
    ensures var r := Release(t.r.(drops := t.r.drops + 1), f);
            Live(Track(r, t.lastU + Ahead(r.last, t.lastU), t.start), 2)
  {
    hide Ahead, Wrap, Smaller, StepOne;
    MovedBy(t.lastU, 0);
  }

  lemma SkipGapTracks(t: Track, now: nat)
    requires Live(t, 2)
    ensures var r := SkipGap(t.r, now); Live(Track(r, t.lastU + Ahead(r.last, t.lastU), t.start), 2)
  {
    hide Ahead, Wrap, Smaller, StepOne;
    hide Live, WindowFrom, LeadInOrder, LeadLe;
    var x := Wrap(t.r.last + 1);
    LiveRelax(t, now);
    LiveFacts(t, 2);
    DropToTracks(t.(r := t.r.(atTimer := now)), 1);
    var t1 := Track(DropLe(t.r, x).(atTimer := now, last := x), t.lastU + 1, t.start);
    LiveFacts(t1, 1);
    DrainTracks(t1);
    LiveFacts(Track(DrainInOrder(t1.r), t1.lastU + LeadInOrder(t1.r.held, t1.r.last), t.start), 2);
    LeadInOrderShort(t1.r, 1);
    MovedBy(t.lastU, 1 + LeadInOrder(t1.r.held, t1.r.last));
  }

  lemma RefreshSends(t: Track)
    requires Live(t, 2)
    ensures Ascending(Refresh(t.r).up, t.start) && t.start <= |Refresh(t.r).up|
  {
    hide Ahead, Wrap, Smaller, StepOne;
    AscendingBound(t.r.held, t.r.last, 2, t.r.win);
    PassUpSends(t, 2, |t.r.held|, t.lastU + t.r.win);
  }

  /** A block-ack request whose starting frame is not held moves `last` to just before it. */
  lemma BarDropTracks(t: Track, number: int)
    requires Live(t, 2) && 1 <= number - t.lastU <= 0x800 && !Holds(t.r, Wrap(number))
    ensures Live(Track(DropLe(t.r, Wrap(number)).(last := Wrap(number - 1)), number - 1, t.start), 2)
  {
    hide Ahead, Wrap, Smaller, StepOne;
    var d := number - t.lastU;
    WrapOfSum(t.lastU, d);
    WrapOfSum(t.lastU, d - 1);
    LeadLeCuts(t.r.held, t.r.last, 2, t.r.win, d);
    var n := LeadLe(t.r.held, Wrap(number));
    forall i | 0 <= i < n ensures At(t.r.held[i], t.r.last) <= d - 1 {
      WrapAhead(Sn(t.r.held[i]), t.r.last);
    }
    PassUpTracks(t, 2, n, d - 1, 2);
  }

  lemma BarIsDrop(t: Track, number: int)
    requires Live(t, 2) && -0x800 <= t.lastU - number < 0x800
    ensures BlockAckRequest(t.r, Wrap(number)) ==
            if t.lastU < number then DropLe(t.r, Wrap(number)).(last := Wrap(number - 1)) else t.r
  {
    hide Ahead, Wrap, Smaller, StepOne;
    SmallerIsOrder(t.lastU, number);
    WrapPredecessor(number);
  }

  /** A request that starts at a held frame passes that frame up and then expects it again. */
  lemma BarRepeats(t: Track, number: int)
    requires Live(t, 2) && 1 <= number - t.lastU <= 0x800 && Holds(t.r, Wrap(number))
    ensures !Sent(DropLe(t.r, Wrap(number)).up, t.start, number - 1)
  {
    hide Ahead, Wrap, Smaller, StepOne;
    var d := number - t.lastU;
    WrapOfSum(t.lastU, d);
    LeadLeCuts(t.r.held, t.r.last, 2, t.r.win, d);
    var n := LeadLe(t.r.held, Wrap(number));
    var i :| 0 <= i < |t.r.held| && Sn(t.r.held[i]) == Wrap(number);
    AheadOfCounter(number, t.lastU);
    SameDistance(t.lastU, number, t.r.held[i]);
    assert (t.r.up + t.r.held[..n])[|t.r.up| + i] == t.r.held[i];
  }

  lemma SameDistance(lastU: int, number: int, f: Frame)
    requires 0 <= number - lastU < 0x1000 && Sn(f) == Wrap(number)
    ensures At(f, Wrap(lastU)) == number - lastU
  {
    AheadOfCounter(number, lastU);
  }

  lemma BarTracks(t: Track, number: int, hz: nat)
    requires Live(t, 2) && Near(t, Bar(number))
    ensures Inv(TrackNext(t, Bar(number), hz)) <==> !Disorders(t.r, Bar(number))
  {
    hide Ahead, Wrap, Smaller, StepOne;
    BarIsDrop(t, number);
    SmallerIsOrder(t.lastU, number);
    if t.lastU < number {
      MovedBy(t.lastU, number - 1 - t.lastU);
      if Holds(t.r, Wrap(number)) { BarRepeats(t, number); } else { BarDropTracks(t, number); }
    } else {
      MovedBy(t.lastU, 0);
    }
  }

  lemma FlushTracks(t: Track, now: nat, hz: nat)
    requires Live(t, 2)
    ensures Inv(TrackNext(t, Timeout(now), hz)) && !Disorders(t.r, Timeout(now))
  {
    hide Ahead, Wrap, Smaller, StepOne;
    RefreshSends(t);
    MovedBy(t.lastU, 0);
    SkipGapTracks(t, now);
  }

  lemma ResetTracks(t: Track, e: Event, hz: nat)
    requires Live(t, 2) && (e.IdleTimer? || e.AddBa?)
    ensures Inv(TrackNext(t, e, hz)) && !Disorders(t.r, e)
  {
    hide Ahead, Wrap, Smaller, StepOne;
    RefreshSends(t);
    MovedBy(t.lastU, 0);
  }

  /** The steps that leave list, log and `last` alone. */
  lemma IdleTracks(t: Track, e: Event, hz: nat)
    requires Live(t, 2) && (e.Oversize? || e.Elsewhere?)
    ensures Inv(TrackNext(t, e, hz)) && !Disorders(t.r, e)
  {
    hide Ahead, Wrap, Smaller, StepOne;
    MovedBy(t.lastU, 0);
  }

  lemma NextOpensStretch(t: Track, e: Event, hz: nat)
    requires Inv(t) && t.r.last == RESET_RCV_SEQ
    ensures Inv(TrackNext(t, e, hz)) && !Disorders(t.r, e)
  {
    hide Ahead, Wrap, Smaller, StepOne;
    NextKeepsWindow(t.r, e, hz);
    if e.Bar? { WrapPredecessor(e.number); }
  }

  /** One step keeps the order invariant exactly if it is not one of the two disordering steps; what that
      means for the packets delivered is ReorderSafety.SafeIff. */
  lemma NextKeepsInv(t: Track, e: Event, hz: nat)
    requires Inv(t) && Near(t, e)
    ensures Inv(TrackNext(t, e, hz)) <==> !Disorders(t.r, e)
  {
    hide Live, Disorders;
    if t.r.last == RESET_RCV_SEQ {
      NextOpensStretch(t, e, hz);
    } else {
      match e
      case Timeout(now) => FlushTracks(t, now, hz);
      case Arrival(f, now) => ArriveTracks(t, f, now, hz);
      case Bar(number) => BarTracks(t, number, hz);
      case Oversize(f) => IdleTracks(t, e, hz);
      case Elsewhere(free, leaked) => IdleTracks(t, e, hz);
      case _ => ResetTracks(t, e, hz);
    }
  }

  /** In every run, what was passed up since the last reset strictly ascends: nothing twice, nothing late. */
  lemma {:induction false} RunDeliversInOrder(t: Track, es: seq<Event>, hz: nat)
    requires Inv(t) && RegularRun(t, es, hz)
    ensures var t' := TrackRun(t, es, hz);
            && t'.r == Run(t.r, es, hz)
            && t'.start <= |t'.r.up|
            && forall i, j | t'.start <= i < j < |t'.r.up| :: t'.r.up[i].number < t'.r.up[j].number
    decreases |es|
  {
    hide Ahead, Wrap, Smaller, StepOne;
    if es != [] {
      NextKeepsInv(t, es[0], hz);
      RunDeliversInOrder(TrackNext(t, es[0], hz), es[1..], hz);
    }
  }
}

/** The reordering machine in the transmitter's own numbers and in elapsed ticks: which frames each step
    passes up, keeps and releases, without 12-bit arithmetic, list scans or wrapped clocks. What follows
    from it for the frames: none that can be buffered is thrown away, and none stays held for good. */
module ReorderByNumber {
  import opened SequenceNumbers
  import opened ReorderSpec
  import opened ReorderProofs
  import opened ReorderOrder
  import opened ReorderConservation

  // ----- the steps, by number -----

  /** The first `p` frames are numbered up to `x`, the others higher. */
  ghost predicate Cut(held: seq<Frame>, p: nat, x: int) {
    && p <= |held|
    && (forall i | 0 <= i < p :: held[i].number <= x)
    && (forall i | p <= i < |held| :: held[i].number > x)
  }

  /** The first `m` frames are numbered x+1, x+2, ..., and then there is a gap. */
  ghost predicate Row(held: seq<Frame>, m: nat, x: int) {
    && m <= |held|
    && (forall i | 0 <= i < m :: held[i].number == x + 1 + i)
    && (m < |held| ==> held[m].number > x + 1 + m)
  }

  /** Of `list`, the first `p` frames are passed up and the others held; the last number is now `lastU`. */
  ghost predicate Passes(t: Track, u: Track, list: seq<Frame>, p: nat, lastU: int) {
    && p <= |list| && u.r.up == t.r.up + list[..p] && u.r.held == list[p..]
    && u.lastU == lastU && u.r.last == Wrap(lastU)
    && u.start == t.start && u.r.win == t.r.win
  }

  /** The first `p` frames are passed up and, counting on from `x`, the `m` that continue without a gap. */
  ghost predicate Resumes(t: Track, u: Track, list: seq<Frame>, p: nat, m: nat, x: int) {
    p <= |list| && Row(list[p..], m, x) && Passes(t, u, list, p + m, x + m)
  }

  ghost predicate Continues(t: Track, u: Track, list: seq<Frame>, p: nat, x: int) {
    exists m: nat :: Resumes(t, u, list, p, m, x)
  }

  /** Everything held is passed up, and the session starts anew. */
  ghost predicate Resets(t: Track, u: Track) {
    && u.r.up == t.r.up + t.r.held && u.r.held == [] && u.r.last == RESET_RCV_SEQ
    && u.start == t.start && u.r.released == t.r.released && u.r.drops == t.r.drops
  }

  predicate Copied(held: seq<Frame>, f: Frame) {
    exists i :: 0 <= i < |held| && held[i].number == f.number
  }

  /** The frames that a session releases: those that come too late, and copies of a frame that is held. */
  predicate Refused(t: Track, f: Frame) {
    t.r.last != RESET_RCV_SEQ && (f.number <= t.lastU || (t.r.free > 0 && !f.eapol && Copied(t.r.held, f)))
  }

  ghost predicate Arrives(t: Track, f: Frame, u: Track) {
    var held, n := t.r.held, f.number;
    if Refused(t, f) then
      && Passes(t, u, held, 0, t.lastU) && u.r.released == t.r.released + [f]
      && u.r.drops == t.r.drops + if n <= t.lastU then 1 else 0
    else
      && u.r.released == t.r.released && u.r.drops == t.r.drops
      && if n == t.lastU + 1 then
          Continues(t, u, [f] + held, 1, n)
        else if n <= t.lastU + t.r.win then
          exists p: nat :: Cut(held, p, n) && Placed(t, f, u, p)
        else
          exists p: nat :: Cut(held, p, n - t.r.win) && Moved(t, f, u, p)
  }

  /** A frame of the window: held, or, if it cannot be buffered, passed up after the frames before it. */
  ghost predicate Placed(t: Track, f: Frame, u: Track, p: nat)
    requires p <= |t.r.held|
  {
    var list := t.r.held[..p] + [f] + t.r.held[p..];
    if t.r.free > 0 && !f.eapol then Passes(t, u, list, 0, t.lastU) else Passes(t, u, list, p + 1, f.number)
  }

  /** A frame beyond the window: the window moves until the frame is its end, and what then continues the
      last number is passed up; or, if it cannot be buffered, everything up to it is. */
  ghost predicate Moved(t: Track, f: Frame, u: Track, p: nat)
    requires p <= |t.r.held|
  {
    var list, base := t.r.held + [f], f.number - t.r.win;
    if t.r.free + p > 0 && !f.eapol then
      Continues(t, u, list, p, base)
    else
      Passes(t, u, list, |list|, f.number)
  }

  /** A reset session takes the first frame as it comes. */
  ghost predicate Opens(t: Track, f: Frame, u: Track) {
    && u.r.up == t.r.up + [f] && u.r.held == [] && u.lastU == f.number && u.r.last == Wrap(f.number)
    && u.start == |t.r.up| && u.r.win == t.r.win && u.r.released == t.r.released && u.r.drops == t.r.drops
  }

  /** Ticks of the 32-bit clock since `at`. */
  function Elapsed(now: nat, at: nat): (ticks: nat)
    ensures ticks < 0x1_0000_0000
  {
    (now - at) % 0x1_0000_0000
  }

  /** More than `d` ticks, and no more than half a turn of the clock beyond that. */
  predicate Expired(ticks: nat, d: nat) {
    d < ticks <= d + 0x8000_0000
  }

  ghost predicate TimesOut(t: Track, now: nat, hz: nat, u: Track) {
    var ticks := Elapsed(now, t.r.atTimer);
    if Expired(ticks, hz / 2) && |t.r.held| > 1 then
      Resets(t, u) && u.r.win == t.r.win && u.r.atTimer == now
    else if Expired(ticks, hz / 10) && t.r.held != [] then
      && u.r.atTimer == now && u.r.released == t.r.released && u.r.drops == t.r.drops
      && Continues(t, u, t.r.held, 0, t.lastU + 1)
    else u == t
  }

  /** A request starting at `number`; a reset session takes any number whose wrapped form is in the lower half. */
  ghost predicate Requests(t: Track, number: int, u: Track) {
    if t.r.last == RESET_RCV_SEQ then
      if Wrap(number) < 0x800 then u == Track(t.r.(last := Wrap(number - 1)), number - 1, |t.r.up|) else u.r == t.r
    else if number <= t.lastU then u == t
    else
      && u.r.released == t.r.released && u.r.drops == t.r.drops && u.r.atTimer == t.r.atTimer
      && exists p: nat :: Cut(t.r.held, p, number) && Passes(t, u, t.r.held, p, number - 1)
  }

  /** The smaller of two window sizes, of which 8 bits count, and 64 if that is none. */
  predicate Agreed(w: nat, bufSize: nat, limit: nat) {
    var b, l := bufSize % 256, limit % 256;
    if b == 0 || l == 0 then w == 64 else w <= b && w <= l && (w == b || w == l)
  }

  ghost predicate ByNumber(t: Track, e: Event, hz: nat, u: Track) {
    match e
    case Timeout(now) => if t.r.last == RESET_RCV_SEQ then u.r == t.r else TimesOut(t, now, hz, u)
    case Arrival(f, now) =>
      var t1 := t.(r := t.r.(atTimer := now));
      u.r.atTimer == now && if t.r.last == RESET_RCV_SEQ then Opens(t1, f, u) else Arrives(t1, f, u)
    case Oversize(f) => u.r == t.r.(released := t.r.released + [f])
    case Bar(number) => Requests(t, number, u)
    case IdleTimer(now) =>
      if Expired(Elapsed(now, t.r.atTimer), REC_BA_SESSION_IDLE_TIMEOUT)
      then Resets(t, u) && u.r.win == t.r.win
      else u.r == t.r
    case AddBa(bufSize, limit) => Resets(t, u) && Agreed(u.r.win, bufSize, limit)
    case Elsewhere(free, leaked) => u.r == t.r.(free := free, leaked := leaked)
  }

  // ----- the driver takes these steps -----

  /** When the wrapped comparison of two clocks holds. */
  lemma TimeAfterIs(now: nat, at: nat, d: nat)
    requires d < 0x8000_0000
    ensures TimeAfter(now, at + d) <==> Expired(Elapsed(now, at), d)
  {
    var q := (now - at) / 0x1_0000_0000;
    var ticks := Elapsed(now, at);
    assert at + d - now == -q * 0x1_0000_0000 + (d - ticks);
    ModShift(d - ticks, -q);
  }

  lemma ModShift(x: int, q: int)
    ensures (q * 0x1_0000_0000 + x) % 0x1_0000_0000 == x % 0x1_0000_0000
  {
    var p := x / 0x1_0000_0000;
    assert q * 0x1_0000_0000 + x == (q + p) * 0x1_0000_0000 + x % 0x1_0000_0000;
  }

  lemma CutIs(t: Track, lo: nat, d: nat)
    requires Live(t, lo) && lo > 0 && d <= 0x801
    ensures Cut(t.r.held, LeadLe(t.r.held, Wrap(t.lastU + d)), t.lastU + d)
    ensures Wrap(t.r.last + d) == Wrap(t.lastU + d)
  {
    hide Ahead, Wrap, Smaller, StepOne, LeadLe;
    WrapOfSum(t.lastU, d);
    LeadLeCuts(t.r.held, t.r.last, lo, t.r.win, d);
  }

  /** The in-order drain passes up exactly what continues the last number. */
  lemma DrainIs(t: Track)
    requires Live(t, 1)
    ensures var n := LeadInOrder(t.r.held, t.r.last);
            && Row(t.r.held, n, t.lastU) && n <= t.r.win
            && DrainInOrder(t.r) == PassUp(t.r, n).(last := Wrap(t.lastU + n))
  {
    hide Ahead, Wrap, Smaller, StepOne;
    var n := LeadInOrder(t.r.held, t.r.last);
    DrainIsPassUp(t.r);
    WrapSmall(t.r.last);
    LeadInOrderCuts(t.r.held, t.r.last, 0, t.r.win);
    LeadInOrderShort(t.r, 1);
    WrapOfSum(t.lastU, n);
  }

  lemma ByNumberInOrder(t: Track, f: Frame)
    requires Live(t, 2) && f.number == t.lastU + 1
    ensures var r := DrainInOrder(Deliver(t.r.(last := Sn(f)), f));
            Arrives(t, f, Track(r, t.lastU + Ahead(r.last, t.lastU), t.start))
  {
    hide Ahead, Wrap, Smaller, StepOne, LeadInOrder, Live, DrainInOrder, Refused, Continues, Row;
    LiveFacts(t, 2);
    DeliverTracks(t, f);
    var t1 := Track(Deliver(t.r.(last := Sn(f)), f), t.lastU + 1, t.start);
    LiveFacts(t1, 1);
    DrainIs(t1);
    HeldAbove(t, f);
    var m := LeadInOrder(t1.r.held, t1.r.last);
    MovedBy(t.lastU, 1 + m);
    var r := DrainInOrder(t1.r);
    RowAfter(t, f, Track(r, t.lastU + Ahead(r.last, t.lastU), t.start), m);
  }

  lemma RowAfter(t: Track, f: Frame, u: Track, m: nat)
    requires Row(t.r.held, m, f.number) && u.r.up == t.r.up + [f] + t.r.held[..m] && u.r.held == t.r.held[m..]
    requires u.lastU == f.number + m && u.r.last == Wrap(f.number + m) && u.start == t.start && u.r.win == t.r.win
    ensures Continues(t, u, [f] + t.r.held, 1, f.number)
  {
    hide Wrap;
    var list := [f] + t.r.held;
    assert list[..1 + m] == [f] + t.r.held[..m] && list[1 + m..] == t.r.held[m..] && list[1..] == t.r.held;
    assert t.r.up + [f] + t.r.held[..m] == t.r.up + list[..1 + m];
    assert Resumes(t, u, list, 1, m, f.number);
  }

  lemma HeldAbove(t: Track, f: Frame)
    requires Live(t, 2)
    ensures forall i | 0 <= i < |t.r.held| :: t.lastU + 2 <= t.r.held[i].number <= t.lastU + t.r.win
    ensures f.number == t.lastU + 1 || f.number > t.lastU + t.r.win ==> !Refused(t, f)
  {
    hide Ahead, Wrap, Smaller, StepOne;
  }

  lemma ByNumberLate(t: Track, f: Frame)
    requires Live(t, 2) && f.number <= t.lastU
    ensures var r := Release(t.r.(drops := t.r.drops + 1), f);
            Arrives(t, f, Track(r, t.lastU + Ahead(r.last, t.lastU), t.start))
  {
    hide Ahead, Wrap, Smaller, StepOne;
    MovedBy(t.lastU, 0);
  }

  /** A held frame with the number of a frame in the window is what the scan finds. */
  lemma CopiedIs(t: Track, f: Frame, lo: nat)
    requires Live(t, lo) && lo > 0 && lo <= f.number - t.lastU <= t.r.win && f.number == t.lastU + At(f, t.r.last)
    ensures IsDuplicate(t.r.held, f) <==> Copied(t.r.held, f)
    ensures !Copied(t.r.held, f) ==>
      && Cut(t.r.held, LeadBefore(t.r.held, Sn(f)), f.number)
      && InsertSorted(t.r.held, f)
         == t.r.held[..LeadBefore(t.r.held, Sn(f))] + [f] + t.r.held[LeadBefore(t.r.held, Sn(f))..]
  {
    hide Ahead, Wrap, Smaller, StepOne, LeadBefore;
    var d := At(f, t.r.last);
    WrapAhead(Sn(f), t.r.last);
    LeadBeforeCuts(t.r.held, t.r.last, lo, t.r.win, d);
    forall i | 0 <= i < |t.r.held| ensures Sn(t.r.held[i]) == Sn(f) <==> t.r.held[i].number == f.number {
      SmallerByDistance(t.r.held[i], t.r.last, d);
    }
    var p := LeadBefore(t.r.held, Sn(f));
    if Copied(t.r.held, f) {
      var i :| 0 <= i < |t.r.held| && t.r.held[i].number == f.number;
      assert At(t.r.held[i], t.r.last) == d && p <= i;
      assert At(t.r.held[p], t.r.last) >= d;
    }
  }

  lemma ByNumberInWindow(t: Track, f: Frame)
    requires Live(t, 2) && 2 <= f.number - t.lastU <= t.r.win && f.number == t.lastU + At(f, t.r.last)
    ensures var r := Enqueue(t.r, f); Arrives(t, f, Track(r, t.lastU + Ahead(r.last, t.lastU), t.start))
  {
    hide Ahead, Wrap, Smaller, StepOne, LeadBefore, LeadLe, Live, IsDuplicate, InsertSorted;
    var d := At(f, t.r.last);
    LiveFacts(t, 2);
    CopiedIs(t, f, 2);
    MovedBy(t.lastU, 0);
    MovedBy(t.lastU, d);
    var r := Enqueue(t.r, f);
    var u := Track(r, t.lastU + Ahead(r.last, t.lastU), t.start);
    if t.r.free > 0 && !f.eapol {
      if !Copied(t.r.held, f) {
        assert Placed(t, f, u, LeadBefore(t.r.held, Sn(f)));
      }
    } else {
      CutIs(t, 2, d);
      var p := LeadLe(t.r.held, Sn(f));
      var list := t.r.held[..p] + [f] + t.r.held[p..];
      assert list[..p + 1] == t.r.held[..p] + [f] && list[p + 1..] == t.r.held[p..];
      assert Placed(t, f, u, p);
    }
  }

  /** The frame beyond the window comes after everything held. */
  lemma LastInWindow(t: Track, f: Frame)
    requires Live(t, 1) && f.number == t.lastU + t.r.win && f.number == t.lastU + At(f, t.r.last)
    requires forall i | 0 <= i < |t.r.held| :: t.r.held[i].number < f.number
    ensures !IsDuplicate(t.r.held, f) && InsertSorted(t.r.held, f) == t.r.held + [f]
  {
    hide Ahead, Wrap, Smaller, StepOne, LeadBefore;
    CopiedIs(t, f, 1);
    assert LeadBefore(t.r.held, Sn(f)) == |t.r.held|;
  }

  /** The effect of `Slide`, by number. */
  lemma SlideIs(t: Track, f: Frame)
    requires Live(t, 2) && f.number == t.lastU + At(f, t.r.last) && t.r.win < At(f, t.r.last) < 0x800
    ensures var p, s, base := LeadLe(t.r.held, WinStart(Sn(f), t.r.win)), Slide(t.r, f), f.number - t.r.win;
            && Cut(t.r.held, p, base) && s == PassUp(t.r, p).(last := Wrap(base))
            && Live(Track(s, base, t.start), 1) && At(f, s.last) == t.r.win
  {
    hide Ahead, Wrap, Smaller, StepOne, LeadLe, WinStart;
    SlidePlaces(t.r, f);
    SlideTracks(t, f);
    CutIs(t, 2, At(f, t.r.last) - t.r.win);
  }

  lemma MovedBuffered(t: Track, f: Frame, p: nat)
    requires Live(t, 2) && f.number == t.lastU + At(f, t.r.last) && t.r.win < At(f, t.r.last) < 0x800
    requires p <= |t.r.held| && t.r.free + p > 0 && !f.eapol
    requires Slide(t.r, f) == PassUp(t.r, p).(last := Wrap(f.number - t.r.win))
    requires Live(Track(Slide(t.r, f), f.number - t.r.win, t.start), 1) && At(f, Slide(t.r, f).last) == t.r.win
    ensures var r := DrainInOrder(Enqueue(Slide(t.r, f), f));
            Moved(t, f, Track(r, t.lastU + Ahead(r.last, t.lastU), t.start), p)
  {
    hide Ahead, Wrap, Smaller, StepOne, LeadInOrder, Live, IsDuplicate, InsertSorted, WinStart, Slide;
    hide DrainInOrder, Moved;
    var base := f.number - t.r.win;
    var t1 := Track(Slide(t.r, f), base, t.start);
    LiveFacts(t, 2);
    LiveFacts(t1, 1);
    HeldAbove(t, f);
    LastInWindow(t1, f);
    BufferTracks(t1, f, 1);
    var t2 := Track(Enqueue(t1.r, f), base, t.start);
    DrainIs(t2);
    LiveFacts(t2, 1);
    var m := LeadInOrder(t2.r.held, t2.r.last);
    MovedBy(t.lastU, base - t.lastU + m);
    var r := DrainInOrder(t2.r);
    MovedEnds(t, f, Track(r, t.lastU + Ahead(r.last, t.lastU), t.start), p, m);
  }

  lemma MovedUnbuffered(t: Track, f: Frame, p: nat)
    requires Live(t, 2) && f.number == t.lastU + At(f, t.r.last) && t.r.win < At(f, t.r.last) < 0x800
    requires p <= |t.r.held| && !(t.r.free + p > 0 && !f.eapol)
    requires Slide(t.r, f) == PassUp(t.r, p).(last := Wrap(f.number - t.r.win))
    requires Live(Track(Slide(t.r, f), f.number - t.r.win, t.start), 1) && At(f, Slide(t.r, f).last) == t.r.win
    ensures var r := DrainInOrder(Enqueue(Slide(t.r, f), f));
            Moved(t, f, Track(r, t.lastU + Ahead(r.last, t.lastU), t.start), p)
  {
    hide Ahead, Wrap, Smaller, StepOne, LeadLe, Live, IsDuplicate, InsertSorted, WinStart, Slide, DrainInOrder;
    var s := Slide(t.r, f);
    LiveFacts(Track(s, f.number - t.r.win, t.start), 1);
    FallbackBeyond(s, f);
    MovedBy(t.lastU, At(f, t.r.last));
    assert t.r.up + t.r.held[..p] + s.held[..|s.held|] + [f] == t.r.up + (t.r.held + [f])[..|t.r.held| + 1];
  }

  lemma ByNumberBeyond(t: Track, f: Frame)
    requires Live(t, 2) && f.number == t.lastU + At(f, t.r.last) && t.r.win < At(f, t.r.last) < 0x800
    ensures var r := DrainInOrder(Enqueue(Slide(t.r, f), f));
            Arrives(t, f, Track(r, t.lastU + Ahead(r.last, t.lastU), t.start))
  {
    hide Ahead, Wrap, Smaller, StepOne, LeadLe, Live, WinStart, Slide, Enqueue, DrainInOrder, Moved;
    LiveFacts(t, 2);
    SlideIs(t, f);
    HeldAbove(t, f);
    var p := LeadLe(t.r.held, WinStart(Sn(f), t.r.win));
    BeyondReleases(t.r, f);
    if t.r.free + p > 0 && !f.eapol { MovedBuffered(t, f, p); } else { MovedUnbuffered(t, f, p); }
  }

  /** Beyond the window nothing is released, since nothing there is held. */
  lemma BeyondReleases(r: Rx, f: Frame)
    requires Buffers(Slide(r, f), f) ==> !IsDuplicate(Slide(r, f).held, f)
    ensures var q := DrainInOrder(Enqueue(Slide(r, f), f)); q.released == r.released && q.drops == r.drops
  {
    hide Sn, LeadLe, LeadInOrder, InsertSorted, IsDuplicate, WinStart;
  }

  lemma MovedEnds(t: Track, f: Frame, u: Track, p: nat, m: nat)
    requires p <= |t.r.held| && t.r.free + p > 0 && !f.eapol
    requires var list, base := t.r.held + [f], f.number - t.r.win;
             && Row(t.r.held[p..] + [f], m, base)
             && u.r.up == t.r.up + t.r.held[..p] + (t.r.held[p..] + [f])[..m]
             && u.r.held == (t.r.held[p..] + [f])[m..] && u.lastU == base + m && u.r.last == Wrap(base + m)
             && u.start == t.start && u.r.win == t.r.win
    ensures Moved(t, f, u, p)
  {
    hide Wrap;
    var list := t.r.held + [f];
    assert list[p..] == t.r.held[p..] + [f];
    assert list[..p + m] == t.r.held[..p] + list[p..][..m] && list[p + m..] == list[p..][m..];
    assert t.r.up + t.r.held[..p] + list[p..][..m] == t.r.up + list[..p + m];
    assert Resumes(t, u, list, p, m, f.number - t.r.win);
  }

  lemma ArriveSetsTimer(r: Rx, f: Frame, now: nat)
    ensures Arrive(r, f, now).atTimer == now
  {
    hide Sn, LeadLe, LeadInOrder, InsertSorted, IsDuplicate, WinStart;
  }

  /** An arrival at a live session, by number: late frames and held copies are released; the next frame is
      passed up with what continues it; a frame of the window is held; one beyond the window moves it. */
  lemma ByNumberArrival(t: Track, f: Frame, now: nat, hz: nat)
    requires Live(t, 2) && Near(t, Arrival(f, now))
    ensures ByNumber(t, Arrival(f, now), hz, TrackNext(t, Arrival(f, now), hz))
  {
    hide Ahead, Wrap, Smaller, StepOne, LeadBefore, LeadLe, LeadInOrder, Live, WindowFrom, DrainInOrder, Slide;
    hide Placed, Moved, Enqueue, Arrives;
    var e := Arrival(f, now);
    var t1 := t.(r := t.r.(atTimer := now));
    LiveFacts(t, 2);
    LiveRelax(t, now);
    ArriveKeepsWindow(t.r, f, now);
    ArriveSetsTimer(t.r, f, now);
    assert Classify(t1.r, f) == Classify(t.r, f);
    ClassifyByDistance(t1.r, f);
    DistanceOfNumber(t.lastU, t.r.last, f);
    var u := TrackNext(t, e, hz);
    assert u.r.atTimer == now && Arrives(t1, f, u) by {
      match Classify(t1.r, f)
      case InOrder => ByNumberInOrder(t1, f);
      case InWindow => ByNumberInWindow(t1, f);
      case Beyond => ByNumberBeyond(t1, f);
      case _ => ByNumberLate(t1, f);
    }
  }

  lemma TimeoutsAre(hz: nat)
    ensures ReorderingTimeout(hz) == hz / 10 && MaxReorderingTimeout(hz) / 6 == hz / 2
  {
  }

  lemma NothingCut(held: seq<Frame>, p: nat, x: int)
    requires Cut(held, p, x) && (held == [] || held[0].number > x)
    ensures p == 0
  {
  }

  lemma SkipGapIs(t: Track, now: nat)
    requires Live(t, 2)
    ensures var r := SkipGap(t.r, now);
            && Continues(t, Track(r, t.lastU + Ahead(r.last, t.lastU), t.start), t.r.held, 0, t.lastU + 1)
            && r.atTimer == now && r.released == t.r.released && r.drops == t.r.drops
  {
    hide Ahead, Wrap, Smaller, StepOne, LeadLe, LeadInOrder, Live, DrainInOrder;
    var x := Wrap(t.r.last + 1);
    LiveFacts(t, 2);
    LiveRelax(t, now);
    DropToTracks(t.(r := t.r.(atTimer := now)), 1);
    CutIs(t, 2, 1);
    HeldAbove(t, Frame(0, 0, 0, false, false));
    NothingCut(t.r.held, LeadLe(t.r.held, x), t.lastU + 1);
    var t1 := Track(t.r.(atTimer := now, last := x), t.lastU + 1, t.start);
    assert DropLe(t.r.(atTimer := now), x).(last := x) == t1.r;
    DrainIs(t1);
    LiveFacts(t1, 1);
    var m := LeadInOrder(t1.r.held, x);
    MovedBy(t.lastU, 1 + m);
    var r := DrainInOrder(t1.r);
    assert t.r.held[0..] == t.r.held;
    assert Resumes(t, Track(r, t.lastU + Ahead(r.last, t.lastU), t.start), t.r.held, 0, m, t.lastU + 1);
  }

  /** The timeout check, in elapsed ticks: nothing up to a tenth of a second; the gap is skipped after that,
      and after half a second with more than one frame held, everything is passed up. */
  lemma ByNumberTimeout(t: Track, now: nat, hz: nat)
    requires Live(t, 2) && hz < 0x1_0000_0000
    ensures TimesOut(t, now, hz, TrackNext(t, Timeout(now), hz))
  {
    hide Ahead, Wrap, Smaller, StepOne, Live, TimeAfter, Expired, Elapsed, SkipGap, Continues;
    LiveFacts(t, 2);
    TimeoutsAre(hz);
    TimeAfterIs(now, t.r.atTimer, hz / 2);
    TimeAfterIs(now, t.r.atTimer, hz / 10);
    MovedBy(t.lastU, 0);
    if |t.r.held| > 0 { SkipGapIs(t, now); }
    assert t.r.held[|t.r.held|..] == [] && t.r.held[..|t.r.held|] == t.r.held;
  }

  lemma ByNumberBar(t: Track, number: int, hz: nat)
    requires Live(t, 2) && Near(t, Bar(number))
    ensures Requests(t, number, TrackNext(t, Bar(number), hz))
  {
    hide Ahead, Wrap, Smaller, StepOne, LeadLe, Live, BlockAckRequest;
    var u := TrackNext(t, Bar(number), hz);
    LiveFacts(t, 2);
    BarIsDrop(t, number);
    MovedBy(t.lastU, 0);
    if t.lastU < number {
      MovedBy(t.lastU, number - 1 - t.lastU);
      CutIs(t, 2, number - t.lastU);
      var p := LeadLe(t.r.held, Wrap(number));
      assert Cut(t.r.held, p, number) && Passes(t, u, t.r.held, p, number - 1);
    }
  }

  lemma ByNumberFirstBar(t: Track, number: int, hz: nat)
    requires Inv(t) && t.r.last == RESET_RCV_SEQ
    ensures Requests(t, number, TrackNext(t, Bar(number), hz))
  {
    hide Ahead, Wrap, Smaller, StepOne, LeadLe, Live;
    WrapPredecessor(number);
    ResetSmaller(Wrap(number));
    assert t.r.held == [] && PassUp(t.r, LeadLe(t.r.held, Wrap(number))) == t.r;
  }

  /** The reset mark counts as 0xFFF in the comparison. */
  lemma ResetSmaller(start: nat)
    requires start <= MAXSEQ
    ensures Smaller(RESET_RCV_SEQ, start) <==> start < 0x800
  {
  }

  lemma ByNumberFirst(t: Track, f: Frame, now: nat, hz: nat)
    requires Inv(t) && t.r.last == RESET_RCV_SEQ
    ensures ByNumber(t, Arrival(f, now), hz, TrackNext(t, Arrival(f, now), hz))
  {
    hide Ahead, Smaller, StepOne;
  }

  lemma AgreedIs(bufSize: nat, limit: nat)
    ensures Agreed(AgreedWindow(bufSize, limit), bufSize, limit)
  {
  }

  lemma ByNumberControl(t: Track, e: Event, hz: nat)
    requires Inv(t) && (e.Oversize? || e.IdleTimer? || e.AddBa? || e.Elsewhere?)
    ensures ByNumber(t, e, hz, TrackNext(t, e, hz))
  {
    hide Ahead, Wrap, Smaller, StepOne, Expired, Elapsed, TimeAfter, AgreedWindow, Agreed;
    if e.IdleTimer? { TimeAfterIs(e.now, t.r.atTimer, REC_BA_SESSION_IDLE_TIMEOUT); }
    if e.AddBa? { AgreedIs(e.bufSize, e.limit); }
    assert t.r.held[|t.r.held|..] == [] && t.r.held[..|t.r.held|] == t.r.held;
  }

  /** Every step of a session that keeps its invariants, from a transmitter whose numbers are near: the
      12-bit arithmetic, the scans and the wrapped clock take exactly the step described by number. */
  lemma NextByNumber(t: Track, e: Event, hz: nat)
    requires Inv(t) && Near(t, e) && hz < 0x1_0000_0000
    ensures ByNumber(t, e, hz, TrackNext(t, e, hz))
  {
    hide Live, Near, TrackNext, Requests, TimesOut, Wrap;
    match e
    case Timeout(now) => if t.r.last == RESET_RCV_SEQ { ResetIgnoresTimeout(t, now, hz); }
                         else { ByNumberTimeout(t, now, hz); }
    case Arrival(f, now) => if t.r.last == RESET_RCV_SEQ { ByNumberFirst(t, f, now, hz); }
                            else { ByNumberArrival(t, f, now, hz); }
    case Bar(number) => if t.r.last == RESET_RCV_SEQ { ByNumberFirstBar(t, number, hz); }
                        else { ByNumberBar(t, number, hz); }
    case _ => ByNumberControl(t, e, hz);
  }

  lemma ResetIgnoresTimeout(t: Track, now: nat, hz: nat)
    requires Inv(t) && t.r.last == RESET_RCV_SEQ
    ensures TrackNext(t, Timeout(now), hz).r == t.r
  {
    hide Ahead, Wrap, TimeAfter;
  }
}

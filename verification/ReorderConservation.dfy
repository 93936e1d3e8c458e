/** Conservation: every frame handed over is exactly once passed up, released or still held, and
    every pool block is free, holding a frame, or one that an EAPOL frame took for good. */
module ReorderConservation {
  import opened SequenceNumbers
  import opened ReorderSpec
  import opened ReorderProofs

  function Frames(r: Rx): multiset<Frame> {
    multiset(r.up) + multiset(r.released) + multiset(r.held)
  }

  function Blocks(r: Rx): nat {
    r.free + |r.held| + r.leaked
  }

  /** The arrival takes a block and drops it: an EAPOL frame on the enqueue path of a non-empty pool. */
  predicate Leaks(r: Rx, f: Frame) {
    f.eapol &&
    match Classify(r, f)
    case InWindow => r.free > 0
    case Beyond => Slide(r, f).free > 0
    case _ => false
  }

  lemma PassUpConserves(r: Rx, n: nat)
    requires n <= |r.held|
    ensures Frames(PassUp(r, n)) == Frames(r) && Blocks(PassUp(r, n)) == Blocks(r)
  {
    assert r.held == r.held[..n] + r.held[n..];
  }

  lemma EnqueueConserves(r: Rx, f: Frame)
    ensures Frames(Enqueue(r, f)) == Frames(r) + multiset{f} && Blocks(Enqueue(r, f)) == Blocks(r)
  {
    hide Sn, LeadBefore, LeadLe;
    if Buffers(r, f) {
      var p := LeadBefore(r.held, Sn(f));
      assert r.held == r.held[..p] + r.held[p..];
    } else {
      var r1 := if r.free > 0 then r.(free := r.free - 1, leaked := r.leaked + 1) else r;
      PassUpConserves(r1, LeadLe(r1.held, Sn(f)));
    }
  }

  lemma DrainConserves(r: Rx)
    ensures Frames(DrainInOrder(r)) == Frames(r) && Blocks(DrainInOrder(r)) == Blocks(r)
    ensures DrainInOrder(r).leaked == r.leaked
  {
    hide LeadInOrder, Sn;
    PassUpConserves(r, LeadInOrder(r.held, r.last));
  }

  lemma DropConserves(r: Rx, x: nat)
    ensures Frames(DropLe(r, x)) == Frames(r) && Blocks(DropLe(r, x)) == Blocks(r)
    ensures DropLe(r, x).leaked == r.leaked
  {
    PassUpConserves(r, LeadLe(r.held, x));
  }

  /** Only the bookkeeping fields differ. */
  lemma BookkeepingConserves(r: Rx, q: Rx)
    requires r.up == q.up && r.released == q.released && r.held == q.held && r.free == q.free && r.leaked == q.leaked
    ensures Frames(q) == Frames(r) && Blocks(q) == Blocks(r)
  {
  }

  lemma DeliverConserves(r: Rx, f: Frame)
    ensures Frames(Deliver(r, f)) == Frames(r) + multiset{f} && Blocks(Deliver(r, f)) == Blocks(r)
            && Deliver(r, f).leaked == r.leaked
    ensures Frames(Release(r, f)) == Frames(r) + multiset{f} && Blocks(Release(r, f)) == Blocks(r)
            && Release(r, f).leaked == r.leaked
  {
  }

  /** On every branch, whatever the state: one more frame accounted for, and one block lost exactly
      on the EAPOL branch. */
  lemma ArriveConserves(r: Rx, f: Frame, now: nat)
    ensures Frames(Arrive(r, f, now)) == Frames(r) + multiset{f}
    ensures Blocks(Arrive(r, f, now)) == Blocks(r)
    ensures Arrive(r, f, now).leaked == r.leaked + if Leaks(r, f) then 1 else 0
  {
    hide Sn, WinStart, DropLe, DrainInOrder, Frames, Blocks, Enqueue, Deliver, Release, Slide;
    var r1 := r.(atTimer := now);
    assert Classify(r1, f) == Classify(r, f);
    BookkeepingConserves(r, r1);
    match Classify(r1, f)
    case First => MarkConserves(r1, f);
    case InOrder =>
      MarkConserves(r1, f);
      DrainConserves(Deliver(r1.(last := Sn(f)), f));
    case InWindow =>
      EnqueueConserves(r1, f);
      EnqueueLeaks(r1, f);
    case Beyond => BeyondConserves(r, f, now);
    case _ => DropFrameConserves(r1, f);
  }

  lemma MarkConserves(r: Rx, f: Frame)
    ensures var q := Deliver(r.(last := Sn(f)), f);
            Frames(q) == Frames(r) + multiset{f} && Blocks(q) == Blocks(r) && q.leaked == r.leaked
  {
    hide Frames, Blocks, Deliver, Sn;
    BookkeepingConserves(r, r.(last := Sn(f)));
    DeliverConserves(r.(last := Sn(f)), f);
  }

  lemma DropFrameConserves(r: Rx, f: Frame)
    ensures var q := Release(r.(drops := r.drops + 1), f);
            Frames(q) == Frames(r) + multiset{f} && Blocks(q) == Blocks(r) && q.leaked == r.leaked
  {
    hide Frames, Blocks, Release, Sn;
    BookkeepingConserves(r, r.(drops := r.drops + 1));
    DeliverConserves(r.(drops := r.drops + 1), f);
  }

  lemma SlideConserves(r: Rx, f: Frame, now: nat)
    ensures var q := Slide(r.(atTimer := now), f);
            Frames(q) == Frames(r) && Blocks(q) == Blocks(r) && q.leaked == r.leaked && q.free == Slide(r, f).free
  {
    hide Frames, Blocks, DropLe, Sn, WinStart;
    var r1, x := r.(atTimer := now), WinStart(Sn(f), r.win);
    BookkeepingConserves(r, r1);
    DropConserves(r1, x);
    DropIgnoresTimer(r, now, x);
    BookkeepingConserves(DropLe(r1, x), DropLe(r1, x).(last := x));
  }

  lemma BeyondConserves(r: Rx, f: Frame, now: nat)
    ensures var q := DrainInOrder(Enqueue(Slide(r.(atTimer := now), f), f));
            && Frames(q) == Frames(r) + multiset{f} && Blocks(q) == Blocks(r)
            && q.leaked == r.leaked + if f.eapol && Slide(r, f).free > 0 then 1 else 0
  {
    hide Frames, Blocks, DropLe, DrainInOrder, Enqueue, Slide;
    var s := Slide(r.(atTimer := now), f);
    SlideConserves(r, f, now);
    EnqueueConserves(s, f);
    EnqueueLeaks(s, f);
    DrainConserves(Enqueue(s, f));
  }

  lemma EnqueueLeaks(r: Rx, f: Frame)
    ensures Enqueue(r, f).leaked == r.leaked + if f.eapol && r.free > 0 then 1 else 0
  {
    hide LeadLe, LeadBefore, Sn;
  }

  lemma DropIgnoresTimer(r: Rx, now: nat, x: nat)
    ensures DropLe(r.(atTimer := now), x).free == DropLe(r, x).free
  {
  }

  lemma RefreshConserves(r: Rx)
    ensures Frames(Refresh(r)) == Frames(r) && Blocks(Refresh(r)) == Blocks(r) && Refresh(r).leaked == r.leaked
  {
    hide Frames, Blocks;
    PassUpConserves(r, |r.held|);
    BookkeepingConserves(PassUp(r, |r.held|), Refresh(r));
  }

  lemma SkipConserves(r: Rx, now: nat)
    ensures Frames(SkipGap(r, now)) == Frames(r) && Blocks(SkipGap(r, now)) == Blocks(r)
            && SkipGap(r, now).leaked == r.leaked
  {
    hide Frames, Blocks, DropLe, DrainInOrder;
    var x := Wrap(r.last + 1);
    DropConserves(r, x);
    var q := DropLe(r, x).(atTimer := now, last := x);
    BookkeepingConserves(DropLe(r, x), q);
    DrainConserves(q);
  }

  lemma FlushConserves(r: Rx, now: nat, hz: nat)
    ensures Frames(Flush(r, now, hz)) == Frames(r) && Blocks(Flush(r, now, hz)) == Blocks(r)
    ensures Flush(r, now, hz).leaked == r.leaked
  {
    hide Frames, Blocks, Refresh, SkipGap;
    RefreshConserves(r);
    BookkeepingConserves(Refresh(r), Refresh(r).(atTimer := now));
    SkipConserves(r, now);
  }

  /** The frames the driver is given. */
  function Given(es: seq<Event>): multiset<Frame> {
    if es == [] then multiset{} else GivenBy(es[0]) + Given(es[1..])
  }

  function GivenBy(e: Event): multiset<Frame> {
    if e.Arrival? || e.Oversize? then multiset{e.f} else multiset{}
  }

  /** What other sessions do to the blocks that are free or leaked during a run. */
  function Drift(r: Rx, es: seq<Event>, hz: nat): int
    decreases |es|
  {
    if es == [] then 0 else DriftBy(r, es[0]) + Drift(Next(r, es[0], hz), es[1..], hz)
  }

  function DriftBy(r: Rx, e: Event): int {
    if e.Elsewhere? then e.free + e.leaked - r.free - r.leaked else 0
  }

  /** The blocks that other sessions leak during a run. */
  function LeakedElsewhere(r: Rx, es: seq<Event>, hz: nat): int
    decreases |es|
  {
    if es == [] then 0
    else
      (if es[0].Elsewhere? then es[0].leaked - r.leaked else 0) + LeakedElsewhere(Next(r, es[0], hz), es[1..], hz)
  }

  /** How many arrivals of a run take a block for good. */
  function LeaksOf(r: Rx, es: seq<Event>, hz: nat): nat
    decreases |es|
  {
    if es == [] then 0 else
      (if es[0].Arrival? && Leaks(r, es[0].f) then 1 else 0) + LeaksOf(Next(r, es[0], hz), es[1..], hz)
  }

  lemma ControlConserves(r: Rx, e: Event, hz: nat)
    requires !e.Arrival? && !e.Timeout?
    ensures Frames(Next(r, e, hz)) == Frames(r) + GivenBy(e)
    ensures Blocks(Next(r, e, hz)) == Blocks(r) + DriftBy(r, e)
    ensures Next(r, e, hz).leaked == if e.Elsewhere? then e.leaked else r.leaked
  {
    hide DropLe, Refresh, Frames, Blocks;
    RefreshConserves(r);
    match e
    case Bar(number) =>
      DropConserves(r, Wrap(number));
      BookkeepingConserves(DropLe(r, Wrap(number)),
        DropLe(r, Wrap(number)).(last := if Wrap(number) == 0 then MAXSEQ else Wrap(number) - 1));
    case AddBa(bufSize, limit) =>
      BookkeepingConserves(Refresh(r), Refresh(r).(win := AgreedWindow(bufSize, limit)));
    case Oversize(f) => DeliverConserves(r, f);
    case Elsewhere(free, leaked) => PoolBlocksCount(r, free, leaked);
    case _ =>
  }

  lemma PoolBlocksCount(r: Rx, free: nat, leaked: nat)
    ensures var q := r.(free := free, leaked := leaked);
            Frames(q) == Frames(r) && Blocks(q) == Blocks(r) + free + leaked - r.free - r.leaked
  {
  }

  lemma NextConserves(r: Rx, e: Event, hz: nat)
    ensures Frames(Next(r, e, hz)) == Frames(r) + GivenBy(e)
    ensures Blocks(Next(r, e, hz)) == Blocks(r) + DriftBy(r, e)
    ensures Next(r, e, hz).leaked
            == if e.Elsewhere? then e.leaked else r.leaked + if e.Arrival? && Leaks(r, e.f) then 1 else 0
  {
    hide Leaks, Arrive, Flush, BlockAckRequest, Idle, ReAdd, Frames, Blocks;
    match e
    case Timeout(now) => FlushConserves(r, now, hz);
    case Arrival(f, now) => ArriveConserves(r, f, now);
    case _ => ControlConserves(r, e, hz);
  }

  /** Over any run of one session from any state: nothing is lost and nothing is made up. Every frame
      given is passed up, released or held; every block is free, held or leaked, but for those that other
      sessions move, which ReorderSystem accounts for. */
  lemma {:induction false} RunConserves(r: Rx, es: seq<Event>, hz: nat)
    ensures var r' := Run(r, es, hz);
            && Frames(r') == Frames(r) + Given(es)
            && r'.free + |r'.held| + r'.leaked == r.free + |r.held| + r.leaked + Drift(r, es, hz)
            && r'.leaked == r.leaked + LeaksOf(r, es, hz) + LeakedElsewhere(r, es, hz)
    decreases |es|
  {
    hide Frames, Next;
    if es != [] {
      NextConserves(r, es[0], hz);
      RunConserves(Next(r, es[0], hz), es[1..], hz);
    }
  }

  /** Without EAPOL frames every block stays with the pool or the session. */
  lemma {:induction false} NoEapolNoLeak(r: Rx, es: seq<Event>, hz: nat)
    requires forall i | 0 <= i < |es| :: es[i].Arrival? ==> !es[i].f.eapol
    ensures LeaksOf(r, es, hz) == 0
    decreases |es|
  {
    if es != [] {
      NoEapolNoLeak(Next(r, es[0], hz), es[1..], hz);
    }
  }
}

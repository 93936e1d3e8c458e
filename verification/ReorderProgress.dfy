/** What becomes of the frames over whole runs: only late frames, copies and frames that are too long are
    released, every other one is passed up or held, and no frame stays held for good. */
module ReorderProgress {
  import opened SequenceNumbers
  import opened ReorderSpec
  import opened ReorderProofs
  import opened ReorderOrder
  import opened ReorderConservation
  import opened ReorderByNumber
  import opened ReorderSafety

  // ----- one step -----

  /** The frame that a step may release. */
  function RefusedBy(t: Track, e: Event): seq<Frame> {
    if e.Oversize? || (e.Arrival? && Refused(t, e.f)) then [e.f] else []
  }

  /** A frame is in `u` among those passed up since `t`, or held. */
  ghost predicate Kept(t: Track, u: Track, f: Frame) {
    t.r.up <= u.r.up && (f in u.r.up[|t.r.up|..] || f in u.r.held)
  }

  lemma PassesKeeps(t: Track, u: Track, list: seq<Frame>, p: nat, lastU: int)
    requires Passes(t, u, list, p, lastU)
    ensures t.r.up <= u.r.up && forall f | f in list :: Kept(t, u, f)
  {
    hide Wrap;
    assert u.r.up[|t.r.up|..] == list[..p];
    assert list == list[..p] + list[p..];
  }

  /** The frames that a live session has to do with on an arrival: the one that comes and those held. */
  lemma ArrivesKeeps(t: Track, f: Frame, u: Track)
    requires Arrives(t, f, u)
    ensures u.r.released == t.r.released + if Refused(t, f) then [f] else []
    ensures t.r.up <= u.r.up && (!Refused(t, f) ==> Kept(t, u, f)) && forall h | h in t.r.held :: Kept(t, u, h)
  {
    hide Wrap, Refused, Passes, Kept, Row;
    var held, n := t.r.held, f.number;
    if Refused(t, f) {
      PassesKeeps(t, u, held, 0, t.lastU);
    } else if n == t.lastU + 1 {
      var m: nat :| Resumes(t, u, [f] + held, 1, m, n);
      PassesKeeps(t, u, [f] + held, 1 + m, n + m);
    } else if n <= t.lastU + t.r.win {
      var p: nat :| Cut(held, p, n) && Placed(t, f, u, p);
      var list := held[..p] + [f] + held[p..];
      assert forall h | h in held :: h in list by { assert held == held[..p] + held[p..]; }
      if t.r.free > 0 && !f.eapol { PassesKeeps(t, u, list, 0, t.lastU); } else { PassesKeeps(t, u, list, p + 1, n); }
    } else {
      var p: nat :| Cut(held, p, n - t.r.win) && Moved(t, f, u, p);
      var list, base := held + [f], n - t.r.win;
      if t.r.free + p > 0 && !f.eapol {
        var m: nat :| Resumes(t, u, list, p, m, base);
        PassesKeeps(t, u, list, p + m, base + m);
      } else {
        PassesKeeps(t, u, list, |list|, n);
      }
    }
  }

  lemma ResetKeeps(t: Track, u: Track)
    requires Resets(t, u)
    ensures t.r.up <= u.r.up && forall h | h in t.r.held :: Kept(t, u, h)
  {
    assert u.r.up[|t.r.up|..] == t.r.held;
  }

  lemma SameKeeps(t: Track, u: Track)
    requires t.r.up == u.r.up && t.r.held == u.r.held
    ensures t.r.up <= u.r.up && forall h | h in t.r.held :: Kept(t, u, h)
  {
  }

  lemma OpensKeeps(t: Track, f: Frame, u: Track)
    requires Opens(t, f, u)
    ensures u.r.released == t.r.released && t.r.up <= u.r.up && Kept(t, u, f)
  {
    hide Wrap;
  }

  lemma ArrivalKeeps(t: Track, f: Frame, now: nat, hz: nat)
    requires Inv(t) && Near(t, Arrival(f, now))
    ensures var u := TrackNext(t, Arrival(f, now), hz);
            && u.r.released == t.r.released + (if Refused(t, f) then [f] else [])
            && t.r.up <= u.r.up && (!Refused(t, f) ==> Kept(t, u, f))
            && forall h | h in t.r.held :: Kept(t, u, h)
  {
    hide Live, Near, Next, Arrives, Opens, Kept, Ahead;
    var e := Arrival(f, now);
    assert Next(t.r, e, hz) == Next(t.r, e, 0) by { ArrivalIgnoresHz(t.r, f, now, hz); }
    var u := TrackNext(t, e, hz);
    NextByNumber(t, e, 0);
    var t1 := t.(r := t.r.(atTimer := now));
    assert Refused(t1, f) == Refused(t, f);
    assert forall h :: Kept(t1, u, h) <==> Kept(t, u, h) by { KeptIgnoresTimer(t, now, u); }
    if t.r.last == RESET_RCV_SEQ {
      assert t.r.held == [];
      OpensKeeps(t1, f, u);
    } else {
      ArrivesKeeps(t1, f, u);
    }
  }

  lemma ArrivalIgnoresHz(r: Rx, f: Frame, now: nat, hz: nat)
    ensures Next(r, Arrival(f, now), hz) == Next(r, Arrival(f, now), 0)
  {
    hide Arrive;
  }

  lemma KeptIgnoresTimer(t: Track, now: nat, u: Track)
    ensures forall h :: Kept(t.(r := t.r.(atTimer := now)), u, h) <==> Kept(t, u, h)
  {
  }

  /** Any arrival that comes neither late nor as the copy of a held frame is passed up at once or held,
      whatever the state of the pool; the session then releases nothing. */
  lemma FrameIsKept(t: Track, f: Frame, now: nat, hz: nat)
    requires Inv(t) && Near(t, Arrival(f, now))
    requires t.r.last == RESET_RCV_SEQ || (f.number > t.lastU && forall h | h in t.r.held :: h.number != f.number)
    ensures var u := TrackNext(t, Arrival(f, now), hz);
            u.r.released == t.r.released && (f in u.r.up[|t.r.up|..] || f in u.r.held)
  {
    hide TrackNext, Inv, Near;
    ArrivalKeeps(t, f, now, hz);
  }

  /** A frame handed over, with the timeout check that comes first: one that is too long is released at once;
      of the others exactly the late ones and the copies of held ones are. */
  lemma IndicateKeeps(t: Track, f: Frame, now: nat, hz: nat)
    requires Inv(t) && Near(TrackNext(t, Timeout(now), hz), Arrival(f, now))
    ensures var r, u := Indicate(t.r, f, now, hz), TrackNext(t, Timeout(now), hz);
            if !f.amsdu && f.size > 1520 then r == t.r.(released := t.r.released + [f])
            else if Refused(u, f) then r.released == t.r.released + [f]
            else r.released == t.r.released && u.r.up <= r.up && (f in r.up[|u.r.up|..] || f in r.held)
  {
    hide TrackNext, Inv, Arrive, Flush;
    var e := Timeout(now);
    var u := TrackNext(t, e, hz);
    NextKeepsInv(t, e, hz);
    NextIs(t, e, hz);
    NextIs(u, Arrival(f, now), hz);
    ControlReleases(t.r, e, hz);
    ArrivalKeeps(u, f, now, hz);
  }

  lemma NextIs(t: Track, e: Event, hz: nat)
    ensures TrackNext(t, e, hz).r == Next(t.r, e, hz)
  {
    hide Next;
  }

  /** A frame of the window that can be buffered is held, and nothing else happens. */
  lemma FrameIsHeld(t: Track, f: Frame, now: nat, hz: nat)
    requires Live(t, 2) && 2 <= f.number - t.lastU <= t.r.win && t.r.free > 0 && !f.eapol
    requires forall h | h in t.r.held :: h.number != f.number
    ensures var u := TrackNext(t, Arrival(f, now), hz);
            && u.r.up == t.r.up && u.r.released == t.r.released && u.lastU == t.lastU
            && multiset(u.r.held) == multiset(t.r.held) + multiset{f}
  {
    hide Live, Next, Passes, Ahead;
    var e := Arrival(f, now);
    assert Next(t.r, e, hz) == Next(t.r, e, 0) by { ArrivalIgnoresHz(t.r, f, now, hz); }
    LiveFacts(t, 2);
    NextByNumber(t, e, 0);
    var t1 := t.(r := t.r.(atTimer := now));
    var u := TrackNext(t, e, hz);
    assert Arrives(t1, f, u) && !Refused(t1, f);
    var p: nat :| Cut(t.r.held, p, f.number) && Placed(t1, f, u, p);
    AllHeld(t1, f, u, p);
  }

  lemma AllHeld(t: Track, f: Frame, u: Track, p: nat)
    requires p <= |t.r.held| && Passes(t, u, t.r.held[..p] + [f] + t.r.held[p..], 0, t.lastU)
    ensures u.r.up == t.r.up && u.lastU == t.lastU && multiset(u.r.held) == multiset(t.r.held) + multiset{f}
  {
    hide Wrap;
    assert t.r.held == t.r.held[..p] + t.r.held[p..];
  }

  /** Any other step releases a frame only if it is too long. */
  lemma ControlReleases(r: Rx, e: Event, hz: nat)
    requires !e.Arrival?
    ensures Next(r, e, hz).released == r.released + if e.Oversize? then [e.f] else []
  {
    hide Sn, Wrap, Smaller, TimeAfter, LeadLe, LeadInOrder;
  }

  lemma NextReleases(t: Track, e: Event, hz: nat)
    requires Inv(t) && Near(t, e)
    ensures TrackNext(t, e, hz).r.released == t.r.released + RefusedBy(t, e)
  {
    hide Next, Near, Inv, Refused;
    if e.Arrival? { ArrivalKeeps(t, e.f, e.now, hz); } else { ControlReleases(t.r, e, hz); }
  }

  /** A timeout that has expired, on a session that holds something. */
  predicate Expiry(t: Track, e: Event, hz: nat) {
    e.Timeout? && t.r.held != [] && Expired(Elapsed(e.now, t.r.atTimer), hz / 10)
  }

  /** A held frame is passed up or stays held, and every expired timeout brings its turn nearer. */
  lemma HeldAdvances(t: Track, e: Event, h: Frame, hz: nat)
    requires Inv(t) && Near(t, e) && h in t.r.held && hz < 0x1_0000_0000
    ensures var u := TrackNext(t, e, hz);
            Kept(t, u, h)
            && (h in u.r.held ==> u.lastU >= t.lastU + if Expiry(t, e, hz) then 1 else 0)
  {
    hide Live, Near, Next, Arrives, Wrap;
    var u := TrackNext(t, e, hz);
    NextByNumber(t, e, hz);
    match e
    case Arrival(f, now) => ArrivalKeeps(t, f, now, hz);
    case Timeout(now) => TimeoutKeeps(t, now, hz, u, h);
    case Bar(number) => RequestKeeps(t, number, u, h);
    case AddBa(bufSize, limit) => ResetKeeps(t, u);
    case IdleTimer(now) =>
      if Expired(Elapsed(now, t.r.atTimer), REC_BA_SESSION_IDLE_TIMEOUT) { ResetKeeps(t, u); } else { SameKeeps(t, u); }
    case _ => SameKeeps(t, u);
  }

  lemma TimeoutKeeps(t: Track, now: nat, hz: nat, u: Track, h: Frame)
    requires TimesOut(t, now, hz, u) && h in t.r.held
    ensures Kept(t, u, h) && (h in u.r.held ==> u.lastU >= t.lastU + if Expiry(t, Timeout(now), hz) then 1 else 0)
  {
    hide Wrap, Expired, Elapsed, Passes, Row, Kept;
    var ticks := Elapsed(now, t.r.atTimer);
    if Expired(ticks, hz / 2) && |t.r.held| > 1 {
      ResetKeeps(t, u);
    } else if Expired(ticks, hz / 10) {
      var m: nat :| Resumes(t, u, t.r.held, 0, m, t.lastU + 1);
      PassesKeeps(t, u, t.r.held, m, t.lastU + 1 + m);
      LastOf(t, u, t.r.held, m, t.lastU + 1 + m);
    } else {
      SameKeeps(t, u);
    }
  }

  lemma LastOf(t: Track, u: Track, list: seq<Frame>, p: nat, lastU: int)
    requires Passes(t, u, list, p, lastU)
    ensures u.lastU == lastU
  {
  }

  lemma RequestKeeps(t: Track, number: int, u: Track, h: Frame)
    requires Requests(t, number, u) && h in t.r.held
    ensures Kept(t, u, h)
  {
    hide Wrap, Passes;
    if t.r.last == RESET_RCV_SEQ || number <= t.lastU {
      SameKeeps(t, u);
    } else {
      var p: nat :| Cut(t.r.held, p, number) && Passes(t, u, t.r.held, p, number - 1);
      PassesKeeps(t, u, t.r.held, p, number - 1);
    }
  }

  // ----- whole runs -----

  /** The frames that a run releases, in order. */
  function Refusals(t: Track, es: seq<Event>, hz: nat): seq<Frame>
    decreases |es|
  {
    if es == [] then [] else RefusedBy(t, es[0]) + Refusals(TrackNext(t, es[0], hz), es[1..], hz)
  }

  lemma {:induction false} RunRefuses(t: Track, es: seq<Event>, hz: nat)
    requires Inv(t) && RegularRun(t, es, hz)
    ensures TrackRun(t, es, hz).r.released == t.r.released + Refusals(t, es, hz)
    decreases |es|
  {
    hide TrackNext, Near, Inv, Disorders, RefusedBy;
    if es != [] {
      NextReleases(t, es[0], hz);
      NextKeepsInv(t, es[0], hz);
      RunRefuses(TrackNext(t, es[0], hz), es[1..], hz);
    }
  }

  /** Over every regular run, what is released are the frames that are too long, come late, or copy a held
      one; each of the others is passed up or held. */
  lemma RunReleases(t: Track, es: seq<Event>, hz: nat)
    requires Inv(t) && RegularRun(t, es, hz)
    ensures var r := Run(t.r, es, hz);
            && r.released == t.r.released + Refusals(t, es, hz)
            && multiset(r.up) + multiset(r.held) + multiset(Refusals(t, es, hz))
               == multiset(t.r.up) + multiset(t.r.held) + Given(es)
  {
    hide Run, TrackRun, RegularRun, Inv, Refusals, Given;
    RunRefuses(t, es, hz);
    RunDeliversInOrder(t, es, hz);
    RunConserves(t.r, es, hz);
    var r := Run(t.r, es, hz);
    assert multiset(r.released) == multiset(t.r.released) + multiset(Refusals(t, es, hz));
    Cancel(multiset(r.up), multiset(r.held), multiset(t.r.up), multiset(t.r.held), multiset(t.r.released),
      multiset(Refusals(t, es, hz)), Given(es));
  }

  lemma Cancel(up': multiset<Frame>, held': multiset<Frame>, up: multiset<Frame>, held: multiset<Frame>,
               released: multiset<Frame>, refused: multiset<Frame>, given: multiset<Frame>)
    requires up' + (released + refused) + held' == up + released + held + given
    ensures up' + held' + refused == up + held + given
  {
    forall f ensures (up' + held' + refused)[f] == (up + held + given)[f] {
      assert (up' + (released + refused) + held')[f] == (up + released + held + given)[f];
    }
  }

  /** How many timeouts of a run expire on a session that holds something. */
  function Expiries(t: Track, es: seq<Event>, hz: nat): nat
    decreases |es|
  {
    if es == [] then 0
    else (if Expiry(t, es[0], hz) then 1 else 0) + Expiries(TrackNext(t, es[0], hz), es[1..], hz)
  }

  lemma {:induction false} RunGrows(t: Track, es: seq<Event>, hz: nat)
    ensures t.r.up <= TrackRun(t, es, hz).r.up
    decreases |es|
  {
    hide TrackNext;
    if es != [] {
      NextGrows(t, es[0], hz);
      RunGrows(TrackNext(t, es[0], hz), es[1..], hz);
    }
  }

  lemma NextGrows(t: Track, e: Event, hz: nat)
    ensures t.r.up <= TrackNext(t, e, hz).r.up
  {
    hide Sn, Wrap, Smaller, TimeAfter, LeadLe, LeadInOrder, Ahead, Arrive;
    if e.Arrival? { ArriveGrows(t.r, e.f, e.now); }
  }

  lemma ArriveGrows(r: Rx, f: Frame, now: nat)
    ensures r.up <= Arrive(r, f, now).up
  {
    hide Sn, LeadLe, InsertSorted, IsDuplicate, WinStart, DrainInOrder;
    DrainExtends(Deliver(r.(atTimer := now, last := Sn(f)), f));
    DrainExtends(Enqueue(Slide(r.(atTimer := now), f), f));
  }

  /** No frame stays held for good: one that is held `d` numbers ahead has been passed up after `d - 1`
      expired timeouts, whatever else the run brings. */
  lemma {:induction false} HeldIsPassedUp(t: Track, es: seq<Event>, h: Frame, hz: nat)
    requires Inv(t) && RegularRun(t, es, hz) && hz < 0x1_0000_0000
    requires h in t.r.held && Expiries(t, es, hz) >= h.number - t.lastU - 1
    ensures var up := TrackRun(t, es, hz).r.up; t.r.up <= up && h in up[|t.r.up|..]
    decreases |es|
  {
    hide TrackNext, Near, Disorders, Expiry;
    HeldAhead(t, h);
    RunGrows(t, es, hz);
    if es != [] {
      var u := TrackNext(t, es[0], hz);
      NextKeepsInv(t, es[0], hz);
      HeldAdvances(t, es[0], h, hz);
      if h in u.r.up[|t.r.up|..] {
        RunGrows(u, es[1..], hz);
      } else {
        HeldIsPassedUp(u, es[1..], h, hz);
      }
    }
  }

  lemma HeldAhead(t: Track, h: Frame)
    requires Inv(t) && h in t.r.held
    ensures t.r.last != RESET_RCV_SEQ && h.number - t.lastU >= 2
  {
    HeldAbove(t, h);
  }

  /** What a regular run makes of a session: in order what is passed up, released only what is refused, every
      other frame passed up or held, and no frame held past its turn. */
  ghost predicate Accounts(t: Track, es: seq<Event>, r: Rx, hz: nat) {
    && Ascending(r.up, TrackRun(t, es, hz).start)
    && r.released == t.r.released + Refusals(t, es, hz)
    && multiset(r.up) + multiset(r.held) + multiset(Refusals(t, es, hz))
       == multiset(t.r.up) + multiset(t.r.held) + Given(es)
    && t.r.up <= r.up
    && forall h | h in t.r.held && hz < 0x1_0000_0000 && Expiries(t, es, hz) >= h.number - t.lastU - 1 ::
         h in r.up[|t.r.up|..]
  }

  lemma RunAccounts(t: Track, es: seq<Event>, r: Rx, hz: nat)
    requires Inv(t) && RegularRun(t, es, hz)
    requires var q := Run(t.r, es, hz); r.up == q.up && r.released == q.released && r.held == q.held
    ensures Accounts(t, es, r, hz)
  {
    hide Run, TrackRun, RegularRun, Inv, Refusals, Given, Expiries;
    RunDeliversInOrder(t, es, hz);
    RunReleases(t, es, hz);
    RunGrows(t, es, hz);
    forall h | h in t.r.held && hz < 0x1_0000_0000 && Expiries(t, es, hz) >= h.number - t.lastU - 1
      ensures h in r.up[|t.r.up|..]
    {
      HeldIsPassedUp(t, es, h, hz);
    }
  }
}

/** All sessions of the adapter on one block pool, as a value, and whole runs of it: every move is one
    step of one session, and what it makes of the pool is what the next session finds. */
module ReorderSystem {
  import opened SequenceNumbers
  import opened ReorderSpec
  import opened ReorderProofs
  import opened ReorderOrder
  import opened ReorderSafety
  import opened ReorderConservation
  import opened ReorderProgress

  /** The sessions, each without its view of the pool, and the pool. */
  datatype System = System(sessions: seq<Rx>, free: nat, leaked: nat)

  datatype Move = Move(k: nat, e: Event)

  function Bare(r: Rx): Rx {
    r.(free := 0, leaked := 0)
  }

  /** Session `k` as it sees itself, with the pool. */
  function View(s: System, k: nat): Rx
    requires k < |s.sessions|
  {
    s.sessions[k].(free := s.free, leaked := s.leaked)
  }

  /** A move is a step of a session there is, and not one that stands for other sessions. */
  predicate Fits(n: nat, m: Move) {
    m.k < n && !m.e.Elsewhere?
  }

  predicate AllFit(n: nat, ms: seq<Move>) {
    forall i | 0 <= i < |ms| :: Fits(n, ms[i])
  }

  /** Session `k` as it sees itself now, and the others as they were. */
  function Replace(s: System, k: nat, r: Rx): (t: System)
    requires k < |s.sessions|
    ensures |t.sessions| == |s.sessions|
  {
    System(s.sessions[k := Bare(r)], r.free, r.leaked)
  }

  function Step(s: System, m: Move, hz: nat): (t: System)
    requires Fits(|s.sessions|, m)
    ensures |t.sessions| == |s.sessions|
  {
    Replace(s, m.k, Next(View(s, m.k), m.e, hz))
  }

  function Moves(s: System, ms: seq<Move>, hz: nat): (t: System)
    requires AllFit(|s.sessions|, ms)
    ensures |t.sessions| == |s.sessions|
    decreases |ms|
  {
    if ms == [] then s
    else
      assert Fits(|s.sessions|, ms[0]) && forall i | 0 <= i < |ms[1..]| :: ms[1..][i] == ms[i + 1];
      Moves(Step(s, ms[0], hz), ms[1..], hz)
  }

  lemma {:induction false} MovesJoin(s: System, a: seq<Move>, b: seq<Move>, hz: nat)
    requires AllFit(|s.sessions|, a) && AllFit(|s.sessions|, b)
    ensures AllFit(|s.sessions|, a + b) && Moves(s, a + b, hz) == Moves(Moves(s, a, hz), b, hz)
    decreases |a|
  {
    hide Step;
    assert forall i | 0 <= i < |a + b| :: (a + b)[i] == if i < |a| then a[i] else b[i - |a|];
    if a == [] {
      assert a + b == b;
    } else {
      assert Fits(|s.sessions|, a[0]) && (a + b)[1..] == a[1..] + b;
      MovesJoin(Step(s, a[0], hz), a[1..], b, hz);
    }
  }

  lemma MovesFirst(s: System, ms: seq<Move>, hz: nat)
    requires ms != [] && AllFit(|s.sessions|, ms)
    ensures Fits(|s.sessions|, ms[0]) && AllFit(|s.sessions|, ms[1..])
    ensures Moves(s, ms, hz) == Moves(Step(s, ms[0], hz), ms[1..], hz)
  {
    hide Step;
    assert forall i | 0 <= i < |ms[1..]| :: ms[1..][i] == ms[i + 1];
  }

  // ----- the calls that the driver makes -----

  /** The entry points: a data frame, a block-ack request (`number` is the unbounded form of its starting
      number), the idle timer, and a second ADDBA request. */
  datatype Call =
    | DataFrame(f: Frame, now: nat)
    | Request(number: int)
    | IdleCheck(now: nat)
    | Renewal(bufSize: nat, limit: nat)

  datatype Job = Job(k: nat, call: Call)

  /** The steps of a call. */
  function StepsOfCall(c: Call): (es: seq<Event>)
    ensures es != [] && forall i | 0 <= i < |es| :: !es[i].Elsewhere?
  {
    match c
    case DataFrame(f, now) => StepsOf(f, now)
    case Request(number) => [Bar(number)]
    case IdleCheck(now) => [IdleTimer(now)]
    case Renewal(bufSize, limit) => [AddBa(bufSize, limit)]
  }

  function MovesBy(k: nat, es: seq<Event>): (ms: seq<Move>)
    ensures |ms| == |es| && forall i | 0 <= i < |es| :: ms[i] == Move(k, es[i])
  {
    seq(|es|, i requires 0 <= i < |es| => Move(k, es[i]))
  }

  /** The moves of a list of jobs. */
  function Plan(jobs: seq<Job>): seq<Move> {
    if jobs == [] then [] else
      Plan(jobs[..|jobs| - 1]) + MovesBy(jobs[|jobs| - 1].k, StepsOfCall(jobs[|jobs| - 1].call))
  }

  lemma {:induction false} PlanFits(jobs: seq<Job>, n: nat)
    requires forall i | 0 <= i < |jobs| :: jobs[i].k < n
    ensures AllFit(n, Plan(jobs))
  {
    hide StepsOfCall;
    if jobs != [] {
      PlanFits(jobs[..|jobs| - 1], n);
    }
  }

  /** Several steps of one session are one replacement of it. */
  lemma {:induction false} MovesOfOne(s: System, k: nat, es: seq<Event>, hz: nat)
    requires k < |s.sessions| && es != [] && forall i | 0 <= i < |es| :: !es[i].Elsewhere?
    ensures AllFit(|s.sessions|, MovesBy(k, es))
    ensures Moves(s, MovesBy(k, es), hz) == Replace(s, k, Run(View(s, k), es, hz))
    decreases |es|
  {
    hide Next;
    var ms := MovesBy(k, es);
    MovesFirst(s, ms, hz);
    var t := Step(s, ms[0], hz);
    assert View(t, k) == Next(View(s, k), es[0], hz);
    if |es| == 1 {
      assert ms[1..] == [] && es[1..] == [];
      assert Run(View(t, k), es[1..], hz) == View(t, k);
    } else {
      assert ms[1..] == MovesBy(k, es[1..]);
      MovesOfOne(t, k, es[1..], hz);
      ReplaceTwice(s, k, View(t, k), Run(View(t, k), es[1..], hz));
    }
  }

  lemma ReplaceTwice(s: System, k: nat, q: Rx, r: Rx)
    requires k < |s.sessions|
    ensures Replace(Replace(s, k, q), k, r) == Replace(s, k, r)
  {
  }

  /** What the entry point of a call makes of the session. */
  function AfterCall(r: Rx, c: Call, hz: nat): Rx {
    match c
    case DataFrame(f, now) => Indicate(r, f, now, hz)
    case Request(number) => BlockAckRequest(r, Wrap(number))
    case IdleCheck(now) => Idle(r, now)
    case Renewal(bufSize, limit) => ReAdd(r, bufSize, limit)
  }

  /** The entry points take the steps of their calls. */
  lemma CallIs(s: System, k: nat, c: Call, hz: nat)
    requires k < |s.sessions|
    ensures AllFit(|s.sessions|, MovesBy(k, StepsOfCall(c)))
    ensures Moves(s, MovesBy(k, StepsOfCall(c)), hz) == Replace(s, k, AfterCall(View(s, k), c, hz))
  {
    hide Replace, View, Indicate, BlockAckRequest, Idle, ReAdd, Moves, StepsOf;
    MovesOfOne(s, k, StepsOfCall(c), hz);
    match c
    case DataFrame(f, now) => IndicateIsSteps(View(s, k), f, now, hz);
    case _ => RunOfOne(View(s, k), StepsOfCall(c)[0], hz);
  }

  lemma RunOfOne(r: Rx, e: Event, hz: nat)
    ensures Run(r, [e], hz) == Next(r, e, hz)
  {
    hide Next;
    assert Run(Next(r, e, hz), [e][1..], hz) == Next(r, e, hz);
  }

  // ----- conservation over all sessions -----

  /** Passed up, released or held, by the first `n` sessions. */
  function FramesOf(ss: seq<Rx>, n: nat): multiset<Frame>
    requires n <= |ss|
  {
    if n == 0 then multiset{} else FramesOf(ss, n - 1) + Frames(ss[n - 1])
  }

  /** Blocks on the lists of the first `n` sessions. */
  function HeldBy(ss: seq<Rx>, n: nat): nat
    requires n <= |ss|
  {
    if n == 0 then 0 else HeldBy(ss, n - 1) + |ss[n - 1].held|
  }

  function AllFrames(s: System): multiset<Frame> {
    FramesOf(s.sessions, |s.sessions|)
  }

  function AllBlocks(s: System): nat {
    s.free + HeldBy(s.sessions, |s.sessions|) + s.leaked
  }

  lemma {:induction false} FramesChanged(ss: seq<Rx>, n: nat, k: nat, r: Rx, more: multiset<Frame>)
    requires n <= |ss| && k < |ss| && Frames(r) == Frames(ss[k]) + more
    ensures FramesOf(ss[k := r], n) == FramesOf(ss, n) + if k < n then more else multiset{}
  {
    hide Frames;
    if n > 0 { FramesChanged(ss, n - 1, k, r, more); }
  }

  lemma {:induction false} HeldChanged(ss: seq<Rx>, n: nat, k: nat, r: Rx)
    requires n <= |ss| && k < |ss|
    ensures HeldBy(ss[k := r], n) == HeldBy(ss, n) + if k < n then |r.held| - |ss[k].held| else 0
  {
    if n > 0 { HeldChanged(ss, n - 1, k, r); }
  }

  predicate MoveLeaks(s: System, m: Move)
    requires Fits(|s.sessions|, m)
  {
    m.e.Arrival? && Leaks(View(s, m.k), m.e.f)
  }

  lemma StepConserves(s: System, m: Move, hz: nat)
    requires Fits(|s.sessions|, m)
    ensures var t := Step(s, m, hz);
            && AllFrames(t) == AllFrames(s) + GivenBy(m.e)
            && AllBlocks(t) == AllBlocks(s)
            && t.leaked == s.leaked + if MoveLeaks(s, m) then 1 else 0
  {
    hide Next, Leaks;
    var v := View(s, m.k);
    var r := Next(v, m.e, hz);
    NextConserves(v, m.e, hz);
    FramesChanged(s.sessions, |s.sessions|, m.k, Bare(r), GivenBy(m.e));
    HeldChanged(s.sessions, |s.sessions|, m.k, Bare(r));
  }

  /** The frames that a run of moves is given. */
  function GivenTo(ms: seq<Move>): multiset<Frame> {
    if ms == [] then multiset{} else GivenBy(ms[0].e) + GivenTo(ms[1..])
  }

  function LeaksIn(s: System, ms: seq<Move>, hz: nat): nat
    requires AllFit(|s.sessions|, ms)
    decreases |ms|
  {
    if ms == [] then 0
    else
      MovesFirst(s, ms, hz);
      (if MoveLeaks(s, ms[0]) then 1 else 0) + LeaksIn(Step(s, ms[0], hz), ms[1..], hz)
  }

  /** Over any run of all sessions from any state: each frame given is exactly once passed up, released or
      held by some session, and the blocks free, held by the sessions and leaked are as many as before,
      with as many more leaked as there were leaking moves. */
  lemma {:induction false} RunConservesAll(s: System, ms: seq<Move>, hz: nat)
    requires AllFit(|s.sessions|, ms)
    ensures var t := Moves(s, ms, hz);
            && AllFrames(t) == AllFrames(s) + GivenTo(ms)
            && AllBlocks(t) == AllBlocks(s)
            && t.leaked == s.leaked + LeaksIn(s, ms, hz)
    decreases |ms|
  {
    hide Step, AllFrames, AllBlocks, MoveLeaks;
    if ms != [] {
      MovesFirst(s, ms, hz);
      StepConserves(s, ms[0], hz);
      RunConservesAll(Step(s, ms[0], hz), ms[1..], hz);
    }
  }

  /** Without EAPOL frames nothing leaks, from any state. */
  lemma {:induction false} NoEapolLeaksNothing(s: System, ms: seq<Move>, hz: nat)
    requires AllFit(|s.sessions|, ms) && forall i | 0 <= i < |ms| :: ms[i].e.Arrival? ==> !ms[i].e.f.eapol
    ensures LeaksIn(s, ms, hz) == 0
    decreases |ms|
  {
    hide Step;
    if ms != [] {
      MovesFirst(s, ms, hz);
      assert !MoveLeaks(s, ms[0]);
      assert forall i | 0 <= i < |ms[1..]| :: ms[1..][i] == ms[i + 1];
      NoEapolLeaksNothing(Step(s, ms[0], hz), ms[1..], hz);
    }
  }

  // ----- what one session sees of a run -----

  /** The run as session `k` sees it: its own steps, and what the others make of the pool. */
  function Seen(s: System, ms: seq<Move>, k: nat, hz: nat): seq<Event>
    requires AllFit(|s.sessions|, ms)
    decreases |ms|
  {
    if ms == [] then []
    else
      MovesFirst(s, ms, hz);
      var t := Step(s, ms[0], hz);
      [if ms[0].k == k then ms[0].e else Elsewhere(t.free, t.leaked)] + Seen(t, ms[1..], k, hz)
  }

  lemma StepSeen(s: System, m: Move, k: nat, hz: nat)
    requires Fits(|s.sessions|, m) && k < |s.sessions|
    ensures var t := Step(s, m, hz);
            View(t, k) == Next(View(s, k), if m.k == k then m.e else Elsewhere(t.free, t.leaked), hz)
  {
    hide Arrive, Flush, BlockAckRequest, Idle, ReAdd;
  }

  /** A run of the system is, for each session, a run of that session. */
  lemma {:induction false} SeenIsRun(s: System, ms: seq<Move>, k: nat, hz: nat)
    requires AllFit(|s.sessions|, ms) && k < |s.sessions|
    ensures View(Moves(s, ms, hz), k) == Run(View(s, k), Seen(s, ms, k, hz), hz)
    decreases |ms|
  {
    hide Step, Next, View;
    if ms != [] {
      MovesFirst(s, ms, hz);
      StepSeen(s, ms[0], k, hz);
      var t := Step(s, ms[0], hz);
      SeenIsRun(t, ms[1..], k, hz);
      var es := Seen(s, ms, k, hz);
      assert es[1..] == Seen(t, ms[1..], k, hz);
    }
  }

  ghost predicate AllWindows(s: System) {
    forall k | 0 <= k < |s.sessions| :: Window(View(s, k))
  }

  /** No move strands a held successor. */
  predicate AdmissibleMoves(s: System, ms: seq<Move>, hz: nat)
    requires AllFit(|s.sessions|, ms)
    decreases |ms|
  {
    ms == [] ||
    (MovesFirst(s, ms, hz);
     Admissible(View(s, ms[0].k), ms[0].e) && AdmissibleMoves(Step(s, ms[0], hz), ms[1..], hz))
  }

  /** A move keeps the windows of all sessions exactly if it does not strand a held successor. */
  lemma StepKeepsWindows(s: System, m: Move, hz: nat)
    requires Fits(|s.sessions|, m) && AllWindows(s)
    ensures AllWindows(Step(s, m, hz)) <==> Admissible(View(s, m.k), m.e)
  {
    hide Next, Window, Admissible;
    var t := Step(s, m, hz);
    NextKeepsWindow(View(s, m.k), m.e, hz);
    StepSeen(s, m, m.k, hz);
    forall k | 0 <= k < |s.sessions| && k != m.k ensures Window(View(t, k)) {
      WindowIgnoresPool(View(s, k), t.free, t.leaked);
      assert View(t, k) == View(s, k).(free := t.free, leaked := t.leaked);
    }
  }

  lemma WindowIgnoresPool(r: Rx, free: nat, leaked: nat)
    requires Window(r)
    ensures Window(r.(free := free, leaked := leaked))
  {
  }

  /** Over every run of all sessions on one pool, each session stays inside its window. */
  lemma {:induction false} RunKeepsWindows(s: System, ms: seq<Move>, hz: nat)
    requires AllFit(|s.sessions|, ms) && AllWindows(s) && AdmissibleMoves(s, ms, hz)
    ensures AllWindows(Moves(s, ms, hz))
    decreases |ms|
  {
    hide Step, Admissible, AllWindows;
    if ms != [] {
      MovesFirst(s, ms, hz);
      StepKeepsWindows(s, ms[0], hz);
      RunKeepsWindows(Step(s, ms[0], hz), ms[1..], hz);
    }
  }

  /** And what a session passes up strictly ascends since its last reset, whatever the others do, if the
      session itself takes no disordering step. */
  lemma RunDeliversInOrderEach(s: System, ms: seq<Move>, k: nat, t: Track, hz: nat)
    requires AllFit(|s.sessions|, ms) && k < |s.sessions|
    requires t.r == View(s, k) && Inv(t) && RegularRun(t, Seen(s, ms, k, hz), hz)
    ensures var t' := TrackRun(t, Seen(s, ms, k, hz), hz); var up := Moves(s, ms, hz).sessions[k].up;
            t'.start <= |up| && forall i, j | t'.start <= i < j < |up| :: up[i].number < up[j].number
  {
    hide Run, RegularRun, TrackRun, Inv, Moves, Seen;
    SeenIsRun(s, ms, k, hz);
    RunDeliversInOrder(t, Seen(s, ms, k, hz), hz);
  }

  /** Session `k`, tracked by `t`, takes no disordering step of its own in the run. */
  ghost predicate Orderly(s: System, ms: seq<Move>, k: nat, t: Track, hz: nat)
    requires AllFit(|s.sessions|, ms)
  {
    k < |s.sessions| && t.r == View(s, k) && Inv(t) && RegularRun(t, Seen(s, ms, k, hz), hz)
  }

  /** Whatever the other sessions do on the pool: an orderly session delivers in order, releases only frames
      that are too long, late or copies of held ones, passes up or holds every other, and holds none past
      its turn. */
  lemma RunAccountsEach(s: System, ms: seq<Move>, k: nat, t: Track, hz: nat)
    requires AllFit(|s.sessions|, ms) && Orderly(s, ms, k, t, hz)
    ensures Accounts(t, Seen(s, ms, k, hz), Moves(s, ms, hz).sessions[k], hz)
  {
    hide Run, RegularRun, TrackRun, Inv, Moves, Seen, Accounts;
    SeenIsRun(s, ms, k, hz);
    RunAccounts(t, Seen(s, ms, k, hz), Moves(s, ms, hz).sessions[k], hz);
  }

  /** All sessions that are orderly in a run from `s` to `u`. */
  ghost predicate AllAccount(s: System, ms: seq<Move>, u: System, hz: nat)
    requires AllFit(|s.sessions|, ms) && |u.sessions| == |s.sessions|
  {
    forall k: nat, t: Track | Orderly(s, ms, k, t, hz) :: Accounts(t, Seen(s, ms, k, hz), u.sessions[k], hz)
  }

  lemma RunAllAccount(s: System, ms: seq<Move>, hz: nat)
    requires AllFit(|s.sessions|, ms)
    ensures AllAccount(s, ms, Moves(s, ms, hz), hz)
  {
    hide Moves, Seen, Accounts;
    forall k: nat, t: Track | Orderly(s, ms, k, t, hz)
      ensures Accounts(t, Seen(s, ms, k, hz), Moves(s, ms, hz).sessions[k], hz)
    {
      RunAccountsEach(s, ms, k, t, hz);
    }
  }
}

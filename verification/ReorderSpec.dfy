/** The receive-reordering machine of one block-ack session, as functions on values.
    Each function is the effect of one routine of common/ba_action.c; ReorderHeap proves
    that the linked-list code computes it, and ReorderProofs proves what it keeps. */
module ReorderSpec {
  import opened SequenceNumbers

  const MAX_RX_PKT_LEN := 1520
  const REC_BA_SESSION_IDLE_TIMEOUT := 1000

  /** A received frame. `number` is the transmitter's unbounded frame counter;
      the driver sees only its low 12 bits, through `Sn`. */
  datatype Frame = Frame(packet: nat, number: int, size: nat, amsdu: bool, eapol: bool)

  function Sn(f: Frame): nat {
    Wrap(f.number)
  }

  /** One session together with what it shares: the free blocks of the pool, the blocks no list
      holds any more, and the logs of packets passed up and of packets released. */
  datatype Rx = Rx(last: nat, win: nat, held: seq<Frame>, atTimer: nat, drops: nat,
                   free: nat, leaked: nat, up: seq<Frame>, released: seq<Frame>)

  /** `RTMP_TIME_AFTER` on a host whose `unsigned long` has 32 bits (include/os/rt_linux.h:448-451). */
  predicate TimeAfter(a: nat, b: nat) {
    (b - a) % 0x1_0000_0000 >= 0x8000_0000
  }

  function ReorderingTimeout(hz: nat): nat {
    (100 * hz) / 1000
  }

  function MaxReorderingTimeout(hz: nat): nat {
    (3000 * hz) / 1000
  }

  /** How many frames at the head continue `start` without a gap. */
  function LeadInOrder(held: seq<Frame>, start: nat): (n: nat)
    ensures n <= |held|
  {
    if held != [] && StepOne(Sn(held[0]), start) then 1 + LeadInOrder(held[1..], Sn(held[0])) else 0
  }

  /** How many frames at the head are not after `x`. */
  function LeadLe(held: seq<Frame>, x: nat): (n: nat)
    ensures n <= |held|
  {
    if held != [] && (Sn(held[0]) == x || Smaller(Sn(held[0]), x)) then 1 + LeadLe(held[1..], x) else 0
  }

  /** How many frames at the head are strictly before `x`. */
  function LeadBefore(held: seq<Frame>, x: nat): (n: nat)
    ensures n <= |held|
  {
    if held != [] && Smaller(Sn(held[0]), x) then 1 + LeadBefore(held[1..], x) else 0
  }

  /** `ba_reordering_mpdu_insertsorted`: the scan stops at the first frame not before `f`. */
  predicate IsDuplicate(held: seq<Frame>, f: Frame) {
    var p := LeadBefore(held, Sn(f));
    p < |held| && Sn(held[p]) == Sn(f)
  }

  function InsertSorted(held: seq<Frame>, f: Frame): seq<Frame> {
    var p := LeadBefore(held, Sn(f));
    if IsDuplicate(held, f) then held else held[..p] + [f] + held[p..]
  }

  function Deliver(r: Rx, f: Frame): Rx {
    r.(up := r.up + [f])
  }

  function Release(r: Rx, f: Frame): Rx {
    r.(released := r.released + [f])
  }

  /** Announce the first `n` held frames and give their blocks back. */
  function PassUp(r: Rx, n: nat): Rx
    requires n <= |r.held|
  {
    r.(held := r.held[n..], up := r.up + r.held[..n], free := r.free + n)
  }

  function DropLe(r: Rx, x: nat): Rx {
    PassUp(r, LeadLe(r.held, x))
  }

  function DrainInOrder(r: Rx): Rx {
    var n := LeadInOrder(r.held, r.last);
    PassUp(r, n).(last := if n == 0 then r.last else Sn(r.held[n - 1]))
  }

  function Refresh(r: Rx): Rx {
    PassUp(r, |r.held|).(last := RESET_RCV_SEQ)
  }

  /** `ba_flush_reordering_timeout_mpdus`. */
  function Flush(r: Rx, now: nat, hz: nat): Rx {
    if TimeAfter(now, r.atTimer + MaxReorderingTimeout(hz) / 6) && |r.held| > 1 then
      Refresh(r).(atTimer := now)
    else if TimeAfter(now, r.atTimer + ReorderingTimeout(hz)) && |r.held| > 0 then
      SkipGap(r, now)
    else r
  }

  function SkipGap(r: Rx, now: nat): Rx {
    var x := Wrap(r.last + 1);
    DrainInOrder(DropLe(r, x).(atTimer := now, last := x))
  }

  /** `ba_enqueue_reordering_packet`. The block is taken before the EAPOL test, so an EAPOL
      frame takes one and never gives it back. */
  function Enqueue(r: Rx, f: Frame): Rx {
    if r.free > 0 && !f.eapol then
      if IsDuplicate(r.held, f) then Release(r, f)
      else r.(held := InsertSorted(r.held, f), free := r.free - 1)
    else
      Fallback(r, f)
  }

  function Fallback(r: Rx, f: Frame): Rx {
    var r1 := if r.free > 0 then r.(free := r.free - 1, leaked := r.leaked + 1) else r;
    Deliver(DropLe(r1, Sn(f)).(last := Sn(f)), f)
  }

  /** The smallest number inside a window of `win` that ends at `s`. */
  function WinStart(s: nat, win: nat): nat {
    var t := s - win - 1;
    ((if t < 0 then MAXSEQ + 1 + t else t) + 1) % 0x1000
  }

  /** Room is made for a frame beyond the window, before it is enqueued. */
  function Slide(r: Rx, f: Frame): Rx {
    var x := WinStart(Sn(f), r.win);
    DropLe(r, x).(last := x)
  }

  datatype Branch = First | InOrder | Duplicate | Old | InWindow | Beyond

  function Classify(r: Rx, f: Frame): Branch {
    var s := Sn(f);
    if r.last == RESET_RCV_SEQ then First
    else if StepOne(s, r.last) then InOrder
    else if s == r.last then Duplicate
    else if Smaller(s, r.last) then Old
    else if Smaller(s, Wrap(r.last + r.win + 1)) then InWindow
    else Beyond
  }

  /** `Indicate_AMPDU_Packet` after its timeout check. */
  function Arrive(r0: Rx, f: Frame, now: nat): Rx {
    var r := r0.(atTimer := now);
    match Classify(r, f)
    case First => Deliver(r.(last := Sn(f)), f)
    case InOrder => DrainInOrder(Deliver(r.(last := Sn(f)), f))
    case Duplicate => Release(r.(drops := r.drops + 1), f)
    case Old => Release(r.(drops := r.drops + 1), f)
    case InWindow => Enqueue(r, f)
    case Beyond => DrainInOrder(Enqueue(Slide(r, f), f))
  }

  predicate TooLong(f: Frame) {
    !f.amsdu && f.size > MAX_RX_PKT_LEN
  }

  /** `Indicate_AMPDU_Packet` for a peer that has a session. */
  function Indicate(r: Rx, f: Frame, now: nat, hz: nat): Rx {
    if TooLong(f) then Release(r, f) else Arrive(Flush(r, now, hz), f, now)
  }

  /** `CntlEnqueueForRecv` on a block-ack request whose starting number is `start`. */
  predicate BarAdvances(r: Rx, start: nat) {
    Smaller(r.last, start)
  }

  function BlockAckRequest(r: Rx, start: nat): Rx {
    if BarAdvances(r, start)
    then DropLe(r, start).(last := if start == 0 then MAXSEQ else start - 1)
    else r
  }

  /** The window `BARecSessionAdd` settles on; the casts to `UCHAR` keep 8 bits. */
  function AgreedWindow(bufSize: nat, limit: nat): (w: nat)
    ensures 1 <= w <= 255
    ensures bufSize % 256 == 0 || limit % 256 == 0 ==> w == 64
    ensures bufSize % 256 != 0 && limit % 256 != 0 ==>
      w <= bufSize % 256 && w <= limit % 256 && (w == bufSize % 256 || w == limit % 256)
  {
    var b, l := bufSize % 256, limit % 256;
    var w := if b < l then b else l;
    if w == 0 then 64 else w
  }

  /** A second ADDBA request for a session that exists. */
  function ReAdd(r: Rx, bufSize: nat, limit: nat): Rx {
    Refresh(r).(win := AgreedWindow(bufSize, limit))
  }

  /** `BARecSessionIdleTimeout` of an accepted session. */
  function Idle(r: Rx, now: nat): Rx {
    if TimeAfter(now, r.atTimer + REC_BA_SESSION_IDLE_TIMEOUT) then Refresh(r) else r
  }

  /** The steps of a run; `number` is the unbounded form of a request's starting number. A call of
      `Indicate_AMPDU_Packet` is one or two steps (see `StepsOf`). */
  datatype Event =
    | Timeout(now: nat)
    | Arrival(f: Frame, now: nat)
    | Oversize(f: Frame)
    | Bar(number: int)
    | IdleTimer(now: nat)
    | AddBa(bufSize: nat, limit: nat)
    | Elsewhere(free: nat, leaked: nat) // what other sessions make of the pool

  /** What a frame given to `Indicate_AMPDU_Packet` sets off. */
  function StepsOf(f: Frame, now: nat): seq<Event> {
    if TooLong(f) then [Oversize(f)] else [Timeout(now), Arrival(f, now)]
  }

  function Next(r: Rx, e: Event, hz: nat): Rx {
    match e
    case Timeout(now) => Flush(r, now, hz)
    case Arrival(f, now) => Arrive(r, f, now)
    case Oversize(f) => Release(r, f)
    case Bar(number) => BlockAckRequest(r, Wrap(number))
    case IdleTimer(now) => Idle(r, now)
    case AddBa(bufSize, limit) => ReAdd(r, bufSize, limit)
    case Elsewhere(free, leaked) => r.(free := free, leaked := leaked)
  }

  function Run(r: Rx, es: seq<Event>, hz: nat): Rx
    decreases |es|
  {
    if es == [] then r else Run(Next(r, es[0], hz), es[1..], hz)
  }
}

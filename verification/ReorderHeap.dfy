/** The reordering code itself, over one shared block pool and any number of sessions. Every
    routine is proved to compute the function of ReorderSpec that describes it, to keep each block
    on exactly one list, and to leave the other sessions alone. */
module ReorderHeap {
  import opened SequenceNumbers
  import opened ReorderSpec
  import opened ReorderLists
  import opened ReorderSystem
  import ReorderConservation

  /** `BA_REC_ENTRY`, the part the reordering code uses. `held` is what the list carries; `up` and
      `released` are the packets of the session that have left, upwards and back to the pool of buffers. */
  class RecEntry {
    const list: ReorderingList
    var lastIndSeq: nat
    var baWinSize: nat
    var lastIndSeqAtTimer: nat
    var nDropPacket: nat
    var up: seq<Frame>
    var released: seq<Frame>
    ghost var held: seq<Frame>

    constructor ()
      ensures fresh(list) && list.Chain() && list.nodes == []
      ensures Unused()
    {
      list := new ReorderingList();
      lastIndSeq, baWinSize, lastIndSeqAtTimer, nDropPacket := RESET_RCV_SEQ, 0, 0, 0;
      up, released, held := [], [], [];
    }

    ghost predicate Unused()
      reads this
    {
      lastIndSeq == RESET_RCV_SEQ && held == [] && up == [] && released == []
    }
  }

  /** The adapter: the block pool and the sessions. `on[0]` is what the free list holds, `on[k + 1]` what
      session k holds. */
  class Adapter {
    const freelist: ReorderingList
    const entries: seq<RecEntry>
    const hz: nat
    ghost var on: seq<seq<Mpdu>>
    ghost var place: map<Mpdu, int>
    ghost var loose: set<Mpdu>

    ghost function Lists(): set<object> {
      (set k | 0 <= k < |entries| :: entries[k].list) + {freelist}
    }

    /** Session `k`: its chain carries `held`. */
    ghost predicate SessionOk(k: nat)
      requires k < |entries|
      reads {entries[k]}`held, entries[k].list, entries[k].list.nodes
    {
      entries[k].list.Chain() && entries[k].list.Carries(entries[k].held)
    }

    ghost predicate Distinct() {
      && (forall i, j | 0 <= i < j < |entries| :: entries[i] != entries[j] && entries[i].list != entries[j].list)
      && (forall i | 0 <= i < |entries| :: entries[i].list != freelist)
    }

    /** The lists hold what the placement says, and only blocks of the pool. */
    ghost predicate Shape()
      reads this`on, this`place, this`loose, freelist, Lists()
    {
      && |on| == |entries| + 1 && on[0] == freelist.nodes
      && (forall k | 0 <= k < |entries| :: on[k + 1] == entries[k].list.nodes)
      && Placed(on, place, loose)
    }

    ghost predicate Valid()
      reads this`on, this`place, this`loose, entries`held, Lists(), place.Keys
    {
      && Distinct() && Shape() && freelist.Chain() && forall k | 0 <= k < |entries| :: SessionOk(k)
    }

    /** Session `k` with the pool, as a value. */
    ghost function Abs(k: nat): Rx
      requires k < |entries|
      reads this, entries[k], freelist
    {
      var e := entries[k];
      Rx(e.lastIndSeq, e.baWinSize, e.held, e.lastIndSeqAtTimer, e.nDropPacket,
         |freelist.nodes|, |loose|, e.up, e.released)
    }

    /** All sessions and the pool, as a value. */
    ghost function All(): (s: System)
      reads this, entries, freelist
      ensures |s.sessions| == |entries|
    {
      System(seq(|entries|, k requires 0 <= k < |entries| reads this, entries, freelist => Bare(Abs(k))),
             |freelist.nodes|, |loose|)
    }

    lemma AllShows(k: nat)
      requires k < |entries|
      ensures View(All(), k) == Abs(k)
    {
    }

    /** When only session `k` and the pool have changed. */
    twostate lemma OthersKept(k: nat)
      requires k < |entries| && forall j | 0 <= j < |entries| && j != k :: unchanged(entries[j])
      ensures All() == Replace(old(All()), k, Abs(k))
    {
      forall j | 0 <= j < |entries| && j != k ensures All().sessions[j] == old(All()).sessions[j] {
        assert unchanged(entries[j]);
      }
    }

    lemma SessionsDistinct(k: nat)
      requires Valid() && k < |entries|
      ensures forall j | 0 <= j < |entries| && j != k :: entries[j] != entries[k]
    {
      hide ReorderingList.Chain, Placed;
    }

    /** A session whose objects did not change is as good as before. */
    twostate lemma FrameSession(j: nat)
      requires j < |entries| && old(SessionOk(j)) && unchanged(entries[j].list)
               && entries[j].held == old(entries[j].held)
      requires forall m | m in entries[j].list.nodes :: unchanged(m)
      ensures SessionOk(j)
    {
      var l := entries[j].list;
      forall i | 0 <= i < |l.nodes| ensures unchanged(l.nodes[i]) { assert l.nodes[i] in l.nodes; }
      assert forall i | 0 <= i < |l.nodes| :: l.nodes[i].next == old(l.nodes[i].next);
      assert forall i | 0 <= i < |l.nodes| ::
          l.nodes[i].packet == old(l.nodes[i].packet) && l.nodes[i].sequence == old(l.nodes[i].sequence);
    }

    /** Changing one list, and blocks that were on it or on none, leaves the other sessions intact. */
    twostate lemma FrameSessions(i: nat)
      requires old(Valid())
      requires forall j | 0 <= j < |entries| && j + 1 != i :: unchanged(entries[j].list) && unchanged(entries[j])
      requires forall m | m in old(place) && old(place)[m] != i && old(place)[m] >= 0 :: unchanged(m)
      ensures forall j | 0 <= j < |entries| && j + 1 != i :: SessionOk(j)
    {
      forall j | 0 <= j < |entries| && j + 1 != i ensures SessionOk(j) {
        assert old(on)[j + 1] == entries[j].list.nodes;
        FrameSession(j);
      }
    }

    /** The free list is intact when its blocks are. */
    twostate lemma FrameFree()
      requires old(Valid()) && unchanged(freelist)
      requires forall m | m in old(place) && old(place)[m] == 0 :: unchanged(m)
      ensures freelist.Chain()
    {
      var l := freelist;
      assert old(on)[0] == l.nodes;
      forall i | 0 <= i < |l.nodes| ensures unchanged(l.nodes[i]) { assert l.nodes[i] in l.nodes; }
      assert forall i | 0 <= i < |l.nodes| :: l.nodes[i].next == old(l.nodes[i].next);
    }

    /** What a routine leaves that has changed the list of session `k`, and blocks that were on it or on
        none. */
    twostate lemma SessionChanged(k: nat)
      requires old(Valid()) && k < |entries| && unchanged(freelist)
      requires forall j | 0 <= j < |entries| && j != k :: unchanged(entries[j].list) && unchanged(entries[j])
      requires forall m | m in old(place) && old(place)[m] != k + 1 && old(place)[m] >= 0 :: unchanged(m)
      requires on == old(on)[k + 1 := entries[k].list.nodes] && Placed(on, place, loose) && SessionOk(k)
      ensures Valid()
    {
      hide ReorderingList.Chain, ReorderingList.Carries, Placed;
      FrameSessions(k + 1);
      FrameFree();
    }

    /** The same for the free list. */
    twostate lemma FreeChanged()
      requires old(Valid())
      requires forall j | 0 <= j < |entries| :: unchanged(entries[j].list) && unchanged(entries[j])
      requires forall m | m in old(place) && old(place)[m] > 0 :: unchanged(m)
      requires on == old(on)[0 := freelist.nodes] && Placed(on, place, loose) && freelist.Chain()
      ensures Valid()
    {
      hide ReorderingList.Chain, ReorderingList.Carries, Placed;
      FrameSessions(0);
    }

    /** What `Valid` says of session `k`. */
    lemma SessionFacts(k: nat)
      requires Valid() && k < |entries|
      ensures entries[k].list != freelist && on[k + 1] == entries[k].list.nodes && SessionOk(k)
      ensures |entries[k].held| == |entries[k].list.nodes| && !Repeats(entries[k].list.nodes)
      ensures forall m | m in entries[k].list.nodes :: m in place && place[m] == k + 1 && m !in loose
      ensures forall m | m in loose :: m in place && place[m] == -1
    {
      hide ReorderingList.Chain, ReorderingList.Carries, Placed;
      PlacedOn(on, place, loose, k + 1);
      assert SessionOk(k);
      entries[k].list.CarriesFacts(entries[k].held);
    }

    /** What it says of the free list. */
    lemma FreeFacts(k: nat)
      requires Valid() && k < |entries|
      ensures entries[k].list != freelist
      ensures forall m | m in freelist.nodes :: m in place && place[m] == 0 && m !in loose
    {
      hide ReorderingList.Chain, ReorderingList.Carries, Placed;
      PlacedOn(on, place, loose, 0);
    }

    /** `ba_reordering_resource_init`: `num` zeroed blocks, all on the free list. */
    constructor (sessions: seq<RecEntry>, num: nat, hz: nat)
      requires forall i, j | 0 <= i < j < |sessions| ::
               sessions[i] != sessions[j] && sessions[i].list != sessions[j].list
      requires forall i | 0 <= i < |sessions| ::
               sessions[i].list.Chain() && sessions[i].list.nodes == [] && sessions[i].held == []
      ensures Valid() && fresh(place.Keys) && fresh(freelist) && |place| == num && entries == sessions && this.hz == hz
      ensures |freelist.nodes| == num && loose == {}
    {
      var free := new ReorderingList();
      ghost var all: map<Mpdu, int> := map[];
      var i := 0;
      while i < num
        invariant 0 <= i <= num && free.Chain() && |free.nodes| == |all| == i && fresh(free) && fresh(all.Keys)
        invariant forall m | m in free.nodes :: m in all
        invariant forall m | m in all :: all[m] == 0 && m in free.nodes
      {
        var m := new Mpdu();
        free.Enqueue(m);
        all := all[m := 0];
        i := i + 1;
      }
      freelist, entries, this.hz := free, sessions, hz;
      place, loose, on := all, {}, [free.nodes] + seq(|sessions|, k => []);
    }

    /** `ba_mpdu_blk_alloc`. */
    method AllocBlock() returns (m: Mpdu?)
      requires Valid()
      modifies this`loose, this`place, this`on, freelist, freelist.nodes
      ensures Valid() && place.Keys == old(place.Keys)
      ensures m == null <==> old(freelist.nodes) == []
      ensures m == null ==> freelist.nodes == [] && loose == old(loose)
      ensures m != null ==> m in place && place[m] == -1 && freelist.nodes == old(freelist.nodes)[1..]
      ensures m != null ==> loose == old(loose) + {m} && m !in old(loose)
    {
      hide Placed, Adapter.SessionOk;
      PlacedOn(on, place, loose, 0);
      m := freelist.Dequeue();
      if m != null {
        m.next, m.packet, m.sequence, m.amsdu := null, NO_PACKET, 0, false;
        TakePlaced(on, place, loose, 0);
        on := on[0 := on[0][1..]];
        place := place[m := -1];
        loose := loose + {m};
      }
      FreeChanged();
    }

    /** `ba_mpdu_blk_free`. */
    method FreeBlock(m: Mpdu)
      requires Valid() && m in loose
      modifies this`loose, this`place, this`on, freelist, m`next
      ensures Valid() && place.Keys == old(place.Keys)
      ensures freelist.nodes == [m] + old(freelist.nodes) && loose == old(loose) - {m}
    {
      hide Placed, Adapter.SessionOk;
      PlacedOn(on, place, loose, 0);
      PutPlaced(on, place, loose, 0, 0, m);
      freelist.Enqueue(m);
      assert on[0][..0] + [m] + on[0][0..] == [m] + on[0];
      on := on[0 := [m] + on[0]];
      place := place[m := 0];
      loose := loose - {m};
      FreeChanged();
    }

    /** `ba_reordering_mpdu_dequeue` on the list of session `k`. */
    method DequeueFrom(k: nat) returns (m: Mpdu?)
      requires Valid() && k < |entries|
      modifies this`loose, this`place, this`on, {entries[k]}`held, entries[k].list, entries[k].list.nodes
      ensures Valid() && place.Keys == old(place.Keys)
      ensures old(entries[k].held) == [] ==> m == null && loose == old(loose) && entries[k].held == []
      ensures old(entries[k].held) != [] ==>
                && m != null && m in place && m in loose && m !in old(loose) && loose == old(loose) + {m}
                && m.packet == old(entries[k].held)[0] && m.sequence == Sn(m.packet)
                && entries[k].held == old(entries[k].held)[1..]
    {
      hide ReorderingList.Chain, ReorderingList.Carries, Placed;
      var e := entries[k];
      ghost var held := e.held;
      SessionFacts(k);
      if held != [] {
        ghost var head := on[k + 1][0];
        TakePlaced(on, place, loose, k + 1);
        on := on[k + 1 := on[k + 1][1..]];
        place := place[head := -1];
        loose := loose + {head};
        e.held := held[1..];
      }
      m := e.list.DequeueFrame(held);
      SessionChanged(k);
    }

    /** `Announce_Reordering_Packet`, and every other way a packet is passed up. */
    method Announce(k: nat, f: Frame)
      requires Valid() && k < |entries|
      modifies {entries[k]}`up
      ensures Valid() && entries[k].up == old(entries[k].up) + [f]
    {
      entries[k].up := entries[k].up + [f];
      FrameEntry(k);
    }

    /** `RELEASE_NDIS_PACKET`. */
    method ReleasePacket(k: nat, f: Frame)
      requires Valid() && k < |entries|
      modifies {entries[k]}`released
      ensures Valid() && entries[k].released == old(entries[k].released) + [f]
    {
      entries[k].released := entries[k].released + [f];
      FrameEntry(k);
    }

    method SetLast(k: nat, sequence: nat)
      requires Valid() && k < |entries|
      modifies {entries[k]}`lastIndSeq
      ensures Valid() && entries[k].lastIndSeq == sequence
    {
      entries[k].lastIndSeq := sequence;
      FrameEntry(k);
    }

    method SetTimer(k: nat, now: nat)
      requires Valid() && k < |entries|
      modifies {entries[k]}`lastIndSeqAtTimer
      ensures Valid() && entries[k].lastIndSeqAtTimer == now
    {
      entries[k].lastIndSeqAtTimer := now;
      FrameEntry(k);
    }

    /** The plain fields of a session do not matter to `Valid`. */
    twostate lemma FrameEntry(k: nat)
      requires old(Valid()) && k < |entries| && unchanged(this) && unchanged({entries[k]}`held) && unchanged(freelist)
      requires forall j | 0 <= j < |entries| :: unchanged(entries[j].list) && (j != k ==> unchanged(entries[j]))
      requires forall m | m in place :: unchanged(m)
      ensures Valid()
    {
      assert place == old(place) && on == old(on) && loose == old(loose);
      FrameSessions(k + 1);
      FrameFree();
      assert on[k + 1] == entries[k].list.nodes;
      FrameSession(k);
    }

    /** `ba_reordering_mpdu_probe`: look at the head. */
    method Probe(k: nat) returns (m: Mpdu?)
      requires Valid() && k < |entries|
      ensures Valid() && (m == null <==> entries[k].held == [])
      ensures m != null ==> m.sequence == Sn(entries[k].held[0])
    {
      assert SessionOk(k);
      m := entries[k].list.next;
    }

    /** The loop body the three indicating routines share, up to the return of the block. */
    method AnnounceHead(k: nat) returns (m: Mpdu)
      requires Valid() && k < |entries| && entries[k].held != []
      modifies this`loose, this`place, this`on, {entries[k]}`up
      modifies {entries[k]}`held, entries[k].list, entries[k].list.nodes
      ensures Valid() && place.Keys == old(place.Keys)
      ensures m in place && m in loose && m !in old(loose) && loose == old(loose) + {m}
      ensures freelist.nodes == old(freelist.nodes) && m.sequence == Sn(old(entries[k].held)[0])
      ensures entries[k].held == old(entries[k].held)[1..]
              && entries[k].up == old(entries[k].up) + [old(entries[k].held)[0]]
    {
      hide Adapter.Valid, ReorderingList.Chain, Adapter.SessionOk, Sn;
      SessionFacts(k);
      m := DequeueFrom(k);
      Announce(k, m.packet);
    }

    /** The whole of it: dequeue, announce, free. */
    method PassUpHead(k: nat) returns (sequence: nat)
      requires Valid() && k < |entries| && entries[k].held != []
      modifies this`loose, this`place, this`on, {entries[k]}`up
      modifies {entries[k]}`held, entries[k].list, freelist, place.Keys
      ensures Valid() && place.Keys == old(place.Keys) && loose == old(loose)
      ensures Abs(k) == PassUp(old(Abs(k)), 1) && sequence == Sn(old(entries[k].held)[0])
    {
      hide Adapter.Valid, ReorderingList.Chain, Adapter.SessionOk, Sn, PassUp;
      SessionFacts(k);
      PassUpHeadIs(Abs(k));
      var m := AnnounceHead(k);
      sequence := m.sequence;
      FreeBlock(m);
    }

    /** `ba_indicate_reordering_mpdus_in_order`: pass up while the head continues `startSeq`. */
    method IndicateInOrder(k: nat, startSeq: nat) returns (lastIndSeq: nat)
      requires Valid() && k < |entries|
      modifies this`loose, this`place, this`on, {entries[k]}`up
      modifies {entries[k]}`held, entries[k].list, freelist, place.Keys
      ensures Valid() && place.Keys == old(place.Keys) && loose == old(loose)
      ensures var n := LeadInOrder(old(entries[k].held), startSeq);
              && Abs(k) == PassUp(old(Abs(k)), n)
              && lastIndSeq == if n == 0 then RESET_RCV_SEQ else Sn(old(entries[k].held)[n - 1])
    {
      hide Adapter.Valid, StepOne, Sn, PassUp;
      lastIndSeq := RESET_RCV_SEQ;
      var start := startSeq;
      PassUpNone(Abs(k));
      ghost var all := entries[k].held;
      ghost var p := 0;
      var m := Probe(k);
      while m != null
        invariant Valid() && place.Keys == old(place.Keys) && loose == old(loose)
        invariant p <= |all| && entries[k].held == all[p..] && Abs(k) == PassUp(old(Abs(k)), p)
        invariant LeadInOrder(all, startSeq) == p + LeadInOrder(all[p..], start)
        invariant start == if p == 0 then startSeq else Sn(all[p - 1])
        invariant lastIndSeq == if p == 0 then RESET_RCV_SEQ else Sn(all[p - 1])
        invariant m == null <==> all[p..] == []
        invariant m != null ==> m.sequence == Sn(all[p])
        decreases |all| - p
      {
        if !StepOne(m.sequence, start) {
          break;
        }
        start := PassUpHead(k);
        lastIndSeq := start;
        PassUpOnce(old(Abs(k)), p);
        p := p + 1;
        m := Probe(k);
      }
    }

    /** `ba_indicate_reordering_mpdus_le_seq`: pass up everything that is not after `x`. */
    method IndicateLe(k: nat, x: nat)
      requires Valid() && k < |entries|
      modifies this`loose, this`place, this`on, {entries[k]}`up
      modifies {entries[k]}`held, entries[k].list, freelist, place.Keys
      ensures Valid() && place.Keys == old(place.Keys) && loose == old(loose)
      ensures Abs(k) == DropLe(old(Abs(k)), x)
    {
      hide Adapter.Valid, Smaller, Sn, PassUp;
      PassUpNone(Abs(k));
      ghost var all := entries[k].held;
      ghost var p := 0;
      var m := Probe(k);
      while m != null
        invariant Valid() && place.Keys == old(place.Keys) && loose == old(loose)
        invariant p <= |all| && entries[k].held == all[p..] && Abs(k) == PassUp(old(Abs(k)), p)
        invariant LeadLe(all, x) == p + LeadLe(all[p..], x)
        invariant m == null <==> all[p..] == []
        invariant m != null ==> m.sequence == Sn(all[p])
        decreases |all| - p
      {
        if m.sequence == x || Smaller(m.sequence, x) {
          var _ := PassUpHead(k);
          PassUpOnce(old(Abs(k)), p);
          p := p + 1;
          m := Probe(k);
        } else {
          break;
        }
      }
    }

    /** `ba_refresh_reordering_mpdus`: pass everything up and reset. */
    method RefreshReordering(k: nat)
      requires Valid() && k < |entries|
      modifies this`loose, this`place, this`on, {entries[k]}`up
      modifies {entries[k]}`held, {entries[k]}`lastIndSeq, entries[k].list, freelist, place.Keys
      ensures Valid() && place.Keys == old(place.Keys) && loose == old(loose)
      ensures Abs(k) == Refresh(old(Abs(k)))
    {
      hide Adapter.Valid, Sn, PassUp;
      PassUpNone(Abs(k));
      ghost var all := entries[k].held;
      ghost var p := 0;
      var m := Probe(k);
      while m != null
        invariant Valid() && place.Keys == old(place.Keys) && loose == old(loose)
        invariant p <= |all| && entries[k].held == all[p..]
        invariant Abs(k) == PassUp(old(Abs(k)), p).(last := entries[k].lastIndSeq)
        invariant m == null <==> all[p..] == []
        decreases |all| - p
      {
        PassUpOnce(old(Abs(k)), p);
        PassUpKeepsLast(PassUp(old(Abs(k)), p), 1, entries[k].lastIndSeq);
        var s := PassUpHead(k);
        SetLast(k, s);
        p := p + 1;
        m := Probe(k);
      }
      SetLast(k, RESET_RCV_SEQ);
    }

    method Qlen(k: nat) returns (n: int)
      requires Valid() && k < |entries|
      ensures Valid() && n == |entries[k].held|
    {
      assert SessionOk(k);
      n := entries[k].list.qlen;
    }

    /** `ba_flush_reordering_timeout_mpdus`. */
    method FlushTimeout(k: nat, now: nat)
      requires Valid() && k < |entries|
      modifies this`loose, this`place, this`on, {entries[k]}`up
      modifies {entries[k]}`held, {entries[k]}`lastIndSeq, {entries[k]}`lastIndSeqAtTimer, entries[k].list, freelist,
          place.Keys
      ensures Valid() && place.Keys == old(place.Keys) && loose == old(loose)
      ensures Abs(k) == Flush(old(Abs(k)), now, hz)
    {
      hide Adapter.Valid, Wrap, TimeAfter, PassUp, LeadLe, LeadInOrder;
      var qlen := Qlen(k);
      if TimeAfter(now, entries[k].lastIndSeqAtTimer + MaxReorderingTimeout(hz) / 6) && qlen > 1 {
        RefreshReordering(k);
        SetTimer(k, now);
      } else if TimeAfter(now, entries[k].lastIndSeqAtTimer + ReorderingTimeout(hz)) && qlen > 0 {
        var sequence := Wrap(entries[k].lastIndSeq + 1);
        IndicateLe(k, sequence);
        SetTimer(k, now);
        SetLast(k, sequence);
        DrainList(k);
      }
    }

    /** The in-order pass with the update of `lastIndSeq` its three callers share. */
    method DrainList(k: nat)
      requires Valid() && k < |entries|
      modifies this`loose, this`place, this`on, {entries[k]}`up
      modifies {entries[k]}`held, {entries[k]}`lastIndSeq, entries[k].list, freelist, place.Keys
      ensures Valid() && place.Keys == old(place.Keys) && loose == old(loose)
      ensures Abs(k) == DrainInOrder(old(Abs(k)))
    {
      var sequence := IndicateInOrder(k, entries[k].lastIndSeq);
      if sequence != RESET_RCV_SEQ {
        SetLast(k, sequence);
      }
    }

    /** The header and packet fields of a block that is on no list. */
    method FillBlock(m: Mpdu, f: Frame)
      requires Valid() && m in loose
      modifies m`packet, m`sequence, m`amsdu
      ensures Valid() && m.packet == f && m.sequence == Sn(f)
    {
      hide Sn;
      m.sequence := Sn(f);
      m.amsdu := f.amsdu;
      m.packet := f;
      FrameSessions(|entries| + 1);
      FrameFree();
    }

    /** `ba_reordering_mpdu_insertsorted` on the list of session `k`. */
    method InsertInto(k: nat, m: Mpdu) returns (ok: bool)
      requires Valid() && k < |entries| && m in loose && m.sequence == Sn(m.packet)
      modifies this`loose, this`place, this`on, {entries[k]}`held, entries[k].list, m`next, entries[k].list.nodes`next
      ensures Valid() && place.Keys == old(place.Keys)
      ensures ok == !IsDuplicate(old(entries[k].held), m.packet)
      ensures entries[k].held == InsertSorted(old(entries[k].held), m.packet)
      ensures loose == if ok then old(loose) - {m} else old(loose)
    {
      hide ReorderingList.Chain, ReorderingList.Carries, Placed, Sn, LeadBefore;
      var e := entries[k];
      ghost var held := e.held;
      SessionFacts(k);
      ghost var p := LeadBefore(held, Sn(m.packet));
      PutPlaced(on, place, loose, k + 1, p, m);
      if !IsDuplicate(held, m.packet) {
        on := on[k + 1 := on[k + 1][..p] + [m] + on[k + 1][p..]];
        place := place[m := k + 1];
        loose := loose - {m};
        e.held := InsertSorted(held, m.packet);
      }
      ok := e.list.InsertSorted(m, held);
      SessionChanged(k);
    }

    /** The buffering branch of `ba_enqueue_reordering_packet`, with the block it took. */
    method BufferPacket(k: nat, m: Mpdu, f: Frame)
      requires Valid() && k < |entries| && m in loose && m in place
      modifies this`loose, this`place, this`on, {entries[k]}`released, {entries[k]}`held, entries[k].list, freelist,
          place.Keys
      ensures Valid() && place.Keys == old(place.Keys) && loose == old(loose) - {m}
      ensures Abs(k) == if IsDuplicate(old(entries[k].held), f)
                        then Release(old(Abs(k)), f).(free := |old(freelist.nodes)| + 1, leaked := |loose|)
                        else old(Abs(k)).(held := InsertSorted(old(entries[k].held), f), leaked := |loose|)
    {
      hide Adapter.Valid, Sn, LeadBefore, IsDuplicate;
      FillBlock(m, f);
      SessionFacts(k);
      var ok := InsertInto(k, m);
      if !ok {
        ReleasePacket(k, f);
        FreeBlock(m);
      }
    }

    /** The other branch: pass up what is not after the frame, and then the frame. */
    method PassThrough(k: nat, f: Frame)
      requires Valid() && k < |entries|
      modifies this`loose, this`place, this`on, {entries[k]}`up
      modifies {entries[k]}`held, {entries[k]}`lastIndSeq, entries[k].list, freelist, place.Keys
      ensures Valid() && place.Keys == old(place.Keys) && loose == old(loose)
      ensures Abs(k) == Deliver(DropLe(old(Abs(k)), Sn(f)).(last := Sn(f)), f)
    {
      hide Adapter.Valid, Sn, DropLe;
      IndicateLe(k, Sn(f));
      SetLast(k, Sn(f));
      Announce(k, f);
    }

    /** `ba_enqueue_reordering_packet`. */
    method EnqueuePacket(k: nat, f: Frame)
      requires Valid() && k < |entries|
      modifies this`loose, this`place, this`on, {entries[k]}`up, {entries[k]}`released
      modifies {entries[k]}`held, {entries[k]}`lastIndSeq, entries[k].list, freelist, place.Keys
      ensures Valid() && place.Keys == old(place.Keys)
      ensures Abs(k) == Enqueue(old(Abs(k)), f)
    {
      hide Adapter.Valid, Sn, DropLe, InsertSorted, IsDuplicate;
      FreeFacts(k);
      var m := AllocBlock();
      if m != null && !f.eapol {
        BufferPacket(k, m, f);
        assert loose == old(loose);
      } else {
        PassThrough(k, f);
      }
    }

    /** The arms of `Indicate_AMPDU_Packet` for the next frame, and for one beyond the window. */
    method AcceptInOrder(k: nat, f: Frame)
      requires Valid() && k < |entries|
      modifies this`loose, this`place, this`on, {entries[k]}`up
      modifies {entries[k]}`held, {entries[k]}`lastIndSeq, entries[k].list, freelist, place.Keys
      ensures Valid() && place.Keys == old(place.Keys)
      ensures Abs(k) == DrainInOrder(Deliver(old(Abs(k)).(last := Sn(f)), f))
    {
      hide Adapter.Valid, Sn, DrainInOrder;
      SetLast(k, Sn(f));
      Announce(k, f);
      DrainList(k);
    }

    method AcceptBeyond(k: nat, f: Frame)
      requires Valid() && k < |entries|
      modifies this`loose, this`place, this`on, {entries[k]}`up, {entries[k]}`released
      modifies {entries[k]}`held, {entries[k]}`lastIndSeq, {entries[k]}`lastIndSeqAtTimer, entries[k].list, freelist,
          place.Keys
      ensures Valid() && place.Keys == old(place.Keys)
      ensures Abs(k) == DrainInOrder(Enqueue(Slide(old(Abs(k)), f), f))
    {
      hide Adapter.Valid, Sn, DrainInOrder, DropLe, Enqueue;
      var tmpSeq := Sn(f) - entries[k].baWinSize - 1;
      if tmpSeq < 0 {
        tmpSeq := MAXSEQ + 1 + tmpSeq;
      }
      var winStartSeq := (tmpSeq + 1) % 0x1000;
      IndicateLe(k, winStartSeq);
      SetLast(k, winStartSeq);
      EnqueuePacket(k, f);
      DrainList(k);
    }

    method Drop(k: nat, f: Frame)
      requires Valid() && k < |entries|
      modifies {entries[k]}`released, {entries[k]}`nDropPacket
      ensures Valid() && Abs(k) == Release(old(Abs(k)).(drops := old(Abs(k)).drops + 1), f)
    {
      entries[k].nDropPacket := entries[k].nDropPacket + 1;
      FrameEntry(k);
      ReleasePacket(k, f);
    }

    /** `Indicate_AMPDU_Packet` for a peer with session `k`. */
    method IndicateAmpdu(k: nat, f: Frame, now: nat)
      requires Valid() && k < |entries|
      modifies this`loose, this`place, this`on, {entries[k]}`up, {entries[k]}`released
      modifies entries[k], entries[k].list, freelist, place.Keys
      ensures Valid() && place.Keys == old(place.Keys)
      ensures Abs(k) == Indicate(old(Abs(k)), f, now, hz)
    {
      hide Adapter.Valid, Sn, DrainInOrder, DropLe, Enqueue, Slide, Flush, StepOne, Smaller, Wrap;
      if !f.amsdu && f.size > MAX_RX_PKT_LEN {
        ReleasePacket(k, f);
        return;
      }
      FlushTimeout(k, now);
      SetTimer(k, now);
      var e := entries[k];
      var sequence := Sn(f);
      if e.lastIndSeq == RESET_RCV_SEQ {
        SetLast(k, sequence);
        Announce(k, f);
      } else if StepOne(sequence, e.lastIndSeq) {
        AcceptInOrder(k, f);
      } else if sequence == e.lastIndSeq {
        Drop(k, f);
      } else if Smaller(sequence, e.lastIndSeq) {
        Drop(k, f);
      } else if Smaller(sequence, Wrap(e.lastIndSeq + e.baWinSize + 1)) {
        EnqueuePacket(k, f);
      } else {
        AcceptBeyond(k, f);
      }
    }

    /** `CntlEnqueueForRecv` for a request that passed its length checks. */
    method BlockAckReq(k: nat, start: nat)
      requires Valid() && k < |entries| && start <= MAXSEQ
      modifies this`loose, this`place, this`on, {entries[k]}`up
      modifies {entries[k]}`held, {entries[k]}`lastIndSeq, entries[k].list, freelist, place.Keys
      ensures Valid() && place.Keys == old(place.Keys)
      ensures Abs(k) == BlockAckRequest(old(Abs(k)), start)
    {
      hide Adapter.Valid, DropLe;
      if Smaller(entries[k].lastIndSeq, start) {
        IndicateLe(k, start);
        SetLast(k, if start == 0 then MAXSEQ else start - 1);
      }
    }

    /** `BARecSessionAdd` for a session that exists: flush, then the new agreement. */
    method ReAddSession(k: nat, bufSize: nat, limit: nat)
      requires Valid() && k < |entries|
      modifies this`loose, this`place, this`on, {entries[k]}`up
      modifies entries[k], entries[k].list, freelist, place.Keys
      ensures Valid() && place.Keys == old(place.Keys)
      ensures Abs(k) == ReAdd(old(Abs(k)), bufSize, limit)
    {
      hide Adapter.Valid, PassUp;
      var b, l := bufSize % 256, limit % 256;
      var baWinSize := if b < l then b else l;
      if baWinSize == 0 {
        baWinSize := 64;
      }
      RefreshReordering(k);
      SetWindow(k, baWinSize);
      SetLast(k, RESET_RCV_SEQ);
    }

    method SetWindow(k: nat, win: nat)
      requires Valid() && k < |entries|
      modifies {entries[k]}`baWinSize
      ensures Valid() && entries[k].baWinSize == win
    {
      entries[k].baWinSize := win;
      FrameEntry(k);
    }

    /** `BARecSessionIdleTimeout` of an accepted session. */
    method IdleTimeout(k: nat, now: nat)
      requires Valid() && k < |entries|
      modifies this`loose, this`place, this`on, {entries[k]}`up
      modifies {entries[k]}`held, {entries[k]}`lastIndSeq, entries[k].list, freelist, place.Keys
      ensures Valid() && place.Keys == old(place.Keys)
      ensures Abs(k) == Idle(old(Abs(k)), now)
    {
      if TimeAfter(now, entries[k].lastIndSeqAtTimer + REC_BA_SESSION_IDLE_TIMEOUT) {
        RefreshReordering(k);
      }
    }

    /** In every state the blocks that are free, on the lists of the sessions, and leaked are the pool. */
    lemma BlocksArePool()
      requires Valid()
      ensures AllBlocks(All()) == |place|
    {
      hide Placed, ReorderingList.Chain;
      forall i | 0 <= i < |on| ensures !Repeats(on[i]) {
        if i > 0 { SessionFacts(i - 1); } else { NoRepeatsFree(); }
      }
      PlacedCounts(on, place, loose);
      LengthsAre(|entries|);
    }

    lemma NoRepeatsFree()
      requires Valid()
      ensures !Repeats(on[0])
    {
    }

    lemma {:induction false} LengthsAre(n: nat)
      requires Valid() && n <= |entries|
      ensures Lengths(on, n + 1) == |freelist.nodes| + HeldBy(All().sessions, n)
    {
      hide Placed, ReorderingList.Chain, Repeats;
      if n > 0 {
        LengthsAre(n - 1);
        SessionFacts(n - 1);
      }
    }

    /** Any of the entry points, on session `k`. */
    method Serve(k: nat, call: Call)
      requires Valid() && k < |entries|
      modifies this`loose, this`place, this`on, entries[k], entries[k].list, freelist, place.Keys
      ensures Valid() && place.Keys == old(place.Keys)
      ensures AllFit(|entries|, MovesBy(k, StepsOfCall(call)))
      ensures All() == Moves(old(All()), MovesBy(k, StepsOfCall(call)), hz)
    {
      hide Adapter.Valid, Adapter.All, Adapter.Abs, Indicate, BlockAckRequest, Idle, ReAdd, Moves, Replace, View;
      SessionsDistinct(k);
      AllShows(k);
      CallIs(All(), k, call, hz);
      match call {
        case DataFrame(f, now) => IndicateAmpdu(k, f, now);
        case Request(number) => BlockAckReq(k, Wrap(number));
        case IdleCheck(now) => IdleTimeout(k, now);
        case Renewal(bufSize, limit) => ReAddSession(k, bufSize, limit);
      }
      OthersKept(k);
    }

    /** Any sequence of calls, on any sessions. The whole run is one of ReorderSystem; every frame given is
        exactly once passed up, released or held; the blocks of the pool are as many as before, and none
        leaks unless an EAPOL frame takes it. */
    method ServeAll(jobs: seq<Job>)
      requires Valid() && forall i | 0 <= i < |jobs| :: jobs[i].k < |entries|
      modifies this`loose, this`place, this`on, entries, Lists(), place.Keys
      ensures Valid() && place.Keys == old(place.Keys)
      ensures AllFit(|entries|, Plan(jobs)) && All() == Moves(old(All()), Plan(jobs), hz)
      ensures AllFrames(All()) == old(AllFrames(All())) + GivenTo(Plan(jobs))
      ensures AllBlocks(All()) == old(AllBlocks(All())) == |place|
      ensures old(loose) == {} && (forall i | 0 <= i < |jobs| && jobs[i].call.DataFrame? :: !jobs[i].call.f.eapol)
              ==> loose == {}
      ensures AllAccount(old(All()), Plan(jobs), All(), hz)
    {
      hide Adapter.Valid, Adapter.All, Moves, AllFrames, AllBlocks, StepsOfCall, Plan, GivenTo;
      hide AllAccount;
      ghost var s := All();
      PlanEmpty();
      for i := 0 to |jobs|
        invariant Valid() && place.Keys == old(place.Keys)
        invariant AllFit(|entries|, Plan(jobs[..i])) && All() == Moves(s, Plan(jobs[..i]), hz)
      {
        var job := jobs[i];
        ListsOf(job.k);
        Serve(job.k, job.call);
        PlanStep(jobs, i);
        PlanFits(jobs[..i + 1], |entries|);
        MovesJoin(s, Plan(jobs[..i]), MovesBy(job.k, StepsOfCall(job.call)), hz);
      }
      assert jobs[..|jobs|] == jobs;
      BlocksArePool();
      RunConservesAll(s, Plan(jobs), hz);
      if forall i | 0 <= i < |jobs| && jobs[i].call.DataFrame? :: !jobs[i].call.f.eapol {
        PlanWithoutEapol(jobs);
        NoEapolLeaksNothing(s, Plan(jobs), hz);
        LooseCounted();
      }
      RunAllAccount(s, Plan(jobs), hz);
    }

    lemma ListsOf(k: nat)
      requires k < |entries|
      ensures entries[k].list in Lists() && entries[k] in entries && freelist in Lists()
    {
    }

    twostate lemma LooseCounted()
      requires All().leaked == old(All()).leaked
      ensures old(loose) == {} ==> loose == {}
    {
      assert |loose| == |old(loose)|;
    }

    /** A block of the pool is on exactly the one list its place names; the blocks taken by EAPOL
        frames are on none. */
    lemma PoolIsPartitioned(m: Mpdu)
      requires Valid() && m in place
      ensures m in freelist.nodes <==> place[m] == 0
      ensures forall k | 0 <= k < |entries| :: m in entries[k].list.nodes <==> place[m] == k + 1
      ensures m in loose <==> !(0 <= place[m] <= |entries|)
    {
      forall k | 0 <= k < |entries| ensures m in entries[k].list.nodes <==> place[m] == k + 1 {
        assert on[k + 1] == entries[k].list.nodes;
      }
    }
  }

  lemma PlanEmpty()
    ensures Plan([]) == [] && forall s, hz :: Moves(s, [], hz) == s
  {
  }

  lemma PlanStep(jobs: seq<Job>, i: nat)
    requires i < |jobs|
    ensures Plan(jobs[..i + 1]) == Plan(jobs[..i]) + MovesBy(jobs[i].k, StepsOfCall(jobs[i].call))
  {
    assert jobs[..i + 1][..i] == jobs[..i];
  }

  lemma {:induction false} PlanWithoutEapol(jobs: seq<Job>)
    requires forall i | 0 <= i < |jobs| && jobs[i].call.DataFrame? :: !jobs[i].call.f.eapol
    ensures forall i | 0 <= i < |Plan(jobs)| :: Plan(jobs)[i].e.Arrival? ==> !Plan(jobs)[i].e.f.eapol
  {
    if jobs != [] {
      PlanWithoutEapol(jobs[..|jobs| - 1]);
    }
  }

  lemma PassUpNone(r: Rx)
    ensures PassUp(r, 0) == r
  {
  }

  lemma PassUpKeepsLast(r: Rx, n: nat, x: nat)
    requires n <= |r.held|
    ensures PassUp(r.(last := x), n) == PassUp(r, n).(last := x)
  {
  }

  lemma PassUpHeadIs(r: Rx)
    requires r.held != []
    ensures PassUp(r, 1) == r.(held := r.held[1..], up := r.up + [r.held[0]], free := r.free + 1)
  {
  }

  lemma PassUpOnce(r: Rx, p: nat)
    requires p < |r.held|
    ensures PassUp(PassUp(r, p), 1) == PassUp(r, p + 1) && PassUp(r, p + 1).held == r.held[p + 1..]
    ensures r.held[p..][1..] == r.held[p + 1..] && r.held[p..][0] == r.held[p]
  {
    assert r.held[..p] + r.held[p..][..1] == r.held[..p + 1];
    assert r.up + r.held[..p] + r.held[p..][..1] == r.up + r.held[..p + 1];
  }
}

/** The block-ack session tables in memory: the entry arrays, the peers' index arrays and bitmaps, and
    the counters, changed in place by the entry points of common/ba_action.c. */
module BaTable {
  import opened BaSessions
  import opened Bitmaps
  import ReorderSpec
  import opened SequenceNumbers

  datatype OriStatus = Originator_NONE | Originator_USED | Originator_WaitRes | Originator_Done
  datatype RecStatus = Recipient_NONE | Recipient_USED | Recipient_HandleRes | Recipient_Accept

  /** `BA_ORI_ENTRY`; `armed` says whether its timer is running. */
  datatype OriEntry = OriEntry(wcid: nat, tid: nat, winSize: nat, token: nat, sequence: nat, timeOut: nat,
      status: OriStatus, armed: bool)

  /** `BA_REC_ENTRY`. `qlen` is the length of its reordering list, which ReorderHeap models. */
  datatype RecEntry = RecEntry(wcid: nat, tid: nat, winSize: nat, timeOut: nat, lastIndSeq: nat, qlen: nat,
      status: RecStatus)

  /** The block-ack fields of a MAC table entry. */
  datatype Peer = Peer(oriIdx: seq<nat>, recIdx: seq<nat>, tx: bv16, rx: bv16, declined: bv16)

  /** A pointer to an entry: null, or the entry's place in the array. */
  datatype Pointer = Null | At(i: nat)

  function OriView(e: OriEntry, sent: nat): Session {
    Session(e.wcid, e.tid,
            if e.status == Originator_NONE then Free else if e.status == Originator_Done then Done else Waiting,
            e.token, sent)
  }

  function RecView(e: RecEntry): Session {
    var free := e.status == Recipient_NONE;
    Session(e.wcid, e.tid, if free then Free else if e.status == Recipient_Accept then Done else Waiting,
            if free then 0 else 1, 0)
  }

  class BaTables {
    const BAOriEntry: array<OriEntry>
    const BARecEntry: array<RecEntry>
    const Peers: array<Peer>
    const MaxRecSessions: nat
    var numAsOriginator: nat
    var numDoneOriginator: nat
    var numAsRecipient: nat
    /** For each originator entry, the ADDBA requests sent since it was set up. */
    ghost var Sent: seq<nat>

    constructor (oriSize: nat, recSize: nat, peers: nat, limit: nat)
      requires oriSize > 0 && recSize > 0 && peers > 0 && limit < recSize
      ensures Valid() && fresh(BAOriEntry) && fresh(BARecEntry) && fresh(Peers)
      ensures BAOriEntry.Length == oriSize && BARecEntry.Length == recSize && Peers.Length == peers
              && MaxRecSessions == limit
    {
      BAOriEntry := new OriEntry[oriSize](_ => OriEntry(0, 0, 0, 0, 0, 0, Originator_NONE, false));
      BARecEntry := new RecEntry[recSize](_ => RecEntry(0, 0, 0, 0, 0, 0, Recipient_NONE));
      Peers := new Peer[peers](_ => Peer([0, 0, 0, 0, 0, 0, 0, 0], [0, 0, 0, 0, 0, 0, 0, 0], 0, 0, 0));
      MaxRecSessions := limit;
      numAsOriginator, numDoneOriginator, numAsRecipient := 0, 0, 0;
      Sent := seq(oriSize, _ => 0);
      new;
      InitiallyValid();
    }

    lemma InitiallyValid()
      requires BAOriEntry.Length > 0 && BARecEntry.Length > 0 && |Sent| == BAOriEntry.Length && Peers.Length > 0
               && MaxRecSessions < BARecEntry.Length
      requires numAsOriginator == numDoneOriginator == numAsRecipient == 0
      requires forall i | 0 <= i < BAOriEntry.Length ::
               BAOriEntry[i] == OriEntry(0, 0, 0, 0, 0, 0, Originator_NONE, false)
      requires forall i | 0 <= i < BARecEntry.Length :: BARecEntry[i] == RecEntry(0, 0, 0, 0, 0, 0, Recipient_NONE)
      requires forall w | 0 <= w < Peers.Length ::
                 Peers[w] == Peer([0, 0, 0, 0, 0, 0, 0, 0], [0, 0, 0, 0, 0, 0, 0, 0], 0, 0, 0)
      ensures Valid()
    {
      hide Bits, Consistent;
      NoBits();
      EmptyIsGood(OriHalf());
      EmptyIsGood(RecHalf());
    }

    ghost predicate Shape()
      reads this, Peers
    {
      && BAOriEntry.Length > 0 && BARecEntry.Length > 0 && |Sent| == BAOriEntry.Length
         && MaxRecSessions < BARecEntry.Length
      && forall w | 0 <= w < Peers.Length :: |Peers[w].oriIdx| == NUM_OF_TID && |Peers[w].recIdx| == NUM_OF_TID
    }

    ghost function OriHalf(): (h: Half)
      requires Shape()
      reads this, BAOriEntry, Peers
      ensures Sized(h) && |h.entries| == BAOriEntry.Length && |h.index| == Peers.Length
    {
      Half(seq(BAOriEntry.Length, i requires 0 <= i < BAOriEntry.Length && i < |Sent| reads this, BAOriEntry =>
                   OriView(BAOriEntry[i], Sent[i])),
           seq(Peers.Length, w requires 0 <= w < Peers.Length reads Peers => Peers[w].oriIdx),
           seq(Peers.Length, w requires 0 <= w < Peers.Length reads Peers => Bits(Peers[w].tx)),
           numAsOriginator, numDoneOriginator)
    }

    ghost function RecHalf(): (h: Half)
      requires Shape()
      reads this, BARecEntry, Peers
      ensures Sized(h) && |h.entries| == BARecEntry.Length && |h.index| == Peers.Length
    {
      Half(seq(BARecEntry.Length, i requires 0 <= i < BARecEntry.Length reads this, BARecEntry =>
                   RecView(BARecEntry[i])),
           seq(Peers.Length, w requires 0 <= w < Peers.Length reads Peers => Peers[w].recIdx),
           seq(Peers.Length, w requires 0 <= w < Peers.Length reads Peers => Bits(Peers[w].rx)),
           numAsRecipient, numAsRecipient)
    }

    ghost function Tables(): (s: Tables)
      requires Shape()
      reads this, BAOriEntry, BARecEntry, Peers
    {
      BaSessions.Tables.Tables(OriHalf(), RecHalf())
    }

    /** Both tables agree with themselves, no entry is between two statuses, and a timer runs exactly for
        a session that waits. */
    ghost predicate Valid()
      reads this, BAOriEntry, BARecEntry, Peers
    {
      Shape() && Good(Tables()) && Settled()
    }

    /** `BATableAllocOriEntry`: with every entry taken it returns the last one and leaves `Idx` alone. */
    method AllocOriEntry(idx0: nat) returns (p: Pointer, idx: nat)
      requires Shape()
      modifies BAOriEntry, this`numAsOriginator
      ensures var k := FirstFree(old(OriHalf()).entries, 1); var n := BAOriEntry.Length;
              if old(numAsOriginator) >= n then p == Null && idx == idx0 && Same()
              else if k == n then p == (if n == 1 then Null else At(n - 1)) && idx == idx0 && Same()
              else p == At(k) && idx == k && old(BAOriEntry[k].status) == Originator_NONE
                   && numAsOriginator == old(numAsOriginator) + 1
                   && BAOriEntry[..] == old(BAOriEntry[..])[k := old(BAOriEntry[k]).(status := Originator_USED)]
    {
      p, idx := Null, idx0;
      if numAsOriginator >= BAOriEntry.Length {
        return;
      }
      ghost var s := OriHalf().entries;
      var i := 1;
      while i < BAOriEntry.Length
        invariant 1 <= i <= BAOriEntry.Length && FirstFree(s, i) == FirstFree(s, 1) && Same()
        invariant p == (if i == 1 then Null else At(i - 1))
        modifies BAOriEntry, this`numAsOriginator
      {
        p := At(i);
        assert s[i] == OriView(BAOriEntry[i], Sent[i]);
        if BAOriEntry[i].status == Originator_NONE {
          numAsOriginator := numAsOriginator + 1;
          BAOriEntry[i] := BAOriEntry[i].(status := Originator_USED);
          idx := i;
          return;
        }
        i := i + 1;
      }
    }

    twostate predicate Same()
      reads this`numAsOriginator, BAOriEntry
    {
      numAsOriginator == old(numAsOriginator) && BAOriEntry[..] == old(BAOriEntry[..])
    }

    /** One originator entry and one peer have changed. */
    twostate predicate Changed(c: Change)
      requires old(Shape())
      reads this, BAOriEntry, BARecEntry, Peers
    {
      && c.k < BAOriEntry.Length && c.j < BARecEntry.Length && c.w < Peers.Length
         && |c.peer.oriIdx| == |c.peer.recIdx| == NUM_OF_TID
      && BAOriEntry[..] == old(BAOriEntry[..])[c.k := c.ori] && Sent == old(Sent)[c.k := c.sent]
      && BARecEntry[..] == old(BARecEntry[..])[c.j := c.rec]
      && Peers[..] == old(Peers[..])[c.w := c.peer]
    }

    /** The two tables after such a change. */
    twostate lemma TablesAfter(c: Change)
      requires old(Shape()) && Changed(c)
      ensures Shape()
      ensures var h, g := old(OriHalf()), OriHalf();
              g == Half(h.entries[c.k := OriView(c.ori, c.sent)], h.index[c.w := c.peer.oriIdx],
                h.bits[c.w := Bits(c.peer.tx)],
                        numAsOriginator, numDoneOriginator)
      ensures var h, g := old(RecHalf()), RecHalf();
              g == Half(h.entries[c.j := RecView(c.rec)], h.index[c.w := c.peer.recIdx], h.bits[c.w := Bits(c.peer.rx)],
                        numAsRecipient, numAsRecipient)
    {
      hide Bits, OriView, RecView;
      forall w | 0 <= w < Peers.Length ensures Peers[w] == if w == c.w then c.peer else old(Peers[w]) {
        assert Peers[w] == Peers[..][w];
      }
      forall i | 0 <= i < BAOriEntry.Length ensures BAOriEntry[i] == if i == c.k then c.ori else old(BAOriEntry[i]) {
        assert BAOriEntry[i] == BAOriEntry[..][i];
      }
      forall i | 0 <= i < BARecEntry.Length ensures BARecEntry[i] == if i == c.j then c.rec else old(BARecEntry[i]) {
        assert BARecEntry[i] == BARecEntry[..][i];
      }
    }

    /** The statuses of the entries, when no entry point is at work; an entry not in use holds no frames. */
    ghost predicate Settled()
      reads BAOriEntry, BARecEntry
    {
      && (forall i | 0 <= i < BAOriEntry.Length ::
            BAOriEntry[i].status != Originator_USED
              && (BAOriEntry[i].armed <==> BAOriEntry[i].status == Originator_WaitRes))
      && (forall i | 0 <= i < BARecEntry.Length ::
            BARecEntry[i].status == Recipient_Accept
              || (BARecEntry[i].status == Recipient_NONE && BARecEntry[i].qlen == 0))
    }

    twostate lemma NothingChanged()
      requires old(Shape()) && BAOriEntry[..] == old(BAOriEntry[..]) && BARecEntry[..] == old(BARecEntry[..])
               && Peers[..] == old(Peers[..])
      requires Sent == old(Sent) && numAsOriginator == old(numAsOriginator)
               && numDoneOriginator == old(numDoneOriginator)
      requires numAsRecipient == old(numAsRecipient)
      ensures Shape() && Tables() == old(Tables()) && (old(Settled()) ==> Settled())
    {
      hide Bits, OriView, RecView;
      forall w | 0 <= w < Peers.Length ensures Peers[w] == old(Peers[w]) { assert Peers[w] == Peers[..][w]; }
      forall i | 0 <= i < BAOriEntry.Length ensures BAOriEntry[i] == old(BAOriEntry[i]) {
        assert BAOriEntry[i] == BAOriEntry[..][i];
      }
      forall i | 0 <= i < BARecEntry.Length ensures BARecEntry[i] == old(BARecEntry[i]) {
        assert BARecEntry[i] == BARecEntry[..][i];
      }
    }

    /** An index that is set leads to an entry that waits or is answered. */
    lemma IndexLeads(w: nat, tid: nat)
      requires Valid() && w < Peers.Length && tid < NUM_OF_TID
      ensures var x := Peers[w].oriIdx[tid];
              x < BAOriEntry.Length
                && (x != 0 ==> BAOriEntry[x].status == Originator_WaitRes || BAOriEntry[x].status == Originator_Done)
      ensures var x := Peers[w].recIdx[tid];
              x < BARecEntry.Length
                && (x != 0 ==>
                      BARecEntry[x].status == Recipient_Accept && BARecEntry[x].wcid == w && BARecEntry[x].tid == tid)
    {
      assert IndexOk(OriHalf(), w, tid) && IndexOk(RecHalf(), w, tid);
      assert OriHalf().index[w] == Peers[w].oriIdx && RecHalf().index[w] == Peers[w].recIdx;
    }

    /** With no free entry the last one is in use. */
    lemma LastInUse()
      requires Valid()
      ensures var n := BAOriEntry.Length;
              FirstFree(OriHalf().entries, 1) == n && n > 1 ==>
                BAOriEntry[n - 1].status == Originator_WaitRes || BAOriEntry[n - 1].status == Originator_Done
    {
      hide Consistent;
      var n := BAOriEntry.Length;
      assert OriHalf().entries[n - 1] == OriView(BAOriEntry[n - 1], Sent[n - 1]);
    }

    /** The fields of a new originator session. */
    method InitOri(k: nat, w: nat, tid: nat, timeOut: nat, winLimit: nat, txSeq: nat)
      requires Shape() && k < BAOriEntry.Length && w < Peers.Length && tid < NUM_OF_TID
      modifies BAOriEntry, Peers, this`Sent
      ensures Peers[..] == old(Peers[..])[w := old(Peers[w]).(oriIdx := SetAt(old(Peers[w]).oriIdx, tid, k))]
      ensures BAOriEntry[..] == old(BAOriEntry[..])[k := OriEntry(w, tid, winLimit, 1, txSeq, timeOut,
              Originator_WaitRes, true)]
      ensures Sent == old(Sent)[k := 0]
    {
      Peers[w] := Peers[w].(oriIdx := SetAt(Peers[w].oriIdx, tid, k));
      BAOriEntry[k] := OriEntry(w, tid, winLimit, 1, txSeq, timeOut, Originator_WaitRes, true);
      Sent := Sent[k := 0];
    }

    /** A set-up that is not allowed, or not needed, or finds the table full, changes nothing. */
    lemma SetUpRefused(w: nat, tid: nat, allowed: bool)
      requires Valid() && w < Peers.Length && tid < NUM_OF_TID
      requires !allowed || Peers[w].oriIdx[tid] != 0 || numAsOriginator >= BAOriEntry.Length
               || FirstFree(OriHalf().entries, 1) == BAOriEntry.Length
      ensures Step(Tables(), OriSetUp(w, tid, allowed), MaxRecSessions) == Tables()
    {
      hide EntryOk, Bits;
      assert IndexOk(OriHalf(), w, tid);
      assert OriHalf().index[w] == Peers[w].oriIdx;
    }

    /** `BAOriSessionSetUp` for peer `w`, whose association id is `w`. `allowed` stands for the policy and
        transmit-mode tests, `winLimit` for `RxBAWinLimit`, `txSeq` for the peer's `TxSeq[TID]`. */
    method OriSessionSetUp(w: nat, tid: nat, timeOut: nat, allowed: bool, winLimit: nat, txSeq: nat)
      requires Valid() && w < Peers.Length && tid < NUM_OF_TID
      modifies this, BAOriEntry, Peers
      ensures Valid() && Tables() == Step(old(Tables()), OriSetUp(w, tid, allowed), MaxRecSessions)
      ensures old(Peers[w].oriIdx[tid]) == 0 && Peers[w].oriIdx[tid] != 0 ==>
                var k := Peers[w].oriIdx[tid];
                && k < BAOriEntry.Length && old(BAOriEntry[k].status) == Originator_NONE
                && BAOriEntry[..] == old(BAOriEntry[..])[k := OriEntry(w, tid, winLimit, 1, txSeq, timeOut,
                     Originator_WaitRes, true)]
      ensures old(Peers[w].oriIdx[tid]) == Peers[w].oriIdx[tid] ==> BAOriEntry[..] == old(BAOriEntry[..])
    {
      hide Consistent, EntryOk, IndexOk, Bits, Step, SetUp, BaTables.OriHalf, BaTables.RecHalf, BaTables.Settled;
      StepKeeps(Tables(), OriSetUp(w, tid, allowed), MaxRecSessions);
      if !allowed {
        SetUpRefused(w, tid, allowed);
        return;
      }
      IndexLeads(w, tid);
      var idx := Peers[w].oriIdx[tid];
      var p: Pointer := At(idx);
      ghost var refused := idx != 0 || FirstFree(OriHalf().entries, 1) == BAOriEntry.Length
          || numAsOriginator >= BAOriEntry.Length;
      assert refused ==> Step(Tables(), OriSetUp(w, tid, allowed), MaxRecSessions) == Tables() by {
        if refused { SetUpRefused(w, tid, allowed); }
      }
      if idx == 0 {
        LastInUse();
        p, idx := AllocOriEntry(idx);
        if p == Null {
          NothingChanged();
          return;
        }
      }
      if BAOriEntry[p.i].status == Originator_WaitRes || BAOriEntry[p.i].status == Originator_Done {
        NothingChanged();
        return;
      }
      InitOri(p.i, w, tid, timeOut, winLimit, txSeq);
      SetUpDone(Change(p.i, BAOriEntry[p.i], 0, 0, BARecEntry[0], w, Peers[w]));
    }

    twostate lemma SetUpDone(c: Change)
      requires old(Valid()) && Changed(c) && c.ori.tid < NUM_OF_TID && c.ori.wcid == c.w
      requires c.k == FirstFree(old(OriHalf()).entries, 1) && old(Peers[c.w].oriIdx)[c.ori.tid] == 0
               && old(numAsOriginator) < BAOriEntry.Length
      requires c.ori.status == Originator_WaitRes && c.ori.armed && c.ori.token == 1 && c.sent == 0
      requires c.peer == old(Peers[c.w]).(oriIdx := SetAt(old(Peers[c.w]).oriIdx, c.ori.tid, c.k))
               && c.rec == old(BARecEntry[c.j])
      requires numAsOriginator == old(numAsOriginator) + 1 && numDoneOriginator == old(numDoneOriginator)
               && numAsRecipient == old(numAsRecipient)
      ensures Shape() && Settled() && Tables() == Step(old(Tables()), OriSetUp(c.w, c.ori.tid, true), MaxRecSessions)
    {
      hide Consistent, EntryOk, IndexOk, Bits;
      TablesAfter(c);
    }

    // ----- the originator, continued -----

    /** `BATableFreeOriEntry`. It leaves the timer alone. */
    method FreeOriEntry(idx: nat)
      requires Shape() && Good(Tables())
      modifies this`numAsOriginator, this`numDoneOriginator, BAOriEntry, Peers
      ensures Shape() && OriHalf() == Freed(old(OriHalf()), idx) && RecHalf() == old(RecHalf())
      ensures BAOriEntry[..] == if 0 < idx < BAOriEntry.Length && old(BAOriEntry[idx].status) != Originator_NONE
                                then old(BAOriEntry[..])[idx := old(BAOriEntry[idx]).(status := Originator_NONE,
                                  token := 0)]
                                else old(BAOriEntry[..])
      ensures forall v | 0 <= v < Peers.Length && (idx < BAOriEntry.Length ==> v != old(BAOriEntry[idx].wcid)) ::
                Peers[v] == old(Peers[v])
    {
      hide Consistent, EntryOk, IndexOk, Bits, Freed, BaTables.OriHalf, BaTables.RecHalf;
      NotInUse(idx);
      if idx == 0 || idx >= BAOriEntry.Length {
        return;
      }
      if BAOriEntry[idx].status != Originator_NONE {
        InUse(idx);
        var w, tid := BAOriEntry[idx].wcid, BAOriEntry[idx].tid;
        Peers[w] := Peers[w].(oriIdx := SetAt(Peers[w].oriIdx, tid, 0));
        if BAOriEntry[idx].status == Originator_Done {
          numDoneOriginator := numDoneOriginator - 1;
          Peers[w] := Peers[w].(tx := Clear(Peers[w].tx, tid));
        }
        numAsOriginator := numAsOriginator - 1;
        BAOriEntry[idx] := BAOriEntry[idx].(status := Originator_NONE, token := 0);
        FreeDone(Change(idx, BAOriEntry[idx], Sent[idx], 0, BARecEntry[0], w, Peers[w]));
      }
    }

    lemma NotInUse(idx: nat)
      requires Shape() && Good(Tables())
      ensures idx == 0 || idx >= BAOriEntry.Length || BAOriEntry[idx].status == Originator_NONE ==>
              Freed(OriHalf(), idx) == OriHalf()
    {
      hide Consistent;
      if idx < BAOriEntry.Length { assert OriHalf().entries[idx] == OriView(BAOriEntry[idx], Sent[idx]); }
    }

    lemma InUse(idx: nat)
      requires Shape() && Good(Tables()) && idx < BAOriEntry.Length && BAOriEntry[idx].status != Originator_NONE
      ensures var e := BAOriEntry[idx];
              idx > 0 && e.wcid < Peers.Length && e.tid < NUM_OF_TID && numAsOriginator > 0
              && (e.status == Originator_Done ==> numDoneOriginator > 0)
    {
      hide Consistent;
      assert OriHalf().entries[idx] == OriView(BAOriEntry[idx], Sent[idx]);
      ReleaseReady(OriHalf(), idx);
    }

    twostate lemma FreeDone(c: Change)
      requires old(Shape()) && old(Good(Tables())) && Changed(c) && c.k > 0 && c.sent == old(Sent[c.k])
               && c.rec == old(BARecEntry[c.j])
      requires var e := old(BAOriEntry[c.k]);
               && e.status != Originator_NONE && c.ori == e.(status := Originator_NONE, token := 0)
               && e.wcid == c.w && e.tid < NUM_OF_TID
               && c.peer == old(Peers[c.w]).(oriIdx := SetAt(old(Peers[c.w]).oriIdx, e.tid, 0),
                                             tx := if e.status == Originator_Done
                                                   then Clear(old(Peers[c.w]).tx, e.tid) else old(Peers[c.w]).tx)
               && numDoneOriginator == old(numDoneOriginator) - (if e.status == Originator_Done then 1 else 0)
      requires numAsOriginator == old(numAsOriginator) - 1 && numAsRecipient == old(numAsRecipient)
      ensures Shape() && OriHalf() == Freed(old(OriHalf()), c.k) && RecHalf() == old(RecHalf())
    {
      hide Consistent, EntryOk, IndexOk, Bits;
      BitsSet(old(Peers[c.w]).tx, c.ori.tid);
      TablesAfter(c);
      SameRec(c.w);
    }

    /** A peer whose recipient half is as before. */
    twostate lemma SameRec(w: nat)
      requires old(Shape()) && Shape() && w < Peers.Length && Peers[w].recIdx == old(Peers[w].recIdx)
               && Peers[w].rx == old(Peers[w].rx)
      requires var h, g := old(RecHalf()), RecHalf();
               g == Half(h.entries[0 := RecView(BARecEntry[0])], h.index[w := Peers[w].recIdx],
                 h.bits[w := Bits(Peers[w].rx)],
                         numAsRecipient, numAsRecipient)
      requires BARecEntry[0] == old(BARecEntry[0]) && numAsRecipient == old(numAsRecipient)
      ensures RecHalf() == old(RecHalf())
    {
      hide Bits;
    }

    /** `BAOriSessionAdd`: the peer's ADDBA response says success. Returns whether a BAR is sent. */
    method OriSessionAdd(w: nat, tid: nat, bufSize: nat, timeOut: nat, maxWinSize: nat, txSeq: nat) returns (bar: bool)
      requires Valid() && w < Peers.Length && tid < NUM_OF_TID
      modifies this`numDoneOriginator, BAOriEntry, Peers
      ensures Valid() && Tables() == Step(old(Tables()), OriAccepted(w, tid), MaxRecSessions)
      ensures var x := old(Peers[w].oriIdx[tid]);
              x < BAOriEntry.Length && (bar <==> x != 0 && old(BAOriEntry[x].status) == Originator_WaitRes)
      ensures var x := old(Peers[w].oriIdx[tid]);
              if bar then
                var e, b := old(BAOriEntry[x]), bufSize % 0x100;
                exists n: nat ::
                  && n <= e.winSize && n <= b && n <= maxWinSize && (n == e.winSize || n == b || n == maxWinSize)
                  && BAOriEntry[..] == old(BAOriEntry[..])[x := OriEntry(w, tid, n, e.token, txSeq, timeOut,
                       Originator_Done, false)]
              else BAOriEntry[..] == old(BAOriEntry[..])
    {
      hide Consistent, EntryOk, IndexOk, Bits;
      StepKeeps(Tables(), OriAccepted(w, tid), MaxRecSessions);
      IndexLeads(w, tid);
      IndexOwner(w, tid);
      var idx := Peers[w].oriIdx[tid];
      var e := BAOriEntry[idx];
      assert OriHalf().entries[idx] == OriView(e, Sent[idx]);
      bar := idx != 0 && e.tid == tid && e.status == Originator_WaitRes;
      if bar {
        var winSize := Min(Min(e.winSize, bufSize % 0x100), maxWinSize);
        BitsSet(Peers[w].tx, tid);
        BAOriEntry[idx] := e.(winSize := winSize, timeOut := timeOut, status := Originator_Done, sequence := txSeq,
          armed := false);
        numDoneOriginator := numDoneOriginator + 1;
        Peers[w] := Peers[w].(tx := Set(Peers[w].tx, tid));
        AcceptDone(Change(idx, BAOriEntry[idx], Sent[idx], 0, BARecEntry[0], w, Peers[w]));
      } else {
        AcceptRefused(w, tid);
      }
    }

    lemma AcceptRefused(w: nat, tid: nat)
      requires Valid() && w < Peers.Length && tid < NUM_OF_TID
      requires var x := Peers[w].oriIdx[tid];
               x == 0 || (x < BAOriEntry.Length && BAOriEntry[x].status != Originator_WaitRes)
      ensures Step(Tables(), OriAccepted(w, tid), MaxRecSessions) == Tables()
    {
      hide EntryOk, Bits;
      assert IndexOk(OriHalf(), w, tid);
      assert OriHalf().index[w] == Peers[w].oriIdx;
    }

    twostate lemma AcceptDone(c: Change)
      requires old(Valid()) && Changed(c) && c.k > 0 && c.ori.tid < NUM_OF_TID && c.ori.wcid == c.w
      requires var e := old(BAOriEntry[c.k]);
               e.status == Originator_WaitRes && e.wcid == c.w && e.tid == c.ori.tid && e.token == c.ori.token
                 && c.sent == old(Sent[c.k])
      requires old(Peers[c.w].oriIdx)[c.ori.tid] == c.k && c.ori.status == Originator_Done && !c.ori.armed
      requires c.peer == old(Peers[c.w]).(tx := Set(old(Peers[c.w]).tx, c.ori.tid)) && c.rec == old(BARecEntry[c.j])
      requires numAsOriginator == old(numAsOriginator) && numDoneOriginator == old(numDoneOriginator) + 1
               && numAsRecipient == old(numAsRecipient)
      ensures Shape() && Settled() && Tables() == Step(old(Tables()), OriAccepted(c.w, c.ori.tid), MaxRecSessions)
    {
      hide Consistent, EntryOk, IndexOk, Bits;
      BitsSet(old(Peers[c.w]).tx, c.ori.tid);
      TablesAfter(c);
    }

    twostate lemma RetryDone(c: Change)
      requires old(Valid()) && Changed(c) && c.ori == old(BAOriEntry[c.k]).(token := old(BAOriEntry[c.k]).token + 1)
      requires c.ori.status == Originator_WaitRes && c.ori.token <= ORI_SESSION_MAX_RETRY
               && c.sent == old(Sent[c.k]) + 1
      requires c.peer == old(Peers[c.w]) && c.rec == old(BARecEntry[c.j])
      requires numAsOriginator == old(numAsOriginator) && numDoneOriginator == old(numDoneOriginator)
               && numAsRecipient == old(numAsRecipient)
      ensures Shape() && Settled() && Tables() == Step(old(Tables()), OriTimeout(c.k), MaxRecSessions)
    {
      hide Consistent, EntryOk, IndexOk, Bits;
      TablesAfter(c);
    }

    /** The entry an index leads to belongs to that peer and TID. */
    lemma IndexOwner(w: nat, tid: nat)
      requires Valid() && w < Peers.Length && tid < NUM_OF_TID && Peers[w].oriIdx[tid] < BAOriEntry.Length
      ensures var x := Peers[w].oriIdx[tid]; x != 0 ==> BAOriEntry[x].wcid == w && BAOriEntry[x].tid == tid
    {
      assert IndexOk(OriHalf(), w, tid);
      assert OriHalf().index[w] == Peers[w].oriIdx;
    }

    /** `BAOriSessionTearDown`. Returns whether a DELBA is sent. */
    method OriSessionTearDown(wcid: nat, tid: nat, passive: bool, forceSend: bool) returns (delba: bool)
      requires Valid() && tid < NUM_OF_TID
      modifies this`numAsOriginator, this`numDoneOriginator, BAOriEntry, Peers
      ensures Valid()
      ensures if wcid >= Peers.Length then Tables() == old(Tables()) && !delba
              else Tables() == Step(old(Tables()), OriTearDown(wcid, tid), MaxRecSessions)
      ensures wcid < Peers.Length ==>
                var x := old(Peers[wcid].oriIdx[tid]);
                x < BAOriEntry.Length
                  && delba == if x == 0 then forceSend else !passive && old(BAOriEntry[x].status) == Originator_Done
      ensures forall v | 0 <= v < Peers.Length && v != wcid :: Peers[v] == old(Peers[v])
      ensures forall i | 0 <= i < BAOriEntry.Length && old(BAOriEntry[i].wcid) != wcid ::
                BAOriEntry[i] == old(BAOriEntry[i])
    {
      hide Consistent, EntryOk, IndexOk, Bits;
      delba := false;
      if wcid >= Peers.Length {
        return;
      }
      StepKeeps(Tables(), OriTearDown(wcid, tid), MaxRecSessions);
      IndexLeads(wcid, tid);
      IndexOwner(wcid, tid);
      var idx := Peers[wcid].oriIdx[tid];
      if idx == 0 || idx >= BAOriEntry.Length {
        delba := forceSend;
        return;
      }
      delba := !passive && tid == BAOriEntry[idx].tid && BAOriEntry[idx].status == Originator_Done;
      CancelTimer(idx);
      FreeOriEntry(idx);
    }

    /** `RTMPCancelTimer`. */
    method CancelTimer(idx: nat)
      requires Shape() && idx < BAOriEntry.Length
      modifies BAOriEntry
      ensures BAOriEntry[..] == old(BAOriEntry[..])[idx := old(BAOriEntry[idx]).(armed := false)]
      ensures Tables() == old(Tables())
    {
      BAOriEntry[idx] := BAOriEntry[idx].(armed := false);
      assert OriHalf().entries == old(OriHalf().entries);
    }

    /** `BAOriSessionSetupTimeout`, when the timer of entry `i` runs out. Returns whether a request is sent. */
    method OriSetupTimeout(i: nat) returns (sent: bool)
      requires Valid() && i < BAOriEntry.Length && BAOriEntry[i].armed
      modifies this`numAsOriginator, this`numDoneOriginator, this`Sent, BAOriEntry, Peers
      ensures Valid() && Tables() == Step(old(Tables()), OriTimeout(i), MaxRecSessions)
      ensures sent <==> old(BAOriEntry[i].token) < ORI_SESSION_MAX_RETRY
    {
      hide Consistent, IndexOk, Bits;
      StepKeeps(Tables(), OriTimeout(i), MaxRecSessions);
      ghost var h := OriHalf();
      assert h.entries[i] == OriView(BAOriEntry[i], Sent[i]);
      EntryOwner(i);
      CancelTimer(i);
      var e := BAOriEntry[i];
      sent := e.status == Originator_WaitRes && e.token < ORI_SESSION_MAX_RETRY;
      if sent {
        BAOriEntry[i] := e.(token := e.token + 1, armed := true);
        Sent := Sent[i := Sent[i] + 1];
        RetryDone(Change(i, BAOriEntry[i], Sent[i], 0, BARecEntry[0], e.wcid, Peers[e.wcid]));
      } else {
        FreeOriEntry(Peers[e.wcid].oriIdx[e.tid]);
      }
    }

    lemma EntryOwner(i: nat)
      requires Valid() && i < BAOriEntry.Length && BAOriEntry[i].status == Originator_WaitRes
      ensures var e := BAOriEntry[i];
              e.wcid < Peers.Length && e.tid < NUM_OF_TID && Peers[e.wcid].oriIdx[e.tid] == i && i > 0
    {
      assert EntryOk(OriHalf(), i);
      assert OriHalf().entries[i] == OriView(BAOriEntry[i], Sent[i]);
    }

    // ----- the recipient -----

    /** `BATableAllocRecEntry`. */
    method AllocRecEntry(idx0: nat) returns (p: Pointer, idx: nat)
      requires Valid()
      modifies BARecEntry, this`numAsRecipient
      ensures if old(numAsRecipient) >= MaxRecSessions then
                p == Null && idx == idx0 && numAsRecipient == old(numAsRecipient)
                  && BARecEntry[..] == old(BARecEntry[..])
              else
                var k := FirstFree(old(RecHalf()).entries, 1);
                && k < BARecEntry.Length && p == At(k) && idx == k && numAsRecipient == old(numAsRecipient) + 1
                && BARecEntry[..] == old(BARecEntry[..])[k := old(BARecEntry[k]).(status := Recipient_USED)]
    {
      p, idx := Null, idx0;
      if numAsRecipient >= MaxRecSessions {
        return;
      }
      ghost var s := RecHalf().entries;
      SomeFree(RecHalf());
      var i := 1;
      while i < BARecEntry.Length
        invariant 1 <= i < BARecEntry.Length && FirstFree(s, i) == FirstFree(s, 1) < BARecEntry.Length
        invariant numAsRecipient == old(numAsRecipient) && BARecEntry[..] == old(BARecEntry[..])
        modifies BARecEntry, this`numAsRecipient
      {
        p := At(i);
        assert BARecEntry[i] == BARecEntry[..][i] && s[i] == RecView(BARecEntry[i]);
        if BARecEntry[i].status == Recipient_NONE {
          numAsRecipient := numAsRecipient + 1;
          BARecEntry[i] := BARecEntry[i].(status := Recipient_USED);
          idx := i;
          return;
        }
        i := i + 1;
      }
    }

    lemma RequestRefused(w: nat, tid: nat)
      requires Valid() && w < Peers.Length && tid < NUM_OF_TID && Peers[w].recIdx[tid] == 0
               && numAsRecipient >= MaxRecSessions
      ensures Step(Tables(), RecRequest(w, tid), MaxRecSessions) == Tables()
    {
      hide Consistent, Bits;
      assert RecHalf().index[w] == Peers[w].recIdx;
    }

    /** The change that a granted request makes. */
    twostate predicate Grants(c: Change)
      requires old(Shape())
      reads this, BAOriEntry, BARecEntry, Peers
    {
      && Changed(c) && c.rec.tid < NUM_OF_TID && c.rec.wcid == c.w && c.rec.status == Recipient_Accept
      && c.ori == old(BAOriEntry[c.k]) && c.sent == old(Sent[c.k])
      && numAsOriginator == old(numAsOriginator) && numDoneOriginator == old(numDoneOriginator)
      && c.peer.oriIdx == old(Peers[c.w]).oriIdx && c.peer.tx == old(Peers[c.w]).tx
      && c.peer.recIdx == SetAt(old(Peers[c.w]).recIdx, c.rec.tid, c.j)
         && c.peer.rx == Set(old(Peers[c.w]).rx, c.rec.tid)
    }

    twostate lemma RequestNewDone(c: Change)
      requires old(Valid()) && Grants(c)
      requires old(Peers[c.w].recIdx)[c.rec.tid] == 0 && old(numAsRecipient) < MaxRecSessions
      requires c.j == FirstFree(old(RecHalf()).entries, 1) && numAsRecipient == old(numAsRecipient) + 1
      ensures Shape() && Settled() && Tables() == Step(old(Tables()), RecRequest(c.w, c.rec.tid), MaxRecSessions)
    {
      hide Consistent, EntryOk, IndexOk, Bits;
      BitsSet(old(Peers[c.w]).rx, c.rec.tid);
      TablesAfter(c);
    }

    twostate lemma RequestAgainDone(c: Change)
      requires old(Valid()) && Grants(c)
      requires c.j > 0 && old(Peers[c.w].recIdx)[c.rec.tid] == c.j && old(BARecEntry[c.j].status) == Recipient_Accept
      requires numAsRecipient == old(numAsRecipient)
      ensures Shape() && Settled() && Tables() == Step(old(Tables()), RecRequest(c.w, c.rec.tid), MaxRecSessions)
    {
      hide Consistent, EntryOk, IndexOk, Bits;
      BitsSet(old(Peers[c.w]).rx, c.rec.tid);
      TablesAfter(c);
      assert old(RecHalf()).entries[c.j] == RecView(old(BARecEntry[c.j]));
      assert SetAt(old(Peers[c.w]).recIdx, c.rec.tid, c.j) == old(Peers[c.w]).recIdx;
      assert old(RecHalf()).index[c.w := old(Peers[c.w]).recIdx] == old(RecHalf()).index;
    }

    /** `BARecSessionAdd`: a peer's ADDBA request. Returns whether it is granted. */
    method RecSessionAdd(w: nat, tid: nat, bufSize: nat, rxWinLimit: nat, timeOut: nat) returns (status: bool)
      requires Valid() && w < Peers.Length && tid < NUM_OF_TID
      modifies this`numAsRecipient, BARecEntry, Peers
      ensures Valid() && Tables() == Step(old(Tables()), RecRequest(w, tid), MaxRecSessions)
      ensures status <==> old(Peers[w].recIdx[tid]) != 0 || old(numAsRecipient) < MaxRecSessions
      ensures status ==> 0 < Peers[w].recIdx[tid] < BARecEntry.Length
      ensures status ==>
                BARecEntry[Peers[w].recIdx[tid]]
                  == RecEntry(w, tid, ReorderSpec.AgreedWindow(bufSize, rxWinLimit), timeOut, RESET_RCV_SEQ, 0,
                    Recipient_Accept)
      ensures status ==> Peers[w].declined == Clear(old(Peers[w].declined), tid)
    {
      hide Consistent, EntryOk, IndexOk, Bits, Step, BaTables.OriHalf, BaTables.RecHalf, BaTables.Settled,
          ReorderSpec.AgreedWindow;
      StepKeeps(Tables(), RecRequest(w, tid), MaxRecSessions);
      IndexLeads(w, tid);
      var winSize := ReorderSpec.AgreedWindow(bufSize, rxWinLimit);
      var idx := Peers[w].recIdx[tid];
      var p := At(idx);
      ghost var again, refused := idx != 0, idx == 0 && numAsRecipient >= MaxRecSessions;
      assert refused ==> Step(Tables(), RecRequest(w, tid), MaxRecSessions) == Tables() by {
        if refused { RequestRefused(w, tid); }
      }
      FreeRecEmpty();
      if idx == 0 {
        p, idx := AllocRecEntry(idx);
      } else {
        BARecEntry[idx] := Refreshed(BARecEntry[idx]);
      }
      if p == Null {
        NothingChanged();
        return false;
      }
      assert BARecEntry[p.i].qlen == 0;
      BARecEntry[p.i] := RecEntry(w, tid, winSize, timeOut, RESET_RCV_SEQ, BARecEntry[p.i].qlen, Recipient_Accept);
      Peers[w] := Peers[w].(rx := Set(Peers[w].rx, tid), recIdx := SetAt(Peers[w].recIdx, tid, idx),
                            declined := Clear(Peers[w].declined, tid));
      if again {
        RequestAgainDone(Change(0, BAOriEntry[0], Sent[0], p.i, BARecEntry[p.i], w, Peers[w]));
      } else {
        RequestNewDone(Change(0, BAOriEntry[0], Sent[0], p.i, BARecEntry[p.i], w, Peers[w]));
      }
      status := true;
    }

    /** What the frames of an answered session do to its entry: any step of the reordering code. */
    method Reorder(idx: nat, lastIndSeq: nat, qlen: nat)
      requires Valid() && idx < BARecEntry.Length && BARecEntry[idx].status == Recipient_Accept
      modifies BARecEntry
      ensures Valid() && Tables() == old(Tables())
      ensures BARecEntry[..] == old(BARecEntry[..])[idx := old(BARecEntry[idx]).(lastIndSeq := lastIndSeq,
              qlen := qlen)]
    {
      BARecEntry[idx] := BARecEntry[idx].(lastIndSeq := lastIndSeq, qlen := qlen);
      hide Bits, Consistent, NoneWaiting;
      assert RecHalf().entries == old(RecHalf()).entries;
      assert RecHalf().index == old(RecHalf()).index && RecHalf().bits == old(RecHalf()).bits;
      assert OriHalf() == old(OriHalf());
    }

    lemma FreeRecEmpty()
      requires Valid()
      ensures var k := FirstFree(RecHalf().entries, 1); k < BARecEntry.Length ==> BARecEntry[k].qlen == 0
    {
      var k := FirstFree(RecHalf().entries, 1);
      if k < BARecEntry.Length {
        assert RecHalf().entries[k] == RecView(BARecEntry[k]);
      }
    }

    /** `BARecSessionTearDown` with the `BATableFreeRecEntry` at its end. Returns whether a DELBA is sent. */
    method RecSessionTearDown(wcid: nat, tid: nat, passive: bool) returns (delba: bool)
      requires Valid() && tid < NUM_OF_TID
      modifies this`numAsRecipient, BARecEntry, Peers
      ensures Valid()
      ensures if wcid >= Peers.Length then Tables() == old(Tables()) && !delba
              else Tables() == Step(old(Tables()), RecTearDown(wcid, tid), MaxRecSessions)
                   && delba == (old(Peers[wcid].recIdx[tid]) != 0 && !passive)
      ensures wcid < Peers.Length ==>
                var x := old(Peers[wcid].recIdx[tid]);
                x < BARecEntry.Length
                && (x != 0 ==> BARecEntry[x].status == Recipient_NONE && BARecEntry[x].qlen == 0
                               && BARecEntry[x].lastIndSeq == RESET_RCV_SEQ)
      ensures forall v | 0 <= v < Peers.Length && v != wcid :: Peers[v] == old(Peers[v])
      ensures forall i | 0 <= i < BARecEntry.Length && old(BARecEntry[i].wcid) != wcid ::
                BARecEntry[i] == old(BARecEntry[i])
    {
      hide Consistent, EntryOk, IndexOk, Bits, Step, BaTables.OriHalf, BaTables.Settled;
      delba := false;
      if wcid >= Peers.Length {
        return;
      }
      StepKeeps(Tables(), RecTearDown(wcid, tid), MaxRecSessions);
      IndexLeads(wcid, tid);
      RecTearDownRefused(wcid, tid);
      var idx := Peers[wcid].recIdx[tid];
      if idx == 0 {
        return;
      }
      if tid == BARecEntry[idx].tid && BARecEntry[idx].status == Recipient_Accept {
        delba := !passive;
        BARecEntry[idx] := Refreshed(BARecEntry[idx]);
        BARecEntry[idx] := BARecEntry[idx].(lastIndSeq := RESET_RCV_SEQ, winSize := 0);
        Peers[wcid] := Peers[wcid].(rx := Clear(Peers[wcid].rx, tid), recIdx := SetAt(Peers[wcid].recIdx, tid, 0));
      }
      CountsUp(idx);
      FreeRecEntry(idx);
      RecFreeDone(Change(0, BAOriEntry[0], Sent[0], idx, BARecEntry[idx], wcid, Peers[wcid]));
    }

    twostate lemma CountsUp(idx: nat)
      requires old(Valid()) && 0 < idx < BARecEntry.Length && old(BARecEntry[idx].status) == Recipient_Accept
      requires numAsRecipient == old(numAsRecipient)
      ensures numAsRecipient > 0
    {
      hide EntryOk, IndexOk, Bits;
      assert old(RecHalf()).entries[idx] == RecView(old(BARecEntry[idx]));
      CountsPositive(old(RecHalf()).entries, BARecEntry.Length, idx);
    }

    lemma RecTearDownRefused(w: nat, tid: nat)
      requires Valid() && w < Peers.Length && tid < NUM_OF_TID
      ensures Peers[w].recIdx[tid] == 0 ==> Step(Tables(), RecTearDown(w, tid), MaxRecSessions) == Tables()
    {
      hide EntryOk, IndexOk, Bits;
      assert RecHalf().index[w] == Peers[w].recIdx;
    }

    /** `BATableFreeRecEntry`. */
    method FreeRecEntry(idx: nat)
      requires Shape() && (0 < idx < BARecEntry.Length && BARecEntry[idx].status != Recipient_NONE ==>
                             numAsRecipient > 0 && BARecEntry[idx].wcid < Peers.Length
                               && BARecEntry[idx].tid < NUM_OF_TID)
      modifies this`numAsRecipient, BARecEntry, Peers
      ensures if 0 < idx < BARecEntry.Length && old(BARecEntry[idx].status) != Recipient_NONE then
                var e := old(BARecEntry[idx]);
                var p := old(Peers[e.wcid]);
                && numAsRecipient == old(numAsRecipient) - 1
                && BARecEntry[..] == old(BARecEntry[..])[idx := e.(status := Recipient_NONE)]
                && Peers[..] == old(Peers[..])[e.wcid := p.(recIdx := SetAt(p.recIdx, e.tid, 0))]
              else
                && numAsRecipient == old(numAsRecipient) && BARecEntry[..] == old(BARecEntry[..])
                && Peers[..] == old(Peers[..])
    {
      if idx == 0 || idx >= BARecEntry.Length {
        return;
      }
      if BARecEntry[idx].status != Recipient_NONE {
        var w := BARecEntry[idx].wcid;
        Peers[w] := Peers[w].(recIdx := SetAt(Peers[w].recIdx, BARecEntry[idx].tid, 0));
        numAsRecipient := numAsRecipient - 1;
        BARecEntry[idx] := BARecEntry[idx].(status := Recipient_NONE);
      }
    }

    twostate lemma RecFreeDone(c: Change)
      requires old(Valid()) && Changed(c) && c.j > 0 && c.ori == old(BAOriEntry[c.k]) && c.sent == old(Sent[c.k])
      requires c.rec.tid < NUM_OF_TID && c.rec.wcid == c.w && c.rec.status == Recipient_NONE && c.rec.qlen == 0
      requires old(Peers[c.w].recIdx)[c.rec.tid] == c.j && old(BARecEntry[c.j].status) == Recipient_Accept
      requires old(BARecEntry[c.j].wcid) == c.w && old(BARecEntry[c.j].tid) == c.rec.tid
      requires numAsOriginator == old(numAsOriginator) && numDoneOriginator == old(numDoneOriginator)
      requires old(numAsRecipient) > 0 && numAsRecipient == old(numAsRecipient) - 1
      requires c.peer.oriIdx == old(Peers[c.w]).oriIdx && c.peer.tx == old(Peers[c.w]).tx
      requires c.peer.recIdx == SetAt(old(Peers[c.w]).recIdx, c.rec.tid, 0)
               && c.peer.rx == Clear(old(Peers[c.w]).rx, c.rec.tid)
      ensures Shape() && Settled() && Tables() == Step(old(Tables()), RecTearDown(c.w, c.rec.tid), MaxRecSessions)
    {
      hide Consistent, EntryOk, IndexOk, Bits;
      BitsSet(old(Peers[c.w]).rx, c.rec.tid);
      TablesAfter(c);
      assert old(RecHalf()).entries[c.j] == RecView(old(BARecEntry[c.j]));
    }

    /** The other peers, and the entries of their sessions, are as they were. */
    twostate predicate OthersKept(wcid: nat)
      reads BAOriEntry, BARecEntry, Peers
    {
      && (forall v | 0 <= v < Peers.Length && v != wcid :: Peers[v] == old(Peers[v]))
      && (forall i | 0 <= i < BAOriEntry.Length && old(BAOriEntry[i].wcid) != wcid ::
            BAOriEntry[i] == old(BAOriEntry[i]))
      && (forall i | 0 <= i < BARecEntry.Length && old(BARecEntry[i].wcid) != wcid ::
            BARecEntry[i] == old(BARecEntry[i]))
    }

    /** `BASessionTearDownALL`: afterwards the peer has no session, and the others have theirs. */
    method SessionTearDownAll(wcid: nat)
      requires Valid() && wcid < Peers.Length
      modifies this`numAsOriginator, this`numDoneOriginator, this`numAsRecipient, BAOriEntry, BARecEntry, Peers
      ensures Valid()
      ensures forall t | 0 <= t < NUM_OF_TID :: Peers[wcid].oriIdx[t] == 0 && Peers[wcid].recIdx[t] == 0
      ensures forall t | 0 <= t < NUM_OF_TID :: !Test(Peers[wcid].tx, t) && !Test(Peers[wcid].rx, t)
      ensures OthersKept(wcid)
    {
      hide Consistent, EntryOk, IndexOk, Bits, Freed, BaTables.OriHalf, BaTables.RecHalf, BaTables.Settled;
      for i := 0 to NUM_OF_TID
        invariant Valid()
        invariant forall t | 0 <= t < i :: Clean(OriHalf(), wcid, t) && Clean(RecHalf(), wcid, t)
        invariant OthersKept(wcid)
      {
        ghost var h, g := OriHalf(), RecHalf();
        TornDownClears(h, wcid, i);
        TornDownClears(g, wcid, i);
        var _ := OriSessionTearDown(wcid, i, false, false);
        assert Tables() == BaSessions.Tables.Tables(TornDown(h, wcid, i), g);
        var _ := RecSessionTearDown(wcid, i, false);
        assert Tables() == BaSessions.Tables.Tables(TornDown(h, wcid, i), TornDown(g, wcid, i));
        forall t | 0 <= t < i ensures Clean(OriHalf(), wcid, t) && Clean(RecHalf(), wcid, t) {
          assert Clean(h, wcid, t) && Clean(g, wcid, t);
        }
      }
      CleanPeer(wcid);
    }

    lemma CleanPeer(w: nat)
      requires Shape() && w < Peers.Length
      requires forall t | 0 <= t < NUM_OF_TID :: Clean(OriHalf(), w, t) && Clean(RecHalf(), w, t)
      ensures forall t | 0 <= t < NUM_OF_TID :: Peers[w].oriIdx[t] == 0 && Peers[w].recIdx[t] == 0
      ensures forall t | 0 <= t < NUM_OF_TID :: !Test(Peers[w].tx, t) && !Test(Peers[w].rx, t)
    {
      hide Bits, Test;
      forall t | 0 <= t < NUM_OF_TID
        ensures Peers[w].oriIdx[t] == 0 && Peers[w].recIdx[t] == 0 && !Test(Peers[w].tx, t) && !Test(Peers[w].rx, t)
      {
        assert Clean(OriHalf(), w, t) && Clean(RecHalf(), w, t);
        BitsTest(Peers[w].tx, t);
        BitsTest(Peers[w].rx, t);
      }
    }
  }

  /** The peer has no session for the TID. */
  predicate Clean(h: Half, w: nat, t: nat)
    requires Sized(h) && w < |h.index| && t < NUM_OF_TID
  {
    h.index[w][t] == 0 && !h.bits[w][t]
  }

  function Min(a: nat, b: nat): nat { if a < b then a else b }

  /** `ba_refresh_reordering_mpdus`, as far as the entry shows it (see ReorderSpec.Refresh). */
  function Refreshed(e: RecEntry): RecEntry {
    e.(lastIndSeq := RESET_RCV_SEQ, qlen := 0)
  }

  /** One element of an index array changed. */
  function SetAt(s: seq<nat>, t: nat, x: nat): (r: seq<nat>)
    requires t < |s|
    ensures |r| == |s|
  {
    s[t := x]
  }

  /** A change of one originator entry, one recipient entry and one peer. */
  datatype Change = Change(k: nat, ori: OriEntry, sent: nat, j: nat, rec: RecEntry, w: nat, peer: Peer)

  lemma EmptyIsGood(h: Half)
    requires Sized(h) && |h.index| > 0 && h.used == 0 && h.done == 0
    requires forall i | 0 <= i < |h.entries| ::
             h.entries[i].status == Free && h.entries[i].wcid == 0 && h.entries[i].tid == 0
    requires forall w, t | 0 <= w < |h.index| && 0 <= t < NUM_OF_TID :: h.index[w][t] == 0 && !h.bits[w][t]
    ensures Consistent(h) && NoneWaiting(h)
  {
    NoneUsed(h.entries, |h.entries|);
  }

  lemma {:induction false} NoneUsed(s: seq<Session>, n: nat)
    requires n <= |s| && forall i | 0 <= i < |s| :: s[i].status == Free
    ensures Used(s, n) == 0 && Answered(s, n) == 0
  {
    if n > 0 { NoneUsed(s, n - 1); }
  }
}

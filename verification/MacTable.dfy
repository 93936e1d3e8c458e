/** The MAC table: an array of entries, and hash chains threaded through the entries in use. */
module MacTable {
  import opened AesField

  const HASH_TABLE_SIZE: nat := 0x100
  const MAC_ADDR_LEN: nat := 6

  // ----- the table as a value -----

  datatype Slot = Vacant | Taken(addr: seq<bv8>)

  function ByteIndex(b: bv8): (n: nat)
    ensures n < HASH_TABLE_SIZE
  {
    b as nat % HASH_TABLE_SIZE
  }

  /** `MAC_ADDR_HASH_INDEX`. */
  function HashIndex(a: seq<bv8>): (h: nat)
    requires |a| == MAC_ADDR_LEN
    ensures h < HASH_TABLE_SIZE
  {
    ByteIndex(Xor(Xor(Xor(Xor(Xor(a[0], a[1]), a[2]), a[3]), a[4]), a[5]))
  }

  /** The first vacant slot from `i` on, or the length of the table. */
  function FirstVacant(t: seq<Slot>, i: nat): (k: nat)
    requires i <= |t|
    ensures i <= k <= |t| && (k < |t| ==> t[k].Vacant?)
    ensures forall j | i <= j < k :: t[j].Taken?
    decreases |t| - i
  {
    if i == |t| || t[i].Vacant? then i else FirstVacant(t, i + 1)
  }

  /** The first slot from `i` on that holds `a`, or the length of the table. */
  function FirstMatch(t: seq<Slot>, a: seq<bv8>, i: nat): (k: nat)
    requires i <= |t|
    ensures i <= k <= |t| && (k < |t| ==> t[k] == Taken(a))
    ensures forall j | i <= j < k :: t[j] != Taken(a)
    decreases |t| - i
  {
    if i == |t| || t[i] == Taken(a) then i else FirstMatch(t, a, i + 1)
  }

  /** The slots in use among the first `n`. */
  function InUse(t: seq<Slot>, n: nat): nat
    requires n <= |t|
  {
    if n == 0 then 0 else InUse(t, n - 1) + if t[n - 1].Taken? then 1 else 0
  }

  lemma {:induction false} InUseChanged(t: seq<Slot>, n: nat, k: nat, s: Slot)
    requires n <= |t| && k < |t|
    ensures InUse(t[k := s], n)
            == InUse(t, n) + if k < n then (if s.Taken? then 1 else 0) - (if t[k].Taken? then 1 else 0) else 0
  {
    if n > 0 { InUseChanged(t, n - 1, k, s); }
  }

  lemma {:induction false} InUseBounded(t: seq<Slot>, n: nat)
    requires n <= |t|
    ensures InUse(t, n) <= n && (InUse(t, n) == n ==> forall j | 0 <= j < n :: t[j].Taken?)
    ensures (exists j :: 0 <= j < n && t[j].Taken?) ==> InUse(t, n) > 0
  {
    if n > 0 { InUseBounded(t, n - 1); }
  }

  lemma {:induction false} NoneInUse(t: seq<Slot>, n: nat)
    requires n <= |t| && forall k | 0 <= k < |t| :: t[k].Vacant?
    ensures InUse(t, n) == 0
  {
    if n > 0 { NoneInUse(t, n - 1); }
  }

  predicate Distinct(t: seq<Slot>) {
    forall i, j | 0 <= i < j < |t| && t[i].Taken? :: t[i] != t[j]
  }

  predicate Present(t: seq<Slot>, a: seq<bv8>) {
    Taken(a) in t
  }

  /** What the two operations do to the table. */
  datatype Operation = Insert(addr: seq<bv8>) | Delete(wcid: nat, addr: seq<bv8>)

  function Step(t: seq<Slot>, first: nat, op: Operation): (u: seq<Slot>)
    requires first <= |t|
    ensures |u| == |t|
  {
    match op
    case Insert(a) =>
      var k := FirstVacant(t, first);
      if InUse(t, |t|) >= |t| || k == |t| then t else t[k := Taken(a)]
    case Delete(w, a) =>
      if w < |t| && t[w] == Taken(a) then t[w := Vacant] else t
  }

  function Run(t: seq<Slot>, first: nat, ops: seq<Operation>): (u: seq<Slot>)
    requires first <= |t|
    ensures |u| == |t|
  {
    if ops == [] then t else Step(Run(t, first, ops[..|ops| - 1]), first, ops[|ops| - 1])
  }

  /** Every address inserted is new to the table at that moment. */
  predicate InsertsFresh(t: seq<Slot>, first: nat, ops: seq<Operation>)
    requires first <= |t|
  {
    forall k | 0 <= k < |ops| && ops[k].Insert? :: !Present(Run(t, first, ops[..k]), ops[k].addr)
  }

  lemma StepKeepsDistinct(t: seq<Slot>, first: nat, op: Operation)
    requires first <= |t| && Distinct(t) && (op.Insert? ==> !Present(t, op.addr))
    ensures Distinct(Step(t, first, op))
  {
  }

  /** After any sequence of inserts of fresh addresses and deletes no address is in the table twice. */
  lemma {:induction false} RunKeepsDistinct(t: seq<Slot>, first: nat, ops: seq<Operation>)
    requires first <= |t| && Distinct(t) && InsertsFresh(t, first, ops)
    ensures Distinct(Run(t, first, ops))
  {
    if ops != [] {
      var n := |ops| - 1;
      assert forall k | 0 <= k <= n :: ops[..n][..k] == ops[..k];
      RunKeepsDistinct(t, first, ops[..n]);
      StepKeepsDistinct(Run(t, first, ops[..n]), first, ops[n]);
    }
  }

  /** With distinct addresses any slot that holds an address is the first that does. */
  lemma MatchIsFirst(t: seq<Slot>, a: seq<bv8>, k: nat)
    requires Distinct(t) && k < |t| && t[k] == Taken(a)
    ensures FirstMatch(t, a, 0) == k
  {
  }

  // ----- the table as a set of addresses -----

  /** `a` is gone, every other address is found where it was, and one slot fewer is in use. */
  ghost predicate Removes(t: seq<Slot>, u: seq<Slot>, a: seq<bv8>) {
    && |u| == |t| && !Present(u, a) && FirstMatch(u, a, 0) == |u|
    && (forall b | b != a :: FirstMatch(u, b, 0) == FirstMatch(t, b, 0))
    && InUse(u, |u|) == InUse(t, |t|) - 1
  }

  /** `a` is found in slot `k`, which was vacant, every other address where it was, and one slot more is in
      use. */
  ghost predicate Adds(t: seq<Slot>, u: seq<Slot>, a: seq<bv8>, k: nat) {
    && |u| == |t| && k < |t| && t[k].Vacant? && Present(u, a) && FirstMatch(u, a, 0) == k
    && (forall b | b != a :: FirstMatch(u, b, 0) == FirstMatch(t, b, 0))
    && InUse(u, |u|) == InUse(t, |t|) + 1
  }

  predicate HasVacancy(t: seq<Slot>, first: nat) {
    exists k :: first <= k < |t| && t[k].Vacant?
  }

  /** The first of several slots: it is the one that holds the address and none before it does. */
  lemma MatchIs(t: seq<Slot>, a: seq<bv8>, k: nat)
    requires k <= |t| && (forall j | 0 <= j < k :: t[j] != Taken(a)) && (k < |t| ==> t[k] == Taken(a))
    ensures FirstMatch(t, a, 0) == k
  {
  }

  /** A change of a slot that held, and holds, no `b`. */
  lemma OthersFound(t: seq<Slot>, k: nat, s: Slot, b: seq<bv8>)
    requires k < |t| && t[k] != Taken(b) && s != Taken(b)
    ensures FirstMatch(t[k := s], b, 0) == FirstMatch(t, b, 0)
  {
    MatchIs(t[k := s], b, FirstMatch(t, b, 0));
  }

  /** A delete takes effect exactly if its slot holds its address; with no address twice, the address is
      then gone. */
  lemma DeleteRemoves(t: seq<Slot>, first: nat, w: nat, a: seq<bv8>)
    requires first <= |t| && Distinct(t)
    ensures var u := Step(t, first, Operation.Delete(w, a));
            if w < |t| && t[w] == Taken(a) then Removes(t, u, a) else u == t
  {
    if w < |t| && t[w] == Taken(a) {
      var u := t[w := Vacant];
      MatchIs(u, a, |u|);
      InUseChanged(t, |t|, w, Vacant);
      forall b | b != a ensures FirstMatch(u, b, 0) == FirstMatch(t, b, 0) { OthersFound(t, w, Vacant, b); }
    }
  }

  /** An insert of a fresh address takes effect exactly if there is a vacant slot. */
  lemma InsertAdds(t: seq<Slot>, first: nat, a: seq<bv8>)
    requires first <= |t| && !Present(t, a)
    ensures var u := Step(t, first, Operation.Insert(a));
            if HasVacancy(t, first) then Adds(t, u, a, FirstVacant(t, first)) else u == t
  {
    var k := FirstVacant(t, first);
    InUseBounded(t, |t|);
    if HasVacancy(t, first) {
      assert k < |t|;
      var u := t[k := Taken(a)];
      MatchIs(u, a, k);
      InUseChanged(t, |t|, k, Taken(a));
      assert u[k] == Taken(a);
      forall b | b != a ensures FirstMatch(u, b, 0) == FirstMatch(t, b, 0) { OthersFound(t, k, Taken(a), b); }
    }
  }

  /** Operation `k` of a run takes effect on `a`: an insert that finds a vacant slot, or a delete of the slot
      that holds the address. */
  predicate Takes(t: seq<Slot>, first: nat, ops: seq<Operation>, k: nat, a: seq<bv8>)
    requires first <= |t| && k < |ops|
  {
    var u := Run(t, first, ops[..k]);
    ops[k].addr == a && if ops[k].Insert? then HasVacancy(u, first) else ops[k].wcid < |u| && u[ops[k].wcid] == Taken(a)
  }

  /** The last operation of a run that took effect on `a` was an insert; or none did, and `a` was there. */
  predicate LastInserted(t: seq<Slot>, first: nat, ops: seq<Operation>, a: seq<bv8>)
    requires first <= |t|
  {
    if ops == [] then Present(t, a)
    else if Takes(t, first, ops, |ops| - 1, a) then ops[|ops| - 1].Insert?
    else LastInserted(t, first, ops[..|ops| - 1], a)
  }

  /** After any sequence of inserts of fresh addresses and deletes, the addresses in the table are those
      whose last operation that took effect was an insert. */
  lemma {:induction false} PresentIff(t: seq<Slot>, first: nat, ops: seq<Operation>, a: seq<bv8>)
    requires first <= |t| && Distinct(t) && InsertsFresh(t, first, ops)
    ensures Present(Run(t, first, ops), a) <==> LastInserted(t, first, ops, a)
  {
    hide Step, Distinct, Adds, Removes, HasVacancy;
    if ops != [] {
      var n := |ops| - 1;
      assert forall k | 0 <= k <= n :: ops[..n][..k] == ops[..k];
      PresentIff(t, first, ops[..n], a);
      RunKeepsDistinct(t, first, ops[..n]);
      OneMore(Run(t, first, ops[..n]), first, ops[n], a);
    }
  }

  lemma OneMore(t: seq<Slot>, first: nat, op: Operation, a: seq<bv8>)
    requires first <= |t| && Distinct(t) && (op.Insert? ==> !Present(t, op.addr))
    ensures var takes := op.addr == a &&
                         if op.Insert? then HasVacancy(t, first) else op.wcid < |t| && t[op.wcid] == Taken(a);
            Present(Step(t, first, op), a) <==> if takes then op.Insert? else Present(t, a)
  {
    hide Distinct, HasVacancy, Step;
    match op
    case Insert(b) => InsertAdds(t, first, b); FoundIff(t, Step(t, first, op), a);
    case Delete(w, b) => DeleteRemoves(t, first, w, b); FoundIff(t, Step(t, first, op), a);
  }

  lemma FoundIff(t: seq<Slot>, u: seq<Slot>, a: seq<bv8>)
    ensures Present(t, a) <==> FirstMatch(t, a, 0) < |t|
    ensures Present(u, a) <==> FirstMatch(u, a, 0) < |u|
  {
  }

  // ----- the table in memory -----

  /** A bucket, its chain, and another bucket or an entry. */
  datatype Place = Place(h: nat, c: seq<nat>, x: nat)

  /** `MAC_TABLE_ENTRY`, as far as the table itself reads it. */
  class MacEntry {
    var ValidAsCLI: bool
    var Addr: seq<bv8>
    var Aid: nat
    var pNext: MacEntry?

    constructor ()
      ensures !ValidAsCLI && pNext == null
    {
      ValidAsCLI, Addr, Aid, pNext := false, [0, 0, 0, 0, 0, 0], 0, null;
    }
  }

  class MacTab {
    const Content: seq<MacEntry>
    const Hash: array<MacEntry?>
    const FirstWcid: nat
    var Size: nat
    /** For each bucket, the indices of the entries on its chain, in order. */
    ghost var Chains: seq<seq<nat>>

    /** An empty table over zeroed entries. */
    constructor (content: seq<MacEntry>, firstWcid: nat)
      requires firstWcid <= |content|
      requires forall i, j | 0 <= i < j < |content| :: content[i] != content[j]
      requires forall i | 0 <= i < |content| :: !content[i].ValidAsCLI && content[i].pNext == null
      ensures Valid() && Content == content && FirstWcid == firstWcid && fresh(Hash)
    {
      Content, FirstWcid, Size := content, firstWcid, 0;
      Hash := new MacEntry?[HASH_TABLE_SIZE](_ => null);
      Chains := seq(HASH_TABLE_SIZE, _ => []);
      new;
      NoneInUse(Table(), |Content|);
    }

    /** The entries are separate objects. */
    ghost predicate Shape() {
      && Hash.Length == HASH_TABLE_SIZE && FirstWcid <= |Content|
      && forall i, j | 0 <= i < j < |Content| :: Content[i] != Content[j]
    }

    ghost function SlotOf(e: MacEntry): Slot
      reads e
    {
      if e.ValidAsCLI then Taken(e.Addr) else Vacant
    }

    ghost function Table(): (t: seq<Slot>)
      reads Content
      ensures |t| == |Content|
    {
      seq(|Content|, i requires 0 <= i < |Content| reads Content => SlotOf(Content[i]))
    }

    ghost predicate InRange(c: seq<nat>) {
      forall k | 0 <= k < |c| :: c[k] < |Content|
    }

    /** Entry `k` of the chain `c` of bucket `h`: in use, hashing to `h`, and pointing at the next. */
    ghost predicate LinkAt(h: nat, c: seq<nat>, k: nat)
      requires k < |c| && InRange(c)
      reads Content
    {
      var e := Content[c[k]];
      && e.ValidAsCLI && |e.Addr| == MAC_ADDR_LEN && HashIndex(e.Addr) == h
      && e.pNext == if k + 1 < |c| then Content[c[k + 1]] else null
    }

    ghost predicate NoRepeats(c: seq<nat>) {
      forall i, j | 0 <= i < j < |c| :: c[i] != c[j]
    }

    /** Bucket `h` heads the chain, and every entry on it is in order. */
    ghost predicate ChainAt(h: nat, c: seq<nat>)
      requires Shape() && h < HASH_TABLE_SIZE
      reads Hash, Content
    {
      && InRange(c) && NoRepeats(c)
      && Hash[h] == (if c == [] then null else Content[c[0]])
      && (forall k | 0 <= k < |c| :: LinkAt(h, c, k))
    }

    /** An entry in use is on the chain of its address; one not in use points nowhere. */
    ghost predicate EntryAt(i: nat)
      requires i < |Content| && |Chains| == HASH_TABLE_SIZE
      reads Content, this`Chains
    {
      var e := Content[i];
      if e.ValidAsCLI then |e.Addr| == MAC_ADDR_LEN && e.Aid == i && i >= FirstWcid && i in Chains[HashIndex(e.Addr)]
      else e.pNext == null
    }

    ghost predicate Valid()
      reads this`Chains, this`Size, Hash, Content
    {
      && Shape() && |Chains| == HASH_TABLE_SIZE
      && (forall h | 0 <= h < HASH_TABLE_SIZE :: ChainAt(h, Chains[h]))
      && (forall i | 0 <= i < |Content| :: EntryAt(i))
      && Size == InUse(Table(), |Content|)
    }

    /** Every entry in use is on exactly one chain, once, and nothing else is on any chain. */
    lemma ChainsPartition()
      requires Valid()
      ensures forall i | 0 <= i < |Content| && Content[i].ValidAsCLI ::
                |Content[i].Addr| == MAC_ADDR_LEN && i in Chains[HashIndex(Content[i].Addr)]
      ensures forall h, k | 0 <= h < HASH_TABLE_SIZE && 0 <= k < |Chains[h]| ::
                var x := Chains[h][k]; x < |Content| && Content[x].ValidAsCLI && HashIndex(Content[x].Addr) == h
      ensures forall h | 0 <= h < HASH_TABLE_SIZE :: NoRepeats(Chains[h])
    {
      hide HashIndex;
      forall i | 0 <= i < |Content| && Content[i].ValidAsCLI
        ensures |Content[i].Addr| == MAC_ADDR_LEN && i in Chains[HashIndex(Content[i].Addr)]
      {
        assert EntryAt(i);
      }
      forall h, k | 0 <= h < HASH_TABLE_SIZE && 0 <= k < |Chains[h]|
        ensures Chains[h][k] < |Content| && LinkAt(h, Chains[h], k)
      {
        assert ChainAt(h, Chains[h]);
      }
    }

    /** `MacTableLookup`. */
    method Lookup(pAddr: seq<bv8>) returns (pEntry: MacEntry?)
      requires Valid() && |pAddr| == MAC_ADDR_LEN
      ensures pEntry == null <==> !Present(Table(), pAddr)
      ensures pEntry != null ==> exists k | 0 <= k < |Content| :: pEntry == Content[k] && Table()[k] == Taken(pAddr)
      ensures Distinct(Table()) ==>
                var k := FirstMatch(Table(), pAddr, 0); pEntry == if k == |Content| then null else Content[k]
    {
      hide HashIndex;
      var hashIdx := HashIndex(pAddr);
      pEntry := Hash[hashIdx];
      ghost var c, k := Chains[hashIdx], 0;
      assert ChainAt(hashIdx, c);
      while pEntry != null && pEntry.ValidAsCLI
        invariant InRange(c)
        invariant 0 <= k <= |c|
        invariant pEntry == if k == |c| then null else Content[c[k]]
        invariant forall j | 0 <= j < k :: Content[c[j]].Addr != pAddr
        decreases |c| - k
      {
        if pEntry.Addr == pAddr {
          break;
        }
        assert LinkAt(hashIdx, c, k);
        pEntry := pEntry.pNext;
        k := k + 1;
      }
      if pEntry == null {
        NotOnChain(pAddr, c);
      } else {
        assert LinkAt(hashIdx, c, k);
        assert Table()[c[k]] == Taken(pAddr);
        if Distinct(Table()) { MatchIsFirst(Table(), pAddr, c[k]); }
      }
    }

    lemma NotOnChain(a: seq<bv8>, c: seq<nat>)
      requires Valid() && |a| == MAC_ADDR_LEN && c == Chains[HashIndex(a)] && InRange(c)
      requires forall k | 0 <= k < |c| :: Content[c[k]].Addr != a
      ensures !Present(Table(), a)
    {
      hide HashIndex;
      forall i | 0 <= i < |Content| ensures Table()[i] != Taken(a) {
        assert EntryAt(i);
      }
    }

    // ----- what a change elsewhere leaves in place -----

    twostate predicate Same(e: MacEntry)
      reads e
    {
      e.ValidAsCLI == old(e.ValidAsCLI) && e.Addr == old(e.Addr) && e.Aid == old(e.Aid) && e.pNext == old(e.pNext)
    }

    twostate predicate AllSame(c: seq<nat>)
      requires InRange(c)
      reads Content
    {
      forall k | 0 <= k < |c| :: Same(Content[c[k]])
    }

    /** A chain whose bucket and entries are untouched stays in order. */
    twostate lemma ChainKept(p: Place)
      requires Shape() && p.h < HASH_TABLE_SIZE && old(ChainAt(p.h, p.c)) && Hash[p.h] == old(Hash[p.h])
      requires InRange(p.c) && AllSame(p.c)
      ensures ChainAt(p.h, p.c)
    {
      hide HashIndex;
      forall k | 0 <= k < |p.c| ensures LinkAt(p.h, p.c, k) {
        assert old(LinkAt(p.h, p.c, k));
      }
    }

    /** An entry that keeps its validity, address and number, and whose chain keeps it. */
    twostate lemma EntryKept(i: nat)
      requires i < |Content| && |Chains| == HASH_TABLE_SIZE && |old(Chains)| == HASH_TABLE_SIZE && old(EntryAt(i))
      requires var e := Content[i]; e.ValidAsCLI == old(e.ValidAsCLI) && e.Addr == old(e.Addr) && e.Aid == old(e.Aid)
      requires !Content[i].ValidAsCLI ==> Content[i].pNext == old(Content[i].pNext)
      requires forall h | 0 <= h < HASH_TABLE_SIZE && i in old(Chains[h]) :: i in Chains[h]
      ensures EntryAt(i)
    {
      hide HashIndex;
    }

    // ----- inserting -----

    /** The slot search of `MacTableInsertEntry`. */
    method FindVacancy() returns (i: nat)
      requires Shape()
      ensures i == FirstVacant(Table(), FirstWcid)
    {
      i := FirstWcid;
      while i < |Content|
        invariant FirstWcid <= i <= |Content| && FirstVacant(Table(), i) == FirstVacant(Table(), FirstWcid)
      {
        if !Content[i].ValidAsCLI {
          assert Table()[i] == Vacant;
          return;
        }
        assert Table()[i].Taken?;
        i := i + 1;
      }
    }

    /** The fields of a new entry. */
    method FillEntry(i: nat, pAddr: seq<bv8>, cleanAll: bool)
      requires Shape() && i < |Content| && Content[i].pNext == null
      modifies Content[i]
      ensures var e := Content[i]; e.ValidAsCLI && e.Addr == pAddr && e.Aid == i && e.pNext == null
    {
      var e := Content[i];
      if cleanAll {
        Clear(e);
      }
      e.ValidAsCLI := true;
      e.Addr := pAddr;
      e.Aid := i;
    }

    /** `NdisZeroMemory` of a whole entry. */
    method Clear(e: MacEntry)
      modifies e
      ensures !e.ValidAsCLI && e.Addr == [0, 0, 0, 0, 0, 0] && e.Aid == 0 && e.pNext == null
    {
      e.ValidAsCLI, e.Addr, e.Aid, e.pNext := false, [0, 0, 0, 0, 0, 0], 0, null;
    }

    /** The tail of a chain, from its bucket. */
    method FindTail(hashIdx: nat, ghost c: seq<nat>) returns (pCurrEntry: MacEntry)
      requires Shape() && hashIdx < HASH_TABLE_SIZE && ChainAt(hashIdx, c) && c != []
      ensures InRange(c) && pCurrEntry == Content[c[|c| - 1]]
    {
      hide HashIndex;
      pCurrEntry := Hash[hashIdx];
      ghost var k := 0;
      assert LinkAt(hashIdx, c, 0);
      while pCurrEntry.pNext != null
        invariant 0 <= k < |c| && InRange(c) && pCurrEntry == Content[c[k]]
        decreases |c| - k
      {
        assert LinkAt(hashIdx, c, k);
        pCurrEntry := pCurrEntry.pNext;
        k := k + 1;
      }
      assert LinkAt(hashIdx, c, k);
    }

    /** The new entry at the end of its chain. */
    method LinkIn(hashIdx: nat, i: nat, ghost c: seq<nat>)
      requires Shape() && hashIdx < HASH_TABLE_SIZE && ChainAt(hashIdx, c) && i < |Content| && i !in c
      requires var e := Content[i];
               e.ValidAsCLI && |e.Addr| == MAC_ADDR_LEN && HashIndex(e.Addr) == hashIdx && e.pNext == null
      modifies Hash, if c == [] || !InRange(c) then {} else {Content[c[|c| - 1]]}
      ensures ChainAt(hashIdx, c + [i])
      ensures forall h | 0 <= h < HASH_TABLE_SIZE && h != hashIdx :: Hash[h] == old(Hash[h])
      ensures forall e | e in Content ::
              e.ValidAsCLI == old(e.ValidAsCLI) && e.Addr == old(e.Addr) && e.Aid == old(e.Aid)
    {
      hide HashIndex;
      ghost var d := c + [i];
      if Hash[hashIdx] == null {
        Hash[hashIdx] := Content[i];
      } else {
        var pCurrEntry := FindTail(hashIdx, c);
        pCurrEntry.pNext := Content[i];
      }
      forall k | 0 <= k < |d| ensures LinkAt(hashIdx, d, k) {
        if k < |c| { assert old(LinkAt(hashIdx, c, k)); }
      }
    }

    /** Filling an entry that was not in use leaves a chain in order, and the entry is not on it. */
    twostate lemma FillDisturbs(p: Place)
      requires Shape() && p.h < HASH_TABLE_SIZE && old(ChainAt(p.h, p.c)) && Hash[p.h] == old(Hash[p.h])
      requires p.x < |Content| && !old(Content[p.x].ValidAsCLI) && forall j | 0 <= j < |Content| && j != p.x ::
               Same(Content[j])
      ensures ChainAt(p.h, p.c) && p.x !in p.c
    {
      hide HashIndex;
      forall k | 0 <= k < |p.c| ensures p.c[k] != p.x {
        assert old(LinkAt(p.h, p.c, k));
      }
      ChainKept(p);
    }

    /** Only entries in use that hash to `h` have changed. */
    twostate predicate OnlyBucket(h: nat)
      reads Content
    {
      forall j | 0 <= j < |Content| ::
        Same(Content[j])
          || (old(Content[j].ValidAsCLI) && |old(Content[j].Addr)| == MAC_ADDR_LEN
             && HashIndex(old(Content[j].Addr)) == h)
    }

    /** A change confined to one chain leaves the others in order. */
    twostate lemma OtherChainKept(p: Place)
      requires Shape() && p.h < HASH_TABLE_SIZE && p.x < HASH_TABLE_SIZE && p.h != p.x && OnlyBucket(p.x)
      requires old(ChainAt(p.h, p.c)) && Hash[p.h] == old(Hash[p.h])
      ensures ChainAt(p.h, p.c)
    {
      hide HashIndex;
      forall k | 0 <= k < |p.c| ensures Same(Content[p.c[k]]) {
        assert old(LinkAt(p.h, p.c, k));
      }
      ChainKept(p);
    }

    /** One chain rebuilt and the others untouched. */
    twostate lemma ChainsAfter(p: Place)
      requires Shape() && |old(Chains)| == HASH_TABLE_SIZE && p.h < HASH_TABLE_SIZE && OnlyBucket(p.h)
      requires forall g | 0 <= g < HASH_TABLE_SIZE :: old(ChainAt(g, Chains[g]))
      requires Chains == old(Chains)[p.h := p.c] && ChainAt(p.h, p.c)
      requires forall g | 0 <= g < HASH_TABLE_SIZE && g != p.h :: Hash[g] == old(Hash[g])
      ensures forall g | 0 <= g < HASH_TABLE_SIZE :: ChainAt(g, Chains[g])
    {
      hide HashIndex, MacTab.ChainAt, MacTab.OnlyBucket;
      forall g | 0 <= g < HASH_TABLE_SIZE && g != p.h ensures ChainAt(g, Chains[g]) {
        assert old(ChainAt(g, Chains[g]));
        OtherChainKept(Place(g, Chains[g], p.h));
      }
    }

    /** The entries other than `x`, when only pointers of entries in use have changed. */
    twostate lemma EntriesAfter(p: Place)
      requires |Chains| == |old(Chains)| == HASH_TABLE_SIZE && p.h < HASH_TABLE_SIZE && p.x < |Content| && EntryAt(p.x)
      requires forall j | 0 <= j < |Content| :: old(EntryAt(j))
      requires Chains == old(Chains)[p.h := p.c] && forall y | y in old(Chains[p.h]) && y != p.x :: y in p.c
      requires OthersKept(p.x)
      ensures forall j | 0 <= j < |Content| :: EntryAt(j)
    {
      hide HashIndex;
      forall j | 0 <= j < |Content| ensures EntryAt(j) {
        if j != p.x {
          assert old(EntryAt(j));
          EntryKept(j);
        }
      }
    }

    /** Only pointers of entries in use have changed, except in entry `x`. */
    twostate predicate OthersKept(x: nat)
      reads Content
    {
      forall j | 0 <= j < |Content| && j != x ::
        var e := Content[j];
        e.ValidAsCLI == old(e.ValidAsCLI) && e.Addr == old(e.Addr) && e.Aid == old(e.Aid)
          && (!e.ValidAsCLI ==> e.pNext == old(e.pNext))
    }

    /** The new entry in its chain. */
    method LinkEntry(hashIdx: nat, i: nat, ghost c: seq<nat>)
      requires Shape() && |Chains| == HASH_TABLE_SIZE && hashIdx < HASH_TABLE_SIZE && c == Chains[hashIdx]
               && i < |Content| && i !in c
      requires forall h | 0 <= h < HASH_TABLE_SIZE :: ChainAt(h, Chains[h])
      requires var e := Content[i];
               e.ValidAsCLI && |e.Addr| == MAC_ADDR_LEN && HashIndex(e.Addr) == hashIdx && e.pNext == null
      modifies this`Chains, Hash, Content
      ensures Chains == old(Chains)[hashIdx := c + [i]]
      ensures forall h | 0 <= h < HASH_TABLE_SIZE :: ChainAt(h, Chains[h])
      ensures OthersKept(|Content|)
    {
      hide HashIndex;
      assert ChainAt(hashIdx, c);
      assert c != [] ==> LinkAt(hashIdx, c, |c| - 1);
      LinkIn(hashIdx, i, c);
      Chains := Chains[hashIdx := c + [i]];
      ChainsAfter(Place(hashIdx, c + [i], i));
    }

    /** A vacant slot filled and linked in. */
    method AddEntry(i: nat, pAddr: seq<bv8>, cleanAll: bool)
      requires Valid() && |pAddr| == MAC_ADDR_LEN && FirstWcid <= i < |Content| && Table()[i].Vacant?
      modifies this`Size, this`Chains, Hash, Content
      ensures Valid() && Table() == old(Table())[i := Taken(pAddr)]
    {
      hide HashIndex, MacTab.ChainAt;
      assert EntryAt(i);
      FillEntry(i, pAddr, cleanAll);
      Size := Size + 1;
      var hashIdx := HashIndex(pAddr);
      forall h | 0 <= h < HASH_TABLE_SIZE ensures ChainAt(h, Chains[h]) && i !in Chains[h] {
        FillDisturbs(Place(h, Chains[h], i));
      }
      LinkEntry(hashIdx, i, Chains[hashIdx]);
      assert Table() == old(Table())[i := Taken(pAddr)];
      InUseChanged(old(Table()), |Content|, i, Taken(pAddr));
      EntriesAfter(Place(hashIdx, Chains[hashIdx], i));
    }

    /** `MacTableInsertEntry` for an entry that is not of a direct link. */
    method Insert(pAddr: seq<bv8>, cleanAll: bool) returns (pEntry: MacEntry?)
      requires Valid() && |pAddr| == MAC_ADDR_LEN
      modifies this`Size, this`Chains, Hash, Content
      ensures Valid()
      ensures Table() == Step(old(Table()), FirstWcid, Operation.Insert(pAddr))
      ensures var k := FirstVacant(old(Table()), FirstWcid);
              pEntry == if k == |Content| then null else Content[k]
      ensures !Present(old(Table()), pAddr) ==>
                if HasVacancy(old(Table()), FirstWcid)
                then Adds(old(Table()), Table(), pAddr, FirstVacant(old(Table()), FirstWcid)) && Size == old(Size) + 1
                else Table() == old(Table()) && Size == old(Size)
    {
      hide MacTab.ChainAt, MacTab.EntryAt, Adds;
      ghost var t := Table();
      InUseBounded(t, |Content|);
      if !Present(t, pAddr) { InsertAdds(t, FirstWcid, pAddr); }
      if Size >= |Content| {
        return null;
      }
      var i := FindVacancy();
      if i == |Content| {
        return null;
      }
      pEntry := Content[i];
      AddEntry(i, pAddr, cleanAll);
      InUseChanged(t, |Content|, i, Taken(pAddr));
    }

    // ----- deleting -----

    /** The entry out of its chain: the probe runs along the chain with the entry before it in hand. */
    method Unlink(hashIdx: nat, wcid: nat, ghost c: seq<nat>, ghost p: nat)
      requires Shape() && hashIdx < HASH_TABLE_SIZE && ChainAt(hashIdx, c) && p < |c| && c[p] == wcid
      modifies Hash, if 0 < p < |c| && InRange(c) then {Content[c[p - 1]]} else {}
      ensures Hash[hashIdx] == if p > 0 then Content[c[0]] else Content[wcid].pNext
      ensures p > 0 ==> Content[c[p - 1]].pNext == Content[wcid].pNext
      ensures forall h | 0 <= h < HASH_TABLE_SIZE && h != hashIdx :: Hash[h] == old(Hash[h])
      ensures forall e | e in Content ::
              e.ValidAsCLI == old(e.ValidAsCLI) && e.Addr == old(e.Addr) && e.Aid == old(e.Aid)
    {
      hide HashIndex;
      var pEntry, pPrevEntry: MacEntry? := Content[wcid], null;
      var pProbeEntry := Hash[hashIdx];
      ghost var k := 0;
      while true
        invariant 0 <= k <= p && pProbeEntry == Content[c[k]]
        invariant pPrevEntry == if k == 0 then null else Content[c[k - 1]]
        invariant Hash[..] == old(Hash[..]) && ChainAt(hashIdx, c)
        invariant forall e | e in Content :: Same(e)
        decreases p - k
      {
        if pProbeEntry == pEntry {
          if pPrevEntry == null {
            Hash[hashIdx] := pEntry.pNext;
          } else {
            pPrevEntry.pNext := pEntry.pNext;
          }
          break;
        }
        assert LinkAt(hashIdx, c, k);
        pPrevEntry := pProbeEntry;
        pProbeEntry := pProbeEntry.pNext;
        k := k + 1;
      }
    }

    twostate predicate SameIdentity(e: MacEntry)
      reads e
    {
      e.ValidAsCLI == old(e.ValidAsCLI) && e.Addr == old(e.Addr) && e.Aid == old(e.Aid)
    }

    /** The chain without the entry that was unlinked and cleared. */
    twostate lemma ChainAfterUnlink(p: Place)
      requires Shape() && p.h < HASH_TABLE_SIZE && old(ChainAt(p.h, p.c)) && p.x < |p.c| && InRange(p.c)
      requires Hash[p.h] == if p.x > 0 then Content[p.c[0]] else old(Content[p.c[p.x]].pNext)
      requires p.x > 0 ==>
               SameIdentity(Content[p.c[p.x - 1]]) && Content[p.c[p.x - 1]].pNext == old(Content[p.c[p.x]].pNext)
      requires forall k | 0 <= k < |p.c| && k != p.x && k != p.x - 1 :: Same(Content[p.c[k]])
      ensures ChainAt(p.h, p.c[..p.x] + p.c[p.x + 1..])
    {
      hide HashIndex;
      var d := p.c[..p.x] + p.c[p.x + 1..];
      assert old(LinkAt(p.h, p.c, p.x));
      forall k | 0 <= k < |d| ensures LinkAt(p.h, d, k) {
        assert old(LinkAt(p.h, p.c, if k < p.x then k else k + 1));
      }
    }

    /** The entry unlinked, then cleared. */
    method UnlinkAndClear(hashIdx: nat, wcid: nat, ghost c: seq<nat>, ghost p: nat)
      requires Shape() && hashIdx < HASH_TABLE_SIZE && ChainAt(hashIdx, c) && p < |c| && c[p] == wcid
               && wcid < |Content|
      modifies Hash, Content
      ensures ChainAt(hashIdx, c[..p] + c[p + 1..]) && OnlyBucket(hashIdx)
      ensures forall h | 0 <= h < HASH_TABLE_SIZE && h != hashIdx :: Hash[h] == old(Hash[h])
      ensures OthersKept(wcid) && !Content[wcid].ValidAsCLI && Content[wcid].pNext == null
    {
      hide HashIndex, MacTab.LinkAt, MacTab.OnlyBucket, MacTab.OthersKept;
      Unlink(hashIdx, wcid, c, p);
      Clear(Content[wcid]);
      ghost var q := Place(hashIdx, c, p);
      ChainAfterUnlink(q);
      UnlinkDisturbs(q);
    }

    /** It touches the entry, and the link of the one before it, which are of the same bucket. */
    twostate lemma UnlinkDisturbs(p: Place)
      requires Shape() && p.h < HASH_TABLE_SIZE && old(ChainAt(p.h, p.c)) && p.x < |p.c| && InRange(p.c)
      requires forall j | 0 <= j < |Content| && j != p.c[p.x] && (p.x > 0 ==> j != p.c[p.x - 1]) :: Same(Content[j])
      requires p.x > 0 ==> SameIdentity(Content[p.c[p.x - 1]])
      ensures OnlyBucket(p.h) && OthersKept(p.c[p.x])
    {
      hide HashIndex;
      assert old(LinkAt(p.h, p.c, p.x));
      if p.x > 0 { assert old(LinkAt(p.h, p.c, p.x - 1)); }
    }

    /** The entry off its chain and cleared. */
    method TakeOff(hashIdx: nat, wcid: nat, ghost c: seq<nat>, ghost p: nat)
      requires Shape() && |Chains| == HASH_TABLE_SIZE && hashIdx < HASH_TABLE_SIZE && c == Chains[hashIdx] && p < |c|
               && c[p] == wcid
      requires forall h | 0 <= h < HASH_TABLE_SIZE :: ChainAt(h, Chains[h])
      requires wcid < |Content|
      modifies this`Chains, Hash, Content
      ensures Chains == old(Chains)[hashIdx := c[..p] + c[p + 1..]]
      ensures forall h | 0 <= h < HASH_TABLE_SIZE :: ChainAt(h, Chains[h])
      ensures OthersKept(wcid) && !Content[wcid].ValidAsCLI && Content[wcid].pNext == null
    {
      hide HashIndex, MacTab.ChainAt, MacTab.OnlyBucket, MacTab.OthersKept;
      assert ChainAt(hashIdx, c);
      UnlinkAndClear(hashIdx, wcid, c, p);
      Chains := Chains[hashIdx := c[..p] + c[p + 1..]];
      ChainsAfter(Place(hashIdx, c[..p] + c[p + 1..], wcid));
    }

    /** An entry in use removed from the table. */
    method RemoveEntry(hashIdx: nat, wcid: nat)
      requires Valid() && wcid < |Content| && Content[wcid].ValidAsCLI && |Content[wcid].Addr| == MAC_ADDR_LEN
      requires hashIdx == HashIndex(Content[wcid].Addr)
      modifies this`Size, this`Chains, Hash, Content
      ensures Valid() && Table() == old(Table())[wcid := Vacant]
    {
      hide HashIndex, MacTab.ChainAt;
      assert EntryAt(wcid);
      ghost var c := Chains[hashIdx];
      ghost var p :| 0 <= p < |c| && c[p] == wcid;
      TakeOff(hashIdx, wcid, c, p);
      assert Table() == old(Table())[wcid := Vacant];
      InUseChanged(old(Table()), |Content|, wcid, Vacant);
      InUseBounded(old(Table()), |Content|);
      Size := Size - 1;
      EntriesAfter(Place(hashIdx, Chains[hashIdx], wcid));
    }

    /** `MacTableDeleteEntry`. */
    method Delete(wcid: nat, pAddr: seq<bv8>) returns (ok: bool)
      requires Valid() && |pAddr| == MAC_ADDR_LEN
      modifies this`Size, this`Chains, Hash, Content
      ensures Valid()
      ensures Table() == Step(old(Table()), FirstWcid, Operation.Delete(wcid, pAddr))
      ensures ok == (wcid < |Content|)
      ensures if ok && old(Table())[wcid] == Taken(pAddr)
              then Size == old(Size) - 1 && (Distinct(old(Table())) ==> Removes(old(Table()), Table(), pAddr))
              else Table() == old(Table()) && Size == old(Size)
    {
      hide HashIndex, MacTab.ChainAt, MacTab.EntryAt, Removes, Distinct;
      if wcid >= |Content| {
        return false;
      }
      var hashIdx := HashIndex(pAddr);
      var pEntry := Content[wcid];
      ok := true;
      if pEntry.ValidAsCLI && pEntry.Addr == pAddr {
        ghost var t := Table();
        if Distinct(t) { DeleteRemoves(t, FirstWcid, wcid, pAddr); }
        RemoveEntry(hashIdx, wcid);
        InUseChanged(t, |Content|, wcid, Vacant);
      }
    }
  }
}

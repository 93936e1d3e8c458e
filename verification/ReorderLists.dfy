/** The singly linked lists of the reordering code: blocks chained through `next`, a head pointer
    and a length. */
module ReorderLists {
  import opened SequenceNumbers
  import opened ReorderSpec

  const NO_PACKET := Frame(0, 0, 0, false, false)

  /** `struct reordering_mpdu`. */
  class Mpdu {
    var next: Mpdu?
    var packet: Frame
    var sequence: int
    var amsdu: bool

    constructor ()
      ensures next == null
    {
      next, packet, sequence, amsdu := null, NO_PACKET, 0, false;
    }
  }

  ghost predicate Repeats(nodes: seq<Mpdu>) {
    exists i, j :: 0 <= i < j < |nodes| && nodes[i] == nodes[j]
  }

  ghost function NodeAt(nodes: seq<Mpdu>, i: nat): Mpdu? {
    if i < |nodes| then nodes[i] else null
  }

  /** `struct reordering_list`: a head pointer and a length. */
  class ReorderingList {
    var next: Mpdu?
    var qlen: int
    ghost var nodes: seq<Mpdu>

    /** The chain from `next` is exactly `nodes`, without repetition, and ends. */
    ghost predicate Chain()
      reads this, nodes
    {
      && qlen == |nodes|
      && next == NodeAt(nodes, 0)
      && (forall i {:trigger nodes[i].next} :: 0 <= i < |nodes| ==> nodes[i].next == NodeAt(nodes, i + 1))
      && !Repeats(nodes)
    }

    constructor ()
      ensures Chain() && nodes == []
    {
      next, qlen, nodes := null, 0, [];
    }

    /** `ba_enqueue`: push at the head. */
    method Enqueue(m: Mpdu)
      requires Chain() && m !in nodes
      modifies this, m`next
      ensures Chain() && nodes == [m] + old(nodes)
    {
      ghost var was := nodes;
      qlen := qlen + 1;
      m.next := next;
      next := m;
      nodes := [m] + nodes;
      forall i | 0 <= i < |nodes| ensures nodes[i].next == NodeAt(nodes, i + 1) {
        if i > 0 { assert old(was[i - 1].next) == NodeAt(was, i); }
      }
    }

    /** `ba_dequeue`: take the head. */
    method Dequeue() returns (m: Mpdu?)
      requires Chain()
      modifies this, nodes`next
      ensures Chain()
      ensures old(nodes) == [] ==> m == null && nodes == []
      ensures old(nodes) != [] ==> m == old(nodes)[0] && nodes == old(nodes)[1..] && m !in nodes && m.next == null
    {
      m := null;
      if qlen != 0 {
        ghost var was := nodes;
        qlen := qlen - 1;
        m := next;
        if m != null {
          next := m.next;
          m.next := null;
          nodes := nodes[1..];
          assert old(was[0].next) == NodeAt(was, 1);
          forall i | 0 <= i < |nodes| ensures nodes[i].next == NodeAt(nodes, i + 1) {
            assert old(was[i + 1].next) == NodeAt(was, i + 2);
          }
        }
      }
    }

    /** The frames whose blocks are on this list, in list order. */
    ghost predicate Carries(held: seq<Frame>)
      reads this, nodes
    {
      |held| == |nodes| && forall i | 0 <= i < |nodes| :: nodes[i].packet == held[i] && nodes[i].sequence == Sn(held[i])
    }

    lemma CarriesFacts(held: seq<Frame>)
      requires Chain() && Carries(held)
      ensures |held| == |nodes| && !Repeats(nodes) && next == NodeAt(nodes, 0)
    {
    }

    /** `ba_dequeue` on a list that carries frames. */
    method DequeueFrame(ghost held: seq<Frame>) returns (m: Mpdu?)
      requires Chain() && Carries(held)
      modifies this, nodes`next
      ensures Chain()
      ensures held == [] ==> m == null && nodes == old(nodes) == [] && Carries(held)
      ensures held != [] ==> m == old(nodes)[0] && nodes == old(nodes)[1..] && Carries(held[1..])
      ensures held != [] ==> m.packet == held[0] && m.sequence == Sn(held[0])
      ensures |held| == |old(nodes)| && !Repeats(old(nodes))
    {
      m := Dequeue();
    }

    /** The position the scan stops at, and the pointers it stops with. */
    method Scan(m: Mpdu, ghost held: seq<Frame>) returns (prev: Mpdu?, scan: Mpdu?, equal: bool, ghost p: nat)
      requires Chain() && Carries(held) && m.sequence == Sn(m.packet)
      ensures p == LeadBefore(held, Sn(m.packet)) && p <= |nodes|
      ensures scan == NodeAt(nodes, p) && prev == if p == 0 then null else nodes[p - 1]
      ensures equal == IsDuplicate(held, m.packet)
    {
      prev, scan, equal, p := null, next, false, 0;
      while scan != null
        invariant p <= |nodes| && !equal
        invariant scan == NodeAt(nodes, p) && prev == if p == 0 then null else nodes[p - 1]
        invariant LeadBefore(held, Sn(m.packet)) == p + LeadBefore(held[p..], Sn(m.packet))
        decreases |nodes| - p
      {
        if Smaller(scan.sequence, m.sequence) {
          assert held[p..][1..] == held[p + 1..];
          prev, scan, p := scan, scan.next, p + 1;
        } else if scan.sequence == m.sequence {
          equal := true;
          break;
        } else {
          break;
        }
      }
    }

    /** Link `m` in front of position `p`. */
    method LinkAt(m: Mpdu, prev: Mpdu?, scan: Mpdu?, ghost p: nat)
      requires Chain() && m !in nodes && p <= |nodes|
      requires scan == NodeAt(nodes, p) && prev == if p == 0 then null else nodes[p - 1]
      modifies this, m`next, nodes`next
      ensures Chain() && nodes == old(nodes)[..p] + [m] + old(nodes)[p..]
    {
      ghost var was := nodes;
      m.next := scan;
      if prev == null { next := m; } else { prev.next := m; }
      qlen := qlen + 1;
      nodes := nodes[..p] + [m] + nodes[p..];
      forall i | 0 <= i < |nodes| ensures nodes[i].next == NodeAt(nodes, i + 1) {
        if i < p {
          assert old(was[i].next) == NodeAt(was, i + 1);
        } else if i > p {
          assert old(was[i - 1].next) == NodeAt(was, i);
        }
      }
    }

    /** `ba_reordering_mpdu_insertsorted`: scan past the earlier frames, give up at an equal one,
        link in front of the first later one. */
    method InsertSorted(m: Mpdu, ghost held: seq<Frame>) returns (ok: bool)
      requires Chain() && Carries(held) && m !in nodes && m.sequence == Sn(m.packet)
      modifies this, m`next, nodes`next
      ensures Chain() && Carries(ReorderSpec.InsertSorted(held, m.packet))
      ensures ok == !IsDuplicate(held, m.packet)
      ensures ok ==>
                var p := LeadBefore(held, Sn(m.packet)); nodes == old(nodes)[..p] + [m] + old(nodes)[p..]
      ensures !ok ==> nodes == old(nodes)
    {
      hide LeadBefore, Sn;
      var prev, scan, equal, p := Scan(m, held);
      if equal {
        return false;
      }
      ghost var was := nodes;
      LinkAt(m, prev, scan, p);
      forall i | 0 <= i < |nodes|
        ensures nodes[i].packet == (held[..p] + [m.packet] + held[p..])[i] && nodes[i].sequence == Sn(nodes[i].packet)
      {
        if i < p { assert nodes[i] == was[i]; } else if i > p { assert nodes[i] == was[i - 1]; }
      }
      return true;
    }
  }

  /** A pool shared by several lists: `place[m]` is the number of the list that block `m` is on, or
      -1 for the blocks of `loose`, which are on none. */
  ghost predicate Placed(on: seq<seq<Mpdu>>, place: map<Mpdu, int>, loose: set<Mpdu>) {
    && (forall i | 0 <= i < |on| :: forall m | m in on[i] :: m in place && place[m] == i)
    && (forall m | m in loose :: m in place && place[m] == -1)
    && (forall m | m in place ::
          place[m] < |on| && (if place[m] >= 0 then m in on[place[m]] else m in loose))
  }

  lemma PlacedOn(on: seq<seq<Mpdu>>, place: map<Mpdu, int>, loose: set<Mpdu>, i: nat)
    requires Placed(on, place, loose) && i < |on|
    ensures forall m | m in on[i] :: m in place && place[m] == i
    ensures forall m | m in loose :: m in place && place[m] == -1
  {
  }

  /** Taking the head off list `i`. */
  lemma TakePlaced(on: seq<seq<Mpdu>>, place: map<Mpdu, int>, loose: set<Mpdu>, i: nat)
    requires Placed(on, place, loose) && i < |on| && on[i] != [] && !Repeats(on[i])
    ensures on[i][0] in place && on[i][0] !in loose
    ensures Placed(on[i := on[i][1..]], place[on[i][0] := -1], loose + {on[i][0]})
  {
    var m := on[i][0];
    forall x | x in on[i] ensures x == m || x in on[i][1..] {
      var j :| 0 <= j < |on[i]| && on[i][j] == x;
      if j > 0 { assert on[i][1..][j - 1] == x; }
    }
    forall x | x in on[i][1..] ensures x != m {
      var j :| 0 <= j < |on[i]| - 1 && on[i][1..][j] == x;
      assert on[i][j + 1] == x;
    }
  }

  /** Putting a loose block anywhere into list `i`. */
  lemma PutPlaced(on: seq<seq<Mpdu>>, place: map<Mpdu, int>, loose: set<Mpdu>, i: nat, p: nat, m: Mpdu)
    requires Placed(on, place, loose) && i < |on| && p <= |on[i]| && m in loose
    ensures m in place && m !in on[i]
    ensures Placed(on[i := on[i][..p] + [m] + on[i][p..]], place[m := i], loose - {m})
  {
    assert on[i] == on[i][..p] + on[i][p..];
  }

  /** The partition the placement stands for: a block is on one list and only there, or loose. */
  lemma PlacedIsPartition(on: seq<seq<Mpdu>>, place: map<Mpdu, int>, loose: set<Mpdu>, m: Mpdu)
    requires Placed(on, place, loose) && m in place
    ensures m in loose <==> forall i | 0 <= i < |on| :: m !in on[i]
    ensures m !in loose ==> exists i :: 0 <= i < |on| && m in on[i] && forall j | 0 <= j < |on| && m in on[j] :: j == i
  {
    if m !in loose { assert m in on[place[m]]; }
  }

  /** The lengths of the first `n` lists. */
  function Lengths(on: seq<seq<Mpdu>>, n: nat): nat
    requires n <= |on|
  {
    if n == 0 then 0 else Lengths(on, n - 1) + |on[n - 1]|
  }

  ghost function Below(place: map<Mpdu, int>, n: nat): set<Mpdu> {
    set m | m in place && place[m] < n
  }

  ghost function Members(nodes: seq<Mpdu>): set<Mpdu> {
    set m | m in nodes
  }

  lemma {:induction false} DistinctCount(nodes: seq<Mpdu>)
    requires !Repeats(nodes)
    ensures |Members(nodes)| == |nodes|
  {
    if nodes != [] {
      var rest, last := nodes[..|nodes| - 1], nodes[|nodes| - 1];
      assert nodes == rest + [last];
      DistinctCount(rest);
      assert last !in rest;
      assert Members(nodes) == Members(rest) + {last};
    }
  }

  /** The blocks of list `n` are those placed there. */
  lemma PlacedMembers(on: seq<seq<Mpdu>>, place: map<Mpdu, int>, loose: set<Mpdu>, n: nat)
    requires Placed(on, place, loose) && n < |on|
    ensures Below(place, n + 1) == Below(place, n) + Members(on[n]) && Below(place, n) !! Members(on[n])
  {
    PlacedOn(on, place, loose, n);
    forall m | m in place && place[m] == n ensures m in Members(on[n]) {
    }
  }

  lemma {:induction false} BelowCounts(on: seq<seq<Mpdu>>, place: map<Mpdu, int>, loose: set<Mpdu>, n: nat)
    requires Placed(on, place, loose) && n <= |on| && forall i | 0 <= i < |on| :: !Repeats(on[i])
    ensures |Below(place, n)| == |loose| + Lengths(on, n)
  {
    hide Repeats, Members;
    if n == 0 {
      assert Below(place, 0) == loose;
    } else {
      hide Placed, Below;
      BelowCounts(on, place, loose, n - 1);
      DistinctCount(on[n - 1]);
      PlacedMembers(on, place, loose, n - 1);
    }
  }

  /** A placement counts every block once. */
  lemma PlacedCounts(on: seq<seq<Mpdu>>, place: map<Mpdu, int>, loose: set<Mpdu>)
    requires Placed(on, place, loose) && forall i | 0 <= i < |on| :: !Repeats(on[i])
    ensures |place| == |loose| + Lengths(on, |on|)
  {
    BelowCounts(on, place, loose, |on|);
    assert Below(place, |on|) == place.Keys;
  }
}

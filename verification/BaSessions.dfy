/** The two block-ack session tables as values: each is an array of sessions, an index array and a
    bitmap per peer, and counters, and every step of the driver keeps the four in agreement. */
module BaSessions {

  const NUM_OF_TID: nat := 8
  const ORI_SESSION_MAX_RETRY: nat := 8

  /** `Originator_NONE`, `Originator_WaitRes` and `Originator_Done`, or `Recipient_NONE` and
      `Recipient_Accept`. The statuses between are passed through within one step. */
  datatype Status = Free | Waiting | Done

  /** One session. `token` numbers the next ADDBA request; `sent` counts the requests sent. */
  datatype Session = Session(wcid: nat, tid: nat, status: Status, token: nat, sent: nat)

  /** One table. `index[w][t]` is the entry of peer `w` and TID `t`, or 0; `bits[w][t]` its bitmap bit. */
  datatype Half = Half(entries: seq<Session>, index: seq<seq<nat>>, bits: seq<seq<bool>>, used: nat, done: nat)

  // ----- counting -----

  function Used(s: seq<Session>, n: nat): nat
    requires n <= |s|
  {
    if n == 0 then 0 else Used(s, n - 1) + if s[n - 1].status == Free then 0 else 1
  }

  function Answered(s: seq<Session>, n: nat): nat
    requires n <= |s|
  {
    if n == 0 then 0 else Answered(s, n - 1) + if s[n - 1].status == Done then 1 else 0
  }

  function One(b: bool): int { if b then 1 else 0 }

  lemma {:induction false} CountsChanged(s: seq<Session>, n: nat, i: nat, e: Session)
    requires n <= |s| && i < |s|
    ensures Used(s[i := e], n) == Used(s, n) + if i < n then One(e.status != Free) - One(s[i].status != Free) else 0
    ensures Answered(s[i := e], n)
            == Answered(s, n) + if i < n then One(e.status == Done) - One(s[i].status == Done) else 0
  {
    if n > 0 { CountsChanged(s, n - 1, i, e); }
  }

  lemma {:induction false} CountsPositive(s: seq<Session>, n: nat, i: nat)
    requires i < n <= |s|
    ensures s[i].status != Free ==> Used(s, n) > 0
    ensures s[i].status == Done ==> Answered(s, n) > 0
  {
    if i < n - 1 { CountsPositive(s, n - 1, i); }
  }

  /** Pigeonhole: when every entry after the first is taken, the count says so. */
  lemma {:induction false} AllTaken(s: seq<Session>, n: nat)
    requires 1 <= n <= |s| && s[0].status == Free && forall i | 1 <= i < n :: s[i].status != Free
    ensures Used(s, n) == n - 1
  {
    if n > 1 { AllTaken(s, n - 1); }
  }

  // ----- agreement -----

  predicate Sized(h: Half) {
    && |h.entries| >= 1 && |h.index| == |h.bits|
    && (forall w | 0 <= w < |h.index| :: |h.index[w]| == NUM_OF_TID && |h.bits[w]| == NUM_OF_TID)
  }

  /** A session in use is pointed at by the index of its peer and TID. */
  predicate EntryOk(h: Half, i: nat)
    requires Sized(h) && i < |h.entries|
  {
    var e := h.entries[i];
    && e.wcid < |h.index| && e.tid < NUM_OF_TID && (e.status != Free ==> i > 0 && h.index[e.wcid][e.tid] == i)
    && (e.status == Waiting ==> e.token == e.sent + 1 && e.token <= ORI_SESSION_MAX_RETRY)
  }

  /** An index that is set points at a session of that peer and TID, and the bit is set exactly when
      the session is answered. */
  predicate IndexOk(h: Half, w: nat, t: nat)
    requires Sized(h) && w < |h.index| && t < NUM_OF_TID
  {
    var x := h.index[w][t];
    && x < |h.entries|
    && (x != 0 ==> h.entries[x].status != Free && h.entries[x].wcid == w && h.entries[x].tid == t)
    && (h.bits[w][t] <==> x != 0 && h.entries[x].status == Done)
  }

  predicate Consistent(h: Half) {
    && Sized(h)
    && (forall i | 0 <= i < |h.entries| :: EntryOk(h, i))
    && (forall w, t | 0 <= w < |h.index| && 0 <= t < NUM_OF_TID :: IndexOk(h, w, t))
    && h.used == Used(h.entries, |h.entries|) && h.done == Answered(h.entries, |h.entries|)
  }

  // ----- the steps -----

  /** The first free entry from `i` on, or the length of the table. */
  function FirstFree(s: seq<Session>, i: nat): (k: nat)
    requires i <= |s|
    ensures i <= k <= |s| && (k < |s| ==> s[k].status == Free)
    ensures forall j | i <= j < k :: s[j].status != Free
    decreases |s| - i
  {
    if i == |s| || s[i].status == Free then i else FirstFree(s, i + 1)
  }

  function SetIndex(m: seq<seq<nat>>, w: nat, t: nat, x: nat): (r: seq<seq<nat>>)
    requires w < |m| && t < |m[w]|
    ensures |r| == |m| && r[w] == m[w][t := x] && forall v | 0 <= v < |m| && v != w :: r[v] == m[v]
  {
    var row: seq<nat> := m[w][t := x];
    m[w := row]
  }

  function SetBit(m: seq<seq<bool>>, w: nat, t: nat, b: bool): (r: seq<seq<bool>>)
    requires w < |m| && t < |m[w]|
    ensures |r| == |m| && r[w] == m[w][t := b] && forall v | 0 <= v < |m| && v != w :: r[v] == m[v]
  {
    m[w := m[w][t := b]]
  }

  /** Entry `i` given to peer `w` and TID `t`. */
  function Claim(h: Half, i: nat, w: nat, t: nat, status: Status): (g: Half)
    requires Sized(h) && i < |h.entries| && w < |h.index| && t < NUM_OF_TID
    ensures Sized(g) && |g.entries| == |h.entries| && |g.index| == |h.index|
  {
    var done := status == Done;
    Half(h.entries[i := Session(w, t, status, 1, 0)], SetIndex(h.index, w, t, i),
         if done then SetBit(h.bits, w, t, true) else h.bits,
         h.used + 1, h.done + One(done) as nat)
  }

  /** A waiting session answered. */
  function Answer(h: Half, i: nat): (g: Half)
    requires Sized(h) && i < |h.entries| && h.entries[i].wcid < |h.index| && h.entries[i].tid < NUM_OF_TID
    ensures Sized(g) && |g.entries| == |h.entries| && |g.index| == |h.index|
  {
    var e := h.entries[i];
    Half(h.entries[i := e.(status := Done)], h.index, SetBit(h.bits, e.wcid, e.tid, true), h.used, h.done + 1)
  }

  /** A session given back, if the entry is in use: `BATableFreeOriEntry` and `BATableFreeRecEntry`. */
  function Release(h: Half, i: nat): (g: Half)
    requires Sized(h)
    requires 0 < i < |h.entries| && h.entries[i].status != Free ==>
               h.entries[i].wcid < |h.index| && h.entries[i].tid < NUM_OF_TID && h.used > 0
                 && (h.entries[i].status == Done ==> h.done > 0)
    ensures Sized(g) && |g.entries| == |h.entries| && |g.index| == |h.index|
  {
    if i == 0 || i >= |h.entries| || h.entries[i].status == Free then h
    else
      var e := h.entries[i];
      var done := e.status == Done;
      Half(h.entries[i := e.(status := Free, token := 0)], SetIndex(h.index, e.wcid, e.tid, 0),
           if done then SetBit(h.bits, e.wcid, e.tid, false) else h.bits,
           h.used - 1, if done then h.done - 1 else h.done)
  }

  /** Giving back an entry of tables in agreement. */
  function Freed(h: Half, i: nat): (g: Half)
    requires Consistent(h)
    ensures Sized(g) && |g.entries| == |h.entries| && |g.index| == |h.index|
  {
    ReleaseKeeps(h, i);
    Release(h, i)
  }

  /** One more request sent for a waiting session. */
  function Retry(h: Half, i: nat): (g: Half)
    requires Sized(h) && i < |h.entries|
    ensures Sized(g) && |g.entries| == |h.entries| && |g.index| == |h.index|
  {
    var e := h.entries[i];
    h.(entries := h.entries[i := e.(token := e.token + 1, sent := e.sent + 1)])
  }

  lemma ClaimKeeps(h: Half, i: nat, w: nat, t: nat, status: Status)
    requires Consistent(h) && 0 < i < |h.entries| && h.entries[i].status == Free && w < |h.index| && t < NUM_OF_TID
    requires h.index[w][t] == 0 && status != Free
    ensures Consistent(Claim(h, i, w, t, status))
  {
    var g := Claim(h, i, w, t, status);
    CountsChanged(h.entries, |h.entries|, i, g.entries[i]);
    forall j | 0 <= j < |g.entries| ensures EntryOk(g, j) { assert EntryOk(h, j); }
    forall v, u | 0 <= v < |g.index| && 0 <= u < NUM_OF_TID ensures IndexOk(g, v, u) { assert IndexOk(h, v, u); }
  }

  lemma AnswerKeeps(h: Half, i: nat)
    requires Consistent(h) && i < |h.entries| && h.entries[i].status == Waiting
    ensures EntryOk(h, i) && Consistent(Answer(h, i))
  {
    assert EntryOk(h, i);
    var g := Answer(h, i);
    CountsChanged(h.entries, |h.entries|, i, g.entries[i]);
    forall j | 0 <= j < |g.entries| ensures EntryOk(g, j) { assert EntryOk(h, j); }
    forall v, u | 0 <= v < |g.index| && 0 <= u < NUM_OF_TID ensures IndexOk(g, v, u) { assert IndexOk(h, v, u); }
  }

  lemma ReleaseReady(h: Half, i: nat)
    requires Consistent(h) && i < |h.entries| && h.entries[i].status != Free
    ensures i > 0 && h.entries[i].wcid < |h.index| && h.entries[i].tid < NUM_OF_TID && h.used > 0
    ensures h.entries[i].status == Done ==> h.done > 0
  {
    assert EntryOk(h, i);
    CountsPositive(h.entries, |h.entries|, i);
  }

  lemma ReleaseKeeps(h: Half, i: nat)
    requires Consistent(h)
    ensures 0 < i < |h.entries| && h.entries[i].status != Free ==>
              h.entries[i].wcid < |h.index| && h.entries[i].tid < NUM_OF_TID && h.used > 0
                && (h.entries[i].status == Done ==> h.done > 0)
    ensures Consistent(Release(h, i))
  {
    if 0 < i < |h.entries| && h.entries[i].status != Free {
      ReleaseReady(h, i);
      var g := Release(h, i);
      assert EntryOk(h, i);
      CountsChanged(h.entries, |h.entries|, i, g.entries[i]);
      forall j | 0 <= j < |g.entries| ensures EntryOk(g, j) { assert EntryOk(h, j); }
      forall v, u | 0 <= v < |g.index| && 0 <= u < NUM_OF_TID ensures IndexOk(g, v, u) { assert IndexOk(h, v, u); }
    }
  }

  lemma RetryKeeps(h: Half, i: nat)
    requires Consistent(h) && i < |h.entries| && h.entries[i].status == Waiting
             && h.entries[i].token < ORI_SESSION_MAX_RETRY
    ensures Consistent(Retry(h, i))
  {
    var g := Retry(h, i);
    CountsChanged(h.entries, |h.entries|, i, g.entries[i]);
    forall j | 0 <= j < |g.entries| ensures EntryOk(g, j) { assert EntryOk(h, j); }
    forall v, u | 0 <= v < |g.index| && 0 <= u < NUM_OF_TID ensures IndexOk(g, v, u) { assert IndexOk(h, v, u); }
  }

  // ----- the entry points -----

  /** `BAOriSessionSetUp`; `allowed` says that the policy and the transmit mode permit a session. When no
      entry is free the allocator hands out the last entry, which is in use, and nothing changes. */
  function SetUp(h: Half, w: nat, t: nat, allowed: bool): (g: Half)
    requires Sized(h) && w < |h.index| && t < NUM_OF_TID && h.index[w][t] < |h.entries|
    ensures Sized(g) && |g.entries| == |h.entries| && |g.index| == |h.index|
  {
    var x := h.index[w][t];
    if !allowed then h
    else if x != 0 then
      if h.entries[x].status != Free then h else h.(entries := h.entries[x := Session(w, t, Waiting, 1, 0)])
    else
      var k := FirstFree(h.entries, 1);
      if h.used >= |h.entries| || k == |h.entries| then h else Claim(h, k, w, t, Waiting)
  }

  /** `BAOriSessionAdd`: the peer accepted. */
  function Accepted(h: Half, w: nat, t: nat): (g: Half)
    requires Sized(h) && w < |h.index| && t < NUM_OF_TID && h.index[w][t] < |h.entries|
    requires h.entries[h.index[w][t]].wcid < |h.index|
    ensures Sized(g) && |g.entries| == |h.entries| && |g.index| == |h.index|
  {
    var x := h.index[w][t];
    if x != 0 && h.entries[x].tid == t && h.entries[x].status == Waiting then Answer(h, x) else h
  }

  /** `BAOriSessionSetupTimeout` for entry `i`: ask again, or give the session back. */
  function TimedOut(h: Half, i: nat): (g: Half)
    requires Consistent(h) && i < |h.entries|
    ensures Sized(g) && |g.entries| == |h.entries| && |g.index| == |h.index|
  {
    var e := h.entries[i];
    if e.status == Waiting && e.token < ORI_SESSION_MAX_RETRY then Retry(h, i)
    else
      assert EntryOk(h, i);
      Freed(h, h.index[e.wcid][e.tid])
  }

  /** `BAOriSessionTearDown` and `BARecSessionTearDown`. */
  function TornDown(h: Half, w: nat, t: nat): (g: Half)
    requires Consistent(h) && w < |h.index| && t < NUM_OF_TID
    ensures Sized(g) && |g.entries| == |h.entries| && |g.index| == |h.index|
  {
    Freed(h, h.index[w][t])
  }

  /** A tear-down clears the index and the bit of its own peer and TID and of no other. */
  lemma TornDownClears(h: Half, w: nat, t: nat)
    requires Consistent(h) && w < |h.index| && t < NUM_OF_TID
    ensures var g := TornDown(h, w, t);
            && g.index[w][t] == 0 && !g.bits[w][t]
            && forall v, u | 0 <= v < |h.index| && 0 <= u < NUM_OF_TID && (v != w || u != t) ::
                 g.index[v][u] == h.index[v][u] && g.bits[v][u] == h.bits[v][u]
  {
    assert IndexOk(h, w, t);
  }

  /** Fewer sessions than entries: one is free. */
  lemma SomeFree(h: Half)
    requires Consistent(h) && h.used + 1 < |h.entries|
    ensures FirstFree(h.entries, 1) < |h.entries|
  {
    if FirstFree(h.entries, 1) == |h.entries| {
      assert EntryOk(h, 0);
      AllTaken(h.entries, |h.entries|);
    }
  }

  /** `BARecSessionAdd`: a peer asks; at most `limit` sessions are granted. */
  function Requested(h: Half, w: nat, t: nat, limit: nat): (g: Half)
    requires Consistent(h) && w < |h.index| && t < NUM_OF_TID && limit < |h.entries|
    ensures Sized(g) && |g.entries| == |h.entries| && |g.index| == |h.index|
  {
    var x := h.index[w][t];
    assert IndexOk(h, w, t);
    if x != 0 then
      h.(entries := h.entries[x := h.entries[x].(wcid := w, tid := t, status := Done)],
        bits := SetBit(h.bits, w, t, true))
    else if h.used >= limit then h
    else
      SomeFree(h);
      Claim(h, FirstFree(h.entries, 1), w, t, Done)
  }

  /** The recipient table has no session that waits for an answer. */
  predicate NoneWaiting(h: Half) {
    forall i | 0 <= i < |h.entries| :: h.entries[i].status != Waiting
  }

  datatype Tables = Tables(ori: Half, rec: Half)

  datatype Event =
    | OriSetUp(w: nat, t: nat, allowed: bool)
    | OriAccepted(w: nat, t: nat)
    | OriTimeout(i: nat)
    | OriTearDown(w: nat, t: nat)
    | RecRequest(w: nat, t: nat)
    | RecTearDown(w: nat, t: nat)

  predicate Good(s: Tables) {
    Consistent(s.ori) && Consistent(s.rec) && NoneWaiting(s.rec)
  }

  /** The event names a peer, a TID and an entry there are. */
  predicate Fits(s: Tables, e: Event) {
    match e
    case OriTimeout(i) => i < |s.ori.entries|
    case RecRequest(w, t) => w < |s.rec.index| && t < NUM_OF_TID
    case RecTearDown(w, t) => w < |s.rec.index| && t < NUM_OF_TID
    case _ => e.w < |s.ori.index| && e.t < NUM_OF_TID
  }

  function Step(s: Tables, e: Event, limit: nat): (r: Tables)
    requires Good(s) && Fits(s, e) && limit < |s.rec.entries|
    ensures |r.ori.entries| == |s.ori.entries| && |r.rec.entries| == |s.rec.entries|
    ensures |r.ori.index| == |s.ori.index| && |r.rec.index| == |s.rec.index|
  {
    match e
    case OriSetUp(w, t, allowed) =>
      assert IndexOk(s.ori, w, t);
      s.(ori := SetUp(s.ori, w, t, allowed))
    case OriAccepted(w, t) =>
      assert IndexOk(s.ori, w, t) && EntryOk(s.ori, s.ori.index[w][t]);
      s.(ori := Accepted(s.ori, w, t))
    case OriTimeout(i) => s.(ori := TimedOut(s.ori, i))
    case OriTearDown(w, t) => s.(ori := TornDown(s.ori, w, t))
    case RecRequest(w, t) => s.(rec := Requested(s.rec, w, t, limit))
    case RecTearDown(w, t) => s.(rec := TornDown(s.rec, w, t))
  }

  lemma SetUpKeeps(h: Half, w: nat, t: nat, allowed: bool)
    requires Consistent(h) && w < |h.index| && t < NUM_OF_TID
    ensures h.index[w][t] < |h.entries| && Consistent(SetUp(h, w, t, allowed))
  {
    assert IndexOk(h, w, t);
    var k := FirstFree(h.entries, 1);
    if allowed && h.index[w][t] == 0 && h.used < |h.entries| && k < |h.entries| {
      ClaimKeeps(h, k, w, t, Waiting);
    }
  }

  lemma AcceptedKeeps(h: Half, w: nat, t: nat)
    requires Consistent(h) && w < |h.index| && t < NUM_OF_TID
    ensures h.index[w][t] < |h.entries| && h.entries[h.index[w][t]].wcid < |h.index| && Consistent(Accepted(h, w, t))
  {
    var x := h.index[w][t];
    assert IndexOk(h, w, t) && EntryOk(h, x);
    if x != 0 && h.entries[x].tid == t && h.entries[x].status == Waiting {
      AnswerKeeps(h, x);
    }
  }

  lemma TimedOutKeeps(h: Half, i: nat)
    requires Consistent(h) && i < |h.entries|
    ensures Consistent(TimedOut(h, i))
  {
    var e := h.entries[i];
    assert EntryOk(h, i);
    if e.status == Waiting && e.token < ORI_SESSION_MAX_RETRY {
      RetryKeeps(h, i);
    } else {
      ReleaseKeeps(h, h.index[e.wcid][e.tid]);
    }
  }

  /** A request for a session that exists changes neither the entry's owner nor the counters. */
  lemma RequestedAgain(h: Half, w: nat, t: nat, limit: nat)
    requires Consistent(h) && NoneWaiting(h) && w < |h.index| && t < NUM_OF_TID && limit < |h.entries|
             && h.index[w][t] != 0
    ensures Requested(h, w, t, limit) == h
  {
    var x := h.index[w][t];
    assert IndexOk(h, w, t);
    assert h.entries[x].status == Done && h.bits[w][t];
    assert h.entries[x := h.entries[x]] == h.entries;
    assert h.bits[w][t := true] == h.bits[w];
    assert SetBit(h.bits, w, t, true) == h.bits;
  }

  lemma RequestedKeeps(h: Half, w: nat, t: nat, limit: nat)
    requires Consistent(h) && NoneWaiting(h) && w < |h.index| && t < NUM_OF_TID && limit < |h.entries|
    ensures Consistent(Requested(h, w, t, limit)) && NoneWaiting(Requested(h, w, t, limit))
  {
    if h.index[w][t] != 0 {
      RequestedAgain(h, w, t, limit);
    } else if h.used < limit {
      SomeFree(h);
      ClaimKeeps(h, FirstFree(h.entries, 1), w, t, Done);
    }
  }

  lemma ReleaseLeavesNoneWaiting(h: Half, i: nat)
    requires Consistent(h) && NoneWaiting(h)
    requires 0 < i < |h.entries| && h.entries[i].status != Free ==>
               h.entries[i].wcid < |h.index| && h.entries[i].tid < NUM_OF_TID && h.used > 0
                 && (h.entries[i].status == Done ==> h.done > 0)
    ensures NoneWaiting(Release(h, i))
  {
  }

  lemma StepKeeps(s: Tables, e: Event, limit: nat)
    requires Good(s) && Fits(s, e) && limit < |s.rec.entries|
    ensures Good(Step(s, e, limit))
  {
    hide EntryOk, IndexOk, SetUp, Accepted, TimedOut, Requested, Release, NoneWaiting, Used, Answered;
    match e
    case OriSetUp(w, t, allowed) => SetUpKeeps(s.ori, w, t, allowed);
    case OriAccepted(w, t) => AcceptedKeeps(s.ori, w, t);
    case OriTimeout(i) => TimedOutKeeps(s.ori, i);
    case OriTearDown(w, t) => ReleaseKeeps(s.ori, s.ori.index[w][t]);
    case RecRequest(w, t) => RequestedKeeps(s.rec, w, t, limit);
    case RecTearDown(w, t) =>
      ReleaseKeeps(s.rec, s.rec.index[w][t]);
      ReleaseLeavesNoneWaiting(s.rec, s.rec.index[w][t]);
  }

  // ----- runs -----

  predicate FitsAll(s: Tables, es: seq<Event>) {
    forall k | 0 <= k < |es| :: Fits(s, es[k])
  }

  /** The state after a run of events, which keeps the tables in agreement. */
  function Run(s: Tables, es: seq<Event>, limit: nat): (r: Tables)
    requires Good(s) && FitsAll(s, es) && limit < |s.rec.entries|
    ensures Good(r) && |r.ori.entries| == |s.ori.entries| && |r.rec.entries| == |s.rec.entries|
    ensures |r.ori.index| == |s.ori.index| && |r.rec.index| == |s.rec.index|
  {
    if es == [] then s
    else
      var p := Run(s, es[..|es| - 1], limit);
      var e := es[|es| - 1];
      assert Fits(s, e);
      StepKeeps(p, e, limit);
      Step(p, e, limit)
  }

  /** What agreement means to a reader of a table: the counters count, the two kinds of pointer invert
      each other, and a bit is set exactly when some entry is an answered session of that peer and TID. */
  predicate Agrees(h: Half)
    requires Sized(h)
  {
    && h.used == Used(h.entries, |h.entries|) && h.done == Answered(h.entries, |h.entries|)
    && (forall i | 0 <= i < |h.entries| && h.entries[i].status != Free ::
          h.entries[i].wcid < |h.index| && h.entries[i].tid < NUM_OF_TID
            && h.index[h.entries[i].wcid][h.entries[i].tid] == i)
    && (forall w, t | 0 <= w < |h.index| && 0 <= t < NUM_OF_TID && h.index[w][t] != 0 ::
          h.index[w][t] < |h.entries| && h.entries[h.index[w][t]].status != Free
          && h.entries[h.index[w][t]].wcid == w && h.entries[h.index[w][t]].tid == t)
    && (forall w, t | 0 <= w < |h.index| && 0 <= t < NUM_OF_TID :: h.bits[w][t] <==> HasDone(h, w, t))
  }

  lemma ConsistentAgrees(h: Half)
    requires Consistent(h)
    ensures Agrees(h)
  {
    hide HasDone;
    forall i | 0 <= i < |h.entries| && h.entries[i].status != Free
      ensures h.entries[i].wcid < |h.index| && h.entries[i].tid < NUM_OF_TID
              && h.index[h.entries[i].wcid][h.entries[i].tid] == i
    {
      assert EntryOk(h, i);
    }
    forall w, t | 0 <= w < |h.index| && 0 <= t < NUM_OF_TID && h.index[w][t] != 0
      ensures h.index[w][t] < |h.entries| && h.entries[h.index[w][t]].status != Free
      ensures h.entries[h.index[w][t]].wcid == w && h.entries[h.index[w][t]].tid == t
    {
      assert IndexOk(h, w, t);
    }
    forall w, t | 0 <= w < |h.index| && 0 <= t < NUM_OF_TID ensures h.bits[w][t] <==> HasDone(h, w, t) {
      BitMeansDone(h, w, t);
    }
  }

  /** Both tables agree with themselves after any run of events. */
  lemma RunAgrees(s: Tables, es: seq<Event>, limit: nat)
    requires Good(s) && FitsAll(s, es) && limit < |s.rec.entries|
    ensures Agrees(Run(s, es, limit).ori) && Agrees(Run(s, es, limit).rec)
  {
    hide Agrees, Consistent;
    ConsistentAgrees(Run(s, es, limit).ori);
    ConsistentAgrees(Run(s, es, limit).rec);
  }

  /** Some entry is an answered session of the peer and the TID. */
  predicate HasDone(h: Half, w: nat, t: nat) {
    exists i | 0 <= i < |h.entries| :: h.entries[i].status == Done && h.entries[i].wcid == w && h.entries[i].tid == t
  }

  lemma BitMeansDone(h: Half, w: nat, t: nat)
    requires Consistent(h) && w < |h.index| && t < NUM_OF_TID
    ensures h.bits[w][t] <==> HasDone(h, w, t)
  {
    assert IndexOk(h, w, t);
    if h.bits[w][t] {
      assert h.entries[h.index[w][t]].status == Done;
    }
    if HasDone(h, w, t) {
      var i :| 0 <= i < |h.entries| && h.entries[i].status == Done && h.entries[i].wcid == w && h.entries[i].tid == t;
      assert EntryOk(h, i);
    }
  }

  /** A full originator table is left as it is by a set-up, and only a full table is (when the set-up is
      allowed and the peer has no session for the TID). */
  lemma FullTableUnchanged(h: Half, w: nat, t: nat)
    requires Consistent(h) && w < |h.index| && t < NUM_OF_TID && h.index[w][t] == 0
    ensures SetUp(h, w, t, true) == h <==> h.used + 1 == |h.entries|
  {
    var k := FirstFree(h.entries, 1);
    assert EntryOk(h, 0);
    UsedBelow(h.entries, |h.entries|);
    if k == |h.entries| {
      AllTaken(h.entries, |h.entries|);
    } else {
      AFreeEntry(h.entries, |h.entries|, k);
      assert SetUp(h, w, t, true).used == h.used + 1;
    }
  }

  /** Entry 0 is never used. */
  lemma {:induction false} UsedBelow(s: seq<Session>, n: nat)
    requires 1 <= n <= |s| && s[0].status == Free
    ensures Used(s, n) <= n - 1
  {
    if n > 1 { UsedBelow(s, n - 1); }
  }

  lemma {:induction false} AFreeEntry(s: seq<Session>, n: nat, k: nat)
    requires 1 <= k < n <= |s| && s[0].status == Free && s[k].status == Free
    ensures Used(s, n) < n - 1
  {
    if k < n - 1 { AFreeEntry(s, n - 1, k); } else { UsedBelow(s, n - 1); }
  }

  /** In every run a session that is still waiting has sent at most 7 requests. */
  lemma AtMostSevenRequests(s: Tables, es: seq<Event>, limit: nat, i: nat)
    requires Good(s) && FitsAll(s, es) && limit < |s.rec.entries| && i < |s.ori.entries|
    ensures var e := Run(s, es, limit).ori.entries[i]; e.status == Waiting ==> e.sent <= 7 && e.token == e.sent + 1
  {
    assert EntryOk(Run(s, es, limit).ori, i);
  }

  /** `n` time-outs of entry `i` in a row. */
  function Timeouts(h: Half, i: nat, n: nat): (g: Half)
    requires Consistent(h) && i < |h.entries|
    ensures Consistent(g) && |g.entries| == |h.entries|
  {
    if n == 0 then h
    else
      var p := Timeouts(h, i, n - 1);
      TimedOutKeeps(p, i);
      TimedOut(p, i)
  }

  /** A session that is never answered sends a request at each of the first seven time-outs and is given
      back at the eighth. */
  lemma {:induction false} UnansweredGivenBack(h: Half, i: nat, n: nat)
    requires Consistent(h) && i < |h.entries| && h.entries[i].status == Waiting && h.entries[i].token == 1
    ensures n <= 7 ==> var e := Timeouts(h, i, n).entries[i]; e.status == Waiting && e.sent == n && e.token == n + 1
    ensures n == 8 ==> var g := Timeouts(h, i, n); g.entries[i].status == Free && g.entries[i].sent == 7
    decreases n
  {
    if n > 0 {
      UnansweredGivenBack(h, i, n - 1);
      var p := Timeouts(h, i, n - 1);
      assert EntryOk(p, i) && EntryOk(h, i);
    } else {
      assert EntryOk(h, i);
    }
  }
}

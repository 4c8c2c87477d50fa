/** Every step of the point-to-point protocol keeps the invariant. */
module PointToPointProof {
  import opened PointToPoint
  import opened PointToPointInv

  // ---------- What a step may change ----------

  /** `t` differs from `s` at most in the send `sid`, the receive `rid` and their match. */
  ghost predicate Touches(s: State, t: State, sid: nat, rid: nat) {
    && t.sends.Keys == s.sends.Keys && t.recvs.Keys == s.recvs.Keys
    && (forall a :: a in s.sends && a != sid ==> t.sends[a] == s.sends[a])
    && (forall b :: b in s.recvs && b != rid ==> t.recvs[b] == s.recvs[b])
    && (sid in s.sends ==> t.sends[sid].req == s.sends[sid].req)
    && (rid in s.recvs ==> t.recvs[rid].req == s.recvs[rid].req)
    && (forall a :: a != sid ==> (a in t.matchOf <==> a in s.matchOf))
    && (forall a :: a != sid && a in s.matchOf ==> t.matchOf[a] == s.matchOf[a])
    && (sid in s.matchOf ==> sid in t.matchOf && t.matchOf[sid] == s.matchOf[sid])
    && s.clock <= t.clock
  }

  /** A receive that is touched is not matched with another send. */
  predicate Mine(p: RPhase, sid: nat) {
    match p
    case Created => true
    case Posted => true
    case Awaiting(a) => a == sid
    case Received(a) => a == sid
  }

  lemma PairsKept(s: State, t: State, sid: nat, rid: nat)
    requires PairsOk(s) && Touches(s, t, sid, rid)
    requires rid in s.recvs ==> t.recvs[rid] == s.recvs[rid] || Mine(s.recvs[rid].phase, sid)
    requires sid in t.matchOf ==> PairOk(t, sid)
    ensures PairsOk(t)
  {
    forall a | a in t.matchOf ensures PairOk(t, a) {
      if a != sid { PairAt(s, a); }
    }
  }

  lemma SendOkFrame(s: State, t: State, a: nat)
    requires a in s.sends && a in t.sends && t.sends[a] == s.sends[a] && s.clock <= t.clock
    requires a in s.matchOf <==> a in t.matchOf
    requires a in s.matchOf ==> s.matchOf[a] in s.recvs && t.matchOf[a] == s.matchOf[a]
    requires a in s.matchOf ==> t.matchOf[a] in t.recvs && t.recvs[t.matchOf[a]].req == s.recvs[s.matchOf[a]].req
    requires SendOk(s, a)
    ensures SendOk(t, a)
  { }

  lemma RecvOkFrame(s: State, t: State, b: nat, sid: nat, rid: nat)
    requires b in s.recvs && b in t.recvs && t.recvs[b] == s.recvs[b] && Touches(s, t, sid, rid)
    requires RecvOk(s, b)
    ensures RecvOk(t, b)
  { }

  lemma HandlesKept(s: State, t: State, sid: nat, rid: nat)
    requires PairsOk(s) && PairsOk(t) && HandlesOk(s) && Touches(s, t, sid, rid)
    requires sid in t.sends && t.sends[sid] != s.sends[sid] ==> SendOk(t, sid)
    requires sid in t.matchOf ==> sid in s.matchOf || t.sends[sid] != s.sends[sid]
    requires rid in t.recvs && t.recvs[rid] != s.recvs[rid] ==> RecvOk(t, rid)
    ensures HandlesOk(t)
  {
    forall a | a in t.sends ensures SendOk(t, a) {
      assert SendOk(s, a);
      if a in s.matchOf { PairAt(s, a); }
      if t.sends[a] == s.sends[a] { SendOkFrame(s, t, a); }
    }
    forall b | b in t.recvs ensures RecvOk(t, b) {
      assert RecvOk(s, b);
      if t.recvs[b] == s.recvs[b] { RecvOkFrame(s, t, b, sid, rid); }
    }
  }

  // ---------- Sequences ----------

  lemma RemoveAtMembers<T>(q: seq<T>, i: nat)
    requires i < |q| && NoDup(q)
    ensures NoDup(RemoveAt(q, i))
    ensures forall x :: x in RemoveAt(q, i) <==> x in q && x != q[i]
  {
    var p := RemoveAt(q, i);
    assert forall j :: 0 <= j < |p| ==> p[j] == q[if j < i then j else j + 1];
    assert forall j :: 0 <= j < |q| && j != i ==> q[j] == p[if j < i then j else j - 1];
  }

  lemma TailMembers<T>(q: seq<T>)
    requires q != [] && NoDup(q)
    ensures NoDup(q[1..])
    ensures forall x :: x in q[1..] <==> x in q && x != q[0]
  {
    assert q == [q[0]] + q[1..];
  }

  lemma AppendMembers<T>(q: seq<T>, x: T)
    requires NoDup(q) && x !in q
    ensures NoDup(q + [x])
    ensures forall y :: y in q + [x] <==> y in q || y == x
  { }

  // ---------- Tokens on links ----------

  /** Phases and requests of the sends outside `x` are as before. */
  ghost predicate SamePhases(s: State, t: State, x: set<nat>) {
    && s.sends.Keys <= t.sends.Keys
    && (forall a :: a in s.sends && a !in x ==> t.sends[a].phase == s.sends[a].phase && t.sends[a].req == s.sends[a].req)
    && (forall a :: a in t.sends && a !in s.sends && a !in x ==> t.sends[a].phase.Fresh?)
  }

  lemma LinksFrame(s: State, t: State, x: set<nat>)
    requires LinksOk(s, x) && t.links == s.links && SamePhases(s, t, x)
    ensures LinksOk(t, x)
  {
    forall k | k in t.links ensures LinkOk(t, k, x) { assert LinkOk(s, k, x); }
    forall sid | sid in t.sends && sid !in x && t.sends[sid].phase.Flight? ensures InLink(t, sid) {
      assert InLink(s, sid);
    }
  }

  lemma LinksLift(s: State, sid: nat)
    requires LinksOk(s, {}) && (sid in s.sends ==> !s.sends[sid].phase.Flight?)
    ensures LinksOk(s, {sid})
  {
    forall k | k in s.links ensures LinkOk(s, k, {sid}) { assert LinkOk(s, k, {}); }
  }

  lemma LinksLand(s: State, sid: nat)
    requires LinksOk(s, {sid}) && (sid in s.sends ==> !s.sends[sid].phase.Flight?)
    ensures LinksOk(s, {})
  {
    forall k | k in s.links ensures LinkOk(s, k, {}) { assert LinkOk(s, k, {sid}); }
    forall a | a in s.sends && s.sends[a].phase.Flight? ensures InLink(s, a) { assert a !in {sid}; }
  }

  lemma LinksPop(s: State, a: nat, b: nat)
    requires LinksOk(s, {}) && s.Link(a, b) != []
    ensures LinksOk(PopLink(s, a, b), {s.Link(a, b)[0].sid})
  {
    var t := PopLink(s, a, b);
    var q := s.Link(a, b);
    var x := {q[0].sid};
    assert LinkOk(s, (a, b), {});
    TailMembers(q);
    forall k | k in t.links ensures LinkOk(t, k, x) {
      assert LinkOk(s, k, {});
    }
    forall sid | sid in t.sends && sid !in x && t.sends[sid].phase.Flight? ensures InLink(t, sid) {
      assert InLink(s, sid);
    }
  }

  lemma LinksPost(s: State, sid: nat)
    requires sid in s.sends && s.sends[sid].phase.Flight? && s.sends[sid].phase.m.sid == sid
    requires LinksOk(s, {sid})
    ensures var m := s.sends[sid].phase.m; var k := LinkOf(s.sends[sid].req, m); LinksOk(s.Post(k.0, k.1, m), {})
  {
    var m := s.sends[sid].phase.m;
    var k := LinkOf(s.sends[sid].req, m);
    var t := s.Post(k.0, k.1, m);
    if k in s.links { assert LinkOk(s, k, {sid}); }
    AppendMembers(s.Link(k.0, k.1), m);
    forall l | l in t.links ensures LinkOk(t, l, {}) {
      if l in s.links { assert LinkOk(s, l, {sid}); }
    }
    forall a | a in t.sends && t.sends[a].phase.Flight? ensures InLink(t, a) {
      if a != sid { assert InLink(s, a); }
    }
  }

  // ---------- Tokens in send queues ----------

  lemma SqsFrame(s: State, t: State, x: set<nat>)
    requires SqsOk(s, x) && t.sq == s.sq && SamePhases(s, t, x)
    ensures SqsOk(t, x)
  {
    forall d | d in t.sq ensures SqOk(t, d, x) { assert SqOk(s, d, x); }
  }

  lemma SqsLift(s: State, sid: nat)
    requires SqsOk(s, {}) && (sid in s.sends ==> !s.sends[sid].phase.Queued?)
    ensures SqsOk(s, {sid})
  {
    forall d | d in s.sq ensures SqOk(s, d, {sid}) { assert SqOk(s, d, {}); }
  }

  lemma SqsLand(s: State, sid: nat)
    requires SqsOk(s, {sid}) && (sid in s.sends ==> !s.sends[sid].phase.Queued?)
    ensures SqsOk(s, {})
  {
    forall d | d in s.sq ensures SqOk(s, d, {}) { assert SqOk(s, d, {sid}); }
  }

  lemma SqsRemove(s: State, d: Rank, i: nat)
    requires SqsOk(s, {}) && i < |s.SQ(d)|
    ensures SqsOk(s.SetSQ(d, RemoveAt(s.SQ(d), i)), {s.SQ(d)[i].sid})
  {
    var q := s.SQ(d);
    var t := s.SetSQ(d, RemoveAt(q, i));
    assert SqOk(s, d, {});
    RemoveAtMembers(q, i);
    forall c | c in t.sq ensures SqOk(t, c, {q[i].sid}) { assert SqOk(s, c, {}); }
  }

  lemma SqsAdd(s: State, sid: nat)
    requires sid in s.sends && s.sends[sid].phase.Queued? && s.sends[sid].phase.e.sid == sid
    requires SqsOk(s, {sid})
    ensures var d := s.sends[sid].req.dest; SqsOk(s.SetSQ(d, s.SQ(d) + [s.sends[sid].phase.e]), {})
  {
    var d := s.sends[sid].req.dest;
    var e := s.sends[sid].phase.e;
    var t := s.SetSQ(d, s.SQ(d) + [e]);
    if d in s.sq { assert SqOk(s, d, {sid}); }
    AppendMembers(s.SQ(d), e);
    forall c | c in t.sq ensures SqOk(t, c, {}) {
      if c in s.sq { assert SqOk(s, c, {sid}); }
    }
    forall a | a in t.sends && t.sends[a].phase.Queued? ensures t.sends[a].phase.e in t.SQ(t.sends[a].req.dest) {
      if a != sid { assert a !in {sid}; }
    }
  }

  // ---------- Tokens in receive queues ----------

  ghost predicate SameRPhases(s: State, t: State, x: set<nat>) {
    && s.recvs.Keys <= t.recvs.Keys
    && (forall a :: a in s.recvs && a !in x ==> t.recvs[a].phase == s.recvs[a].phase && t.recvs[a].req == s.recvs[a].req)
    && (forall a :: a in t.recvs && a !in s.recvs && a !in x ==> t.recvs[a].phase.Created?)
  }

  lemma RqsFrame(s: State, t: State, x: set<nat>)
    requires RqsOk(s, x) && t.rq == s.rq && SameRPhases(s, t, x)
    ensures RqsOk(t, x)
  {
    forall d | d in t.rq ensures RqOk(t, d, x) { assert RqOk(s, d, x); }
  }

  lemma RqsLift(s: State, rid: nat)
    requires RqsOk(s, {}) && (rid in s.recvs ==> !s.recvs[rid].phase.Posted?)
    ensures RqsOk(s, {rid})
  {
    forall d | d in s.rq ensures RqOk(s, d, {rid}) { assert RqOk(s, d, {}); }
  }

  lemma RqsLand(s: State, rid: nat)
    requires RqsOk(s, {rid}) && (rid in s.recvs ==> !s.recvs[rid].phase.Posted?)
    ensures RqsOk(s, {})
  {
    forall d | d in s.rq ensures RqOk(s, d, {}) { assert RqOk(s, d, {rid}); }
  }

  lemma RqsRemove(s: State, d: Rank, i: nat)
    requires RqsOk(s, {}) && i < |s.RQ(d)|
    ensures RqsOk(s.SetRQ(d, RemoveAt(s.RQ(d), i)), {s.RQ(d)[i]})
  {
    var q := s.RQ(d);
    var t := s.SetRQ(d, RemoveAt(q, i));
    assert RqOk(s, d, {});
    RemoveAtMembers(q, i);
    forall c | c in t.rq ensures RqOk(t, c, {q[i]}) { assert RqOk(s, c, {}); }
  }

  lemma RqsAdd(s: State, rid: nat)
    requires rid in s.recvs && s.recvs[rid].phase.Posted?
    requires RqsOk(s, {rid})
    ensures var d := s.recvs[rid].req.dest; RqsOk(s.SetRQ(d, s.RQ(d) + [rid]), {})
  {
    var d := s.recvs[rid].req.dest;
    var t := s.SetRQ(d, s.RQ(d) + [rid]);
    if d in s.rq { assert RqOk(s, d, {rid}); }
    AppendMembers(s.RQ(d), rid);
    forall c | c in t.rq ensures RqOk(t, c, {}) {
      if c in s.rq { assert RqOk(s, c, {rid}); }
    }
    forall a | a in t.recvs && t.recvs[a].phase.Posted? ensures a in t.RQ(t.recvs[a].req.dest) {
      if a != rid { assert a !in {rid}; }
    }
  }

  // ---------- Order ----------

  /** Start numbers of the sends outside `x` are as before. */
  ghost predicate SameNos(s: State, t: State, x: set<nat>) {
    forall a :: a in s.sends && a !in x ==>
      a in t.sends && t.sends[a].no == s.sends[a].no && t.sends[a].req == s.sends[a].req
  }

  lemma LinksSortedFrame(s: State, t: State, x: set<nat>)
    requires LinksSorted(s) && LinksOk(s, x) && t.links == s.links && SameNos(s, t, x)
    ensures LinksSorted(t)
  {
    forall k | k in t.links ensures LinkSorted(t, t.links[k]) {
      assert LinkSorted(s, s.links[k]) && LinkOk(s, k, x);
    }
  }

  lemma LinksSortedPop(s: State, a: nat, b: nat)
    requires LinksSorted(s) && s.Link(a, b) != []
    ensures LinksSorted(PopLink(s, a, b))
  {
    assert LinkSorted(s, s.links[(a, b)]);
    var t := PopLink(s, a, b);
    forall k | k in t.links ensures LinkSorted(t, t.links[k]) {
      if k != (a, b) { assert LinkSorted(s, s.links[k]); }
    }
  }

  lemma LinksSortedPost(s: State, a: nat, b: nat, m: Msg)
    requires LinksSorted(s)
    requires m.Request() ==> forall n :: n in s.Link(a, b) && n.Request() ==> SendNo(s, n.sid) < SendNo(s, m.sid)
    ensures LinksSorted(s.Post(a, b, m))
  {
    var t := s.Post(a, b, m);
    forall k | k in t.links ensures LinkSorted(t, t.links[k]) {
      if k in s.links { assert LinkSorted(s, s.links[k]); }
      if k == (a, b) { assert forall i :: 0 <= i < |s.Link(a, b)| ==> s.Link(a, b)[i] in s.Link(a, b); }
    }
  }

  lemma SqsSortedFrame(s: State, t: State, x: set<nat>)
    requires SqsSorted(s) && SqsOk(s, x) && t.sq == s.sq && SameNos(s, t, x)
    ensures SqsSorted(t)
  {
    forall d | d in t.sq ensures SqSorted(t, t.sq[d]) {
      assert SqSorted(s, s.sq[d]) && SqOk(s, d, x);
    }
  }

  lemma SqsSortedRemove(s: State, d: Rank, i: nat)
    requires SqsSorted(s) && i < |s.SQ(d)|
    ensures SqsSorted(s.SetSQ(d, RemoveAt(s.SQ(d), i)))
  {
    var t := s.SetSQ(d, RemoveAt(s.SQ(d), i));
    forall c | c in t.sq ensures SqSorted(t, t.sq[c]) { assert SqSorted(s, s.sq[c]); }
  }

  lemma SqsSortedAdd(s: State, d: Rank, e: SEntry)
    requires SqsSorted(s)
    requires forall f :: f in s.SQ(d) && s.Snd(f.sid).req.src.mac == s.Snd(e.sid).req.src.mac
               ==> SendNo(s, f.sid) < SendNo(s, e.sid)
    ensures SqsSorted(s.SetSQ(d, s.SQ(d) + [e]))
  {
    var t := s.SetSQ(d, s.SQ(d) + [e]);
    forall c | c in t.sq ensures SqSorted(t, t.sq[c]) {
      if c in s.sq { assert SqSorted(s, s.sq[c]); }
      if c == d { assert forall i :: 0 <= i < |s.SQ(d)| ==> s.SQ(d)[i] in s.SQ(d); }
    }
  }

  lemma RqsSortedFrame(s: State, t: State, y: set<nat>)
    requires RqsSorted(s) && RqsOk(s, y) && t.rq == s.rq
    requires forall b :: b in s.recvs && b !in y ==> b in t.recvs && t.recvs[b].no == s.recvs[b].no
    ensures RqsSorted(t)
  {
    forall d | d in t.rq ensures RqSorted(t, t.rq[d]) {
      assert RqSorted(s, s.rq[d]) && RqOk(s, d, y);
    }
  }

  lemma RqsSortedRemove(s: State, d: Rank, i: nat)
    requires RqsSorted(s) && i < |s.RQ(d)|
    ensures RqsSorted(s.SetRQ(d, RemoveAt(s.RQ(d), i)))
  {
    var t := s.SetRQ(d, RemoveAt(s.RQ(d), i));
    forall c | c in t.rq ensures RqSorted(t, t.rq[c]) { assert RqSorted(s, s.rq[c]); }
  }

  lemma RqsSortedAdd(s: State, d: Rank, rid: nat)
    requires RqsSorted(s)
    requires forall r :: r in s.RQ(d) ==> RecvNo(s, r) < RecvNo(s, rid)
    ensures RqsSorted(s.SetRQ(d, s.RQ(d) + [rid]))
  {
    var t := s.SetRQ(d, s.RQ(d) + [rid]);
    forall c | c in t.rq ensures RqSorted(t, t.rq[c]) {
      if c in s.rq { assert RqSorted(s, s.rq[c]); }
      if c == d { assert forall i :: 0 <= i < |s.RQ(d)| ==> s.RQ(d)[i] in s.RQ(d); }
    }
  }

  // ---------- A token moves from one place to another ----------

  /** The sends other than `sid`, and its request, are as before. */
  ghost predicate OneSend(s: State, t: State, sid: nat) {
    && sid in s.sends && t.sends.Keys == s.sends.Keys
    && (forall a :: a in s.sends && a != sid ==> t.sends[a] == s.sends[a])
    && t.sends[sid].req == s.sends[sid].req
  }

  ghost predicate OneRecv(s: State, t: State, rid: nat) {
    && rid in s.recvs && t.recvs.Keys == s.recvs.Keys
    && (forall a :: a in s.recvs && a != rid ==> t.recvs[a] == s.recvs[a])
    && t.recvs[rid].req == s.recvs[rid].req
  }

  lemma LinksSame(s: State, t: State, sid: nat)
    requires LinksFine(s) && OneSend(s, t, sid) && t.links == s.links
    requires !s.sends[sid].phase.Flight? && !t.sends[sid].phase.Flight?
    ensures LinksFine(t)
  {
    hide LinksOk, LinksSorted;
    LinksLift(s, sid);
    LinksFrame(s, t, {sid});
    LinksLand(t, sid);
    LinksSortedFrame(s, t, {sid});
  }

  /** From no link to the end of one */
  lemma LinksPosted(s: State, t: State, sid: nat, m: Msg)
    requires LinksFine(s) && OneSend(s, t, sid) && m.sid == sid
    requires !s.sends[sid].phase.Flight? && t.sends[sid].phase == Flight(m)
    requires var k := LinkOf(s.sends[sid].req, m);
      && t.links == s.links[k := s.Link(k.0, k.1) + [m]]
      && (m.Request() ==> forall n :: n in s.Link(k.0, k.1) && n.Request() ==> SendNo(s, n.sid) < t.sends[sid].no)
    ensures LinksFine(t)
  {
    var k := LinkOf(s.sends[sid].req, m);
    LinksLift(s, sid);
    LinksOntoEnd(s, t, sid, m);
  }

  lemma LinksOntoEnd(s: State, t: State, sid: nat, m: Msg)
    requires LinksOk(s, {sid}) && LinksSorted(s) && OneSend(s, t, sid) && m.sid == sid
    requires t.sends[sid].phase == Flight(m)
    requires var k := LinkOf(s.sends[sid].req, m);
      && t.links == s.links[k := s.Link(k.0, k.1) + [m]]
      && (m.Request() ==> forall n :: n in s.Link(k.0, k.1) && n.Request() ==> SendNo(s, n.sid) < t.sends[sid].no)
    ensures LinksFine(t)
  {
    hide LinksSorted;
    var k := LinkOf(s.sends[sid].req, m);
    var u := t.(links := s.links);
    LinksFrame(s, u, {sid});
    LinksSortedFrame(s, u, {sid});
    if k in s.links { assert LinkOk(s, k, {sid}); }
    hide LinksOk;
    LinksPost(u, sid);
    LinksSortedPost(u, k.0, k.1, m);
    assert t == u.Post(k.0, k.1, m);
  }

  /** From the head of a link to no link */
  lemma LinksPopped(s: State, t: State, a: nat, b: nat)
    requires LinksFine(s) && s.Link(a, b) != [] && OneSend(s, t, s.Link(a, b)[0].sid)
    requires t.links == PopLink(s, a, b).links && !t.sends[s.Link(a, b)[0].sid].phase.Flight?
    ensures LinksFine(t)
  {
    hide LinksOk, LinksSorted;
    var sid := s.Link(a, b)[0].sid;
    var p := PopLink(s, a, b);
    LinksPop(s, a, b);
    LinksSortedPop(s, a, b);
    LinksFrame(p, t, {sid});
    LinksSortedFrame(p, t, {sid});
    LinksLand(t, sid);
  }

  /** From the head of one link to the end of another: a reply */
  lemma LinksReplied(s: State, t: State, a: nat, b: nat, m: Msg)
    requires LinksFine(s) && s.Link(a, b) != [] && OneSend(s, t, s.Link(a, b)[0].sid)
    requires m.sid == s.Link(a, b)[0].sid && !m.Request() && t.sends[m.sid].phase == Flight(m)
    requires var k := LinkOf(s.sends[m.sid].req, m); t.links == PopLink(s, a, b).Post(k.0, k.1, m).links
    ensures LinksFine(t)
  {
    hide LinksOk, LinksSorted;
    LinksPop(s, a, b);
    LinksSortedPop(s, a, b);
    LinksOntoEnd(PopLink(s, a, b), t, m.sid, m);
  }

  lemma SqsSame(s: State, t: State, sid: nat)
    requires SqsFine(s) && OneSend(s, t, sid) && t.sq == s.sq
    requires !s.sends[sid].phase.Queued? && !t.sends[sid].phase.Queued?
    ensures SqsFine(t)
  {
    hide SqsOk, SqsSorted;
    SqsLift(s, sid);
    SqsFrame(s, t, {sid});
    SqsLand(t, sid);
    SqsSortedFrame(s, t, {sid});
  }

  lemma SqsAdded(s: State, t: State, sid: nat, e: SEntry)
    requires SqsFine(s) && OneSend(s, t, sid) && e.sid == sid
    requires !s.sends[sid].phase.Queued? && t.sends[sid].phase == Queued(e)
    requires var d := s.sends[sid].req.dest;
      && t.sq == s.sq[d := s.SQ(d) + [e]]
      && forall f :: f in s.SQ(d) && s.Snd(f.sid).req.src.mac == s.sends[sid].req.src.mac ==> SendNo(s, f.sid) < t.sends[sid].no
    ensures SqsFine(t)
  {
    hide SqsSorted;
    var d := s.sends[sid].req.dest;
    var u := t.(sq := s.sq);
    SqsLift(s, sid);
    SqsFrame(s, u, {sid});
    SqsSortedFrame(s, u, {sid});
    if d in s.sq { assert SqOk(s, d, {sid}); }
    hide SqsOk;
    SqsAdd(u, sid);
    SqsSortedAdd(u, d, e);
    assert t == u.SetSQ(d, u.SQ(d) + [e]);
  }

  lemma SqsRemoved(s: State, t: State, d: Rank, i: nat)
    requires SqsFine(s) && i < |s.SQ(d)| && OneSend(s, t, s.SQ(d)[i].sid)
    requires t.sq == s.sq[d := RemoveAt(s.SQ(d), i)] && !t.sends[s.SQ(d)[i].sid].phase.Queued?
    ensures SqsFine(t)
  {
    hide SqsOk, SqsSorted;
    var sid := s.SQ(d)[i].sid;
    var p := s.SetSQ(d, RemoveAt(s.SQ(d), i));
    SqsRemove(s, d, i);
    SqsSortedRemove(s, d, i);
    SqsFrame(p, t, {sid});
    SqsSortedFrame(p, t, {sid});
    SqsLand(t, sid);
  }

  lemma RqsSame(s: State, t: State)
    requires RqsFine(s) && t.recvs == s.recvs && t.rq == s.rq
    ensures RqsFine(t)
  {
    hide RqsOk, RqsSorted;
    RqsFrame(s, t, {});
    RqsSortedFrame(s, t, {});
  }

  lemma RqsSameBut(s: State, t: State, rid: nat)
    requires RqsFine(s) && OneRecv(s, t, rid) && t.rq == s.rq
    requires !s.recvs[rid].phase.Posted? && !t.recvs[rid].phase.Posted?
    ensures RqsFine(t)
  {
    hide RqsOk, RqsSorted;
    RqsLift(s, rid);
    RqsFrame(s, t, {rid});
    RqsLand(t, rid);
    RqsSortedFrame(s, t, {rid});
  }

  lemma RqsAdded(s: State, t: State, rid: nat)
    requires RqsFine(s) && OneRecv(s, t, rid)
    requires !s.recvs[rid].phase.Posted? && t.recvs[rid].phase.Posted?
    requires var d := s.recvs[rid].req.dest;
      && t.rq == s.rq[d := s.RQ(d) + [rid]]
      && forall r :: r in s.RQ(d) ==> RecvNo(s, r) < t.recvs[rid].no
    ensures RqsFine(t)
  {
    hide RqsSorted;
    var d := s.recvs[rid].req.dest;
    var u := t.(rq := s.rq);
    RqsLift(s, rid);
    RqsFrame(s, u, {rid});
    RqsSortedFrame(s, u, {rid});
    if d in s.rq { assert RqOk(s, d, {rid}); }
    hide RqsOk;
    RqsAdd(u, rid);
    RqsSortedAdd(u, d, rid);
    assert t == u.SetRQ(d, u.RQ(d) + [rid]);
  }

  lemma RqsRemoved(s: State, t: State, d: Rank, i: nat)
    requires RqsFine(s) && i < |s.RQ(d)| && OneRecv(s, t, s.RQ(d)[i])
    requires t.rq == s.rq[d := RemoveAt(s.RQ(d), i)] && !t.recvs[s.RQ(d)[i]].phase.Posted?
    ensures RqsFine(t)
  {
    hide RqsOk, RqsSorted;
    var rid := s.RQ(d)[i];
    var p := s.SetRQ(d, RemoveAt(s.RQ(d), i));
    RqsRemove(s, d, i);
    RqsSortedRemove(s, d, i);
    RqsFrame(p, t, {rid});
    RqsSortedFrame(p, t, {rid});
    RqsLand(t, rid);
  }

  // ---------- Properties of pairs of handles ----------

  lemma QueueBeforeLinkKept(s: State, t: State, sid: nat, rid: nat)
    requires QueueBeforeLink(s) && Touches(s, t, sid, rid) && sid in s.sends
    requires t.sends[sid].phase.Queued? ==>
               forall b :: (b in s.sends && b != sid && s.sends[b].phase.Flight? && s.sends[b].phase.m.Request()
                 && s.sends[b].req.src.mac == s.sends[sid].req.src.mac && s.sends[b].req.dest == s.sends[sid].req.dest)
                 ==> t.sends[sid].no < s.sends[b].no
    requires t.sends[sid].phase.Flight? && t.sends[sid].phase.m.Request() ==>
               forall a :: (a in s.sends && a != sid && s.sends[a].phase.Queued?
                 && s.sends[a].req.src.mac == s.sends[sid].req.src.mac && s.sends[a].req.dest == s.sends[sid].req.dest)
                 ==> s.sends[a].no < t.sends[sid].no
    ensures QueueBeforeLink(t)
  { }

  /** The send waits in no queue and on no link where it did not before. */
  lemma QueueBeforeLinkSame(s: State, t: State, sid: nat, rid: nat)
    requires QueueBeforeLink(s) && Touches(s, t, sid, rid) && sid in s.sends
    requires (t.sends[sid].phase == s.sends[sid].phase && t.sends[sid].no == s.sends[sid].no) || !t.sends[sid].phase.Unmet()
    ensures QueueBeforeLink(t)
  { }

  lemma ApartKept(s: State, t: State, sid: nat, rid: nat)
    requires Apart(s) && Touches(s, t, sid, rid)
    requires sid in t.sends && t.sends[sid].phase.Queued? && !s.sends[sid].phase.Queued? ==>
               forall b :: b in t.recvs && t.recvs[b].phase.Posted? ==> !Accepts(t.recvs[b].req, t.sends[sid].req)
    requires rid in t.recvs && t.recvs[rid].phase.Posted? && !s.recvs[rid].phase.Posted? ==>
               forall a :: a in t.sends && t.sends[a].phase.Queued? ==> !Accepts(t.recvs[rid].req, t.sends[a].req)
    ensures Apart(t)
  { }

  lemma SendsInOrderKept(s: State, t: State, sid: nat, rid: nat)
    requires PairsOk(s) && PairsOk(t) && SendsInOrder(s) && Touches(s, t, sid, rid) && sid in s.sends
    requires var h, h' := s.sends[sid], t.sends[sid];
      || (h'.no == h.no && (h'.phase.Unmet() ==> h.phase.Unmet()) && (h'.phase.Fresh? <==> h.phase.Fresh?))
      || (forall b :: b in t.matchOf ==> t.sends[b].no <= h'.no)
    requires sid in s.matchOf ==> t.sends[sid].no == s.sends[sid].no
    requires sid in t.matchOf && sid !in s.matchOf ==> forall a :: a in t.sends ==> NotOvertaken(t, a, sid)
    ensures SendsInOrder(t)
  {
    forall a, b | a in t.sends && b in t.matchOf ensures NotOvertaken(t, a, b) {
      assert PairOk(t, b);
      if b in s.matchOf {
        assert PairOk(s, b);
        assert NotOvertaken(s, a, b);
      }
    }
  }

  lemma RecvsInOrderKept(s: State, t: State, sid: nat, rid: nat)
    requires PairsOk(s) && PairsOk(t) && RecvsInOrder(s) && Touches(s, t, sid, rid)
    requires rid in s.recvs ==>
      var r, r' := s.recvs[rid], t.recvs[rid];
      || (r'.no == r.no && (r'.phase.Posted? ==> r.phase.Posted?) && (r'.phase.Created? <==> r.phase.Created?))
      || (forall b :: b in t.recvs && !t.recvs[b].phase.Created? ==> t.recvs[b].no <= r'.no)
    requires rid in s.recvs ==> t.recvs[rid].no == s.recvs[rid].no || s.recvs[rid].phase.Created?
    requires sid in t.matchOf && sid !in s.matchOf ==> forall r :: r in t.recvs ==> NotPassedOver(t, r, sid)
    ensures RecvsInOrder(t)
  {
    forall r, a | r in t.recvs && a in t.matchOf ensures NotPassedOver(t, r, a) {
      assert PairOk(t, a);
      if a in s.matchOf {
        assert PairOk(s, a);
        assert NotPassedOver(s, r, a);
      }
    }
  }
}

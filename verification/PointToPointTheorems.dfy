/**
 * What the point-to-point protocol promises, for every run of any number of
 * threads and machines.
 */
module PointToPointTheorems {
  import opened Basics
  import opened PointToPoint
  import opened PointToPointInv
  import opened PointToPointProof
  import opened PointToPointSteps
  import opened PointToPointMoves
  import opened PointToPointArrivals

  ghost predicate Reachable(s: State) { exists run: seq<State> :: IsRun(run) && run[|run| - 1] == s }

  lemma ReachableInv(s: State)
    requires Reachable(s)
    ensures Inv(s)
  {
    hide Inv;
    var run: seq<State> :| IsRun(run) && run[|run| - 1] == s;
    RunKeeps(run, |run| - 1);
  }

  /** No protocol error branch is ever taken and every handler consumes exactly its payload. */
  lemma NoProtocolError(s: State)
    requires Reachable(s)
    ensures !s.err
  {
    ReachableInv(s);
    assert Inv(s);
  }

  // ---------- Exactly one phase ----------

  /** A place that holds a token of a send: a link position or a send queue position. */
  datatype Place = OnLink(k: (nat, nat), i: nat) | InQueue(d: Rank, i: nat)

  predicate Holds(s: State, p: Place, sid: nat) {
    match p
    case OnLink(k, i) => k in s.links && i < |s.links[k]| && s.links[k][i].sid == sid
    case InQueue(d, i) => d in s.sq && i < |s.sq[d]| && s.sq[d][i].sid == sid
  }

  lemma HolderPhase(s: State, p: Place, sid: nat)
    requires LinksOk(s, {}) && SqsOk(s, {}) && Holds(s, p, sid)
    ensures sid in s.sends
    ensures p.OnLink? ==> s.sends[sid].phase == Flight(s.links[p.k][p.i]) && p.k == LinkOf(s.sends[sid].req, s.links[p.k][p.i])
    ensures p.InQueue? ==> s.sends[sid].phase == Queued(s.sq[p.d][p.i]) && p.d == s.sends[sid].req.dest
  {
    match p
    case OnLink(k, i) => assert LinkOk(s, k, {}) && s.links[k][i] in s.links[k];
    case InQueue(d, i) => assert SqOk(s, d, {}) && s.sq[d][i] in s.sq[d];
  }

  /** A send has a token on a link or in a queue exactly while it is in flight or queued, and then only one. */
  lemma OneToken(s: State, sid: nat)
    requires Reachable(s) && sid in s.sends
    ensures (exists p :: Holds(s, p, sid)) <==> s.sends[sid].phase.Flight? || s.sends[sid].phase.Queued?
    ensures forall p, q :: Holds(s, p, sid) && Holds(s, q, sid) ==> p == q
  {
    ReachableInv(s);
    TokensOf(s);
    forall p, q | Holds(s, p, sid) && Holds(s, q, sid) ensures p == q {
      HolderPhase(s, p, sid);
      HolderPhase(s, q, sid);
      SamePlace(s, p, q, sid);
    }
    if s.sends[sid].phase.Flight? {
      FlightPlace(s, sid);
    } else if s.sends[sid].phase.Queued? {
      QueuePlace(s, sid);
    } else {
      forall p | Holds(s, p, sid) ensures false { HolderPhase(s, p, sid); }
    }
  }

  lemma TokensOf(s: State)
    requires Inv(s)
    ensures LinksOk(s, {}) && SqsOk(s, {}) && RqsOk(s, {})
  {
    hide LinksOk, SqsOk, RqsOk, HandlesOk, PairsOk, Apart, QueueBeforeLink, SendsInOrder, RecvsInOrder, ResourcesOk;
  }

  lemma SamePlace(s: State, p: Place, q: Place, sid: nat)
    requires LinksOk(s, {}) && SqsOk(s, {}) && Holds(s, p, sid) && Holds(s, q, sid) && (p.OnLink? <==> q.OnLink?)
    requires p.OnLink? ==> p.k == q.k && s.links[p.k][p.i] == s.links[q.k][q.i]
    requires p.InQueue? ==> p.d == q.d && s.sq[p.d][p.i] == s.sq[q.d][q.i]
    ensures p == q
  {
    if p.OnLink? { assert LinkOk(s, p.k, {}); } else { assert SqOk(s, p.d, {}); }
  }

  lemma FlightPlace(s: State, sid: nat)
    requires LinksOk(s, {}) && sid in s.sends && s.sends[sid].phase.Flight?
    ensures exists p :: Holds(s, p, sid)
  {
    assert sid !in {};
    assert InLink(s, sid);
    var k := LinkOf(s.sends[sid].req, s.sends[sid].phase.m);
    var i :| 0 <= i < |s.links[k]| && s.links[k][i] == s.sends[sid].phase.m;
    assert Holds(s, OnLink(k, i), sid);
  }

  lemma QueuePlace(s: State, sid: nat)
    requires SqsOk(s, {}) && sid in s.sends && s.sends[sid].phase.Queued?
    ensures exists p :: Holds(s, p, sid)
  {
    assert sid !in {};
    var d := s.sends[sid].req.dest;
    var i :| 0 <= i < |s.sq[d]| && s.sq[d][i] == s.sends[sid].phase.e;
    assert Holds(s, InQueue(d, i), sid);
  }

  /**
   * The phase of a send and where its owner stands fix the state code of the
   * send handle; the phase also fixes the receive handle that goes with it.
   */
  lemma PhaseFixesStates(s: State, sid: nat)
    requires Reachable(s) && sid in s.sends
    ensures s.sends[sid].stat == SendCode(s.sends[sid].phase.Stage(), s.sends[sid].owner)
    ensures sid in s.matchOf <==> Met(s.sends[sid].phase)
    ensures sid in s.matchOf ==>
      && s.matchOf[sid] in s.recvs
      && var p, r := s.sends[sid].phase, s.recvs[s.matchOf[sid]];
      && r.stat == RecvCode(r.phase, r.owner)
      && r.phase == (if p.Flight? && (p.m.RMR? || p.m.RDS?) then Awaiting(sid) else Received(sid))
  {
    hide Inv;
    ReachableInv(s);
    SendAt(s, sid);
    if sid in s.matchOf { RecvAt(s, s.matchOf[sid]); }
  }

  // ---------- The right bytes, once ----------

  /** A receive that is matched holds the first bytes of its one send, and nothing else of its buffer changed. */
  lemma MessageDelivered(s: State, rid: nat)
    requires Reachable(s) && rid in s.recvs && s.recvs[rid].phase.Received?
    ensures var sid := s.recvs[rid].phase.sid; var r := s.recvs[rid];
      && sid in s.sends && sid in s.matchOf && s.matchOf[sid] == rid
      && (forall a :: a in s.matchOf && s.matchOf[a] == rid ==> a == sid)
      && Accepts(r.req, s.sends[sid].req)
      && r.src == Is(s.sends[sid].req.src) && r.tag == Is(s.sends[sid].req.tag)
      && var n := Min(|s.sends[sid].req.payload|, |r.req.buffer|);
         && r.buflen == n && |r.data| == |r.req.buffer|
         && r.data[..n] == s.sends[sid].req.payload[..n] && r.data[n..] == r.req.buffer[n..]
         && (s.sends[sid].phase.Done? ==> s.sends[sid].buflen == n)
  {
    hide Inv;
    ReachableInv(s);
    RecvAt(s, rid);
    var sid := s.recvs[rid].phase.sid;
    SendAt(s, sid);
    forall a | a in s.matchOf && s.matchOf[a] == rid ensures a == sid { PairOf(s, a); }
  }

  lemma PairOf(s: State, a: nat)
    requires Inv(s) && a in s.matchOf
    ensures PairOk(s, a)
  {
    hide LinksFine, SqsFine, RqsFine, HandlesOk, Apart, QueueBeforeLink, SendsInOrder, RecvsInOrder, ResourcesOk;
    PairAt(s, a);
  }

  // ---------- What the return of a call means ----------

  /**
   * The wait call of a send returns: a synchronous send only after its receive
   * has the message, as does a ready send that succeeds and a standard send
   * without a system buffer; a ready send fails exactly when it was refused.
   */
  lemma SendReturns(s: State, sid: nat)
    requires Reachable(s) && sid in s.sends && s.sends[sid].owner.Returned?
    ensures var h := s.sends[sid];
      && (h.owner.ret == ERR_NRDY <==> h.phase == Refused)
      && (h.owner.ret == ERR_NRDY ==> h.req.mode == READY && h.req.Remote() && sid !in s.matchOf)
      && (h.owner.ret == ERR_REQUEST ==> h.req.mode == BUFFERED && h.req.payload == [])
      && (h.owner.ret == SUCCESS && !h.req.MayLeave() ==>
            sid in s.matchOf && s.matchOf[sid] in s.recvs && s.recvs[s.matchOf[sid]].phase == Received(sid))
  {
    hide Inv;
    ReachableInv(s);
    SendAt(s, sid);
    if sid in s.matchOf { RecvAt(s, s.matchOf[sid]); }
  }

  /** The wait call of a receive returns only with its message. */
  lemma RecvReturns(s: State, rid: nat)
    requires Reachable(s) && rid in s.recvs && s.recvs[rid].owner.Returned?
    ensures var r := s.recvs[rid];
      r.owner.ret == SUCCESS && r.phase.Received? && r.stat == FREE && r.phase.sid in s.sends
      && r.data == Delivered(s.sends[r.phase.sid].req.payload, r.req.buffer)
  {
    hide Inv;
    ReachableInv(s);
    RecvAt(s, rid);
  }

  // ---------- Order ----------

  /** No channel ever holds a queued send beside a posted receive that takes it. */
  lemma NeverBoth(s: State, d: Rank, e: SEntry, rid: nat)
    requires Reachable(s) && e in s.SQ(d) && rid in s.RQ(d)
    ensures e.sid in s.sends && rid in s.recvs && !Accepts(s.recvs[rid].req, s.sends[e.sid].req)
  {
    ReachableInv(s);
    TokensOf(s);
    assert SqOk(s, d, {}) && RqOk(s, d, {});
    assert Apart(s);
  }

  /**
   * Messages of one source are non-overtaking (section 3.5 of MPI 1.1): once
   * `b` is matched, no earlier send `a` of the same source that its receive
   * accepts is still waiting to be matched.
   */
  lemma SendsNotOvertaken(s: State, a: nat, b: nat)
    requires Reachable(s) && a in s.sends && b in s.matchOf
    ensures b in s.sends && s.matchOf[b] in s.recvs
    ensures s.sends[a].req.src == s.sends[b].req.src && !s.sends[a].phase.Fresh? && s.sends[a].no < s.sends[b].no
      && Accepts(s.recvs[s.matchOf[b]].req, s.sends[a].req)
      ==> a in s.matchOf || s.sends[a].phase == Refused || s.sends[a].phase == Flight(RNDY(a))
  {
    ReachableInv(s);
    PairOf(s, b);
    assert NotOvertaken(s, a, b) by { assert SendsInOrder(s); }
    hide Inv;
    SendAt(s, a);
  }

  /** Once `sid` is matched, no receive posted before the one it used, and that accepts it, still waits for a send. */
  lemma ReceivesNotPassedOver(s: State, r: nat, sid: nat)
    requires Reachable(s) && r in s.recvs && sid in s.matchOf
    ensures sid in s.sends && s.matchOf[sid] in s.recvs
    ensures !s.recvs[r].phase.Created? && s.recvs[r].no < s.recvs[s.matchOf[sid]].no && Accepts(s.recvs[r].req, s.sends[sid].req)
      ==> s.recvs[r].phase.Awaiting? || s.recvs[r].phase.Received?
  {
    ReachableInv(s);
    PairOf(s, sid);
    assert NotPassedOver(s, r, sid) by { assert RecvsInOrder(s); }
  }

  // ---------- Resources ----------

  /**
   * A handle is given back at most once, and exactly when its state is FREE; a
   * system buffer lives exactly as long as its handle.
   */
  lemma FreedOnce(s: State, sid: nat)
    requires Reachable(s) && sid in s.sends
    ensures multiset(s.sfrees)[sid] == if s.sends[sid].stat == FREE then 1 else 0
    ensures sid in s.sysLive <==> s.sends[sid].req.hasSys && s.sends[sid].stat != FREE
    ensures s.sends[sid].stat == FREE <==> s.sends[sid].owner.Returned? && (s.sends[sid].phase == Done || s.sends[sid].phase == Refused)
  {
    hide Inv;
    ReachableInv(s);
    FreesNoDup(s);
    CountNoDup(s.sfrees, sid);
    SendAt(s, sid);
  }

  lemma FreesNoDup(s: State)
    requires Inv(s)
    ensures NoDup(s.sfrees) && NoDup(s.rfrees)
  {
    hide LinksFine, SqsFine, RqsFine, HandlesOk, PairsOk, Apart, QueueBeforeLink, SendsInOrder, RecvsInOrder;
  }

  lemma {:induction false} CountNoDup(q: seq<nat>, x: nat)
    requires NoDup(q)
    ensures multiset(q)[x] == if x in q then 1 else 0
  {
    if q != [] {
      assert q == [q[0]] + q[1..];
      CountNoDup(q[1..], x);
    }
  }

  /** Nothing on a link or in a queue refers to a handle that was given back. */
  lemma NoDanglingReference(s: State, p: Place, sid: nat)
    requires Reachable(s) && Holds(s, p, sid)
    ensures sid in s.sends && s.sends[sid].stat != FREE && sid !in s.sfrees
    ensures p.OnLink? && (s.links[p.k][p.i].RMR? || s.links[p.k][p.i].RDS?) ==>
      var rid := s.links[p.k][p.i].rid; rid in s.recvs && s.recvs[rid].stat != FREE && rid !in s.rfrees
  {
    ReachableInv(s);
    TokensOf(s);
    HolderPhase(s, p, sid);
    hide Inv, LinksOk, SqsOk, RqsOk, Holds;
    if p.OnLink? && (s.links[p.k][p.i].RMR? || s.links[p.k][p.i].RDS?) { AwaitedNotFree(s, sid); }
    LiveNotFree(s, sid);
  }

  lemma LiveNotFree(s: State, sid: nat)
    requires Inv(s) && sid in s.sends && (s.sends[sid].phase.Flight? || s.sends[sid].phase.Queued?)
    ensures s.sends[sid].stat != FREE && sid !in s.sfrees
  {
    hide Inv;
    SendAt(s, sid);
  }

  lemma AwaitedNotFree(s: State, sid: nat)
    requires Inv(s) && sid in s.sends && s.sends[sid].phase.Flight? && (s.sends[sid].phase.m.RMR? || s.sends[sid].phase.m.RDS?)
    ensures var rid := s.sends[sid].phase.m.rid; rid in s.recvs && s.recvs[rid].stat != FREE && rid !in s.rfrees
  {
    hide Inv;
    SendAt(s, sid);
    RecvAt(s, s.matchOf[sid]);
  }

  /** A receive handle is given back at most once, exactly when its owner has returned from the wait call. */
  lemma ReceiveFreedOnce(s: State, rid: nat)
    requires Reachable(s) && rid in s.recvs
    ensures multiset(s.rfrees)[rid] == if s.recvs[rid].owner.Returned? then 1 else 0
    ensures s.recvs[rid].stat == FREE <==> s.recvs[rid].owner.Returned?
  {
    hide Inv;
    ReachableInv(s);
    FreesNoDup(s);
    CountNoDup(s.rfrees, rid);
    FreedReceives(s, rid);
    RecvAt(s, rid);
  }

  lemma FreedReceives(s: State, rid: nat)
    requires Inv(s) && rid in s.recvs
    ensures rid in s.rfrees <==> s.recvs[rid].stat == FREE
  {
    hide LinksFine, SqsFine, RqsFine, HandlesOk, PairsOk, Apart, QueueBeforeLink, SendsInOrder, RecvsInOrder;
  }

  /**
   * When every owner is back and every send has met its end, all is given
   * back: the handles of both kinds and the system buffers.
   */
  lemma AllGivenBack(s: State)
    requires Reachable(s)
    requires forall sid :: sid in s.sends ==> s.sends[sid].owner.Returned? && (s.sends[sid].phase == Done || s.sends[sid].phase == Refused)
    requires forall rid :: rid in s.recvs ==> s.recvs[rid].owner.Returned?
    ensures s.sysLive == {} && forall sid :: sid in s.sends ==> sid in s.sfrees
    ensures forall rid :: rid in s.recvs ==> rid in s.rfrees
  {
    hide Inv;
    ReachableInv(s);
    forall sid | sid in s.sysLive ensures false {
      SysLiveKnown(s, sid);
      SendAt(s, sid);
    }
    forall sid | sid in s.sends ensures sid in s.sfrees { SendAt(s, sid); }
    forall rid | rid in s.recvs ensures rid in s.rfrees {
      FreedReceives(s, rid);
      RecvAt(s, rid);
    }
  }

  lemma SysLiveKnown(s: State, sid: nat)
    requires Inv(s) && sid in s.sysLive
    ensures sid in s.sends
  {
    hide LinksFine, SqsFine, RqsFine, HandlesOk, PairsOk, Apart, QueueBeforeLink, SendsInOrder, RecvsInOrder;
  }

  // ---------- No lost wakeup ----------

  /**
   * The owner of a send that blocks has its WAIT bit set or a signal pending,
   * except for a ready sender in its first loop, whose state is PEND_STRT.  A
   * blocked owner without a pending signal has nothing to wake up for: its
   * message is neither matched nor refused, nor, in the first loop, answered.
   */
  lemma SenderWakeup(s: State, sid: nat)
    requires Reachable(s) && sid in s.sends
    ensures var h := s.sends[sid];
      && (h.stat.WaitBit() <==> h.owner == Waiting(false))
      && (h.owner == FirstWait(false) ==> h.stat == PEND_STRT && h.req.mode == READY && h.req.Remote())
      && (h.owner == Waiting(false) || h.owner == FirstWait(false) ==> h.stat != MATCH && h.stat != PEND_NRDY)
      && (h.owner == Waiting(true) ==> h.stat == MATCH)
      && (h.owner == FirstWait(true) ==> h.stat != PEND_STRT)
  {
    hide Inv;
    ReachableInv(s);
    SendAt(s, sid);
  }

  lemma ReceiverWakeup(s: State, rid: nat)
    requires Reachable(s) && rid in s.recvs
    ensures var r := s.recvs[rid];
      && (r.stat.WaitBit() <==> r.owner == Waiting(false))
      && (r.owner == Waiting(false) ==> r.stat != MATCH)
      && (r.owner == Waiting(true) ==> r.stat == MATCH)
  {
    hide Inv;
    ReachableInv(s);
    RecvAt(s, rid);
  }

  // ---------- Two calls that do not keep the promise ----------

  /** A local ready send whose receive is not posted: one send, no receive, started and waited for. */
  const LONELY_READY := InitSh(INIT, 0, Rank(0, 0), Rank(0, 1), 5, 0, READY, [7], false)

  lemma LonelyReadySendDangles()
    ensures var t := WaitSh(StartSh(LONELY_READY, 0), 0);
      LocalE(0) in t.SQ(Rank(0, 1)) && t.sends[0].stat == FREE && 0 in t.sfrees
  {
    var u := StartSh(LONELY_READY, 0);
    assert u.RQ(Rank(0, 1)) == [];
    assert u.SQ(Rank(0, 1)) == [LocalE(0)];
  }

  /**
   * Started and waited for in a reachable state, a local ready send leaves a
   * freed handle in the send queue exactly if its receive is not posted.
   */
  lemma ReadySendDanglesIff(s: State, sid: nat)
    requires Reachable(s) && sid in s.sends && s.sends[sid].stat == CREATE
    requires s.sends[sid].req.mode == READY && !s.sends[sid].req.Remote()
    ensures var t := WaitSh(StartSh(s, sid), sid);
      && sid in t.sends
      && (LocalE(sid) in t.SQ(s.sends[sid].req.dest) && t.sends[sid].stat == FREE <==> !ReceivePosted(s, sid))
  {
    hide Inv, WaitSh, StartSh, ReceivePosted;
    ReachableInv(s);
    SendAt(s, sid);
    if ReceivePosted(s, sid) { PostedReadySend(s, sid); } else { LonelyReadySend(s, sid); }
  }

  lemma PostedReadySend(s: State, sid: nat)
    requires Inv(s) && sid in s.sends && s.sends[sid].stat == CREATE && s.sends[sid].owner == Running
    requires !s.sends[sid].req.Remote() && ReceivePosted(s, sid)
    ensures var t := WaitSh(StartSh(s, sid), sid);
      sid in t.sends && !(LocalE(sid) in t.SQ(s.sends[sid].req.dest) && t.sends[sid].stat == FREE)
  {
    hide Inv, WaitSh, ReceivePosted;
    var u := StartSh(s, sid);
    MatchedLocal(s, sid);
    hide StartSh;
    StepKeeps(s, SStart(sid));
    StepKeeps(u, SWait(sid));
    WaitMatched(u, sid);
    FreedNotQueued(WaitSh(u, sid), sid, s.sends[sid].req.dest);
  }

  lemma WaitMatched(s: State, sid: nat)
    requires sid in s.sends && s.sends[sid].stat == MATCH
    ensures WaitSh(s, sid) == FinishSh(s, sid, SUCCESS)
  {
    hide FinishSh, LeaveBuffered;
  }

  lemma MatchedLocal(s: State, sid: nat)
    requires sid in s.sends && !s.sends[sid].req.Remote() && ReceivePosted(s, sid) && s.sends[sid].owner == Running
    ensures var u := StartSh(s, sid); sid in u.sends && u.sends[sid].stat == MATCH && u.sends[sid].owner == Running
  {
    hide RemoveAt, CopyInto, Min;
  }

  lemma LonelyReadySend(s: State, sid: nat)
    requires sid in s.sends && !s.sends[sid].req.Remote() && !ReceivePosted(s, sid) && s.sends[sid].req.mode == READY
    ensures var t := WaitSh(StartSh(s, sid), sid);
      sid in t.sends && LocalE(sid) in t.SQ(s.sends[sid].req.dest) && t.sends[sid].stat == FREE
  {
    var u := StartSh(s, sid);
    assert u == QueueLocal(s, sid);
    var d := s.sends[sid].req.dest;
    assert u.SQ(d)[|u.SQ(d)| - 1] == LocalE(sid);
    assert u.sends[sid].stat == PEND_STRT;
  }

  lemma FreedNotQueued(t: State, sid: nat, d: Rank)
    requires Inv(t) && sid in t.sends
    ensures !(LocalE(sid) in t.SQ(d) && t.sends[sid].stat == FREE)
  {
    if LocalE(sid) in t.SQ(d) {
      TokensOf(t);
      assert SqOk(t, d, {});
      hide Inv;
      SendAt(t, sid);
    }
  }

  /**
   * The wait call of a buffered send reports an error exactly if the message is
   * not matched yet and empty, because an empty message has no system buffer.
   */
  lemma BufferedWaitErrorIff(s: State, sid: nat)
    requires Reachable(s) && Enabled(s, SWait(sid)) && s.sends[sid].req.mode == BUFFERED
    ensures var t := WaitSh(s, sid);
      && sid in t.sends
      && t.sends[sid].owner == Returned(if s.sends[sid].stat != MATCH && s.sends[sid].req.payload == [] then ERR_REQUEST else SUCCESS)
  {
    hide Inv, Placed, WaitSh;
    ReachableInv(s);
    PlacedAt(s, sid);
    BufferedRunning(s, sid);
    BufferedWaits(s, sid);
  }

  lemma BufferedWaits(s: State, sid: nat)
    requires sid in s.sends && s.sends[sid].req.mode == BUFFERED
    requires s.sends[sid].stat == PEND_STRT || s.sends[sid].stat == PEND_DATA || s.sends[sid].stat == MATCH
    requires !s.sends[sid].inSys && (s.sends[sid].req.hasSys <==> s.sends[sid].req.payload != [])
    ensures var t := WaitSh(s, sid);
      && sid in t.sends
      && t.sends[sid].owner == Returned(if s.sends[sid].stat != MATCH && s.sends[sid].req.payload == [] then ERR_REQUEST else SUCCESS)
  {
    LeavesWith(s, sid);
    hide FinishSh, LeaveBuffered;
  }

  lemma LeavesWith(s: State, sid: nat)
    requires sid in s.sends && !s.sends[sid].inSys
    ensures sid in FinishSh(s, sid, SUCCESS).sends && FinishSh(s, sid, SUCCESS).sends[sid].owner == Returned(SUCCESS)
    ensures sid in LeaveBuffered(s, sid).sends
    ensures LeaveBuffered(s, sid).sends[sid].owner == Returned(if s.sends[sid].req.hasSys then SUCCESS else ERR_REQUEST)
  { }

  lemma BufferedRunning(s: State, sid: nat)
    requires Placed(s, sid)
    requires s.sends[sid].owner == Running && s.sends[sid].req.mode == BUFFERED && s.sends[sid].stat != CREATE
    ensures s.sends[sid].stat == PEND_STRT || s.sends[sid].stat == PEND_DATA || s.sends[sid].stat == MATCH
    ensures !s.sends[sid].inSys && (s.sends[sid].req.hasSys <==> s.sends[sid].req.payload != [])
  { }
}

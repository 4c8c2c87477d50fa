/** The global invariant of the point-to-point protocol. */
module PointToPointInv {
  import opened Basics
  import opened PointToPoint

  ghost predicate NoDup<T>(q: seq<T>) { forall i, j :: 0 <= i < j < |q| ==> q[i] != q[j] }

  // ---------- One send handle ----------

  /** The phase of a send and the position of its owner fix the state code of the handle. */
  function SendCode(stage: nat, o: Owner): Stat {
    if stage == 0 then CREATE
    else if stage == 1 then
      match o case Running => PEND_STRT case FirstWait(_) => PEND_STRT
              case Waiting(_) => PEND_WAIT case Returned(_) => PEND_RELS
    else if stage == 2 then
      match o case Running => PEND_DATA case FirstWait(_) => PEND_DATA
              case Waiting(_) => PEND_DWAT case Returned(_) => PEND_RELS
    else if o.Returned? then FREE
    else if stage == 3 then MATCH else PEND_NRDY
  }

  /** Where the owner can be: it blocks only while there is something to wait for. */
  predicate SendOwnerOk(h: Send) {
    var stage := h.phase.Stage();
    match h.owner
    case Running => true
    case FirstWait(sig) => h.req.mode == READY && h.req.Remote() && stage > 0 && (sig <==> stage > 1)
    case Waiting(sig) => !h.req.MayLeave() && 1 <= stage <= 3 && (sig <==> stage == 3) && (h.req.mode == READY ==> stage > 1)
    case Returned(ret) =>
      && stage > 0 && (stage <= 2 ==> h.req.MayLeave())
      && (ret == ERR_NRDY <==> stage == 4)
      && (ret == ERR_REQUEST ==> h.req.mode == BUFFERED && h.req.payload == [])
  }

  /** `curdata` keeps the bytes that were given to the send as long as somebody may read them. */
  predicate SendBytesOk(h: Send) {
    && |h.user| == |h.req.payload|
    && (!h.owner.Returned? ==> h.user == h.req.payload && !h.inSys)
    && (h.phase.Stage() <= 2 ==> h.CurData() == h.req.payload && h.buflen == |h.req.payload|)
    && (h.req.hasSys ==> (h.req.mode == STANDARD || h.req.mode == BUFFERED) && h.req.payload != [])
    && (h.req.mode == BUFFERED && h.req.payload != [] ==> h.req.hasSys)
    && (h.phase.Stage() <= 2 && h.req.hasSys && h.owner.Returned? ==> h.inSys)
  }

  /** The send has met its receive. */
  predicate Met(p: SPhase) { p.Done? || (p.Flight? && !p.m.Request() && !p.m.RNDY?) }

  /** The number of bytes that the matched pair transfers. */
  function Cut(s: State, sid: nat): nat
    requires sid in s.sends && sid in s.matchOf && s.matchOf[sid] in s.recvs
  { Min(|s.sends[sid].req.payload|, |s.recvs[s.matchOf[sid]].req.buffer|) }

  /** Every message says what its send handle says. */
  predicate MsgOk(s: State, sid: nat, m: Msg)
    requires sid in s.sends && (sid in s.matchOf ==> s.matchOf[sid] in s.recvs)
  {
    var q := s.sends[sid].req;
    && m.sid == sid && q.Remote()
    && match m
       case RMS(_, hdr) => hdr == q.Header()
       case RMDS(_, hdr, p) => hdr == q.Header() && p == q.payload
       case RMR(_, rid, n) => sid in s.matchOf && rid == s.matchOf[sid] && n == Cut(s, sid)
       case RDS(_, rid, n, p) =>
         sid in s.matchOf && rid == s.matchOf[sid] && n == Cut(s, sid) && p == q.payload[..n]
       case RDR(_, n) => sid in s.matchOf && n == Cut(s, sid)
       case RMDR(_, n) => sid in s.matchOf && n == Cut(s, sid)
       case RNDY(_) => q.mode == READY
  }

  predicate EntryOk(h: Send, sid: nat, e: SEntry) {
    && e.sid == sid
    && (e.LocalE? <==> !h.req.Remote())
    && (e.LocalE? ==> h.req.mode != READY)
    && (e.RemoteE? ==> h.req.mode != READY && e.hdr == h.req.Header() && (e.data.Some? ==> e.data.value == h.req.payload))
  }

  predicate SendOk(s: State, sid: nat)
    requires sid in s.sends && (sid in s.matchOf ==> s.matchOf[sid] in s.recvs)
  {
    var h := s.sends[sid];
    && h.stat == SendCode(h.phase.Stage(), h.owner)
    && SendOwnerOk(h)
    && SendBytesOk(h)
    && (h.phase.Flight? ==> MsgOk(s, sid, h.phase.m))
    && (h.phase.Queued? ==> EntryOk(h, sid, h.phase.e))
    && (h.phase.Refused? ==> h.req.mode == READY && h.req.Remote())
    && (Met(h.phase) <==> sid in s.matchOf)
    && (h.phase.Done? ==> h.buflen == Cut(s, sid))
    && (!h.phase.Fresh? ==> h.no < s.clock)
  }

  // ---------- One receive handle ----------

  function RecvCode(p: RPhase, o: Owner): Stat {
    match p
    case Created => CREATE
    case Posted => if o.Waiting? then PEND_WAIT else PEND_STRT
    case Awaiting(_) => if o.Waiting? then PEND_DWAT else PEND_DATA
    case Received(_) => if o.Returned? then FREE else MATCH
  }

  /** What the receive buffer holds in the end: a prefix of the message, then what was there before. */
  function Delivered(payload: seq<Byte>, buffer: seq<Byte>): seq<Byte> {
    var n := Min(|payload|, |buffer|);
    payload[..n] + buffer[n..]
  }

  predicate RecvOk(s: State, rid: nat)
    requires rid in s.recvs
  {
    var r := s.recvs[rid];
    && r.stat == RecvCode(r.phase, r.owner)
    && (r.phase.Created? ==> r.owner.Running?)
    && (r.owner.Returned? ==> r.phase.Received? && r.owner.ret == SUCCESS)
    && !r.owner.FirstWait?
    && (r.owner.Waiting? ==> (r.owner.sig <==> r.phase.Received?))
    && (!r.phase.Created? ==> r.no < s.clock)
    && match r.phase
       case Created => r.src == r.req.src && r.tag == r.req.tag && r.buflen == |r.req.buffer| && r.data == r.req.buffer
       case Posted => r.src == r.req.src && r.tag == r.req.tag && r.buflen == |r.req.buffer| && r.data == r.req.buffer
       case Awaiting(sid) =>
         && sid in s.sends && sid in s.matchOf && s.matchOf[sid] == rid
         && r.src == Is(s.sends[sid].req.src) && r.tag == Is(s.sends[sid].req.tag)
         && r.buflen == Min(|s.sends[sid].req.payload|, |r.req.buffer|) && r.data == r.req.buffer
       case Received(sid) =>
         && sid in s.sends && sid in s.matchOf && s.matchOf[sid] == rid
         && r.src == Is(s.sends[sid].req.src) && r.tag == Is(s.sends[sid].req.tag)
         && r.buflen == Min(|s.sends[sid].req.payload|, |r.req.buffer|)
         && r.data == Delivered(s.sends[sid].req.payload, r.req.buffer)
  }

  // ---------- Matched pairs ----------

  predicate PairOk(s: State, sid: nat)
    requires sid in s.matchOf
  {
    && sid in s.sends && s.matchOf[sid] in s.recvs
    && Accepts(s.recvs[s.matchOf[sid]].req, s.sends[sid].req)
    && var p := s.sends[sid].phase;
       s.recvs[s.matchOf[sid]].phase
       == (if p.Flight? && (p.m.RMR? || p.m.RDS?) then Awaiting(sid) else Received(sid))
  }

  ghost predicate PairsOk(s: State) { forall sid :: sid in s.matchOf ==> PairOk(s, sid) }

  lemma PairAt(s: State, sid: nat)
    requires PairsOk(s) && sid in s.matchOf
    ensures PairOk(s, sid)
  { }

  ghost predicate HandlesOk(s: State)
    requires PairsOk(s)
  {
    && (forall sid :: sid in s.sends ==> SendOk(s, sid))
    && (forall rid :: rid in s.recvs ==> RecvOk(s, rid))
  }

  // ---------- Tokens: exactly one place for each send ----------

  function LinkOf(q: SendReq, m: Msg): (nat, nat) {
    if m.Forward() then (q.src.mac, q.dest.mac) else (q.dest.mac, q.src.mac)
  }

  /** The messages of a link are the tokens of sends in flight, except for those in `x`. */
  ghost predicate LinkOk(s: State, k: (nat, nat), x: set<nat>)
    requires k in s.links
  {
    && NoDup(s.links[k])
    && forall m :: m in s.links[k] ==>
         && m.sid in s.sends && m.sid !in x
         && s.sends[m.sid].phase == Flight(m) && k == LinkOf(s.sends[m.sid].req, m)
  }

  predicate InLink(s: State, sid: nat)
    requires sid in s.sends && s.sends[sid].phase.Flight?
  {
    var m := s.sends[sid].phase.m;
    var k := LinkOf(s.sends[sid].req, m);
    m.sid == sid && m in s.Link(k.0, k.1)
  }

  ghost predicate LinksOk(s: State, x: set<nat>) {
    && (forall k :: k in s.links ==> LinkOk(s, k, x))
    && (forall sid :: sid in s.sends && sid !in x && s.sends[sid].phase.Flight? ==> InLink(s, sid))
  }

  ghost predicate SqOk(s: State, d: Rank, x: set<nat>)
    requires d in s.sq
  {
    && NoDup(s.sq[d])
    && forall e :: e in s.sq[d] ==>
         && e.sid in s.sends && e.sid !in x
         && s.sends[e.sid].phase == Queued(e) && s.sends[e.sid].req.dest == d
  }

  ghost predicate SqsOk(s: State, x: set<nat>) {
    && (forall d :: d in s.sq ==> SqOk(s, d, x))
    && (forall sid :: sid in s.sends && sid !in x && s.sends[sid].phase.Queued? ==>
          s.sends[sid].phase.e.sid == sid && s.sends[sid].phase.e in s.SQ(s.sends[sid].req.dest))
  }

  ghost predicate RqOk(s: State, d: Rank, x: set<nat>)
    requires d in s.rq
  {
    && NoDup(s.rq[d])
    && forall r :: r in s.rq[d] ==>
         && r in s.recvs && r !in x && s.recvs[r].phase == Posted && s.recvs[r].req.dest == d
  }

  ghost predicate RqsOk(s: State, x: set<nat>) {
    && (forall d :: d in s.rq ==> RqOk(s, d, x))
    && (forall rid :: rid in s.recvs && rid !in x && s.recvs[rid].phase.Posted? ==> rid in s.RQ(s.recvs[rid].req.dest))
  }

  // ---------- No send waits beside a receive that takes it ----------

  ghost predicate Apart(s: State) {
    forall sid, rid :: sid in s.sends && rid in s.recvs && s.sends[sid].phase.Queued? && s.recvs[rid].phase.Posted?
      ==> !Accepts(s.recvs[rid].req, s.sends[sid].req)
  }

  // ---------- Order ----------

  function SendNo(s: State, sid: nat): nat { s.Snd(sid).no }
  function RecvNo(s: State, rid: nat): nat { s.Rcv(rid).no }

  /** The requests on a link are in the order in which their sends were started. */
  ghost predicate LinkSorted(s: State, q: seq<Msg>) {
    forall i, j :: 0 <= i < j < |q| && q[i].Request() && q[j].Request() ==> SendNo(s, q[i].sid) < SendNo(s, q[j].sid)
  }

  /** In a send queue the sends of one machine are in that order. */
  ghost predicate SqSorted(s: State, q: seq<SEntry>) {
    forall i, j :: 0 <= i < j < |q| && s.Snd(q[i].sid).req.src.mac == s.Snd(q[j].sid).req.src.mac
      ==> SendNo(s, q[i].sid) < SendNo(s, q[j].sid)
  }

  ghost predicate RqSorted(s: State, q: seq<nat>) {
    forall i, j :: 0 <= i < j < |q| ==> RecvNo(s, q[i]) < RecvNo(s, q[j])
  }

  /** What is queued was started before what is still on the link. */
  ghost predicate QueueBeforeLink(s: State) {
    forall a, b :: a in s.sends && b in s.sends && s.sends[a].phase.Queued?
      && s.sends[b].phase.Flight? && s.sends[b].phase.m.Request()
      && s.sends[a].req.src.mac == s.sends[b].req.src.mac && s.sends[a].req.dest == s.sends[b].req.dest
      ==> s.sends[a].no < s.sends[b].no
  }

  ghost predicate LinksSorted(s: State) { forall k :: k in s.links ==> LinkSorted(s, s.links[k]) }
  ghost predicate SqsSorted(s: State) { forall d :: d in s.sq ==> SqSorted(s, s.sq[d]) }
  ghost predicate RqsSorted(s: State) { forall d :: d in s.rq ==> RqSorted(s, s.rq[d]) }

  /** Each token is where the phase says and only there, and the tokens of a place are in order. */
  ghost predicate LinksFine(s: State) { LinksOk(s, {}) && LinksSorted(s) }
  ghost predicate SqsFine(s: State) { SqsOk(s, {}) && SqsSorted(s) }
  ghost predicate RqsFine(s: State) { RqsOk(s, {}) && RqsSorted(s) }

  /** The send `a` was not overtaken by the matched send `b`. */
  predicate NotOvertaken(s: State, a: nat, b: nat)
    requires a in s.sends && b in s.matchOf && PairOk(s, b)
  {
    var h, g := s.sends[a], s.sends[b];
    h.req.src == g.req.src && h.no < g.no && !h.phase.Fresh? && Accepts(s.recvs[s.matchOf[b]].req, h.req)
    ==> !h.phase.Unmet()
  }

  /** Of two sends of one source that a receive could take, the earlier one was taken first. */
  ghost predicate SendsInOrder(s: State)
    requires PairsOk(s)
  {
    forall a, b :: a in s.sends && b in s.matchOf ==> NotOvertaken(s, a, b)
  }

  /** The receive `r` was not passed over when `sid` was matched. */
  predicate NotPassedOver(s: State, r: nat, sid: nat)
    requires r in s.recvs && sid in s.matchOf && PairOk(s, sid)
  {
    var p, q := s.recvs[r], s.recvs[s.matchOf[sid]];
    !p.phase.Created? && p.no < q.no && Accepts(p.req, s.sends[sid].req) ==> !p.phase.Posted?
  }

  /** Of two receives that could take a send, the earlier one was used first. */
  ghost predicate RecvsInOrder(s: State)
    requires PairsOk(s)
  {
    forall r, sid :: r in s.recvs && sid in s.matchOf ==> NotPassedOver(s, r, sid)
  }

  // ---------- Resources ----------

  ghost predicate ResourcesOk(s: State) {
    && NoDup(s.sfrees) && NoDup(s.rfrees)
    && (forall sid :: sid in s.sfrees <==> sid in s.sends && s.sends[sid].stat == FREE)
    && (forall rid :: rid in s.rfrees <==> rid in s.recvs && s.recvs[rid].stat == FREE)
    && (forall sid :: sid in s.sysLive <==> sid in s.sends && s.sends[sid].req.hasSys && s.sends[sid].stat != FREE)
  }

  ghost predicate Inv(s: State) {
    && !s.err
    && PairsOk(s)
    && HandlesOk(s)
    && LinksFine(s) && SqsFine(s) && RqsFine(s)
    && Apart(s)
    && QueueBeforeLink(s)
    && SendsInOrder(s)
    && RecvsInOrder(s)
    && ResourcesOk(s)
  }

  // ---------- Parts of the invariant, one handle at a time ----------

  lemma SendAt(s: State, sid: nat)
    requires Inv(s) && sid in s.sends
    ensures sid in s.matchOf ==> PairOk(s, sid)
    ensures SendOk(s, sid)
    ensures sid in s.sfrees <==> s.sends[sid].stat == FREE
    ensures sid in s.sysLive <==> s.sends[sid].req.hasSys && s.sends[sid].stat != FREE
  {
    hide LinksFine, SqsFine, RqsFine, Apart, QueueBeforeLink, SendsInOrder, RecvsInOrder;
    if sid in s.matchOf { PairAt(s, sid); }
  }

  lemma RecvAt(s: State, rid: nat)
    requires Inv(s) && rid in s.recvs
    ensures RecvOk(s, rid)
    ensures rid in s.rfrees <==> s.recvs[rid].stat == FREE
  {
    hide LinksFine, SqsFine, RqsFine, Apart, QueueBeforeLink, SendsInOrder, RecvsInOrder;
  }
}

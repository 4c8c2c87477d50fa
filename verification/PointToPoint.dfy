/**
 * Point-to-point messages between the threads of a cluster.
 *
 * Every mutex-protected section of `intra_sr.c` and every message handler of
 * `inter_sr.c` is one atomic step of a global state.  The state holds all the
 * send and receive handles, one send queue and one receive queue per
 * destination (the channel), and one FIFO link per ordered pair of machines.
 * Handle identities are numbers that are never used again, so a reference that
 * outlives its handle can be talked about.
 *
 * `Send.phase`, `Send.no`, `Recv.phase`, `Recv.no`, `State.matchOf` and the two
 * logs of freed handles are history: no branch of a step reads them.
 */
module PointToPoint {
  import opened Basics

  // ---------- Data model ----------

  /** A rank, already translated to its machine and its thread on that machine. */
  datatype Rank = Rank(mac: nat, local: nat)

  type Byte = b: int | 0 <= b < 256

  /** A source or a tag to match: the wildcard or one value. */
  datatype Pat<T(==)> = Any | Is(v: T) {
    predicate Takes(x: T) { Any? || v == x }
  }

  datatype Mode = STANDARD | READY | SYNC | BUFFERED

  /** The handle states that occur without cancellation; names as in `tmpi_struct.h`. */
  datatype Stat =
    CREATE | PEND_STRT | PEND_WAIT | PEND_RELS | PEND_DATA | PEND_DWAT | PEND_NRDY | MATCH | FREE
  {
    /** The TMPI_PEND bit is part of the state code. */
    predicate Pend() { !CREATE? && !MATCH? && !FREE? }

    /** The TMPI_WAIT bit is part of the state code. */
    predicate WaitBit() { PEND_WAIT? || PEND_DWAT? }

    /** One of the bits that `tmpi_inter_wait_sh` and `tmpi_intra_wait_rh` test on entry. */
    predicate Waitable() { Pend() || MATCH? }
  }

  datatype Ret = SUCCESS | ERR_NRDY | ERR_REQUEST

  /**
   * Where the thread that owns a handle stands: not in a wait call, blocked in
   * the READY loop or in the main loop of a wait call (`sig`: a signal is
   * pending for it), or back from the wait call.
   */
  datatype Owner = Running | FirstWait(sig: bool) | Waiting(sig: bool) | Returned(ret: Ret)

  /** What the caller of a send asked for; `hasSys` tells if `mb_alloc` gave it a system buffer. */
  datatype SendReq = SendReq(src: Rank, dest: Rank, tag: int, ctx: nat, mode: Mode,
                             payload: seq<Byte>, hasSys: bool)
  {
    predicate Remote() { src.mac != dest.mac }
    function Header(): Hdr { Hdr(src, dest, tag, ctx, mode, |payload|) }
    /** The wait call may return before the message is matched. */
    predicate MayLeave() { mode == BUFFERED || (mode == STANDARD && hasSys) }
  }

  datatype RecvReq = RecvReq(dest: Rank, src: Pat<Rank>, tag: Pat<int>, ctx: nat, buffer: seq<Byte>)

  /** The receive matches the send: source, tag and context. */
  predicate Accepts(r: RecvReq, q: SendReq) {
    r.dest == q.dest && r.ctx == q.ctx && r.src.Takes(q.src) && r.tag.Takes(q.tag)
  }

  /** The part of a send handle that `memcpy` copies into a request message. */
  datatype Hdr = Hdr(src: Rank, dest: Rank, tag: int, ctx: nat, mode: Mode, buflen: nat)

  /** Messages between machines.  `RMS`, `RMDS` and `RDS` travel to the receiver, the others back. */
  datatype Msg =
    | RMS(sid: nat, hdr: Hdr)
    | RMDS(sid: nat, hdr: Hdr, payload: seq<Byte>)
    | RMR(sid: nat, rid: nat, buflen: nat)
    | RDS(sid: nat, rid: nat, buflen: nat, payload: seq<Byte>)
    | RDR(sid: nat, buflen: nat)
    | RMDR(sid: nat, buflen: nat)
    | RNDY(sid: nat)
  {
    predicate Forward() { RMS? || RMDS? || RDS? }
    /** The first message of a send. */
    predicate Request() { RMS? || RMDS? }
  }

  /**
   * An element of a send queue: a local send handle, or the copy of a remote
   * one, with its data (MSGDAT) or without (MSG).
   */
  datatype SEntry = LocalE(sid: nat) | RemoteE(sid: nat, hdr: Hdr, data: Option<seq<Byte>>)

  datatype Option<T> = None | Some(value: T)

  /** The place where the one token of a send is. */
  datatype SPhase = Fresh | Flight(m: Msg) | Queued(e: SEntry) | Done | Refused
  {
    function Stage(): nat {
      match this
      case Fresh => 0
      case Flight(m) => if m.RDS? || m.RDR? then 2 else 1
      case Queued(_) => 1
      case Done => 3
      case Refused => 4
    }

    /** Started and not yet met by the receiver. */
    predicate Unmet() { Queued? || (Flight? && m.Request()) }
  }

  datatype RPhase = Created | Posted | Awaiting(sid: nat) | Received(sid: nat)

  datatype Send = Send(req: SendReq, stat: Stat, owner: Owner, buflen: nat,
                       user: seq<Byte>, sys: seq<Byte>, inSys: bool, no: nat, phase: SPhase)
  {
    /** The bytes that `curdata` points at. */
    function CurData(): seq<Byte> { if inSys then sys else user }

    /** `thr_cnd_signal` on the handle: it reaches an owner that is blocked. */
    function Signal(): Owner {
      match owner
      case FirstWait(_) => FirstWait(true)
      case Waiting(_) => Waiting(true)
      case o => o
    }
  }

  datatype Recv = Recv(req: RecvReq, stat: Stat, owner: Owner, src: Pat<Rank>, tag: Pat<int>,
                       buflen: nat, data: seq<Byte>, no: nat, phase: RPhase)
  {
    function Signal(): Owner {
      match owner
      case FirstWait(_) => FirstWait(true)
      case Waiting(_) => Waiting(true)
      case o => o
    }
  }

  datatype State = State(sends: map<nat, Send>, recvs: map<nat, Recv>,
                         sq: map<Rank, seq<SEntry>>, rq: map<Rank, seq<nat>>,
                         links: map<(nat, nat), seq<Msg>>,
                         sysLive: set<nat>, err: bool,
                         clock: nat, matchOf: map<nat, nat>,
                         sfrees: seq<nat>, rfrees: seq<nat>)
  {
    function SQ(d: Rank): seq<SEntry> { if d in sq then sq[d] else [] }
    function RQ(d: Rank): seq<nat> { if d in rq then rq[d] else [] }
    function Link(a: nat, b: nat): seq<Msg> { if (a, b) in links then links[(a, b)] else [] }
    /** A handle behind a pointer; a pointer to no handle reads as a blank one. */
    function Snd(sid: nat): Send { if sid in sends then sends[sid] else BLANK_SEND }
    function Rcv(rid: nat): Recv { if rid in recvs then recvs[rid] else BLANK_RECV }
    /** `netq_send` of one message with its payload. */
    function Post(a: nat, b: nat, m: Msg): State { this.(links := links[(a, b) := Link(a, b) + [m]]) }
    /** `tmpi_intra_free_sh`: the handle and its system buffer go back. */
    function FreeSh(sid: nat): State { this.(sysLive := sysLive - {sid}, sfrees := sfrees + [sid]) }
    function FreeRh(rid: nat): State { this.(rfrees := rfrees + [rid]) }
    function PutS(sid: nat, h: Send): State { this.(sends := sends[sid := h]) }
    function PutR(rid: nat, r: Recv): State { this.(recvs := recvs[rid := r]) }
    function SetSQ(d: Rank, q: seq<SEntry>): State { this.(sq := sq[d := q]) }
    function SetRQ(d: Rank, q: seq<nat>): State { this.(rq := rq[d := q]) }
    /** A protocol error branch was taken, or a handler left bytes of a payload on the link. */
    function Flag(bad: bool): State { this.(err := err || bad) }
  }

  const NULL_RANK := Rank(0, 0)
  const BLANK_SEND := Send(SendReq(NULL_RANK, NULL_RANK, 0, 0, STANDARD, [], false),
                           CREATE, Running, 0, [], [], false, 0, Fresh)
  const BLANK_RECV := Recv(RecvReq(NULL_RANK, Any, Any, 0, []),
                           CREATE, Running, Any, Any, 0, [], 0, Created)

  /** Messages shorter than this carry their data at once. */
  const TMPI_MAX_SHORT_MSG := 3000 * 0x400

  function Prefix<T>(s: seq<T>, n: nat): seq<T> { if n <= |s| then s[..n] else s }

  /** `memcpy(to, from, n)` on whole buffers. */
  function CopyInto<T>(to: seq<T>, from: seq<T>, n: nat): seq<T> {
    if n <= |from| && n <= |to| then from[..n] + to[n..] else to
  }

  function RemoveAt<T>(q: seq<T>, i: nat): seq<T>
    requires i < |q|
  { q[..i] + q[i + 1..] }

  // ---------- Matching ----------

  /** `rq_cmp`: a queued receive handle against the envelope of a message. */
  predicate RqCmp(r: Recv, ctx: nat, tag: int, src: Rank) {
    r.src.Takes(src) && r.tag.Takes(tag) && r.req.ctx == ctx && r.stat.Pend()
  }

  /** `sq_cmp`: a queued send against what a receive asks for.  A remote copy is always TMPI_PEND. */
  predicate SqCmp(s: State, e: SEntry, ctx: nat, tag: Pat<int>, src: Pat<Rank>) {
    match e
    case LocalE(sid) =>
      var h := s.Snd(sid);
      src.Takes(h.req.src) && tag.Takes(h.req.tag) && h.req.ctx == ctx && h.stat.Pend()
    case RemoteE(_, hdr, _) =>
      src.Takes(hdr.src) && tag.Takes(hdr.tag) && hdr.ctx == ctx
  }

  /** `Q_find` on a receive queue: the index of the first match, or the length of the queue. */
  function FindRecv(s: State, q: seq<nat>, ctx: nat, tag: int, src: Rank): (i: nat)
    ensures i <= |q|
    ensures forall j :: 0 <= j < i ==> !RqCmp(s.Rcv(q[j]), ctx, tag, src)
    ensures i < |q| ==> RqCmp(s.Rcv(q[i]), ctx, tag, src)
  {
    if q == [] || RqCmp(s.Rcv(q[0]), ctx, tag, src) then 0
    else 1 + FindRecv(s, q[1..], ctx, tag, src)
  }

  /** `Q_find` on a send queue. */
  function FindSend(s: State, q: seq<SEntry>, ctx: nat, tag: Pat<int>, src: Pat<Rank>): (i: nat)
    ensures i <= |q|
    ensures forall j :: 0 <= j < i ==> !SqCmp(s, q[j], ctx, tag, src)
    ensures i < |q| ==> SqCmp(s, q[i], ctx, tag, src)
  {
    if q == [] || SqCmp(s, q[0], ctx, tag, src) then 0
    else 1 + FindSend(s, q[1..], ctx, tag, src)
  }

  // ---------- Steps of the owner of a send ----------

  /** `tmpi_intra_init_sh`; `alloc` tells if `mb_alloc` would succeed. */
  function InitSh(s: State, sid: nat, src: Rank, dest: Rank, tag: int, ctx: nat, mode: Mode,
                  buf: seq<Byte>, alloc: bool): State
  {
    var hasSys := (mode == STANDARD || mode == BUFFERED) && |buf| > 0 && alloc;
    if mode == BUFFERED && !hasSys && |buf| > 0 then s   // MPI_ERR_BUFFER, the handle is given back
    else
      var req := SendReq(src, dest, tag, ctx, mode, buf, hasSys);
      s.PutS(sid, Send(req, CREATE, Running, |buf|, buf, [], false, 0, Fresh))
       .(sysLive := s.sysLive + if hasSys then {sid} else {})
  }

  /** `tmpi_inter_start_sh` */
  function StartRemoteSh(s: State, sid: nat): State {
    var h := s.Snd(sid);
    var m := if h.buflen < TMPI_MAX_SHORT_MSG
             then RMDS(sid, h.req.Header(), Prefix(h.CurData(), h.buflen))
             else RMS(sid, h.req.Header());
    s.PutS(sid, h.(stat := PEND_STRT, no := s.clock, phase := Flight(m)))
     .Post(h.req.src.mac, h.req.dest.mac, m)
     .(clock := s.clock + 1)
  }

  /** A queued receive handle gets its data: MATCH, and a signal if the owner blocks. */
  function MatchRecv(r: Recv): Recv {
    if r.stat == PEND_WAIT then r.(stat := MATCH, owner := r.Signal())
    else if r.stat == PEND_STRT then r.(stat := MATCH)
    else r
  }

  /** No receive is there: the send waits in the queue of its receiver. */
  function QueueLocal(s: State, sid: nat): State {
    var h := s.Snd(sid);
    s.PutS(sid, h.(stat := PEND_STRT, no := s.clock, phase := Queued(LocalE(sid))))
     .SetSQ(h.req.dest, s.SQ(h.req.dest) + [LocalE(sid)])
     .(clock := s.clock + 1)
  }

  /** The receive at index `i` of the queue takes the send. */
  function MatchLocal(s: State, sid: nat, i: nat): State
    requires i < |s.RQ(s.Snd(sid).req.dest)|
  {
    var h := s.Snd(sid);
    var rid := s.RQ(h.req.dest)[i];
    var r := s.Rcv(rid);
    var n := Min(h.buflen, r.buflen);
    var r' := r.(src := Is(h.req.src), tag := Is(h.req.tag), buflen := n,
                 data := CopyInto(r.data, h.CurData(), n), phase := Received(sid));
    s.PutS(sid, h.(stat := MATCH, buflen := n, no := s.clock, phase := Done))
     .PutR(rid, MatchRecv(r'))
     .SetRQ(h.req.dest, RemoveAt(s.RQ(h.req.dest), i))
     .Flag(r.stat != PEND_WAIT && r.stat != PEND_STRT)
     .(clock := s.clock + 1, matchOf := s.matchOf[sid := rid])
  }

  /** `tmpi_intra_start_sh` for a receiver on the same machine */
  function StartLocalSh(s: State, sid: nat): State {
    var q := s.Snd(sid).req;
    var i := FindRecv(s, s.RQ(q.dest), q.ctx, q.tag, q.src);
    if i == |s.RQ(q.dest)| then QueueLocal(s, sid) else MatchLocal(s, sid, i)
  }

  function StartSh(s: State, sid: nat): State {
    if s.Snd(sid).req.Remote() then StartRemoteSh(s, sid) else StartLocalSh(s, sid)
  }

  /** The end of a wait call that gives the handle back. */
  function FinishSh(s: State, sid: nat, ret: Ret): State {
    s.PutS(sid, s.Snd(sid).(stat := FREE, owner := Returned(ret))).FreeSh(sid)
  }

  /** The BUFFERED branch of the two wait functions: save the data and leave. */
  function LeaveBuffered(s: State, sid: nat): State {
    var h := s.Snd(sid);
    var h' := if h.inSys || !h.req.hasSys then h
              else h.(sys := Prefix(h.user, h.buflen), inSys := true);
    var ret := if h'.inSys then SUCCESS else ERR_REQUEST;
    s.PutS(sid, h'.(stat := PEND_RELS, owner := Returned(ret)))
  }

  /** `tmpi_inter_wait_sh` once the READY loop is behind */
  function RemoteWaitTail(s: State, sid: nat): State {
    var h := s.Snd(sid);
    if h.stat == MATCH then FinishSh(s, sid, SUCCESS)
    else if h.stat == PEND_NRDY then FinishSh(s, sid, ERR_NRDY).Flag(h.req.mode != READY)
    else if h.req.MayLeave() then LeaveBuffered(s, sid)
    else s.PutS(sid, h.(stat := if h.stat == PEND_STRT then PEND_WAIT else PEND_DWAT, owner := Waiting(false)))
  }

  /** `tmpi_intra_wait_sh` for a receiver on the same machine, after its entry test */
  function LocalWait(s: State, sid: nat): State {
    var h := s.Snd(sid);
    if h.stat == MATCH then FinishSh(s, sid, SUCCESS)
    else if h.req.MayLeave() then LeaveBuffered(s, sid)
    else if h.req.mode == READY then FinishSh(s, sid, ERR_NRDY)
    else s.PutS(sid, h.(stat := PEND_WAIT, owner := Waiting(false)))
  }

  /** The entry of `tmpi_intra_wait_sh` up to its first block or its return */
  function WaitSh(s: State, sid: nat): State {
    var h := s.Snd(sid);
    if !h.stat.Waitable() then s.Flag(true)
    else if !h.req.Remote() then LocalWait(s, sid)
    else if h.stat == PEND_STRT && h.req.mode == READY then s.PutS(sid, h.(owner := FirstWait(false)))
    else RemoteWaitTail(s, sid)
  }

  /** `thr_cnd_wait` returns, signalled or not, and the loop test is made again. */
  function WakeSh(s: State, sid: nat): State {
    var h := s.Snd(sid);
    if h.owner.FirstWait? then
      if h.stat == PEND_STRT then s.PutS(sid, h.(owner := FirstWait(false)))
      else RemoteWaitTail(s, sid)
    else if h.req.Remote() then
      if h.stat != MATCH then s.PutS(sid, h.(owner := Waiting(false)))
      else FinishSh(s, sid, SUCCESS)
    else if h.stat == PEND_WAIT then s.PutS(sid, h.(owner := Waiting(false)))
    else FinishSh(s, sid, SUCCESS).Flag(h.stat != MATCH)
  }

  /** The sender is back from its wait call and uses its buffer again. */
  function Scribble(s: State, sid: nat, bytes: seq<Byte>): State {
    s.PutS(sid, s.Snd(sid).(user := bytes))
  }

  // ---------- Steps of the owner of a receive ----------

  /** `tmpi_intra_init_rh` */
  function InitRh(s: State, rid: nat, req: RecvReq): State {
    s.PutR(rid, Recv(req, CREATE, Running, req.src, req.tag, |req.buffer|, req.buffer, 0, Created))
  }

  /** A queued send handle of the same machine is matched; PEND_RELS means that its owner has left. */
  function MatchSend(h: Send): Send {
    if h.stat == PEND_WAIT then h.(stat := MATCH, owner := h.Signal())
    else if h.stat == PEND_STRT then h.(stat := MATCH)
    else if h.stat == PEND_RELS then h.(stat := FREE)
    else h
  }

  /** The branch of `tmpi_intra_start_rh` that takes a send handle of the same machine */
  function TakeLocal(s: State, rid: nat, sid: nat): State {
    var r, h := s.Rcv(rid), s.Snd(sid);
    var n := Min(h.buflen, r.buflen);
    var r' := r.(src := Is(h.req.src), tag := Is(h.req.tag), buflen := n, stat := MATCH, no := s.clock,
                 data := CopyInto(r.data, h.CurData(), n), phase := Received(sid));
    var t := s.PutR(rid, r').PutS(sid, MatchSend(h.(buflen := n, phase := Done)));
    if h.stat == PEND_RELS then t.FreeSh(sid) else t.Flag(h.stat != PEND_WAIT && h.stat != PEND_STRT)
  }

  /** The branch that takes the copy of a remote send handle */
  function TakeRemote(s: State, rid: nat, e: SEntry): State
    requires e.RemoteE?
  {
    var r := s.Rcv(rid);
    var h := s.Snd(e.sid);
    var n := Min(e.hdr.buflen, r.buflen);
    var r' := r.(src := Is(e.hdr.src), tag := Is(e.hdr.tag), buflen := n, no := s.clock);
    var m := if e.data.Some? then RMDR(e.sid, n) else RMR(e.sid, rid, n);
    var r'' := if e.data.Some?
               then r'.(stat := MATCH, data := CopyInto(r.data, e.data.value, n), phase := Received(e.sid))
               else r'.(stat := PEND_DATA, phase := Awaiting(e.sid));
    s.PutR(rid, r'').PutS(e.sid, h.(phase := Flight(m))).Post(r.req.dest.mac, e.hdr.src.mac, m)
  }

  /** No send is there: the receive waits in its queue. */
  function PostRecv(s: State, rid: nat): State {
    var r := s.Rcv(rid);
    s.PutR(rid, r.(stat := PEND_STRT, no := s.clock, phase := Posted))
     .SetRQ(r.req.dest, s.RQ(r.req.dest) + [rid])
     .(clock := s.clock + 1)
  }

  /** The receive takes the element at index `i` of the send queue. */
  function TakeSend(s: State, rid: nat, i: nat): State
    requires i < |s.SQ(s.Rcv(rid).req.dest)|
  {
    var r := s.Rcv(rid);
    var q := s.SQ(r.req.dest);
    var t := if q[i].LocalE? then TakeLocal(s, rid, q[i].sid) else TakeRemote(s, rid, q[i]);
    t.SetSQ(r.req.dest, RemoveAt(q, i)).(clock := s.clock + 1, matchOf := s.matchOf[q[i].sid := rid])
  }

  /** `tmpi_intra_start_rh` */
  function StartRh(s: State, rid: nat): State {
    var r := s.Rcv(rid);
    var q := s.SQ(r.req.dest);
    var i := FindSend(s, q, r.req.ctx, r.tag, r.src);
    if i == |q| then PostRecv(s, rid) else TakeSend(s, rid, i)
  }

  function FinishRh(s: State, rid: nat): State {
    s.PutR(rid, s.Rcv(rid).(stat := FREE, owner := Returned(SUCCESS))).FreeRh(rid)
  }

  /** The entry of `tmpi_intra_wait_rh` up to its block or its return */
  function WaitRh(s: State, rid: nat): State {
    var r := s.Rcv(rid);
    if !r.stat.Waitable() then s.Flag(true)
    else if r.stat == MATCH then FinishRh(s, rid)
    else s.PutR(rid, r.(stat := if r.stat == PEND_STRT then PEND_WAIT else PEND_DWAT, owner := Waiting(false)))
  }

  function WakeRh(s: State, rid: nat): State {
    var r := s.Rcv(rid);
    if r.stat != MATCH then s.PutR(rid, r.(owner := Waiting(false)))
    else FinishRh(s, rid)
  }

  // ---------- Message handlers ----------

  /** The receive at index `i` of the queue is to get the data of a long send. */
  function RmsMatch(s: State, sid: nat, hdr: Hdr, i: nat): State
    requires i < |s.RQ(hdr.dest)|
  {
    var rid := s.RQ(hdr.dest)[i];
    var r := s.Rcv(rid);
    var n := Min(r.buflen, hdr.buflen);
    var m := RMR(sid, rid, n);
    s.PutR(rid, r.(tag := Is(hdr.tag), src := Is(hdr.src), buflen := n, phase := Awaiting(sid),
                   stat := if r.stat == PEND_STRT then PEND_DATA
                           else if r.stat == PEND_WAIT then PEND_DWAT else r.stat))
     .PutS(sid, s.Snd(sid).(phase := Flight(m)))
     .SetRQ(hdr.dest, RemoveAt(s.RQ(hdr.dest), i))
     .Flag(r.stat != PEND_WAIT && r.stat != PEND_STRT)
     .Post(hdr.dest.mac, hdr.src.mac, m)
     .(matchOf := s.matchOf[sid := rid])
  }

  /** No receive is there: a copy of the remote handle waits in the send queue. */
  function QueueRemote(s: State, sid: nat, hdr: Hdr, data: Option<seq<Byte>>): State {
    var e := RemoteE(sid, hdr, data);
    s.PutS(sid, s.Snd(sid).(phase := Queued(e))).SetSQ(hdr.dest, s.SQ(hdr.dest) + [e])
  }

  /** No receive is there for a ready send. */
  function Refuse(s: State, sid: nat, hdr: Hdr): State {
    s.PutS(sid, s.Snd(sid).(phase := Flight(RNDY(sid)))).Post(hdr.dest.mac, hdr.src.mac, RNDY(sid))
  }

  /** `tmpi_rms_handle`: a long send asks for its receiver. */
  function RmsHandle(s: State, sid: nat, hdr: Hdr): State {
    var i := FindRecv(s, s.RQ(hdr.dest), hdr.ctx, hdr.tag, hdr.src);
    if i < |s.RQ(hdr.dest)| then RmsMatch(s, sid, hdr, i)
    else if hdr.mode != READY then QueueRemote(s, sid, hdr, None)
    else Refuse(s, sid, hdr)
  }

  /** The receive at index `i` of the queue gets the data of a short send. */
  function RmdsMatch(s: State, sid: nat, hdr: Hdr, payload: seq<Byte>, i: nat): State
    requires i < |s.RQ(hdr.dest)|
  {
    var rid := s.RQ(hdr.dest)[i];
    var r := s.Rcv(rid);
    var n := Min(r.buflen, hdr.buflen);
    var taken := n + if n < hdr.buflen then hdr.buflen - n else 0;
    var m := RMDR(sid, n);
    var r' := r.(tag := Is(hdr.tag), src := Is(hdr.src), buflen := n,
                 data := CopyInto(r.data, payload, n), phase := Received(sid));
    s.PutR(rid, MatchRecv(r'))
     .PutS(sid, s.Snd(sid).(phase := Flight(m)))
     .SetRQ(hdr.dest, RemoveAt(s.RQ(hdr.dest), i))
     .Flag((r.stat != PEND_WAIT && r.stat != PEND_STRT) || taken != |payload|)
     .Post(hdr.dest.mac, hdr.src.mac, m)
     .(matchOf := s.matchOf[sid := rid])
  }

  /**
   * `tmpi_rmds_handle`: a short send with its data.  `alloc` tells if the
   * receiver has buffer space for data that nobody waits for; without it the
   * data is dumped and the send is queued as a long one.
   */
  function RmdsHandle(s: State, sid: nat, hdr: Hdr, payload: seq<Byte>, alloc: bool): State {
    var i := FindRecv(s, s.RQ(hdr.dest), hdr.ctx, hdr.tag, hdr.src);
    if i < |s.RQ(hdr.dest)| then RmdsMatch(s, sid, hdr, payload, i)
    else if hdr.mode != READY then
      QueueRemote(s, sid, hdr, if alloc then Some(Prefix(payload, hdr.buflen)) else None)
        .Flag(hdr.buflen != |payload|)
    else Refuse(s, sid, hdr).Flag(hdr.buflen != |payload|)
  }

  /** The receive handle after the data of a long send */
  function WithData(r: Recv, sid: nat, n: nat, payload: seq<Byte>): Recv {
    r.(buflen := n, data := CopyInto(r.data, payload, n), stat := MATCH, phase := Received(sid),
       owner := if r.stat == PEND_DWAT then r.Signal() else r.owner)
  }

  /** `tmpi_rds_handle`: the data of a long send arrives. */
  function RdsHandle(s: State, sid: nat, rid: nat, buflen: nat, payload: seq<Byte>): State {
    var r := s.Rcv(rid);
    var n := Min(r.buflen, buflen);
    var src := if r.src.Is? then r.src.v else NULL_RANK;
    var m := RDR(sid, n);
    var awaited := r.stat == PEND_DATA || r.stat == PEND_DWAT;
    var taken := if awaited then n + (if n < buflen then buflen - n else 0) else 0;
    s.PutR(rid, if awaited then WithData(r, sid, n, payload) else r.(buflen := n))
     .PutS(sid, s.Snd(sid).(phase := Flight(m)))
     .Flag(!awaited || taken != |payload|)
     .Post(r.req.dest.mac, src.mac, m)
  }

  /** The send handle once its receiver is ready */
  function DataSent(h: Send): Send {
    if h.stat == PEND_STRT then
      h.(stat := PEND_DATA, owner := if h.req.mode == READY then h.Signal() else h.owner)
    else if h.stat == PEND_WAIT then h.(stat := PEND_DWAT)
    else h
  }

  /** `tmpi_rmr_handle`: the receiver of a long send is ready for its data. */
  function RmrHandle(s: State, sid: nat, rid: nat, buflen: nat): State {
    var h := s.Snd(sid);
    var n := Min(h.buflen, buflen);
    var m := RDS(sid, rid, n, Prefix(h.CurData(), n));
    s.PutS(sid, DataSent(h).(phase := Flight(m)))
     .Flag(h.stat != PEND_STRT && h.stat != PEND_WAIT && h.stat != PEND_RELS)
     .Post(h.req.src.mac, h.req.dest.mac, m)
  }

  /** The handle of a long send after its acknowledgement */
  function LongDone(h: Send, buflen: nat): Send {
    var g := h.(buflen := buflen, phase := Done);
    if h.stat == PEND_DATA then g.(stat := MATCH)
    else if h.stat == PEND_DWAT then g.(stat := MATCH, owner := h.Signal())
    else if h.stat == PEND_RELS then g.(stat := FREE)
    else g
  }

  /** `tmpi_rdr_handle`: the data of a long send was delivered. */
  function RdrHandle(s: State, sid: nat, buflen: nat): State {
    var h := s.Snd(sid);
    var t := s.PutS(sid, LongDone(h, buflen));
    if h.stat == PEND_RELS then t.FreeSh(sid) else t.Flag(h.stat != PEND_DATA && h.stat != PEND_DWAT)
  }

  /** The handle of a short send after its acknowledgement */
  function ShortDone(h: Send, buflen: nat): Send {
    var g := h.(buflen := buflen, phase := Done);
    if h.stat == PEND_STRT then g.(stat := MATCH, owner := if h.req.mode == READY then h.Signal() else h.owner)
    else if h.stat == PEND_WAIT then g.(stat := MATCH, owner := h.Signal())
    else if h.stat == PEND_RELS then g.(stat := FREE)
    else g
  }

  /** `tmpi_rmdr_handle`: a short send was delivered. */
  function RmdrHandle(s: State, sid: nat, buflen: nat): State {
    var h := s.Snd(sid);
    var t := s.PutS(sid, ShortDone(h, buflen));
    if h.stat == PEND_RELS then t.FreeSh(sid) else t.Flag(h.stat != PEND_STRT && h.stat != PEND_WAIT)
  }

  /** `tmpi_rndy_handle`: a ready send found no receive. */
  function RndyHandle(s: State, sid: nat): State {
    var h := s.Snd(sid).(phase := Refused);
    var h' := if h.stat == PEND_STRT then h.(stat := PEND_NRDY, owner := h.Signal()) else h;
    s.PutS(sid, h').Flag(h.stat != PEND_STRT)
  }

  /** `tmpi_inter_msg_handle` on the message at the head of a link */
  function Handle(s: State, m: Msg, alloc: bool): State {
    match m
    case RMS(sid, hdr) => RmsHandle(s, sid, hdr)
    case RMDS(sid, hdr, payload) => RmdsHandle(s, sid, hdr, payload, alloc)
    case RDS(sid, rid, n, payload) => RdsHandle(s, sid, rid, n, payload)
    case RMR(sid, rid, n) => RmrHandle(s, sid, rid, n)
    case RDR(sid, n) => RdrHandle(s, sid, n)
    case RMDR(sid, n) => RmdrHandle(s, sid, n)
    case RNDY(sid) => RndyHandle(s, sid)
  }

  function PopLink(s: State, a: nat, b: nat): State
    requires s.Link(a, b) != []
  { s.(links := s.links[(a, b) := s.Link(a, b)[1..]]) }

  function Deliver(s: State, a: nat, b: nat, alloc: bool): State
    requires s.Link(a, b) != []
  { Handle(PopLink(s, a, b), s.Link(a, b)[0], alloc) }

  // ---------- Runs ----------

  datatype Step =
    | SInit(sid: nat, src: Rank, dest: Rank, tag: int, ctx: nat, mode: Mode, buf: seq<Byte>, alloc: bool)
    | SStart(sid: nat) | SWait(sid: nat) | SWake(sid: nat) | SScribble(sid: nat, bytes: seq<Byte>)
    | RInit(rid: nat, rreq: RecvReq) | RStart(rid: nat) | RWait(rid: nat) | RWake(rid: nat)
    | Arrive(a: nat, b: nat, alloc: bool)

  /** The send would find a posted receive. */
  predicate ReceivePosted(s: State, sid: nat) {
    var h := s.Snd(sid);
    var q := s.RQ(h.req.dest);
    FindRecv(s, q, h.req.ctx, h.req.tag, h.req.src) < |q|
  }

  /**
   * What a correct program may do next: each handle is initialised, started and
   * waited for once, in this order; a ready send to the same machine has its
   * receive posted; the buffer of a send is left alone until its wait returns.
   */
  predicate Enabled(s: State, st: Step) {
    match st
    case SInit(sid, _, _, _, _, _, _, _) => sid !in s.sends
    case SStart(sid) =>
      && sid in s.sends && s.sends[sid].stat == CREATE
      && (s.sends[sid].req.mode == READY && !s.sends[sid].req.Remote() ==> ReceivePosted(s, sid))
    case SWait(sid) => sid in s.sends && s.sends[sid].owner == Running && s.sends[sid].stat != CREATE
    case SWake(sid) => sid in s.sends && (s.sends[sid].owner.FirstWait? || s.sends[sid].owner.Waiting?)
    case SScribble(sid, bytes) =>
      sid in s.sends && s.sends[sid].owner.Returned? && |bytes| == |s.sends[sid].req.payload|
    case RInit(rid, _) => rid !in s.recvs
    case RStart(rid) => rid in s.recvs && s.recvs[rid].stat == CREATE
    case RWait(rid) => rid in s.recvs && s.recvs[rid].owner == Running && s.recvs[rid].stat != CREATE
    case RWake(rid) => rid in s.recvs && s.recvs[rid].owner.Waiting?
    case Arrive(a, b, _) => s.Link(a, b) != []
  }

  function Apply(s: State, st: Step): State
    requires Enabled(s, st)
  {
    match st
    case SInit(sid, src, dest, tag, ctx, mode, buf, alloc) => InitSh(s, sid, src, dest, tag, ctx, mode, buf, alloc)
    case SStart(sid) => StartSh(s, sid)
    case SWait(sid) => WaitSh(s, sid)
    case SWake(sid) => WakeSh(s, sid)
    case SScribble(sid, bytes) => Scribble(s, sid, bytes)
    case RInit(rid, rreq) => InitRh(s, rid, rreq)
    case RStart(rid) => StartRh(s, rid)
    case RWait(rid) => WaitRh(s, rid)
    case RWake(rid) => WakeRh(s, rid)
    case Arrive(a, b, alloc) => Deliver(s, a, b, alloc)
  }

  const INIT := State(map[], map[], map[], map[], map[], {}, false, 0, map[], [], [])

  ghost predicate Next(s: State, t: State) { exists st: Step :: Enabled(s, st) && Apply(s, st) == t }

  /** A run of any number of threads and machines from the empty system. */
  ghost predicate IsRun(run: seq<State>) {
    run != [] && run[0] == INIT && forall i :: 0 <= i < |run| - 1 ==> Next(run[i], run[i + 1])
  }
}

/**
 * The point-to-point code as it runs: shared fields updated in place, one
 * method for each mutex-protected section and each message handler, with the
 * search and dump loops of the source.  Every method is proved against the
 * function of `PointToPoint` that specifies its step.
 */
module PointToPointRuntime {
  import opened Basics
  import opened PointToPoint
  import opened PointToPointInv
  import opened PointToPointArrivals
  import opened PointToPointTheorems
  import opened PointToPointAnswers

  /** The first match is what the searches of the specification find. */
  lemma FindRecvAt(s: State, q: seq<nat>, ctx: nat, tag: int, src: Rank, i: nat)
    requires i <= |q| && forall j :: 0 <= j < i ==> !RqCmp(s.Rcv(q[j]), ctx, tag, src)
    requires i < |q| ==> RqCmp(s.Rcv(q[i]), ctx, tag, src)
    ensures FindRecv(s, q, ctx, tag, src) == i
  { }

  lemma FindSendAt(s: State, q: seq<SEntry>, ctx: nat, tag: Pat<int>, src: Pat<Rank>, i: nat)
    requires i <= |q| && forall j :: 0 <= j < i ==> !SqCmp(s, q[j], ctx, tag, src)
    requires i < |q| ==> SqCmp(s, q[i], ctx, tag, src)
    ensures FindSend(s, q, ctx, tag, src) == i
  { }

  /** `tmpi_dump_data`: read and drop `len` bytes, at most 1024 at a time; the bytes left are returned. */
  method DumpData(payload: seq<Byte>, len: nat) returns (rest: seq<Byte>)
    requires len <= |payload|
    ensures rest == payload[len..]
  {
    rest := payload;
    var left := len;
    while left > 0
      invariant 0 <= left <= len && rest == payload[len - left..]
    {
      var m := Min(left, 1024);
      rest := rest[m..];
      left := left - m;
    }
  }

  /** `netq_recvdata` into a buffer, then `tmpi_dump_data` of what does not fit */
  method ReceiveCut(buffer: seq<Byte>, payload: seq<Byte>, n: nat) returns (data: seq<Byte>, rest: seq<Byte>)
    requires n <= |payload| && n <= |buffer|
    ensures data == CopyInto(buffer, payload, n) && rest == []
  {
    data := payload[..n] + buffer[n..];
    rest := payload[n..];
    if n < |payload| { rest := DumpData(rest, |payload| - n); }
  }

  class Runtime {
    var sends: map<nat, Send>
    var recvs: map<nat, Recv>
    var sq: map<Rank, seq<SEntry>>
    var rq: map<Rank, seq<nat>>
    var links: map<(nat, nat), seq<Msg>>
    var sysLive: set<nat>
    var err: bool
    // history
    var clock: nat
    var matchOf: map<nat, nat>
    var sfrees: seq<nat>
    var rfrees: seq<nat>

    ghost function St(): State
      reads this
    {
      State(sends, recvs, sq, rq, links, sysLive, err, clock, matchOf, sfrees, rfrees)
    }

    constructor ()
      ensures St() == INIT && Inv(St())
    {
      sends, recvs, sq, rq, links := map[], map[], map[], map[], map[];
      sysLive, err := {}, false;
      clock, matchOf, sfrees, rfrees := 0, map[], [], [];
    }

    function RQ(d: Rank): seq<nat> reads this { if d in rq then rq[d] else [] }
    function SQ(d: Rank): seq<SEntry> reads this { if d in sq then sq[d] else [] }
    function Snd(sid: nat): Send reads this { if sid in sends then sends[sid] else BLANK_SEND }
    function Rcv(rid: nat): Recv reads this { if rid in recvs then recvs[rid] else BLANK_RECV }
    function Link(a: nat, b: nat): seq<Msg> reads this { if (a, b) in links then links[(a, b)] else [] }

    /** `Q_find` on a receive queue: the first match */
    method FindInRq(d: Rank, ctx: nat, tag: int, src: Rank) returns (i: nat)
      ensures i == FindRecv(St(), RQ(d), ctx, tag, src)
    {
      i := 0;
      while i < |RQ(d)| && !RqCmp(Rcv(RQ(d)[i]), ctx, tag, src)
        invariant i <= |RQ(d)|
        invariant forall j :: 0 <= j < i ==> !RqCmp(St().Rcv(RQ(d)[j]), ctx, tag, src)
      {
        i := i + 1;
      }
      FindRecvAt(St(), RQ(d), ctx, tag, src, i);
    }

    /** One comparison of the search of a send queue */
    method Matches(e: SEntry, ctx: nat, tag: Pat<int>, src: Pat<Rank>) returns (b: bool)
      ensures b == SqCmp(St(), e, ctx, tag, src)
    {
      match e
      case LocalE(sid) =>
        var h := Snd(sid);
        b := src.Takes(h.req.src) && tag.Takes(h.req.tag) && h.req.ctx == ctx && h.stat.Pend();
      case RemoteE(_, hdr, _) =>
        b := src.Takes(hdr.src) && tag.Takes(hdr.tag) && hdr.ctx == ctx;
    }

    /** `Q_find` on a send queue */
    method FindInSq(d: Rank, ctx: nat, tag: Pat<int>, src: Pat<Rank>) returns (i: nat)
      ensures i == FindSend(St(), SQ(d), ctx, tag, src)
    {
      i := 0;
      while i < |SQ(d)|
        invariant i <= |SQ(d)|
        invariant forall j :: 0 <= j < i ==> !SqCmp(St(), SQ(d)[j], ctx, tag, src)
      {
        var found := Matches(SQ(d)[i], ctx, tag, src);
        if found { break; }
        i := i + 1;
      }
      FindSendAt(St(), SQ(d), ctx, tag, src, i);
    }

    /** `netq_send` */
    method NetqSend(from: Rank, to: Rank, m: Msg)
      modifies this`links
      ensures St() == old(St()).Post(from.mac, to.mac, m)
    {
      links := links[(from.mac, to.mac) := Link(from.mac, to.mac) + [m]];
    }

    /** `tmpi_intra_free_sh` */
    method FreeSh(sid: nat)
      modifies this`sysLive, this`sfrees
      ensures St() == old(St()).FreeSh(sid)
    {
      sysLive := sysLive - {sid};
      sfrees := sfrees + [sid];
    }

    /** `tmpi_inter_start_sh` */
    method InterStartSh(sid: nat)
      requires sid in sends
      modifies this
      ensures St() == StartRemoteSh(old(St()), sid)
    {
      var sh := sends[sid];
      var short := sh.buflen < TMPI_MAX_SHORT_MSG;
      var request := if short then RMDS(sid, sh.req.Header(), Prefix(sh.CurData(), sh.buflen))
                     else RMS(sid, sh.req.Header());
      sends := sends[sid := sh.(stat := PEND_STRT, no := clock, phase := Flight(request))];
      clock := clock + 1;
      NetqSend(sh.req.src, sh.req.dest, request);
    }

    /** `tmpi_intra_start_sh` */
    method IntraStartSh(sid: nat)
      requires sid in sends
      modifies this
      ensures St() == StartSh(old(St()), sid)
    {
      var sh := sends[sid];
      if sh.req.Remote() {
        InterStartSh(sid);
        return;
      }
      var d := sh.req.dest;
      var i := FindInRq(d, sh.req.ctx, sh.req.tag, sh.req.src);
      if i == |RQ(d)| {
        sends := sends[sid := sh.(stat := PEND_STRT, no := clock, phase := Queued(LocalE(sid)))];
        sq := sq[d := SQ(d) + [LocalE(sid)]];
        clock := clock + 1;
      } else {
        TakeReceive(sid, i);
      }
    }

    /** A queued receive handle that has its data: MATCH, and a signal to a blocked owner */
    method CompleteRh(rid: nat, rh: Recv)
      modifies this`recvs, this`err
      ensures recvs == old(recvs)[rid := MatchRecv(rh)]
      ensures err == (old(err) || (rh.stat != PEND_WAIT && rh.stat != PEND_STRT))
    {
      var done := rh;
      if rh.stat == PEND_WAIT {
        done := rh.(stat := MATCH, owner := rh.Signal());
      } else if rh.stat != PEND_STRT {
        err := true;
      } else {
        done := rh.(stat := MATCH);
      }
      recvs := recvs[rid := done];
    }

    /** The branch of `tmpi_intra_start_sh` that found the receive at index `i` */
    method TakeReceive(sid: nat, i: nat)
      requires sid in sends && i < |RQ(sends[sid].req.dest)|
      modifies this
      ensures St() == MatchLocal(old(St()), sid, i)
    {
      hide RemoveAt, CopyInto, Min, MatchRecv;
      var sh := sends[sid];
      var d := sh.req.dest;
      var rid := RQ(d)[i];
      var rh := Rcv(rid);
      rh := rh.(src := Is(sh.req.src), tag := Is(sh.req.tag), buflen := Min(sh.buflen, rh.buflen),
                data := CopyInto(rh.data, sh.CurData(), Min(sh.buflen, rh.buflen)), phase := Received(sid));
      rq := rq[d := RemoveAt(RQ(d), i)];
      sends := sends[sid := sh.(stat := MATCH, buflen := rh.buflen, no := clock, phase := Done)];
      CompleteRh(rid, rh);
      Pair(sid, rid);
    }

    /** History: a match that a starting call makes */
    method Pair(sid: nat, rid: nat)
      modifies this`matchOf, this`clock
      ensures matchOf == old(matchOf)[sid := rid] && clock == old(clock) + 1
    {
      matchOf := matchOf[sid := rid];
      clock := clock + 1;
    }

    /** The end of a wait call on a send: the handle is given back. */
    method Finish(sid: nat, ret: Ret)
      requires sid in sends
      modifies this
      ensures St() == FinishSh(old(St()), sid, ret)
    {
      sends := sends[sid := sends[sid].(stat := FREE, owner := Returned(ret))];
      FreeSh(sid);
    }

    /** The label _INTER_BUFFER and _INTRA_BUFFER of the wait functions */
    method Leave(sid: nat)
      requires sid in sends
      modifies this`sends
      ensures St() == LeaveBuffered(old(St()), sid)
    {
      var sh := sends[sid];
      if !sh.inSys && sh.req.hasSys {
        sh := sh.(sys := Prefix(sh.user, sh.buflen), inSys := true);
      }
      var ret := if sh.inSys then SUCCESS else ERR_REQUEST;
      sends := sends[sid := sh.(stat := PEND_RELS, owner := Returned(ret))];
    }

    /** `tmpi_inter_wait_sh` after its READY loop */
    method InterWaitTail(sid: nat)
      requires sid in sends
      modifies this
      ensures St() == RemoteWaitTail(old(St()), sid)
    {
      var sh := sends[sid];
      if sh.stat == MATCH {
        Finish(sid, SUCCESS);
      } else if sh.stat == PEND_NRDY {
        if sh.req.mode != READY { err := true; }
        Finish(sid, ERR_NRDY);
      } else if sh.req.mode == BUFFERED || (sh.req.mode == STANDARD && sh.req.hasSys) {
        Leave(sid);
      } else {
        var next := PEND_DWAT;
        if sh.stat == PEND_STRT { next := PEND_WAIT; }
        sends := sends[sid := sh.(stat := next, owner := Waiting(false))];
      }
    }

    /** `tmpi_intra_wait_sh` up to its first `thr_cnd_wait` or its return */
    method IntraWaitSh(sid: nat)
      requires sid in sends
      modifies this
      ensures St() == WaitSh(old(St()), sid)
    {
      var sh := sends[sid];
      if !sh.stat.Waitable() {
        err := true;
      } else if sh.req.Remote() {
        if sh.stat == PEND_STRT && sh.req.mode == READY {
          sends := sends[sid := sh.(owner := FirstWait(false))];
        } else {
          InterWaitTail(sid);
        }
      } else if sh.stat == MATCH {
        Finish(sid, SUCCESS);
      } else if sh.req.mode == BUFFERED || (sh.req.mode == STANDARD && sh.req.hasSys) {
        Leave(sid);
      } else if sh.req.mode == READY {
        Finish(sid, ERR_NRDY);
      } else {
        sends := sends[sid := sh.(stat := PEND_WAIT, owner := Waiting(false))];
      }
    }

    /** The loops of the send waits after `thr_cnd_wait` has returned, signalled or not, up to the next block or the return */
    method IntraWakeSh(sid: nat)
      requires sid in sends && (sends[sid].owner.FirstWait? || sends[sid].owner.Waiting?)
      modifies this
      ensures St() == WakeSh(old(St()), sid)
    {
      var sh := sends[sid];
      if sh.owner.FirstWait? {
        // the loop of a ready sender
        if sh.stat == PEND_STRT {
          sends := sends[sid := sh.(owner := FirstWait(false))];
        } else {
          InterWaitTail(sid);
        }
      } else if if sh.req.Remote() then sh.stat != MATCH else sh.stat == PEND_WAIT {
        sends := sends[sid := sh.(owner := Waiting(false))];
      } else {
        if sh.stat != MATCH { err := true; }
        Finish(sid, SUCCESS);
      }
    }

    /** `tmpi_intra_free_rh` */
    method FreeRh(rid: nat)
      modifies this`rfrees
      ensures St() == old(St()).FreeRh(rid)
    {
      rfrees := rfrees + [rid];
    }

    /** The end of a wait call on a receive: the handle is given back. */
    method FinishReceive(rid: nat)
      requires rid in recvs
      modifies this
      ensures St() == FinishRh(old(St()), rid)
    {
      recvs := recvs[rid := recvs[rid].(stat := FREE, owner := Returned(SUCCESS))];
      FreeRh(rid);
    }

    /** `tmpi_intra_wait_rh` up to its first `thr_cnd_wait` or its return */
    method IntraWaitRh(rid: nat)
      requires rid in recvs
      modifies this
      ensures St() == WaitRh(old(St()), rid)
    {
      var rh := recvs[rid];
      if !rh.stat.Waitable() {
        err := true;
      } else if rh.stat == MATCH {
        FinishReceive(rid);
      } else {
        var next := PEND_DWAT;
        if rh.stat == PEND_STRT { next := PEND_WAIT; }
        recvs := recvs[rid := rh.(stat := next, owner := Waiting(false))];
      }
    }

    /** Its loop after `thr_cnd_wait` has returned, signalled or not */
    method IntraWakeRh(rid: nat)
      requires rid in recvs && recvs[rid].owner.Waiting?
      modifies this
      ensures St() == WakeRh(old(St()), rid)
    {
      var rh := recvs[rid];
      if rh.stat != MATCH {
        recvs := recvs[rid := rh.(owner := Waiting(false))];
      } else {
        FinishReceive(rid);
      }
    }

    /**
     * `tmpi_intra_init_sh`; `alloc` tells whether `mb_alloc` has room for the
     * system buffer of a standard or buffered message that is not empty.
     */
    method IntraInitSh(sid: nat, src: Rank, dest: Rank, tag: int, ctx: nat, mode: Mode, buf: seq<Byte>, alloc: bool) returns (ok: bool)
      modifies this`sends, this`sysLive
      ensures St() == InitSh(old(St()), sid, src, dest, tag, ctx, mode, buf, alloc)
      ensures ok <==> !NoRoom(mode, buf, alloc)
      ensures !ok ==> St() == old(St())
      ensures ok ==> sid in sends && MadeFor(sends[sid], src, dest, tag, ctx, mode, buf, alloc) && sends == old(sends)[sid := sends[sid]]
    {
      var hasSys := false;
      if mode == STANDARD || mode == BUFFERED {
        if |buf| > 0 { hasSys := alloc; }
        if mode == BUFFERED && !hasSys && |buf| > 0 { return false; }
      }
      sends := sends[sid := Send(SendReq(src, dest, tag, ctx, mode, buf, hasSys), CREATE, Running, |buf|, buf, [], false, 0, Fresh)];
      if hasSys { sysLive := sysLive + {sid}; }
      ok := true;
    }

    /** `tmpi_intra_init_rh` */
    method IntraInitRh(rid: nat, req: RecvReq)
      modifies this`recvs
      ensures St() == InitRh(old(St()), rid, req)
      ensures rid in recvs && MadeForReceive(recvs[rid], req) && recvs == old(recvs)[rid := recvs[rid]]
    {
      recvs := recvs[rid := Recv(req, CREATE, Running, req.src, req.tag, |req.buffer|, req.buffer, 0, Created)];
    }

    /** `tmpi_intra_start_rh` */
    method IntraStartRh(rid: nat)
      requires rid in recvs
      modifies this
      ensures St() == StartRh(old(St()), rid)
    {
      var rh := recvs[rid];
      var d := rh.req.dest;
      var i := FindInSq(d, rh.req.ctx, rh.tag, rh.src);
      if i == |SQ(d)| {
        recvs := recvs[rid := rh.(stat := PEND_STRT, no := clock, phase := Posted)];
        rq := rq[d := RQ(d) + [rid]];
        clock := clock + 1;
      } else {
        TakeFound(rid, i);
      }
    }

    /** The branch of `tmpi_intra_start_rh` that found the send at index `i` */
    method TakeFound(rid: nat, i: nat)
      requires rid in recvs && i < |SQ(recvs[rid].req.dest)|
      modifies this
      ensures St() == TakeSend(old(St()), rid, i)
    {
      var d := recvs[rid].req.dest;
      var q := SQ(d);
      var e := q[i];
      if e.LocalE? { TakeShandle(rid, e.sid); } else { TakeRmshandle(rid, e); }
      hide RemoveAt, TakeLocal, TakeRemote;
      sq := sq[d := RemoveAt(q, i)];
      Pair(e.sid, rid);
    }

    /** What a receive does with a send handle of the same machine */
    method TakeShandle(rid: nat, sid: nat)
      requires rid in recvs
      modifies this
      ensures St() == TakeLocal(old(St()), rid, sid)
    {
      var rh, sh := recvs[rid], Snd(sid);
      rh := rh.(src := Is(sh.req.src), tag := Is(sh.req.tag), buflen := Min(sh.buflen, rh.buflen), no := clock);
      recvs := recvs[rid := rh.(stat := MATCH, data := CopyInto(rh.data, sh.CurData(), rh.buflen), phase := Received(sid))];
      var before := sh.stat;
      sh := sh.(buflen := rh.buflen, phase := Done);
      if before == PEND_WAIT {
        sh := sh.(stat := MATCH, owner := sh.Signal());
      } else if before == PEND_STRT {
        sh := sh.(stat := MATCH);
      } else if before == PEND_RELS {
        sh := sh.(stat := FREE);
        FreeSh(sid);
      } else {
        err := true;
      }
      sends := sends[sid := sh];
    }

    /** What a receive does with the copy of a remote send handle */
    method TakeRmshandle(rid: nat, e: SEntry)
      requires rid in recvs && e.RemoteE?
      modifies this
      ensures St() == TakeRemote(old(St()), rid, e)
    {
      var rh := recvs[rid];
      var n := Min(e.hdr.buflen, rh.buflen);
      rh := rh.(src := Is(e.hdr.src), tag := Is(e.hdr.tag), buflen := n, no := clock);
      var response;
      if e.data.Some? {
        rh := rh.(data := CopyInto(rh.data, e.data.value, n), stat := MATCH, phase := Received(e.sid));
        response := RMDR(e.sid, n);
      } else {
        rh := rh.(stat := PEND_DATA, phase := Awaiting(e.sid));
        response := RMR(e.sid, rid, n);
      }
      recvs := recvs[rid := rh];
      sends := sends[e.sid := Snd(e.sid).(phase := Flight(response))];
      NetqSend(rh.req.dest, e.hdr.src, response);
    }

    /** The branch of `tmpi_rms_handle` that found the receive at index `i` */
    method RmsTake(sid: nat, hdr: Hdr, i: nat)
      requires i < |RQ(hdr.dest)|
      modifies this
      ensures St() == RmsMatch(old(St()), sid, hdr, i)
    {
      hide RemoveAt, Min;
      var rid := RQ(hdr.dest)[i];
      var rh := Rcv(rid);
      rq := rq[hdr.dest := RemoveAt(RQ(hdr.dest), i)];
      rh := rh.(tag := Is(hdr.tag), src := Is(hdr.src), buflen := Min(rh.buflen, hdr.buflen), phase := Awaiting(sid));
      AwaitData(rid, rh);
      Reply(sid, rid, hdr, RMR(sid, rid, rh.buflen));
    }

    /** A queued receive handle that waits for the data of a long send */
    method AwaitData(rid: nat, rh: Recv)
      modifies this`recvs, this`err
      ensures recvs == old(recvs)[rid := rh.(stat := if rh.stat == PEND_STRT then PEND_DATA
                                                     else if rh.stat == PEND_WAIT then PEND_DWAT else rh.stat)]
      ensures err == (old(err) || (rh.stat != PEND_WAIT && rh.stat != PEND_STRT))
    {
      var next := rh;
      if rh.stat == PEND_STRT {
        next := rh.(stat := PEND_DATA);
      } else if rh.stat == PEND_WAIT {
        next := rh.(stat := PEND_DWAT);
      } else {
        err := true;
      }
      recvs := recvs[rid := next];
    }

    /** The answer to a request that met its receive */
    method Reply(sid: nat, rid: nat, hdr: Hdr, response: Msg)
      modifies this`sends, this`matchOf, this`links
      ensures sends == old(sends)[sid := old(Snd(sid)).(phase := Flight(response))]
      ensures matchOf == old(matchOf)[sid := rid]
      ensures links == old(links)[(hdr.dest.mac, hdr.src.mac) := old(Link(hdr.dest.mac, hdr.src.mac)) + [response]]
    {
      sends := sends[sid := Snd(sid).(phase := Flight(response))];
      matchOf := matchOf[sid := rid];
      NetqSend(hdr.dest, hdr.src, response);
    }

    /** A request that nobody expects: queued, or refused if the sender relies on a receive. */
    method Unexpected(sid: nat, hdr: Hdr, data: Option<seq<Byte>>)
      modifies this
      ensures St() == if hdr.mode != READY then QueueRemote(old(St()), sid, hdr, data) else Refuse(old(St()), sid, hdr)
    {
      if hdr.mode != READY {
        var e := RemoteE(sid, hdr, data);
        sends := sends[sid := Snd(sid).(phase := Queued(e))];
        sq := sq[hdr.dest := SQ(hdr.dest) + [e]];
      } else {
        sends := sends[sid := Snd(sid).(phase := Flight(RNDY(sid)))];
        NetqSend(hdr.dest, hdr.src, RNDY(sid));
      }
    }

    /** `tmpi_rms_handle` */
    method RmsHandle(m: Msg)
      requires m.RMS?
      modifies this
      ensures St() == Handle(old(St()), m, false)
    {
      var i := FindInRq(m.hdr.dest, m.hdr.ctx, m.hdr.tag, m.hdr.src);
      if i < |RQ(m.hdr.dest)| { RmsTake(m.sid, m.hdr, i); } else { Unexpected(m.sid, m.hdr, None); }
    }

    /** The branch of `tmpi_rmds_handle` that found the receive at index `i` */
    method RmdsTake(sid: nat, hdr: Hdr, payload: seq<Byte>, i: nat)
      requires i < |RQ(hdr.dest)| && |payload| == hdr.buflen && Rcv(RQ(hdr.dest)[i]).buflen <= |Rcv(RQ(hdr.dest)[i]).data|
      modifies this
      ensures St() == RmdsMatch(old(St()), sid, hdr, payload, i)
    {
      hide RemoveAt, CopyInto, MatchRecv;
      var rid := RQ(hdr.dest)[i];
      var rh := Rcv(rid);
      rq := rq[hdr.dest := RemoveAt(RQ(hdr.dest), i)];
      rh := rh.(tag := Is(hdr.tag), src := Is(hdr.src), buflen := Min(rh.buflen, hdr.buflen), phase := Received(sid));
      var data, rest := ReceiveCut(rh.data, payload, rh.buflen);
      hide Min;
      CompleteRh(rid, rh.(data := data));
      Reply(sid, rid, hdr, RMDR(sid, rh.buflen));
    }

    /** `tmpi_rmds_handle` */
    method RmdsHandle(m: Msg, alloc: bool)
      requires m.RMDS? && |m.payload| == m.hdr.buflen
      requires forall rid :: rid in St().RQ(m.hdr.dest) ==> St().Rcv(rid).buflen <= |St().Rcv(rid).data|
      modifies this
      ensures St() == Handle(old(St()), m, alloc)
    {
      var i := FindInRq(m.hdr.dest, m.hdr.ctx, m.hdr.tag, m.hdr.src);
      if i < |RQ(m.hdr.dest)| {
        RmdsTake(m.sid, m.hdr, m.payload, i);
      } else if m.hdr.mode != READY && alloc {
        assert m.payload[..m.hdr.buflen] == m.payload;
        Unexpected(m.sid, m.hdr, Some(m.payload));
      } else {
        var rest := DumpData(m.payload, m.hdr.buflen);
        Unexpected(m.sid, m.hdr, None);
      }
    }

    /** `tmpi_rds_handle` */
    method RdsHandle(m: Msg)
      requires m.RDS? && m.sid in sends && m.rid in recvs && |m.payload| == m.buflen && recvs[m.rid].src.Is?
      requires Min(recvs[m.rid].buflen, m.buflen) <= |recvs[m.rid].data|
      modifies this
      ensures St() == Handle(old(St()), m, false)
    {
      hide CopyInto;
      var rh := recvs[m.rid];
      rh := rh.(buflen := Min(rh.buflen, m.buflen));
      FillRh(m.sid, m.rid, rh, m.payload);
      hide Min;
      var response := RDR(m.sid, rh.buflen);
      sends := sends[m.sid := sends[m.sid].(phase := Flight(response))];
      NetqSend(rh.req.dest, rh.src.v, response);
    }

    /** The data of a long send goes into the buffer of the receive that awaits it. */
    method FillRh(sid: nat, rid: nat, rh: Recv, payload: seq<Byte>)
      requires rh.buflen <= |rh.data| && rh.buflen <= |payload|
      modifies this`recvs, this`err
      ensures var awaited := rh.stat == PEND_DATA || rh.stat == PEND_DWAT;
        && recvs == old(recvs)[rid := if awaited then WithData(rh, sid, rh.buflen, payload) else rh]
        && err == (old(err) || !awaited)
    {
      var next := rh;
      if rh.stat == PEND_DATA || rh.stat == PEND_DWAT {
        var data, rest := ReceiveCut(rh.data, payload, rh.buflen);
        next := rh.(data := data, owner := if rh.stat == PEND_DWAT then rh.Signal() else rh.owner);
        next := next.(stat := MATCH, phase := Received(sid));
      } else {
        err := true;
      }
      recvs := recvs[rid := next];
    }

    /** `tmpi_rmr_handle` */
    method RmrHandle(m: Msg)
      requires m.RMR? && m.sid in sends
      modifies this
      ensures St() == Handle(old(St()), m, false)
    {
      var sh := sends[m.sid];
      var n := Min(sh.buflen, m.buflen);
      var response := RDS(m.sid, m.rid, n, Prefix(sh.CurData(), n));
      NetqSend(sh.req.src, sh.req.dest, response);
      if sh.stat == PEND_STRT {
        sh := sh.(stat := PEND_DATA);
        if sh.req.mode == READY { sh := sh.(owner := sh.Signal()); }
      } else if sh.stat == PEND_WAIT {
        sh := sh.(stat := PEND_DWAT);
      } else if sh.stat != PEND_RELS {
        err := true;
      }
      sends := sends[m.sid := sh.(phase := Flight(response))];
    }

    /** `tmpi_rdr_handle` and `tmpi_rmdr_handle`: the acknowledgement of a long or of a short send */
    method AckHandle(m: Msg)
      requires (m.RDR? || m.RMDR?) && m.sid in sends
      modifies this
      ensures St() == Handle(old(St()), m, false)
    {
      var sh := sends[m.sid].(buflen := m.buflen, phase := Done);
      var idle := if m.RDR? then PEND_DATA else PEND_STRT;
      var blocked := if m.RDR? then PEND_DWAT else PEND_WAIT;
      if sh.stat == idle {
        sh := sh.(stat := MATCH);
        if m.RMDR? && sh.req.mode == READY { sh := sh.(owner := sh.Signal()); }
      } else if sh.stat == blocked {
        sh := sh.(stat := MATCH, owner := sh.Signal());
      } else if sh.stat == PEND_RELS {
        sh := sh.(stat := FREE);
        FreeSh(m.sid);
      } else {
        err := true;
      }
      sends := sends[m.sid := sh];
    }

    /** `tmpi_rndy_handle` */
    method RndyHandle(m: Msg)
      requires m.RNDY? && m.sid in sends
      modifies this
      ensures St() == Handle(old(St()), m, false)
    {
      var sh := sends[m.sid].(phase := Refused);
      if sh.stat == PEND_STRT {
        sh := sh.(stat := PEND_NRDY, owner := sh.Signal());
      } else {
        err := true;
      }
      sends := sends[m.sid := sh];
    }

    /** `tmpi_inter_msg_handle`: in every reachable state it is a step of the protocol and keeps the invariant. */
    method InterMsgHandle(a: nat, b: nat, alloc: bool)
      requires Inv(St()) && Link(a, b) != []
      modifies this
      ensures St() == Deliver(old(St()), a, b, alloc) && Inv(St())
    {
      hide Inv;
      var m := Link(a, b)[0];
      DeliverKeeps(St(), a, b, alloc);
      HeadReady(St(), a, b);
      links := links[(a, b) := Link(a, b)[1..]];
      assert St() == PopLink(old(St()), a, b);
      assert m.RMDS? ==> St().RQ(m.hdr.dest) == old(St()).RQ(m.hdr.dest);
      assert forall rid :: St().Rcv(rid) == old(St()).Rcv(rid);
      match m
      case RMS(_, _) => RmsHandle(m);
      case RMDS(_, _, _) => RmdsHandle(m, alloc);
      case RDS(_, _, _, _) => RdsHandle(m);
      case RMR(_, _, _) => RmrHandle(m);
      case RDR(_, _) => AckHandle(m);
      case RMDR(_, _) => AckHandle(m);
      case RNDY(_) => RndyHandle(m);
    }
  }

  /** What the handlers take for granted about the message they are called for */
  ghost predicate Ready(s: State, m: Msg) {
    && m.sid in s.sends
    && (m.RMDS? ==> |m.payload| == m.hdr.buflen && forall rid :: rid in s.RQ(m.hdr.dest) ==> s.Rcv(rid).buflen <= |s.Rcv(rid).data|)
    && (m.RDS? ==>
          && m.rid in s.recvs && |m.payload| == m.buflen && s.recvs[m.rid].src.Is?
          && Min(s.recvs[m.rid].buflen, m.buflen) <= |s.recvs[m.rid].data|)
  }

  lemma HeadReady(s: State, a: nat, b: nat)
    requires Inv(s) && s.Link(a, b) != []
    ensures Ready(s, s.Link(a, b)[0])
  {
    hide Inv;
    var m := s.Link(a, b)[0];
    HeadAt(s, a, b);
    if m.RDS? { RdsKnown(s, m); }
    if m.RMDS? {
      AckedMet(s, m);
      RequestKnown(s, m);
      forall rid | rid in s.RQ(m.hdr.dest) ensures s.Rcv(rid).buflen <= |s.Rcv(rid).data| { QueuedFits(s, m.hdr.dest, rid); }
    }
  }

  lemma QueuedFits(s: State, d: Rank, rid: nat)
    requires Inv(s) && rid in s.RQ(d)
    ensures s.Rcv(rid).buflen <= |s.Rcv(rid).data|
  {
    TokensOf(s);
    assert RqOk(s, d, {});
    hide Inv;
    RecvAt(s, rid);
  }
}

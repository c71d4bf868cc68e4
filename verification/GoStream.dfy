/** One Go stream (wsrpc/stream.go). `StreamState` holds the fields and the
    functions below are its critical sections; the concurrent protocols of
    CreditFlow, StreamSync and GoMux interleave exactly these functions. The
    class `Stream` carries the same fields and updates them in place. */
module GoStream {
  import opened Frames

  const DEFAULT_INITIAL_WINDOW := 256 * 1024
  const OVERFLOW := Status(CODE_RESOURCE_EXHAUSTED, "wsrpc: receive buffer overflow")

  datatype StreamState = StreamState(
    id: Uint32,
    initialWindow: int,
    sendWindow: int,
    sendDone: bool,
    pendingCredit: int,
    recvItems: seq<Payload>,
    recvBytes: int,
    header: Headers,
    trailer: Headers,
    halfClosed: bool,
    endFrame: Option<Frame>,
    endSt: Option<Status>,
    ended: bool,
    cancelled: bool)

  /** What a receive can report. */
  datatype RecvResult = Data(p: Payload) | Eof | Failed(st: Status) | CtxErr

  /** What one pass through SendRaw's locked section decides. */
  datatype SendAttempt = Reserved | Refused(why: RecvResult) | MustWait

  function EffectiveWindow(w: int): (r: int)
    ensures r > 0
  {
    if w <= 0 then DEFAULT_INITIAL_WINDOW else w
  }

  function NewStream(id: Uint32, window: int, header: Headers): StreamState {
    var w := EffectiveWindow(window);
    StreamState(id, w, w, false, 0, [], 0, header, map[], false, None, None, false, false)
  }

  // ---- send side ----

  /** sendBlockErrLocked: why a blocked Send should give up, if it should. */
  function SendBlockError(s: StreamState): Option<RecvResult> {
    if s.endSt.Some? then
      Some(if s.endSt.value.code != CODE_OK then Failed(s.endSt.value) else Eof)
    else if s.ended then Some(Eof)
    else if s.cancelled then Some(CtxErr)
    else None
  }

  function SendDecision(s: StreamState): SendAttempt {
    if s.sendWindow > 0 then Reserved
    else if SendBlockError(s).Some? then Refused(SendBlockError(s).value)
    else MustWait
  }

  /** The window may go negative: a message is never split. */
  function Reserve(s: StreamState, n: nat): StreamState { s.(sendWindow := s.sendWindow - n) }

  function CreditSend(s: StreamState, delta: int): StreamState {
    s.(sendWindow := if delta <= 0 then s.sendWindow else s.sendWindow + delta)
  }

  // ---- receive side ----

  /** returnCredit flushes once the coalesced total reaches the threshold. */
  predicate Flushes(s: StreamState, n: nat) {
    n > 0 && s.pendingCredit + n >= Threshold(s.initialWindow)
  }

  function AccountCredit(s: StreamState, n: nat): StreamState {
    s.(pendingCredit := if Flushes(s, n) then 0 else s.pendingCredit + n)
  }

  /** The delta to announce, 0 for none. It is converted to uint32, so it can truncate. */
  function CreditDelta(s: StreamState, n: nat): nat {
    if Flushes(s, n) then (s.pendingCredit + n) % 0x1_0000_0000 else 0
  }

  function PopRecv(s: StreamState): StreamState
    requires s.recvItems != []
  {
    s.(recvItems := s.recvItems[1..], recvBytes := s.recvBytes - |s.recvItems[0]|)
  }

  /** The backlog is already over its ceiling (not: would exceed it). */
  predicate Overflows(s: StreamState) {
    !s.cancelled && |s.recvItems| > 0 && s.recvBytes > s.initialWindow
  }

  /** tryDeliver: an overflowing or cancelled stream keeps its backlog. */
  function TryDeliver(s: StreamState, p: Payload): StreamState {
    s.(recvItems := if s.cancelled || Overflows(s) then s.recvItems else s.recvItems + [p],
       recvBytes := if s.cancelled || Overflows(s) then s.recvBytes else s.recvBytes + |p|)
  }

  // ---- termination ----

  function StatusOf(st: Option<Status>): Status {
    if st.Some? then st.value else Status(CODE_OK, "")
  }

  function RecordStatus(s: StreamState, st: Status): StreamState {
    s.(endSt := Some(st))
  }

  /** endOne.Do(close(ended)): closing twice is impossible, so it is a flag. */
  function CloseEnded(s: StreamState): StreamState { s.(ended := true) }

  function Cancel(s: StreamState): StreamState { s.(cancelled := true) }

  /** failWith, run without interference. */
  function FailWith(s: StreamState, st: Status): StreamState {
    Cancel(CloseEnded(RecordStatus(s, st)))
  }

  /** signalEnd, run without interference: only the first terminal counts. */
  function SignalEnd(s: StreamState, f: Frame): StreamState {
    CloseEnded(s.(endFrame := if s.ended then s.endFrame else Some(f)))
  }

  /** The locked part of applyEnd: a frame without headers keeps the trailers. */
  function RecordEnd(s: StreamState, f: Frame): StreamState
    requires f.End? || f.Rst?
  {
    RecordStatus(s.(trailer := if f.trailers.Some? then f.trailers.value else s.trailer), StatusOf(f.status))
  }

  function ApplyEnd(s: StreamState, f: Frame): StreamState
    requires f.End? || f.Rst?
  {
    Cancel(RecordEnd(s, f))
  }

  /** The result a terminal frame stands for. */
  function FrameOutcome(f: Frame): RecvResult {
    match f
    case End(_, st, _) => if StatusOf(st).code != CODE_OK then Failed(StatusOf(st)) else Eof
    case Rst(_, st, _) =>
      if StatusOf(st).code == CODE_OK then Failed(Status(CODE_CANCELLED, "stream reset")) else Failed(StatusOf(st))
    case _ => Eof
  }

  /** The result of a termination that carried no frame. */
  function StatusOutcome(st: Option<Status>): RecvResult {
    if st.Some? && st.value.code != CODE_OK then Failed(st.value) else Eof
  }

  /** recvEnded, run without interference: the buffered payloads first. */
  function RecvEndedResult(s: StreamState): RecvResult {
    if s.recvItems != [] then Data(s.recvItems[0])
    else if s.endFrame.None? then StatusOutcome(s.endSt)
    else FrameOutcome(s.endFrame.value)
  }

  function RecvEnded(s: StreamState): StreamState {
    if s.recvItems != [] then PopRecv(s)
    else if s.endFrame.Some? && (s.endFrame.value.End? || s.endFrame.value.Rst?) then ApplyEnd(s, s.endFrame.value)
    else s
  }

  function CloseInbound(s: StreamState): StreamState { s.(halfClosed := true) }

  /** The byte count is the backlog's, and the backlog is over its ceiling by
      at most one message of the largest size seen. */
  ghost predicate Accounted(s: StreamState, largest: nat) {
    && s.recvBytes == TotalBytes(s.recvItems)
    && s.initialWindow > 0
    && s.recvBytes <= s.initialWindow + largest
  }

  lemma PopKeepsAccount(s: StreamState, largest: nat)
    requires Accounted(s, largest) && s.recvItems != []
    ensures Accounted(PopRecv(s), largest)
  {
  }

  lemma DeliverKeepsAccount(s: StreamState, p: Payload, largest: nat)
    requires Accounted(s, largest) && |p| <= largest
    ensures Accounted(TryDeliver(s, p), largest)
  {
    TotalBytesSnoc(s.recvItems, p);
    assert s.recvItems == [] ==> s.recvBytes == 0;
  }

  /** A Stream object: the fields of wsrpc/stream.go, updated in place. */
  class Stream {
    const id: Uint32
    const initialWindow: int
    var sendWindow: int
    var sendDone: bool
    var pendingCredit: int
    var recvItems: seq<Payload>
    var recvBytes: int
    var header: Headers
    var trailer: Headers
    var halfClosed: bool
    var endFrame: Option<Frame>
    var endSt: Option<Status>
    var ended: bool
    var cancelled: bool

    ghost function State(): StreamState
      reads this
    {
      StreamState(id, initialWindow, sendWindow, sendDone, pendingCredit, recvItems, recvBytes,
                  header, trailer, halfClosed, endFrame, endSt, ended, cancelled)
    }

    constructor (id: Uint32, window: int, header: Headers)
      ensures State() == NewStream(id, window, header)
    {
      this.id := id;
      this.initialWindow := EffectiveWindow(window);
      this.sendWindow := EffectiveWindow(window);
      this.sendDone := false;
      this.pendingCredit, this.recvItems, this.recvBytes := 0, [], 0;
      this.header, this.trailer := header, map[];
      this.halfClosed, this.ended, this.cancelled := false, false, false;
      this.endFrame, this.endSt := None, None;
    }

    /** One pass of SendRaw's wait loop, under the lock. */
    method TrySend(n: nat) returns (r: SendAttempt)
      modifies this
      ensures r == SendDecision(old(State()))
      ensures State() == if r.Reserved? then Reserve(old(State()), n) else old(State())
    {
      if sendWindow <= 0 {
        if endSt.Some? {
          return Refused(if endSt.value.code != CODE_OK then Failed(endSt.value) else Eof);
        }
        if ended { return Refused(Eof); }
        if cancelled { return Refused(CtxErr); }
        return MustWait;
      }
      sendWindow := sendWindow - n;
      return Reserved;
    }

    method AddCredit(delta: int)
      modifies this
      ensures State() == CreditSend(old(State()), delta)
    {
      if delta <= 0 { return; }
      sendWindow := sendWindow + delta;
    }

    method TakeCredit(n: nat) returns (delta: nat)
      modifies this
      ensures State() == AccountCredit(old(State()), n) && delta == CreditDelta(old(State()), n)
    {
      if n <= 0 { return 0; }
      pendingCredit := pendingCredit + n;
      var threshold := initialWindow / 2;
      if threshold < 1 { threshold := 1; }
      delta := 0;
      if pendingCredit >= threshold {
        delta := pendingCredit % 0x1_0000_0000;
        pendingCredit := 0;
      }
    }

    method Pop() returns (item: Option<Payload>)
      modifies this
      ensures item == if old(recvItems) == [] then None else Some(old(recvItems)[0])
      ensures State() == if old(recvItems) == [] then old(State()) else PopRecv(old(State()))
    {
      if |recvItems| == 0 { return None; }
      item := Some(recvItems[0]);
      recvItems := recvItems[1..];
      recvBytes := recvBytes - |item.value|;
    }

    method Deliver(p: Payload) returns (ok: bool)
      modifies this
      ensures State() == TryDeliver(old(State()), p) && ok == !Overflows(old(State()))
    {
      if cancelled { return true; }
      if |recvItems| > 0 && recvBytes > initialWindow { return false; }
      recvItems := recvItems + [p];
      recvBytes := recvBytes + |p|;
      return true;
    }

    method Fail(st: Status)
      modifies this
      ensures State() == FailWith(old(State()), st)
    {
      endSt := Some(st);
      ended := true;
      cancelled := true;
    }

    method Signal(f: Frame)
      modifies this
      ensures State() == SignalEnd(old(State()), f)
    {
      if !ended {
        endFrame := Some(f);
        ended := true;
      }
    }

    method Apply(f: Frame) returns (st: Status)
      requires f.End? || f.Rst?
      modifies this
      ensures State() == ApplyEnd(old(State()), f) && st == StatusOf(f.status)
    {
      st := if f.status.Some? then f.status.value else Status(CODE_OK, "");
      if f.trailers.Some? { trailer := f.trailers.value; }
      endSt := Some(st);
      cancelled := true;
    }

    method ReceiveEnded() returns (r: RecvResult)
      modifies this
      ensures State() == RecvEnded(old(State())) && r == RecvEndedResult(old(State()))
    {
      var item := Pop();
      if item.Some? { return Data(item.value); }
      if endFrame.None? {
        if endSt.Some? && endSt.value.code != CODE_OK { return Failed(endSt.value); }
        return Eof;
      }
      var f := endFrame.value;
      if f.End? {
        var st := Apply(f);
        return if st.code != CODE_OK then Failed(st) else Eof;
      } else if f.Rst? {
        var st := Apply(f);
        return if st.code == CODE_OK then Failed(Status(CODE_CANCELLED, "stream reset")) else Failed(st);
      }
      return Eof;
    }

    method PeerHalfClosed()
      modifies this
      ensures State() == CloseInbound(old(State()))
    {
      halfClosed := true;
    }
  }
}

/** The TypeScript client mux (mux.ts) with its streams: one socket, a pre-open
    send buffer, and streams whose hooks write frames. Writing a frame can
    fail the whole connection from inside a stream's method, so every
    operation below is re-entrant in that sense. */
module TsMux {
  import opened Frames
  import opened Queues
  import opened TsStream

  const MAX_PREOPEN_BUFFER_BYTES := 4 * 1024 * 1024

  /** The frames a client writes. */
  datatype Sent =
    | OpenF(id: nat)
    | MsgF(id: nat, p: Payload)
    | HalfCloseF(id: nat)
    | RstF(id: nat)
    | WindowF(id: nat, delta: nat)

  datatype Config = Config(window: int, maxSendBuffer: int, size: Sent -> nat)

  /** The constructor's options with their defaults. */
  function Configured(window: int, maxSendBuffer: int, size: Sent -> nat): (c: Config)
    ensures Normal(c)
  {
    Config(LimitOr(window, DEFAULT_INITIAL_WINDOW), LimitOr(maxSendBuffer, DEFAULT_MAX_SEND_BUFFER), size)
  }

  predicate Normal(c: Config) { c.window > 0 && c.maxSendBuffer > 0 }

  datatype Life = Life(
    isOpen: bool,            // the socket reached OPEN
    closed: bool,
    dead: bool,
    terminal: Option<Status>,
    owned: bool,             // the owner's drop hook is still registered
    drops: nat,              // how often it fired
    threw: bool)             // writeFrame was reached on a defunct mux

  /** `written` logs every frame writeFrame accepted, in order. */
  datatype Wire = Wire(buffer: seq<Sent>, bytes: nat, socket: seq<Sent>, written: seq<Sent>)

  datatype Mux = Mux(life: Life, wire: Wire, streams: map<nat, Strm>, registered: set<nat>, nextId: nat)

  const LOST := Status(CODE_UNAVAILABLE, "connection lost")
  const PREOPEN_OVERFLOW := Status(CODE_UNAVAILABLE, "send buffer overflow before connect")
  const SEND_OVERFLOW := Status(CODE_RESOURCE_EXHAUSTED, "send buffer overflow")
  const RECV_OVERFLOW := Status(CODE_RESOURCE_EXHAUSTED, "receive buffer overflow")

  function Init(): Mux {
    Mux(Life(false, false, false, None, true, 0, false), Wire([], 0, [], []), map[], {}, 1)
  }

  predicate Defunct(x: Mux) { x.life.closed || x.life.dead }

  // ---- the connection ----

  /** failAll: every registered stream ends with the error. */
  function EndAll(streams: map<nat, Strm>, registered: set<nat>, why: Status): map<nat, Strm> {
    map id | id in streams :: if id in registered then EndError(streams[id], why, map[]) else streams[id]
  }

  /** markDefunct: the first cause wins, the unsent frames are dropped. */
  function Kill(x: Mux, why: Status): Mux {
    x.(life := x.life.(terminal := if x.life.terminal.Some? then x.life.terminal else Some(why)),
       wire := x.wire.(buffer := [], bytes := 0),
       streams := EndAll(x.streams, x.registered, why),
       registered := {})
  }

  function Notified(l: Life): Life { l.(owned := false, drops := if l.owned then l.drops + 1 else l.drops) }

  function FailConn(x: Mux, why: Status): Mux {
    Kill(x.(life := Notified(x.life.(closed := true))), why)
  }

  function DropConn(x: Mux): Mux {
    Kill(x.(life := Notified(x.life.(dead := true))), LOST)
  }

  function CloseConn(x: Mux, why: Status): Mux {
    Kill(x.(life := x.life.(closed := true, owned := false)), why)
  }

  predicate Overfull(c: Config, x: Mux, f: Sent) {
    !x.life.isOpen && x.wire.bytes + c.size(f) > MAX_PREOPEN_BUFFER_BYTES
  }

  function Append(c: Config, w: Wire, open: bool, f: Sent): Wire {
    w.(buffer := if open then w.buffer else w.buffer + [f],
       bytes := if open then w.bytes else w.bytes + c.size(f),
       socket := if open then w.socket + [f] else w.socket,
       written := w.written + [f])
  }

  /** Sends when open, buffers before; past the buffer bound the connection fails. */
  function WriteFrame(c: Config, x: Mux, f: Sent): (y: Mux)
    ensures y.streams.Keys == x.streams.Keys
  {
    if Defunct(x) then x.(life := x.life.(threw := true))
    else if Overfull(c, x, f) then FailConn(x, PREOPEN_OVERFLOW)
    else x.(wire := Append(c, x.wire, x.life.isOpen, f))
  }

  function Flush(x: Mux): Mux {
    x.(life := x.life.(isOpen := true),
       wire := x.wire.(buffer := [], bytes := 0, socket := x.wire.socket + x.wire.buffer))
  }

  // ---- stream methods with their hooks ----

  function Put(x: Mux, id: nat, s: Strm): Mux { x.(streams := x.streams[id := s]) }

  lemma WriteKeepsOut(c: Config, x: Mux, f: Sent)
    ensures forall id :: id in x.streams ==> WriteFrame(c, x, f).streams[id].out == x.streams[id].out
  {
  }

  /** One turn of the pump with its sendMsg hook. */
  function PumpOne(c: Config, x: Mux, id: nat): Mux
    requires id in x.streams && x.streams[id].out.queue != []
  {
    var s := x.streams[id];
    WriteFrame(c, Put(x, id, s.(out := Shift(s.out))), MsgF(id, s.out.queue[0]))
  }

  function Pump(c: Config, x: Mux, id: nat): Mux
    requires id in x.streams
    decreases |x.streams[id].out.queue|
  {
    if CanPump(x.streams[id]) then
      var s := x.streams[id];
      WriteKeepsOut(c, Put(x, id, s.(out := Shift(s.out))), MsgF(id, s.out.queue[0]));
      Pump(c, PumpOne(c, x, id), id)
    else x
  }

  /** cancel and abort up to the end of the reset hook. */
  function ResetHook(c: Config, x: Mux, id: nat): (y: Mux)
    requires id in x.streams
    ensures id in y.streams
  {
    var s := x.streams[id];
    var y := WriteFrame(c, Put(x, id, s.(fate := MarkReset(s.fate))), RstF(id));
    y.(registered := y.registered - {id})
  }

  function AbortStream(c: Config, x: Mux, id: nat, why: Status): Mux
    requires id in x.streams
  {
    if x.streams[id].fate.finished then x
    else
      var y := ResetHook(c, x, id);
      var s := y.streams[id];
      Put(y, id, s.(fate := SettleReset(s.fate), inn := s.inn.(queue := FailedWith(s.inn.queue, Some(why)))))
  }

  function CancelStream(c: Config, x: Mux, id: nat): Mux
    requires id in x.streams
  {
    if x.streams[id].fate.finished then x
    else
      var y := ResetHook(c, x, id);
      var s := y.streams[id];
      Put(y, id, s.(fate := SettleReset(s.fate), inn := s.inn.(queue := Finished(s.inn.queue))))
  }

  function SendMsg(c: Config, x: Mux, id: nat, p: Payload): Mux
    requires id in x.streams
  {
    var s := x.streams[id];
    if s.fate.sendClosed || s.fate.finished then x
    else if s.out.bytes > c.maxSendBuffer then AbortStream(c, x, id, SEND_OVERFLOW)
    else Pump(c, Put(x, id, s.(out := Accept(s.out, p))), id)
  }

  function CloseSend(c: Config, x: Mux, id: nat): Mux
    requires id in x.streams
  {
    var s := x.streams[id];
    if s.fate.sendClosed || s.fate.finished then x
    else WriteFrame(c, Put(x, id, s.(fate := s.fate.(sendClosed := true))), HalfCloseF(id))
  }

  function CreditStream(c: Config, x: Mux, id: nat, delta: int): Mux
    requires id in x.streams
  {
    if delta <= 0 then x
    else Pump(c, Put(x, id, x.streams[id].(out := Grant(x.streams[id].out, delta))), id)
  }

  /** The credit the next continuation of recv announces: none on a finished stream. */
  function CreditDue(c: Config, s: Strm): nat
    requires s.inn.continuing != []
  {
    var n := |s.inn.continuing[0]|;
    if !s.fate.finished && Flushes(s.inn, n, c.window) then s.inn.pending + n else 0
  }

  predicate CanResume(x: Mux, id: nat) { id in x.streams && x.streams[id].inn.continuing != [] }

  function Resumed(c: Config, x: Mux, id: nat): Mux
    requires CanResume(x, id)
  {
    var s := x.streams[id];
    Put(x, id, s.(inn := Resume(s.inn, s.fate.finished, c.window)))
  }

  /** The continuation of recv: late, possibly on a finished stream. */
  function ResumeRecv(c: Config, x: Mux, id: nat): Mux
    requires CanResume(x, id)
  {
    var delta := CreditDue(c, x.streams[id]);
    if delta > 0 then WriteFrame(c, Resumed(c, x, id), WindowF(id, delta)) else Resumed(c, x, id)
  }

  /** How the caller's AbortSignal stands when the stream is opened. */
  datatype Signal = NoSignal | Pending | Aborted

  /** On a defunct mux the stream is failed at birth and never registered. */
  function OpenStream(c: Config, x: Mux, timeout: bool, signal: Signal): Mux {
    if Defunct(x) then
      Filing(x, EndError(New(c.window), if x.life.terminal.Some? then x.life.terminal.value else LOST, map[]))
    else Attach(c, WriteFrame(c, Registering(x, New(c.window)), OpenF(x.nextId)), x.nextId, timeout, signal)
  }

  function Registering(x: Mux, s: Strm): Mux {
    x.(nextId := x.nextId + 2, streams := x.streams[x.nextId := s], registered := x.registered + {x.nextId})
  }

  function Filing(x: Mux, s: Strm): Mux {
    x.(nextId := x.nextId + 2, streams := x.streams[x.nextId := s])
  }

  /** The deadline timer and the abort listener. */
  function Attach(c: Config, x: Mux, id: nat, timeout: bool, signal: Signal): Mux
    requires id in x.streams
  {
    var y := if timeout then Hook(x, id) else x;
    match signal
    case NoSignal => y
    case Pending => Hook(y, id)
    case Aborted => AbortStream(c, y, id, Status(CODE_CANCELLED, "request aborted"))
  }

  function Hook(x: Mux, id: nat): (y: Mux)
    requires id in x.streams
    ensures id in y.streams
  {
    Put(x, id, x.streams[id].(fate := OnClose(x.streams[id].fate)))
  }

  // ---- inbound frames ----

  /** statusErrorFromProto: the error a status stands for, if any. */
  function ErrorOf(st: Option<Status>): Option<Status> {
    if st.Some? && st.value.code != CODE_OK then st else None
  }

  function ResetError(st: Option<Status>): Status {
    if ErrorOf(st).Some? then ErrorOf(st).value
    else Status(CODE_CANCELLED, if st.Some? && st.value.message != "" then st.value.message else "stream reset")
  }

  function TrailersOf(h: Option<Headers>): Headers { if h.Some? then h.value else map[] }

  function HandleFrame(c: Config, x: Mux, f: Frame): Mux {
    if f.id !in x.registered || f.id !in x.streams then x
    else
      var (id, s) := (f.id, x.streams[f.id]);
      match f
      case Header(_, h) => Put(x, id, s.(fate := ResolveLeading(s.fate, h)))
      case WindowUpdate(_, w) => CreditStream(c, x, id, w)
      case Msg(_, p) =>
        if s.inn.buffered > c.window
        then var y := AbortStream(c, x, id, RECV_OVERFLOW); y.(registered := y.registered - {id})
        else Put(x, id, s.(fate := ResolveLeading(s.fate, map[]), inn := Arrive(s.inn, p)))
      case End(_, st, h) =>
        Put(x, id, if ErrorOf(st).Some? then EndError(s, ErrorOf(st).value, TrailersOf(h)) else EndOk(s, TrailersOf(h)))
          .(registered := x.registered - {id})
      case Rst(_, st, h) =>
        Put(x, id, EndError(s, ResetError(st), TrailersOf(h))).(registered := x.registered - {id})
      case _ => x
  }

  // ---- runs ----

  datatype Event =
    | Open(timeout: bool, signal: Signal)
    | Send(id: nat, p: Payload)
    | HalfClose(id: nat)
    | Cancel(id: nat)
    | Abort(id: nat, why: Status)     // abort signal or deadline timer
    | Recv(id: nat)
    | Continue(id: nat)
    | Hooked(id: nat)
    | SocketOpen(protocolOk: bool)
    | SocketDrop
    | Oversize                        // an inbound message above maxFrameBytes
    | Inbound(f: Frame)
    | Close(why: Status)

  function Step(c: Config, x: Mux, e: Event): Mux {
    match e
    case Open(timeout, signal) => OpenStream(c, x, timeout, signal)
    case Send(id, p) => if id in x.streams then SendMsg(c, x, id, p) else x
    case HalfClose(id) => if id in x.streams then CloseSend(c, x, id) else x
    case Cancel(id) => if id in x.streams then CancelStream(c, x, id) else x
    case Abort(id, why) => if id in x.streams then AbortStream(c, x, id, why) else x
    case Recv(id) => if id in x.streams then Put(x, id, x.streams[id].(inn := Request(x.streams[id].inn))) else x
    case Continue(id) => if CanResume(x, id) then ResumeRecv(c, x, id) else x
    case Hooked(id) => if id in x.streams then Hook(x, id) else x
    case SocketOpen(ok) =>
      if Defunct(x) then x
      else if !ok then FailConn(x, Status(CODE_UNAVAILABLE, "server did not negotiate subprotocol"))
      else Flush(x)
    case SocketDrop => if Defunct(x) then x else DropConn(x)
    case Oversize => FailConn(x, Status(CODE_RESOURCE_EXHAUSTED, "inbound frame exceeds maxFrameBytes"))
    case Inbound(f) => HandleFrame(c, x, f)
    case Close(why) => if x.life.closed then x else CloseConn(x, why)
  }

  function Run(c: Config, x: Mux, es: seq<Event>): Mux
    decreases |es|
  {
    if es == [] then x else Run(c, Step(c, x, es[0]), es[1..])
  }

  // ---- the connection's invariant ----

  function TotalSize(c: Config, fs: seq<Sent>): nat {
    if fs == [] then 0 else TotalSize(c, fs[..|fs| - 1]) + c.size(fs[|fs| - 1])
  }

  /** The socket saw what was written, in order; what it has not seen yet is buffered. */
  ghost predicate WireOk(c: Config, x: Mux) {
    && x.wire.socket <= x.wire.written
    && (!Defunct(x) ==> x.wire.socket + x.wire.buffer == x.wire.written)
    && (x.life.isOpen ==> x.wire.buffer == [])
    && x.wire.bytes == TotalSize(c, x.wire.buffer) <= MAX_PREOPEN_BUFFER_BYTES
  }

  /** A defunct mux is empty, was told to its owner at most once, and nobody wrote into it. */
  ghost predicate LifeOk(x: Mux) {
    && !x.life.threw
    && (Defunct(x) ==> x.registered == {} && x.wire.buffer == [] && x.life.terminal.Some? && !x.life.owned)
    && x.life.drops + (if x.life.owned then 1 else 0) <= 1
  }

  ghost predicate ConnOk(c: Config, x: Mux) { WireOk(c, x) && LifeOk(x) }

  /** The two things a write on a live mux can do. */
  ghost predicate Wrote(x: Mux, y: Mux, f: Sent) {
    && !Defunct(y) && y.streams == x.streams && y.registered == x.registered
    && y.wire.written == x.wire.written + [f]
  }

  ghost predicate Failed(x: Mux, y: Mux) {
    && Defunct(y) && y.registered == {} && y.streams == EndAll(x.streams, x.registered, PREOPEN_OVERFLOW)
    && y.wire.written == x.wire.written
  }

  lemma WriteLive(c: Config, x: Mux, f: Sent)
    requires ConnOk(c, x) && !Defunct(x)
    ensures ConnOk(c, WriteFrame(c, x, f)) && WriteFrame(c, x, f).nextId == x.nextId
    ensures if Overfull(c, x, f) then Failed(x, WriteFrame(c, x, f)) else Wrote(x, WriteFrame(c, x, f), f)
  {
  }

  lemma KillKeepsConn(c: Config, x: Mux, why: Status)
    requires WireOk(c, x) && !x.life.threw && !x.life.owned && x.life.drops <= 1 && Defunct(x)
    ensures ConnOk(c, Kill(x, why)) && Kill(x, why).wire.written == x.wire.written
  {
  }

  // ---- the streams' invariant ----

  ghost predicate Fine(c: Config, s: Strm, m: nat) { StrmOk(s, c.window, c.maxSendBuffer, m) }

  /** Registered means unfinished, and conversely. */
  ghost predicate RegOk(x: Mux) {
    && x.registered <= x.streams.Keys
    && (forall id :: id in x.streams ==> id < x.nextId)
    && (forall id :: id in x.streams ==> (id in x.registered <==> !x.streams[id].fate.finished))
  }

  /** All streams are fine, and all but the excepted ones are pumped dry. */
  ghost predicate StreamsOk(c: Config, x: Mux, m: nat, except: set<nat>) {
    && (forall id :: id in x.streams ==> Fine(c, x.streams[id], m))
    && (forall id :: id in x.streams && id !in except ==> Pumped(x.streams[id]))
  }

  ghost predicate MuxOk(c: Config, x: Mux, m: nat) { ConnOk(c, x) && RegOk(x) && StreamsOk(c, x, m, {}) }

  lemma EndAllFine(c: Config, x: Mux, why: Status, m: nat)
    requires RegOk(x) && StreamsOk(c, x, m, x.streams.Keys)
    ensures var all := EndAll(x.streams, x.registered, why);
            forall id :: id in all ==> Fine(c, all[id], m) && all[id].fate.finished
  {
  }

  lemma KillKeeps(c: Config, x: Mux, why: Status, m: nat)
    requires WireOk(c, x) && !x.life.threw && !x.life.owned && x.life.drops <= 1 && Defunct(x)
    requires RegOk(x) && StreamsOk(c, x, m, x.streams.Keys)
    ensures MuxOk(c, Kill(x, why), m)
  {
    KillKeepsConn(c, x, why);
    EndAllFine(c, x, why, m);
  }

  // ---- every operation keeps the invariant ----

  /** A stream that still runs lives on a live mux: its hooks can write. */
  lemma UnfinishedIsLive(c: Config, x: Mux, id: nat)
    requires LifeOk(x) && RegOk(x) && id in x.streams && !x.streams[id].fate.finished
    ensures !Defunct(x) && id in x.registered
  {
  }

  /** Replacing a stream by one that is as fine and equally finished. */
  lemma PutKeeps(c: Config, x: Mux, id: nat, s: Strm, m: nat, except: set<nat>)
    requires ConnOk(c, x) && RegOk(x) && StreamsOk(c, x, m, except) && id in x.streams
    requires Fine(c, s, m) && s.fate.finished == x.streams[id].fate.finished && (id !in except ==> Pumped(s))
    ensures ConnOk(c, Put(x, id, s)) && RegOk(Put(x, id, s)) && StreamsOk(c, Put(x, id, s), m, except)
  {
  }

  /** A write from a fine state: either nothing but the log changes, or everything is over. */
  lemma WriteKeeps(c: Config, x: Mux, f: Sent, m: nat, except: set<nat>)
    requires ConnOk(c, x) && !Defunct(x) && RegOk(x) && StreamsOk(c, x, m, except)
    ensures ConnOk(c, WriteFrame(c, x, f)) && RegOk(WriteFrame(c, x, f)) && StreamsOk(c, WriteFrame(c, x, f), m, except)
  {
    WriteLive(c, x, f);
    if Overfull(c, x, f) { EndAllFine(c, x, PREOPEN_OVERFLOW, m); }
  }

  lemma PumpOneKeeps(c: Config, x: Mux, id: nat, m: nat)
    requires ConnOk(c, x) && RegOk(x) && StreamsOk(c, x, m, {id}) && id in x.streams && CanPump(x.streams[id])
    ensures var y := PumpOne(c, x, id); ConnOk(c, y) && RegOk(y) && StreamsOk(c, y, m, {id})
  {
    var s := x.streams[id];
    var t := s.(out := Shift(s.out));
    ShiftKeepsOut(s.out, c.maxSendBuffer, m);
    UnfinishedIsLive(c, x, id);
    PutKeeps(c, x, id, t, m, {id});
    WriteKeeps(c, Put(x, id, t), MsgF(id, s.out.queue[0]), m, {id});
  }

  lemma {:induction false} PumpKeeps(c: Config, x: Mux, id: nat, m: nat)
    requires ConnOk(c, x) && RegOk(x) && StreamsOk(c, x, m, {id}) && id in x.streams
    ensures MuxOk(c, Pump(c, x, id), m)
    decreases |x.streams[id].out.queue|
  {
    if CanPump(x.streams[id]) {
      var s := x.streams[id];
      PumpOneKeeps(c, x, id, m);
      WriteKeepsOut(c, Put(x, id, s.(out := Shift(s.out))), MsgF(id, s.out.queue[0]));
      PumpKeeps(c, PumpOne(c, x, id), id, m);
    }
  }

  /** Everything but stream id, which is out of the registry. */
  ghost predicate OthersOk(c: Config, x: Mux, id: nat, m: nat) {
    && id in x.streams && id !in x.registered && x.registered <= x.streams.Keys
    && (forall k :: k in x.streams ==> k < x.nextId)
    && (forall k :: k in x.streams && k != id ==> (k in x.registered <==> !x.streams[k].fate.finished))
    && (forall k :: k in x.streams && k != id ==> Fine(c, x.streams[k], m) && Pumped(x.streams[k]))
  }

  lemma OthersOkPut(c: Config, x: Mux, id: nat, s: Strm, m: nat)
    requires ConnOk(c, x) && OthersOk(c, x, id, m) && Fine(c, s, m) && s.fate.finished
    ensures MuxOk(c, Put(x, id, s), m)
  {
  }

  lemma EndAllOthers(c: Config, x: Mux, id: nat, t: Strm, m: nat)
    requires RegOk(x) && StreamsOk(c, x, m, {}) && id in x.streams && t.fate.finished
    ensures var all := EndAll(x.streams[id := t], x.registered, PREOPEN_OVERFLOW);
            && all[id] == t
            && (forall k :: k in x.streams && k != id ==> Fine(c, all[k], m) && all[k].fate.finished)
  {
    forall k | k in x.streams
      ensures Fine(c, EndError(x.streams[k], PREOPEN_OVERFLOW, map[]), m)
    {
      EndErrorKeeps(x.streams[k], PREOPEN_OVERFLOW, map[], c.window, c.maxSendBuffer, m);
    }
  }

  function Marked(s: Strm): Strm { s.(fate := MarkReset(s.fate)) }

  /** The RST was written: only the marked stream differs. */
  lemma ResetWrote(c: Config, x: Mux, y: Mux, id: nat, m: nat)
    requires RegOk(x) && StreamsOk(c, x, m, {}) && id in x.streams && y.nextId == x.nextId
    requires Wrote(Put(x, id, Marked(x.streams[id])), y, RstF(id))
    ensures OthersOk(c, y.(registered := y.registered - {id}), id, m) && y.streams[id] == Marked(x.streams[id])
  {
  }

  /** The RST overfilled the buffer: every other stream has ended. */
  lemma ResetFailed(c: Config, x: Mux, y: Mux, id: nat, m: nat)
    requires RegOk(x) && StreamsOk(c, x, m, {}) && id in x.streams && y.nextId == x.nextId
    requires Failed(Put(x, id, Marked(x.streams[id])), y)
    ensures OthersOk(c, y.(registered := y.registered - {id}), id, m) && y.streams[id] == Marked(x.streams[id])
  {
    EndAllOthers(c, x, id, Marked(x.streams[id]), m);
    AllFinishedOthersOk(c, y.(registered := {}), id, m);
    assert y.registered - {id} == {};
  }

  lemma AllFinishedOthersOk(c: Config, y: Mux, id: nat, m: nat)
    requires y.registered == {} && id in y.streams && (forall k :: k in y.streams ==> k < y.nextId)
    requires forall k :: k in y.streams && k != id ==> Fine(c, y.streams[k], m) && y.streams[k].fate.finished
    ensures OthersOk(c, y, id, m)
  {
  }

  lemma DetachKeepsConn(c: Config, y: Mux, id: nat)
    requires ConnOk(c, y)
    ensures ConnOk(c, y.(registered := y.registered - {id}))
  {
  }

  /** The reset hook: the stream itself is already marked, so even a connection
      failure inside the hook leaves its marks alone. */
  lemma ResetHookFacts(c: Config, x: Mux, id: nat, m: nat)
    requires MuxOk(c, x, m) && id in x.streams && !x.streams[id].fate.finished
    ensures ConnOk(c, ResetHook(c, x, id)) && OthersOk(c, ResetHook(c, x, id), id, m)
    ensures ResetHook(c, x, id).streams[id] == Marked(x.streams[id])
  {
    UnfinishedIsLive(c, x, id);
    var z := Put(x, id, Marked(x.streams[id]));
    var y := WriteFrame(c, z, RstF(id));
    WriteLive(c, z, RstF(id));
    DetachKeepsConn(c, y, id);
    if Overfull(c, z, RstF(id)) { ResetFailed(c, x, y, id, m); } else { ResetWrote(c, x, y, id, m); }
  }

  lemma AbortKeeps(c: Config, x: Mux, id: nat, why: Status, m: nat)
    requires MuxOk(c, x, m) && id in x.streams
    ensures MuxOk(c, AbortStream(c, x, id, why), m)
  {
    var s := x.streams[id];
    if !s.fate.finished {
      ResetHookFacts(c, x, id, m);
      ResetKeepsFate(s.fate);
      TerminalKeepsIn(s.inn, why, c.window, m);
      OthersOkPut(c, ResetHook(c, x, id), id,
        s.(fate := SettleReset(MarkReset(s.fate)), inn := s.inn.(queue := FailedWith(s.inn.queue, Some(why)))), m);
    }
  }

  lemma CancelKeeps(c: Config, x: Mux, id: nat, m: nat)
    requires MuxOk(c, x, m) && id in x.streams
    ensures MuxOk(c, CancelStream(c, x, id), m)
  {
    var s := x.streams[id];
    if !s.fate.finished {
      ResetHookFacts(c, x, id, m);
      ResetKeepsFate(s.fate);
      TerminalKeepsIn(s.inn, LOST, c.window, m);
      OthersOkPut(c, ResetHook(c, x, id), id,
        s.(fate := SettleReset(MarkReset(s.fate)), inn := s.inn.(queue := Finished(s.inn.queue))), m);
    }
  }

  lemma SendKeeps(c: Config, x: Mux, id: nat, p: Payload, m: nat)
    requires MuxOk(c, x, m) && id in x.streams && |p| <= m
    ensures MuxOk(c, SendMsg(c, x, id, p), m)
  {
    var s := x.streams[id];
    if s.fate.sendClosed || s.fate.finished {
    } else if s.out.bytes > c.maxSendBuffer {
      AbortKeeps(c, x, id, SEND_OVERFLOW, m);
    } else {
      var t := s.(out := Accept(s.out, p));
      AcceptKeepsOut(s.out, p, c.maxSendBuffer, m);
      PutKeeps(c, x, id, t, m, {id});
      PumpKeeps(c, Put(x, id, t), id, m);
    }
  }

  lemma CreditKeeps(c: Config, x: Mux, id: nat, delta: int, m: nat)
    requires MuxOk(c, x, m) && id in x.streams
    ensures MuxOk(c, CreditStream(c, x, id, delta), m)
  {
    if delta > 0 {
      var t := x.streams[id].(out := Grant(x.streams[id].out, delta));
      PutKeeps(c, x, id, t, m, {id});
      PumpKeeps(c, Put(x, id, t), id, m);
    }
  }

  lemma CloseSendKeeps(c: Config, x: Mux, id: nat, m: nat)
    requires MuxOk(c, x, m) && id in x.streams
    ensures MuxOk(c, CloseSend(c, x, id), m)
  {
    var s := x.streams[id];
    if !s.fate.sendClosed && !s.fate.finished {
      var t := s.(fate := s.fate.(sendClosed := true));
      UnfinishedIsLive(c, x, id);
      PutKeeps(c, x, id, t, m, {});
      WriteKeeps(c, Put(x, id, t), HalfCloseF(id), m, {});
    }
  }

  lemma ResumedKeeps(c: Config, x: Mux, id: nat, m: nat)
    requires MuxOk(c, x, m) && CanResume(x, id)
    ensures MuxOk(c, Resumed(c, x, id), m)
  {
    var s := x.streams[id];
    ResumeKeepsIn(s.inn, s.fate.finished, c.window, m);
    PutKeeps(c, x, id, s.(inn := Resume(s.inn, s.fate.finished, c.window)), m, {});
  }

  lemma ResumeKeeps(c: Config, x: Mux, id: nat, m: nat)
    requires MuxOk(c, x, m) && CanResume(x, id)
    ensures MuxOk(c, ResumeRecv(c, x, id), m)
  {
    ResumedKeeps(c, x, id, m);
    var delta := CreditDue(c, x.streams[id]);
    if delta > 0 {
      UnfinishedIsLive(c, x, id);
      WriteKeeps(c, Resumed(c, x, id), WindowF(id, delta), m, {});
    }
  }

  lemma MsgKeeps(c: Config, x: Mux, id: nat, p: Payload, m: nat)
    requires MuxOk(c, x, m) && id in x.registered && id in x.streams && |p| <= m
    requires x.streams[id].inn.buffered <= c.window
    ensures var s := x.streams[id];
            MuxOk(c, Put(x, id, s.(fate := ResolveLeading(s.fate, map[]), inn := Arrive(s.inn, p))), m)
  {
    var s := x.streams[id];
    LeadingKeepsFate(s.fate, map[]);
    ArriveKeepsIn(s.inn, p, c.window, m);
    PutKeeps(c, x, id, s.(fate := ResolveLeading(s.fate, map[]), inn := Arrive(s.inn, p)), m, {});
  }

  /** A terminal frame: the stream leaves the registry and ends. */
  lemma TerminalKeeps(c: Config, x: Mux, id: nat, t: Strm, m: nat)
    requires MuxOk(c, x, m) && id in x.streams && id in x.registered && Fine(c, t, m) && t.fate.finished
    ensures MuxOk(c, Put(x, id, t).(registered := x.registered - {id}), m)
  {
    var y := x.(registered := x.registered - {id});
    OthersOkPut(c, y, id, t, m);
    assert Put(x, id, t).(registered := x.registered - {id}) == Put(y, id, t);
  }

  lemma HandleFrameKeeps(c: Config, x: Mux, f: Frame, m: nat)
    requires MuxOk(c, x, m) && (f.Msg? ==> |f.payload| <= m)
    ensures MuxOk(c, HandleFrame(c, x, f), m)
  {
    if f.id in x.registered && f.id in x.streams {
      var (id, s) := (f.id, x.streams[f.id]);
      match f
      case Header(_, h) =>
        LeadingKeepsFate(s.fate, h);
        PutKeeps(c, x, id, s.(fate := ResolveLeading(s.fate, h)), m, {});
      case WindowUpdate(_, w) => CreditKeeps(c, x, id, w, m);
      case Msg(_, p) =>
        if s.inn.buffered > c.window {
          AbortKeeps(c, x, id, RECV_OVERFLOW, m);
          AbortDetaches(c, x, id, RECV_OVERFLOW);
        } else {
          MsgKeeps(c, x, id, p, m);
        }
      case End(_, st, h) =>
        EndOkKeeps(s, TrailersOf(h), c.window, c.maxSendBuffer, m);
        if ErrorOf(st).Some? {
          EndErrorKeeps(s, ErrorOf(st).value, TrailersOf(h), c.window, c.maxSendBuffer, m);
          TerminalKeeps(c, x, id, EndError(s, ErrorOf(st).value, TrailersOf(h)), m);
        } else {
          TerminalKeeps(c, x, id, EndOk(s, TrailersOf(h)), m);
        }
      case Rst(_, st, h) =>
        EndErrorKeeps(s, ResetError(st), TrailersOf(h), c.window, c.maxSendBuffer, m);
        TerminalKeeps(c, x, id, EndError(s, ResetError(st), TrailersOf(h)), m);
      case _ =>
    }
  }

  lemma AbortDetaches(c: Config, x: Mux, id: nat, why: Status)
    requires id in x.streams && !x.streams[id].fate.finished
    ensures id !in AbortStream(c, x, id, why).registered
  {
  }

  lemma HookKeeps(c: Config, x: Mux, id: nat, m: nat)
    requires MuxOk(c, x, m) && id in x.streams
    ensures MuxOk(c, Hook(x, id), m)
  {
    var s := x.streams[id];
    OnCloseKeepsFate(s.fate);
    PutKeeps(c, x, id, s.(fate := OnClose(s.fate)), m, {});
  }

  lemma RecvKeeps(c: Config, x: Mux, id: nat, m: nat)
    requires MuxOk(c, x, m) && id in x.streams
    ensures MuxOk(c, Put(x, id, x.streams[id].(inn := Request(x.streams[id].inn))), m)
  {
    var s := x.streams[id];
    RequestKeepsIn(s.inn, c.window, m);
    PutKeeps(c, x, id, s.(inn := Request(s.inn)), m, {});
  }

  lemma AttachKeeps(c: Config, x: Mux, id: nat, timeout: bool, signal: Signal, m: nat)
    requires MuxOk(c, x, m) && id in x.streams
    ensures MuxOk(c, Attach(c, x, id, timeout, signal), m)
  {
    var y := if timeout then Hook(x, id) else x;
    if timeout { HookKeeps(c, x, id, m); }
    match signal
    case NoSignal =>
    case Pending => HookKeeps(c, y, id, m);
    case Aborted => AbortKeeps(c, y, id, Status(CODE_CANCELLED, "request aborted"), m);
  }

  lemma RegisteringKeeps(c: Config, x: Mux, s: Strm, m: nat)
    requires MuxOk(c, x, m) && !Defunct(x) && Fine(c, s, m) && Pumped(s) && !s.fate.finished
    ensures MuxOk(c, Registering(x, s), m)
  {
  }

  lemma FilingKeeps(c: Config, x: Mux, s: Strm, m: nat)
    requires MuxOk(c, x, m) && Fine(c, s, m) && s.fate.finished
    ensures MuxOk(c, Filing(x, s), m)
  {
  }

  lemma NewFine(c: Config, m: nat)
    requires Normal(c)
    ensures Fine(c, New(c.window), m) && Pumped(New(c.window))
  {
  }

  lemma OpenDefunctKeeps(c: Config, x: Mux, m: nat)
    requires MuxOk(c, x, m) && Normal(c) && Defunct(x)
    ensures MuxOk(c, Filing(x, EndError(New(c.window), x.life.terminal.value, map[])), m)
  {
    NewFine(c, m);
    EndErrorKeeps(New(c.window), x.life.terminal.value, map[], c.window, c.maxSendBuffer, m);
    FilingKeeps(c, x, EndError(New(c.window), x.life.terminal.value, map[]), m);
  }

  lemma OpenLiveKeeps(c: Config, x: Mux, timeout: bool, signal: Signal, m: nat)
    requires MuxOk(c, x, m) && Normal(c) && !Defunct(x)
    ensures var y := WriteFrame(c, Registering(x, New(c.window)), OpenF(x.nextId));
            MuxOk(c, Attach(c, y, x.nextId, timeout, signal), m)
  {
    NewFine(c, m);
    var y := Registering(x, New(c.window));
    RegisteringKeeps(c, x, New(c.window), m);
    WriteKeeps(c, y, OpenF(x.nextId), m, {});
    AttachKeeps(c, WriteFrame(c, y, OpenF(x.nextId)), x.nextId, timeout, signal, m);
  }

  lemma OpenKeeps(c: Config, x: Mux, timeout: bool, signal: Signal, m: nat)
    requires MuxOk(c, x, m) && Normal(c)
    ensures MuxOk(c, OpenStream(c, x, timeout, signal), m)
  {
    if Defunct(x) { OpenDefunctKeeps(c, x, m); } else { OpenLiveKeeps(c, x, timeout, signal, m); }
  }

  lemma FlushKeeps(c: Config, x: Mux, m: nat)
    requires MuxOk(c, x, m) && !Defunct(x)
    ensures MuxOk(c, Flush(x), m)
  {
  }

  /** Losing the connection, by failure, drop or close. */
  lemma LossKeeps(c: Config, x: Mux, why: Status, m: nat)
    requires MuxOk(c, x, m)
    ensures MuxOk(c, FailConn(x, why), m)
    ensures !Defunct(x) ==> MuxOk(c, DropConn(x), m)
    ensures MuxOk(c, CloseConn(x, why), m)
  {
    KillKeeps(c, x.(life := Notified(x.life.(closed := true))), why, m);
    KillKeeps(c, x.(life := Notified(x.life.(dead := true))), LOST, m);
    KillKeeps(c, x.(life := x.life.(closed := true, owned := false)), why, m);
  }

  /** Payloads in either direction stay below m. */
  predicate EventWithin(e: Event, m: nat) {
    (e.Send? ==> |e.p| <= m) && (e.Inbound? && e.f.Msg? ==> |e.f.payload| <= m)
  }

  /** What callers and timers do to one stream. */
  predicate OnStream(e: Event) {
    e.Send? || e.HalfClose? || e.Cancel? || e.Abort? || e.Recv? || e.Continue? || e.Hooked?
  }

  lemma StreamStepKeeps(c: Config, x: Mux, e: Event, m: nat)
    requires MuxOk(c, x, m) && EventWithin(e, m) && Normal(c) && OnStream(e) && e.id in x.streams
    ensures MuxOk(c, Step(c, x, e), m)
  {
    match e
    case Send(id, p) => SendKeeps(c, x, id, p, m);
    case HalfClose(id) => CloseSendKeeps(c, x, id, m);
    case Cancel(id) => CancelKeeps(c, x, id, m);
    case Abort(id, why) => AbortKeeps(c, x, id, why, m);
    case Recv(id) => RecvKeeps(c, x, id, m);
    case Continue(id) => if CanResume(x, id) { ResumeKeeps(c, x, id, m); }
    case Hooked(id) => HookKeeps(c, x, id, m);
  }

  lemma StepKeeps(c: Config, x: Mux, e: Event, m: nat)
    requires MuxOk(c, x, m) && EventWithin(e, m) && Normal(c)
    ensures MuxOk(c, Step(c, x, e), m)
  {
    if OnStream(e) {
      if e.id in x.streams { StreamStepKeeps(c, x, e, m); } else { assert Step(c, x, e) == x; }
    } else {
      match e
      case Open(timeout, signal) => OpenKeeps(c, x, timeout, signal, m);
      case SocketOpen(ok) =>
        if !Defunct(x) {
          FlushKeeps(c, x, m);
          LossKeeps(c, x, Status(CODE_UNAVAILABLE, "server did not negotiate subprotocol"), m);
        }
      case SocketDrop => LossKeeps(c, x, LOST, m);
      case Oversize => LossKeeps(c, x, Status(CODE_RESOURCE_EXHAUSTED, "inbound frame exceeds maxFrameBytes"), m);
      case Inbound(f) => HandleFrameKeeps(c, x, f, m);
      case Close(why) => LossKeeps(c, x, why, m);
    }
  }

  lemma {:induction false} RunKeeps(c: Config, x: Mux, es: seq<Event>, m: nat)
    requires MuxOk(c, x, m) && Normal(c) && forall i :: 0 <= i < |es| ==> EventWithin(es[i], m)
    ensures MuxOk(c, Run(c, x, es), m)
    decreases |es|
  {
    if es != [] {
      StepKeeps(c, x, es[0], m);
      RunKeeps(c, Step(c, x, es[0]), es[1..], m);
    }
  }

  lemma InitKeeps(c: Config, m: nat)
    ensures MuxOk(c, Init(), m)
  {
  }

  /** The longest payload of a run, sent or received. */
  function Largest(es: seq<Event>): nat {
    if es == [] then 0
    else
      var (e, rest) := (es[0], Largest(es[1..]));
      var n := if e.Send? then |e.p| else if e.Inbound? && e.f.Msg? then |e.f.payload| else 0;
      if n > rest then n else rest
  }

  lemma {:induction false} LargestBounds(es: seq<Event>, m: nat)
    requires Largest(es) <= m
    ensures forall i :: 0 <= i < |es| ==> EventWithin(es[i], m)
  {
    if es != [] {
      LargestBounds(es[1..], m);
      assert forall i :: 0 < i < |es| ==> es[i] == es[1..][i - 1];
    }
  }

  ghost predicate Reaches(c: Config, es: seq<Event>, x: Mux) { Normal(c) && Run(c, Init(), es) == x }

  lemma ReachedOk(c: Config, es: seq<Event>, x: Mux)
    requires Reaches(c, es, x)
    ensures MuxOk(c, x, Largest(es))
  {
    InitKeeps(c, Largest(es));
    LargestBounds(es, Largest(es));
    RunKeeps(c, Init(), es, Largest(es));
  }

  /** Over every event sequence: nobody ever writes into a defunct mux, which holds
      no stream and no frame; unfinished streams are exactly the registered
      ones; the owner hears of the end at most once. */
  lemma DefunctMuxIsEmpty(c: Config, es: seq<Event>, x: Mux)
    requires Reaches(c, es, x)
    ensures !x.life.threw
    ensures Defunct(x) ==>
      x.registered == {} && x.wire.buffer == [] && forall id :: id in x.streams ==> x.streams[id].fate.finished
    ensures forall id :: id in x.streams ==> (id in x.registered <==> !x.streams[id].fate.finished)
    ensures x.life.drops <= 1
  {
    ReachedOk(c, es, x);
  }

  /** Over every event sequence: a stream takes one terminal, and trailers, leading
      headers, close callbacks, reset and queue each learn of it exactly once. */
  lemma FirstTerminalWins(c: Config, es: seq<Event>, x: Mux, id: nat)
    requires Reaches(c, es, x) && id in x.streams
    ensures var (f, q) := (x.streams[id].fate, x.streams[id].inn.queue);
            && f.terminals == f.trailerCalls == (if f.finished then 1 else 0)
            && f.resets <= f.terminals
            && f.leadingCalls <= 1 && (f.finished ==> f.leadingCalls == 1)
            && (if f.finished then q.ended != q.error.Some? else !q.ended && q.error.None?)
            && (f.finished ==> f.ran == Tickets(0, f.hooked))
  {
    ReachedOk(c, es, x);
    assert Fine(c, x.streams[id], Largest(es));
    var f := x.streams[id].fate;
    assert f.finished ==> f.ran + f.waiting == f.ran;
  }

  /** Over every event sequence: sends leave in order, none is held back while there is
      window, the socket sees what was written in order, and every buffer is bounded. */
  lemma WritePathSound(c: Config, es: seq<Event>, x: Mux)
    requires Reaches(c, es, x)
    ensures x.wire.socket <= x.wire.written
    ensures !Defunct(x) ==> x.wire.socket + x.wire.buffer == x.wire.written
    ensures TotalSize(c, x.wire.buffer) <= MAX_PREOPEN_BUFFER_BYTES
    ensures forall id :: id in x.streams ==>
      && x.streams[id].out.handed + x.streams[id].out.queue == x.streams[id].out.accepted
      && TotalBytes(x.streams[id].out.queue) <= c.maxSendBuffer + Largest(es)
      && (!x.streams[id].fate.finished ==> x.streams[id].out.queue == [] || x.streams[id].out.window <= 0)
      && x.streams[id].inn.buffered <= c.window + Largest(es)
  {
    ReachedOk(c, es, x);
    assert forall id :: id in x.streams ==> Fine(c, x.streams[id], Largest(es)) && Pumped(x.streams[id]);
  }
}

/** The wire vocabulary shared by the Go runtime and the TypeScript client:
    payloads, statuses and the frame envelope, as values. */
module Frames {

  datatype Option<+T> = None | Some(value: T)

  type Byte = b: int | 0 <= b < 256
  type Payload = seq<Byte>
  type Headers = map<string, string>

  /** Stream ids and window deltas are uint32 on the wire. */
  const UINT32_RANGE := 0x1_0000_0000
  type Uint32 = n: int | 0 <= n < UINT32_RANGE

  const CODE_OK := 0
  const CODE_CANCELLED := 1
  const CODE_RESOURCE_EXHAUSTED := 8
  const CODE_UNAVAILABLE := 14

  datatype Status = Status(code: int, message: string)

  /** One multiplexed frame. `Other` stands for KIND_UNSPECIFIED and every
      kind number this version does not know. */
  datatype Frame =
    | Open(id: Uint32, methodName: string, headers: Headers)
    | Msg(id: Uint32, payload: Payload)
    | HalfClose(id: Uint32)
    | End(id: Uint32, status: Option<Status>, trailers: Option<Headers>)
    | Rst(id: Uint32, status: Option<Status>, trailers: Option<Headers>)
    | Header(id: Uint32, headers: Headers)
    | WindowUpdate(id: Uint32, window: Uint32)
    | Other(id: Uint32, payload: Payload)

  /** Both runtimes flush coalesced credit at max(1, floor(window / 2)). */
  function Threshold(window: int): (t: int)
    ensures t >= 1
  {
    if window / 2 < 1 then 1 else window / 2
  }

  /** The number of payload bytes in a backlog. */
  function TotalBytes(ps: seq<Payload>): nat {
    if ps == [] then 0 else |ps[0]| + TotalBytes(ps[1..])
  }

  lemma {:induction false} TotalBytesConcat(a: seq<Payload>, b: seq<Payload>)
    ensures TotalBytes(a + b) == TotalBytes(a) + TotalBytes(b)
  {
    if a == [] {
      assert a + b == b;
    } else {
      assert (a + b)[1..] == a[1..] + b;
      TotalBytesConcat(a[1..], b);
    }
  }

  lemma TotalBytesSnoc(a: seq<Payload>, p: Payload)
    ensures TotalBytes(a + [p]) == TotalBytes(a) + |p|
  {
    TotalBytesConcat(a, [p]);
    assert TotalBytes([p]) == |p| + TotalBytes([p][1..]);
  }

  /** The payloads of the MSG frames on a wire, in order. */
  function Messages(fs: seq<Frame>): seq<Payload> {
    if fs == [] then []
    else (if fs[0].Msg? then [fs[0].payload] else []) + Messages(fs[1..])
  }

  lemma {:induction false} MessagesConcat(a: seq<Frame>, b: seq<Frame>)
    ensures Messages(a + b) == Messages(a) + Messages(b)
  {
    if a == [] {
      assert a + b == b;
    } else {
      assert (a + b)[1..] == a[1..] + b;
      MessagesConcat(a[1..], b);
    }
  }
}

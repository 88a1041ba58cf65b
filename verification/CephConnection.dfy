/** The admin-socket connections of src/ceph.c: one state machine per daemon, driven
    by a poll loop over non-blocking sockets. The operating system's answers (connect,
    poll, read and write results) are parameters. */
module CephConnection {
  import opened Common

  type Byte = x: int | 0 <= x < 256

  /** enum request_type_t */
  datatype Request = Version | Data | Schema | NoRequest

  /** enum cstate_t */
  datatype State = Unconnected | WriteRequest | ReadVersion | ReadAmt | ReadJson

  /** struct cconn, with the daemon's version word (`verRaw`, its four bytes in memory)
      and counter number. `lenRaw` holds the bytes of json_len before ntohl, `json` the
      allocated block, and `overrun` tells whether a read has written past one. */
  datatype Conn = Conn(
    request: Request, state: State, asok: int, amt: nat,
    lenRaw: seq<Byte>, jsonLen: nat, json: seq<Byte>, verRaw: seq<Byte>, dsNum: nat, overrun: bool)

  const EDOM: int := 33
  const ENOTSUP: int := 95

  function Code(r: Request): nat {
    match r case Version => 0 case Data => 1 case Schema => 2 case NoRequest => 1000
  }

  /** The command text; it always fits cmd[32]. */
  function Command(r: Request): (s: string)
    ensures 0 < |s| < 32
  {
    assert Decimal(0) == "0" && Decimal(1) == "1" && Decimal(2) == "2";
    assert Decimal(10) == Decimal(1) + "0" && Decimal(100) == Decimal(10) + "0" && Decimal(1000) == Decimal(100) + "0";
    "{ \"prefix\": \"" + Decimal(Code(r)) + "\" }\n"
  }

  /** ntohl of four bytes in network order. */
  function BigEndian(b: seq<Byte>): (n: nat)
    requires |b| == 4
    ensures n < 0x1_0000_0000
  {
    (((b[0] as int) * 256 + b[1] as int) * 256 + b[2] as int) * 256 + b[3] as int
  }

  function Zeros(n: nat): (r: seq<Byte>)
    ensures |r| == n
  {
    seq(n, _ => 0)
  }

  /** memory[at..] overwritten by data, as a read into a buffer does. */
  function Overwrite(memory: seq<Byte>, at: nat, data: seq<Byte>): (r: seq<Byte>)
    requires at + |data| <= |memory|
    ensures |r| == |memory|
    ensures r[..at + |data|] == memory[..at] + data
    ensures data == [] ==> r == memory
  {
    memory[..at] + data + memory[at + |data|..]
  }

  /** What a read leaves in a block: bytes that do not fit it are not part of the model. */
  function Store(block: seq<Byte>, at: nat, data: seq<Byte>): (r: seq<Byte>)
    ensures |r| == |block|
  {
    if at + |data| <= |block| then Overwrite(block, at, data) else block
  }

  predicate PastEnd(block: seq<Byte>, at: nat, data: seq<Byte>) {
    data != [] && at + |data| > |block|
  }

  /** The length whose successor does not fit uint32_t. */
  const LONGEST: nat := 0xFFFF_FFFF

  /** calloc(1, json_len + 1), where the sum is one of 32 bits. */
  function Allocated(len: nat): (r: seq<Byte>)
    ensures |r| == (len + 1) % 0x1_0000_0000
  {
    Zeros((len + 1) % 0x1_0000_0000)
  }

  /** The part of the handed over buffer that lies in the block. */
  function Handed(block: seq<Byte>, len: nat): seq<Byte> {
    block[..Min(len, |block|)]
  }

  // ------------------------------------------------------------- single operations

  /** cconn_connect once a socket is connected. */
  function Connected(c: Conn, fd: nat): Conn {
    c.(asok := fd, state := WriteRequest, amt := 0, lenRaw := Zeros(4), jsonLen := 0, json := [])
  }

  function Close(c: Conn): Conn {
    c.(state := Unconnected, asok := -1, amt := 0, lenRaw := Zeros(4), jsonLen := 0, json := [])
  }

  /** What the main loop does with a connection that failed. */
  function Abandon(c: Conn): Conn {
    Close(c).(request := NoRequest)
  }

  /** cconn_prepare; `connect` is the new descriptor or a negative error. The result
      is 1 to be polled, 0 to be left out, or a negative error. */
  function Prepare(c: Conn, connect: int): (Conn, int) {
    if c.request == NoRequest || (c.request == Data && c.dsNum == 0) then (c, 0)
    else if c.state == Unconnected then
      if connect < 0 then (c, connect) else (Connected(c, connect), 1)
    else (c, 1)
  }

  /** The result of one read or write after EINTR retries. */
  datatype Io = Failed(error: int) | Wrote(count: nat) | Got(data: seq<Byte>)

  /** The number of bytes the next event asks the socket for, or offers to it. */
  function Wanted(c: Conn): (n: nat)
    requires Sound(c)
  {
    match c.state
    case Unconnected => 0
    case WriteRequest => |Command(c.request)| - c.amt
    case ReadVersion => 4 - c.amt
    case ReadAmt => 4 - c.amt
    case ReadJson => c.jsonLen - c.amt
  }

  /** What an operating system may answer in this state. */
  predicate Legal(c: Conn, io: Io)
    requires Sound(c)
  {
    match io
    case Failed(error) => error < 0
    case Wrote(count) => c.state == WriteRequest && count <= Wanted(c)
    case Got(data) => c.state != WriteRequest && c.state != Unconnected && |data| <= Wanted(c)
  }

  /** The new connection, the return code, and the buffer given to JSON processing. */
  datatype Handled = Handled(conn: Conn, ret: int, passed: Option<seq<Byte>>)

  /** cconn_handle_event; `verdict` is what cconn_process_json returns if it is called. */
  function HandleEvent(c: Conn, io: Io, verdict: int): Handled
    requires Sound(c) && Legal(c, io)
  {
    if c.state == Unconnected then Handled(c, -EDOM, None)
    else
      match io
      case Failed(error) => Handled(c, error, None)
      case Wrote(count) =>
        var amt := c.amt + count;
        if amt >= |Command(c.request)| then
          Handled(c.(amt := 0, state := if c.request == Version then ReadVersion else ReadAmt), 0, None)
        else Handled(c.(amt := amt), 0, None)
      case Got(data) =>
        match c.state
        case ReadVersion =>
          var c' := c.(verRaw := Overwrite(c.verRaw, c.amt, data), amt := c.amt + |data|);
          if c'.amt < 4 then Handled(c', 0, None)
          else if BigEndian(c'.verRaw) != 1 then Handled(c', -ENOTSUP, None)
          else Handled(Close(c').(request := Schema), 0, None)
        case ReadAmt =>
          var c' := c.(lenRaw := Overwrite(c.lenRaw, c.amt, data), amt := c.amt + |data|);
          if c'.amt < 4 then Handled(c', 0, None)
          else
            var len := BigEndian(c'.lenRaw);
            Handled(c'.(jsonLen := len, amt := 0, state := ReadJson, json := Allocated(len)), 0, None)
        case ReadJson =>
          var c' := c.(json := Store(c.json, c.amt, data), amt := c.amt + |data|,
                       overrun := c.overrun || PastEnd(c.json, c.amt, data));
          if c'.amt < c.jsonLen then Handled(c', 0, None)
          else if verdict != 0 then Handled(c', verdict, Some(Handed(c'.json, c.jsonLen)))
          else Handled(Close(c').(request := NoRequest), 0, Some(Handed(c'.json, c.jsonLen)))
  }

  /** The invariant of the main loop. */
  predicate Sound(c: Conn) {
    && (c.asok == -1 <==> c.state == Unconnected)
    && -1 <= c.asok
    && (c.request == NoRequest ==> c.state == Unconnected)
    && (c.state == ReadVersion ==> c.request == Version)
    && (c.state in {ReadAmt, ReadJson} ==> c.request in {Data, Schema})
    && |c.verRaw| == 4 && |c.lenRaw| == 4 && c.jsonLen <= LONGEST
    && (if c.state == ReadJson then |c.json| == |Allocated(c.jsonLen)| else c.json == [] && c.jsonLen == 0)
    && (c.state == WriteRequest ==> c.amt < |Command(c.request)|)
    && (c.state in {ReadVersion, ReadAmt} ==> c.amt < 4)
    && (c.state == ReadJson ==> c.amt < c.jsonLen || c.amt == c.jsonLen == 0)
    && (c.state == Unconnected ==> c.amt == 0)
  }

  // ------------------------------------------------------ one turn of the main loop

  /** poll's answer for a socket: nothing, an unexpected or error event, or the awaited one. */
  datatype Poll = Quiet | BadEvent | Ready

  /** Everything the environment decides for one connection in one round. */
  datatype Turn = Turn(connect: int, poll: Poll, io: Io, verdict: int)

  function Prepared(c: Conn, t: Turn): Conn {
    var (c', ret) := Prepare(c, t.connect);
    if ret < 0 then Abandon(c) else c'
  }

  predicate LegalTurn(c: Conn, t: Turn)
    requires Sound(c)
  {
    PreparedSound(c, t);
    Prepare(c, t.connect).1 == 1 && t.poll == Ready ==> Legal(Prepared(c, t), t.io)
  }

  lemma PreparedSound(c: Conn, t: Turn)
    requires Sound(c)
    ensures Sound(Prepared(c, t))
    ensures Prepare(c, t.connect).1 == 1 ==> Prepared(c, t).state != Unconnected
  {
  }

  /** The second half of a round, for a polled connection. */
  function Serve(c: Conn, t: Turn): Conn
    requires Sound(c) && (t.poll == Ready ==> Legal(c, t.io))
  {
    match t.poll
    case Quiet => c
    case BadEvent => Abandon(c)
    case Ready =>
      var h := HandleEvent(c, t.io, t.verdict);
      if h.ret != 0 then Abandon(h.conn) else h.conn
  }

  function Take(c: Conn, t: Turn): Conn
    requires Sound(c) && LegalTurn(c, t)
  {
    PreparedSound(c, t);
    if Prepare(c, t.connect).1 == 1 then Serve(Prepared(c, t), t) else Prepared(c, t)
  }

  // ------------------------------------------------------------ progress and order

  function Stage(r: Request): nat {
    match r case Version => 2 case Schema => 1 case Data => 1 case NoRequest => 0
  }

  function Rank(s: State): nat {
    match s
    case Unconnected => 4 case WriteRequest => 3 case ReadVersion => 2 case ReadAmt => 2 case ReadJson => 1
  }

  /** The lexicographic order on request stage, state and bytes left. */
  ghost predicate Below(a: Conn, b: Conn)
    requires Sound(a) && Sound(b)
  {
    || Stage(a.request) < Stage(b.request)
    || (a.request == b.request && Rank(a.state) < Rank(b.state))
    || (a.request == b.request && a.state == b.state && Wanted(a) < Wanted(b))
  }

  /** The ways a request may develop: a schema is fetched only after version 1 was seen. */
  ghost predicate MayBecome(a: Request, b: Request) {
    a == b || b == NoRequest || (a == Version && b == Schema)
  }

  /** Did this event transfer at least one byte? */
  predicate Moved(io: Io) {
    (io.Wrote? && io.count > 0) || (io.Got? && io.data != [])
  }

  /** A handled event kept the invariant and changed nothing, or made progress; it had
      to make progress if it moved a byte. */
  ghost predicate Progress(c: Conn, c': Conn, io: Io)
    requires Sound(c)
  {
    Sound(c') && (c' == c || Below(c', c)) && (Moved(io) ==> Below(c', c))
  }

  /** Every event fails, leaves the connection exactly as it was, or makes progress in
      the lexicographic order. */
  lemma HandleEventProgress(c: Conn, io: Io, verdict: int)
    requires Sound(c) && Legal(c, io) && c.state != Unconnected
    ensures var h := HandleEvent(c, io, verdict);
            && h.conn.request in {c.request, Schema, NoRequest}
            && MayBecome(c.request, h.conn.request)
            && (h.ret == 0 ==> Progress(c, h.conn, io))
            && |h.conn.verRaw| == 4 && h.conn.dsNum == c.dsNum
  {
    match c.state
    case WriteRequest =>
    case ReadVersion => ReadVersionProgress(c, io, verdict);
    case ReadAmt => ReadAmtProgress(c, io, verdict);
    case ReadJson => ReadJsonProgress(c, io, verdict);
  }

  lemma ReadVersionProgress(c: Conn, io: Io, verdict: int)
    requires Sound(c) && Legal(c, io) && c.state == ReadVersion
    ensures HandleEvent(c, io, verdict).ret == 0 ==> Progress(c, HandleEvent(c, io, verdict).conn, io)
    ensures |HandleEvent(c, io, verdict).conn.verRaw| == 4
  {
  }

  lemma ReadAmtProgress(c: Conn, io: Io, verdict: int)
    requires Sound(c) && Legal(c, io) && c.state == ReadAmt
    ensures HandleEvent(c, io, verdict).ret == 0 ==> Progress(c, HandleEvent(c, io, verdict).conn, io)
  {
  }

  lemma ReadJsonProgress(c: Conn, io: Io, verdict: int)
    requires Sound(c) && Legal(c, io) && c.state == ReadJson
    ensures HandleEvent(c, io, verdict).ret == 0 ==> Progress(c, HandleEvent(c, io, verdict).conn, io)
  {
  }

  /** A whole turn, errors included: unchanged or strictly closer to the end. */
  lemma TakeProgress(c: Conn, t: Turn)
    requires Sound(c) && LegalTurn(c, t)
    ensures Sound(Take(c, t))
    ensures Take(c, t) == c || Below(Take(c, t), c)
    ensures MayBecome(c.request, Take(c, t).request)
    ensures Take(c, t).dsNum == c.dsNum
  {
    PreparedSound(c, t);
    PrepareProgress(c, t);
    var c' := Prepared(c, t);
    if Prepare(c, t.connect).1 == 1 && t.poll == Ready {
      HandleEventProgress(c', t.io, t.verdict);
      var h := HandleEvent(c', t.io, t.verdict);
      if h.ret != 0 {
        AbandonProgress(c', h.conn);
      }
    } else if Prepare(c, t.connect).1 == 1 && t.poll == BadEvent {
      AbandonProgress(c', c');
    }
  }

  lemma PrepareProgress(c: Conn, t: Turn)
    requires Sound(c)
    ensures Sound(Prepared(c, t))
    ensures Prepared(c, t) == c || Below(Prepared(c, t), c)
    ensures Prepared(c, t).request in {c.request, NoRequest} && Prepared(c, t).dsNum == c.dsNum
  {
  }

  lemma AbandonProgress(c: Conn, c': Conn)
    requires Sound(c) && c.state != Unconnected && |c'.verRaw| == 4
    ensures Sound(Abandon(c')) && Below(Abandon(c'), c)
  {
  }

  /** The connection after a sequence of turns. */
  function After(c: Conn, turns: seq<Turn>): (r: Option<Conn>)
    requires Sound(c)
    ensures r.Some? ==> Sound(r.value)
    decreases |turns|
  {
    if turns == [] then Some(c)
    else if LegalTurn(c, turns[0]) then
      TakeProgress(c, turns[0]);
      After(Take(c, turns[0]), turns[1..])
    else None
  }

  /** cconn_main_loop's initial connection. */
  function Start(request: Request, verRaw: seq<Byte>, dsNum: nat): (c: Conn)
    requires |verRaw| == 4
    ensures Sound(c)
  {
    Conn(request, Unconnected, -1, 0, Zeros(4), 0, [], verRaw, dsNum, false)
  }

  /** The requests a run passes through. */
  function Requests(c: Conn, turns: seq<Turn>): (r: seq<Request>)
    requires Sound(c)
    ensures 0 < |r| && r[0] == c.request
    decreases |turns|
  {
    if turns == [] || !LegalTurn(c, turns[0]) then [c.request]
    else
      TakeProgress(c, turns[0]);
      [c.request] + Requests(Take(c, turns[0]), turns[1..])
  }

  /** Later requests are ones that the earlier ones may become. */
  ghost predicate InOrder(r: seq<Request>) {
    forall i, j :: 0 <= i <= j < |r| ==> MayBecome(r[i], r[j])
  }

  /** Over any run each request may only turn into one that MayBecome allows, for every
      pair of positions: a VERSION run is a block of Version, then Schema, then
      NoRequest; a DATA run never asks for anything else. */
  lemma {:induction false} RequestOrder(c: Conn, turns: seq<Turn>)
    requires Sound(c)
    ensures InOrder(Requests(c, turns))
    decreases |turns|
  {
    if turns != [] && LegalTurn(c, turns[0]) {
      TakeProgress(c, turns[0]);
      RequestOrder(Take(c, turns[0]), turns[1..]);
      PrependInOrder(c.request, Requests(Take(c, turns[0]), turns[1..]));
    }
  }

  lemma PrependInOrder(first: Request, rest: seq<Request>)
    requires rest != [] && MayBecome(first, rest[0]) && InOrder(rest)
    ensures InOrder([first] + rest)
  {
    forall j | 0 <= j < |rest| ensures MayBecome(first, rest[j]) {
      assert MayBecome(rest[0], rest[j]);
    }
  }

  // ---------------------------------------------------------- chunk independence

  /** The bytes that have crossed one socket in either direction. */
  datatype Wire = Wire(written: string, got: seq<Byte>)

  function Log(c: Conn, w: Wire, io: Io): Wire
    requires Sound(c) && Legal(c, io)
  {
    match io
    case Failed(_) => w
    case Wrote(count) => w.(written := w.written + Command(c.request)[c.amt..c.amt + count])
    case Got(data) => w.(got := w.got + data)
  }

  /** What the connection knows is a function of the bytes transferred so far. */
  ghost predicate OnWire(c: Conn, w: Wire)
    requires Sound(c)
  {
    match c.state
    case Unconnected => false
    case WriteRequest => w.written == Command(c.request)[..c.amt] && w.got == []
    case ReadVersion => w.written == Command(c.request) && w.got == c.verRaw[..c.amt]
    case ReadAmt => w.written == Command(c.request) && w.got == c.lenRaw[..c.amt]
    case ReadJson =>
      && w.written == Command(c.request)
      && |w.got| == 4 + c.amt
      && c.jsonLen == BigEndian(w.got[..4])
      && (c.jsonLen != LONGEST ==> c.amt <= |c.json| && w.got[4..] == c.json[..c.amt])
  }

  datatype Exchanged = Exchanged(conn: Conn, wire: Wire, passed: Option<seq<Byte>>)

  /** One event: transferred bytes (or an error) and the verdict of the JSON processing. */
  datatype Event = Event(io: Io, verdict: int)

  /** The events on one socket until it is closed, fails or has delivered its document. */
  function Exchange(c: Conn, w: Wire, events: seq<Event>): Exchanged
    requires Sound(c)
    decreases |events|
  {
    if events == [] || c.state == Unconnected || !Legal(c, events[0].io) then Exchanged(c, w, None)
    else
      var h := HandleEvent(c, events[0].io, events[0].verdict);
      var w' := Log(c, w, events[0].io);
      HandleEventProgress(c, events[0].io, events[0].verdict);
      if h.passed.Some? || h.ret != 0 then Exchanged(h.conn, w', h.passed)
      else Exchange(h.conn, w', events[1..])
  }

  /** The document in a reply: a big-endian length and that many bytes. */
  function Reply(stream: seq<Byte>): Option<seq<Byte>> {
    if |stream| < 4 || |stream| < 4 + BigEndian(stream[..4]) then None
    else Some(stream[4..4 + BigEndian(stream[..4])])
  }

  /** A document handed over: as many bytes as announced were received, and they are the
      ones handed over exactly if their number is not the greatest one. */
  predicate Delivered(got: seq<Byte>, passed: Option<seq<Byte>>) {
    && |got| >= 4 && |got| == 4 + BigEndian(got[..4])
    && (passed == Reply(got) <==> BigEndian(got[..4]) != LONGEST)
    && (BigEndian(got[..4]) == LONGEST ==> passed == Some([]))
  }

  lemma HandleEventOnWire(c: Conn, w: Wire, io: Io, verdict: int)
    requires Sound(c) && Legal(c, io) && OnWire(c, w)
    ensures var h := HandleEvent(c, io, verdict);
            var w' := Log(c, w, io);
            && (h.ret == 0 && h.conn.state != Unconnected ==> Sound(h.conn) && OnWire(h.conn, w'))
            && (h.passed.Some? ==> w'.written == Command(c.request) && Delivered(w'.got, h.passed))
  {
    HandleEventProgress(c, io, verdict);
    if io.Got? {
      match c.state
      case ReadVersion => VersionOnWire(c, w, io, verdict);
      case ReadAmt => LengthOnWire(c, w, io, verdict);
      case ReadJson => DocumentOnWire(c, w, io, verdict);
    } else if io.Wrote? {
      var cmd := Command(c.request);
      assert cmd[..c.amt] + cmd[c.amt..c.amt + io.count] == cmd[..c.amt + io.count];
    }
  }

  /** The schema is asked for exactly when the four version bytes say 1. */
  lemma VersionOnWire(c: Conn, w: Wire, io: Io, verdict: int)
    requires Sound(c) && Legal(c, io) && OnWire(c, w) && c.state == ReadVersion && io.Got?
    ensures var h := HandleEvent(c, io, verdict);
            var w' := Log(c, w, io);
            && w'.written == Command(Version) && |w'.got| <= 4 && h.passed.None?
            && (h.conn.request == Schema <==> |w'.got| == 4 && BigEndian(w'.got) == 1)
            && (h.ret == 0 && h.conn.state != Unconnected ==> Sound(h.conn) && OnWire(h.conn, w'))
  {
    var raw := Overwrite(c.verRaw, c.amt, io.data);
    assert raw[..c.amt + |io.data|] == w.got + io.data;
    if c.amt + |io.data| == 4 {
      assert raw == raw[..4];
    }
  }

  lemma LengthOnWire(c: Conn, w: Wire, io: Io, verdict: int)
    requires Sound(c) && Legal(c, io) && OnWire(c, w) && c.state == ReadAmt && io.Got?
    ensures var h := HandleEvent(c, io, verdict);
            h.passed.None? && Sound(h.conn) && OnWire(h.conn, Log(c, w, io))
  {
    var raw := Overwrite(c.lenRaw, c.amt, io.data);
    assert raw[..c.amt + |io.data|] == w.got + io.data;
    if c.amt + |io.data| == 4 {
      assert raw == raw[..4] == (w.got + io.data)[..4];
    }
  }

  lemma DocumentOnWire(c: Conn, w: Wire, io: Io, verdict: int)
    requires Sound(c) && Legal(c, io) && OnWire(c, w) && c.state == ReadJson && io.Got?
    ensures var h := HandleEvent(c, io, verdict);
            var w' := Log(c, w, io);
            && w'.written == Command(c.request)
            && (h.passed.None? ==> OnWireWhileReading(h.conn, w'))
            && (h.passed.Some? ==> Delivered(w'.got, h.passed))
            && (h.ret == 0 && h.conn.state != Unconnected ==> h.passed.None?)
  {
    var json := Store(c.json, c.amt, io.data);
    var got := w.got + io.data;
    assert got[..4] == w.got[..4];
    if c.jsonLen != LONGEST {
      assert got[4..] == w.got[4..] + io.data == json[..c.amt + |io.data|];
    }
    if c.amt + |io.data| >= c.jsonLen {
      assert got[4..4 + c.jsonLen] == got[4..];
    }
  }

  predicate OnWireWhileReading(c: Conn, w: Wire) {
    && c.state == ReadJson && |w.got| == 4 + c.amt && c.amt < c.jsonLen
    && c.jsonLen == BigEndian(w.got[..4])
    && (c.jsonLen != LONGEST ==> c.amt <= |c.json| && w.got[4..] == c.json[..c.amt])
  }

  /** However reads and writes are split: when a document is handed to JSON processing,
      exactly the command was sent, and the document is the reply that the received bytes
      form as a whole, if and only if the announced length is not 0xFFFFFFFF. */
  lemma {:induction false} ExchangeDelivers(c: Conn, w: Wire, events: seq<Event>)
    requires Sound(c) && OnWire(c, w)
    ensures var x := Exchange(c, w, events);
            x.passed.Some? ==> x.wire.written == Command(c.request) && Delivered(x.wire.got, x.passed)
    decreases |events|
  {
    if events != [] && Legal(c, events[0].io) {
      HandleEventOnWire(c, w, events[0].io, events[0].verdict);
      HandleEventProgress(c, events[0].io, events[0].verdict);
      var h := HandleEvent(c, events[0].io, events[0].verdict);
      if h.passed.None? && h.ret == 0 && h.conn.state != Unconnected {
        assert h.conn.request == c.request;
        ExchangeDelivers(h.conn, Log(c, w, events[0].io), events[1..]);
      }
    }
  }

  /** Two runs of the same request against the same peer bytes, chunked in any way, hand
      over the same document: the one a single unsplit exchange reads, unless the
      announced length is 0xFFFFFFFF. */
  lemma ChunkIndependence(c: Conn, fd1: nat, fd2: nat, stream: seq<Byte>, run1: seq<Event>, run2: seq<Event>)
    requires Sound(c) && c.state == Unconnected && c.request != NoRequest
    requires var x1 := Exchange(Connected(c, fd1), Wire("", []), run1);
             var x2 := Exchange(Connected(c, fd2), Wire("", []), run2);
             && x1.passed.Some? && x1.wire.got <= stream
             && x2.passed.Some? && x2.wire.got <= stream
    ensures var x1 := Exchange(Connected(c, fd1), Wire("", []), run1);
            var x2 := Exchange(Connected(c, fd2), Wire("", []), run2);
            && x1.passed == x2.passed
            && 4 <= |stream|
            && (x1.passed == Reply(stream) <==> BigEndian(stream[..4]) != LONGEST)
            && x1.wire == x2.wire
            && x1.wire.written == Command(c.request)
  {
    DeliversReply(c, fd1, stream, run1);
    DeliversReply(c, fd2, stream, run2);
  }

  lemma DeliversReply(c: Conn, fd: nat, stream: seq<Byte>, run: seq<Event>)
    requires Sound(c) && c.state == Unconnected && c.request != NoRequest
    requires var x := Exchange(Connected(c, fd), Wire("", []), run);
             x.passed.Some? && x.wire.got <= stream
    ensures var x := Exchange(Connected(c, fd), Wire("", []), run);
            && 4 <= |x.wire.got| == 4 + BigEndian(stream[..4])
            && (x.passed == Reply(stream) <==> BigEndian(stream[..4]) != LONGEST)
            && (BigEndian(stream[..4]) == LONGEST ==> x.passed == Some([]))
            && x.wire == Wire(Command(c.request), stream[..|x.wire.got|])
  {
    ExchangeDelivers(Connected(c, fd), Wire("", []), run);
    var got := Exchange(Connected(c, fd), Wire("", []), run).wire.got;
    assert got == stream[..|got|];
    assert got[..4] == stream[..4];
    assert got[4..|got|] == stream[4..|got|];
  }

  /** The socket answers every event as it may and never fails, until a document is delivered. */
  predicate Smooth(c: Conn, events: seq<Event>)
    requires Sound(c)
    decreases |events|
  {
    events == [] ||
    (&& c.state != Unconnected && Legal(c, events[0].io) && !events[0].io.Failed?
     && (HandleEventProgress(c, events[0].io, events[0].verdict);
         var h := HandleEvent(c, events[0].io, events[0].verdict);
         h.passed.Some? || (h.ret == 0 && Smooth(h.conn, events[1..]))))
  }

  lemma {:induction false} UndeliveredOnWire(c: Conn, w: Wire, events: seq<Event>)
    requires Sound(c) && OnWire(c, w) && c.request in {Data, Schema} && Smooth(c, events)
    ensures var x := Exchange(c, w, events);
            x.passed.None? ==> Sound(x.conn) && OnWire(x.conn, x.wire)
    decreases |events|
  {
    if events != [] {
      HandleEventOnWire(c, w, events[0].io, events[0].verdict);
      HandleEventProgress(c, events[0].io, events[0].verdict);
      var h := HandleEvent(c, events[0].io, events[0].verdict);
      if h.passed.None? {
        StillExchanging(c, events[0].io, events[0].verdict);
        UndeliveredOnWire(h.conn, Log(c, w, events[0].io), events[1..]);
      }
    }
  }

  /** Without failure, and before the document, a data or schema exchange goes on. */
  lemma StillExchanging(c: Conn, io: Io, verdict: int)
    requires Sound(c) && Legal(c, io) && !io.Failed? && c.state != Unconnected && c.request in {Data, Schema}
    requires HandleEvent(c, io, verdict).passed.None?
    ensures var h := HandleEvent(c, io, verdict);
            h.ret == 0 && h.conn.state != Unconnected && h.conn.request == c.request
  {
  }

  /** The converse of ChunkIndependence: an exchange without failure has delivered the
      document if and only if the bytes received form a complete reply, except that an
      empty document needs one more (empty) read, which delivers it. */
  lemma CompleteReplyDelivered(c: Conn, fd: nat, run: seq<Event>, verdict: int)
    requires Sound(c) && c.state == Unconnected && c.request in {Data, Schema}
    requires Smooth(Connected(c, fd), run)
    ensures var x := Exchange(Connected(c, fd), Wire("", []), run);
            && (Reply(x.wire.got).Some? <==> x.passed.Some? || (x.conn.state == ReadJson && x.conn.jsonLen == 0))
            && (x.passed.Some? ==> Delivered(x.wire.got, x.passed))
            && (x.passed.None? && Reply(x.wire.got).Some? ==>
                  && Reply(x.wire.got) == Some([]) && Sound(x.conn)
                  && Exchange(x.conn, x.wire, [Event(Got([]), verdict)]).passed == Some([]))
  {
    var c0, w0 := Connected(c, fd), Wire("", []);
    var x := Exchange(c0, w0, run);
    ExchangeDelivers(c0, w0, run);
    UndeliveredOnWire(c0, w0, run);
    if x.passed.None? {
      CompleteMeansEmpty(x.conn, x.wire);
      if Reply(x.wire.got).Some? {
        assert Store(x.conn.json, 0, [])[..0] == [];
      }
    }
  }

  lemma CompleteMeansEmpty(c: Conn, w: Wire)
    requires Sound(c) && OnWire(c, w)
    ensures Reply(w.got).Some? <==> c.state == ReadJson && c.jsonLen == 0
    ensures Reply(w.got).Some? ==> Reply(w.got) == Some([])
  {
    if Reply(w.got).Some? {
      assert w.got[4..4] == [];
    }
  }

  /** Every read the system may make stays inside the block, if and only if the announced
      length is not 0xFFFFFFFF: its successor is 0 in 32 bits, and so is the block. */
  lemma ReadsInside(c: Conn, verdict: int)
    requires Sound(c) && c.state == ReadJson
    ensures c.jsonLen != LONGEST <==>
            forall data :: Legal(c, Got(data)) ==> HandleEvent(c, Got(data), verdict).conn.overrun == c.overrun
                                                   && !PastEnd(c.json, c.amt, data)
  {
    if c.jsonLen == LONGEST {
      assert Legal(c, Got([0])) && PastEnd(c.json, c.amt, [0]);
    }
  }

  /** Over a whole exchange: a read has written past the block exactly if the announced
      length is 0xFFFFFFFF and at least one byte followed it. */
  lemma {:induction false} ExchangeOverruns(c: Conn, w: Wire, events: seq<Event>, before: bool)
    requires Sound(c) && OnWire(c, w)
    requires c.overrun == (before || Announced(w.got))
    ensures var x := Exchange(c, w, events);
            x.conn.overrun == (before || Announced(x.wire.got))
    decreases |events|
  {
    if events != [] && Legal(c, events[0].io) {
      EventOverruns(c, w, events[0].io, events[0].verdict, before);
      HandleEventOnWire(c, w, events[0].io, events[0].verdict);
      HandleEventProgress(c, events[0].io, events[0].verdict);
      var h := HandleEvent(c, events[0].io, events[0].verdict);
      if h.passed.None? && h.ret == 0 && h.conn.state != Unconnected {
        ExchangeOverruns(h.conn, Log(c, w, events[0].io), events[1..], before);
      }
    }
  }

  /** The greatest length, and a first byte. */
  predicate Announced(got: seq<Byte>) {
    |got| > 4 && BigEndian(got[..4]) == LONGEST
  }

  lemma EventOverruns(c: Conn, w: Wire, io: Io, verdict: int, before: bool)
    requires Sound(c) && Legal(c, io) && OnWire(c, w)
    requires c.overrun == (before || Announced(w.got))
    ensures HandleEvent(c, io, verdict).conn.overrun == (before || Announced(Log(c, w, io).got))
  {
    if io.Got? && c.state == ReadJson {
      assert (w.got + io.data)[..4] == w.got[..4];
    }
  }

  /** Such an exchange: four bytes FF, and one more. */
  lemma LongestLength(c: Conn, fd: nat, b: Byte)
    requires Sound(c) && c.state == Unconnected && c.request in {Data, Schema} && !c.overrun
    ensures var run := [Event(Wrote(|Command(c.request)|), 0)]
                       + ([Event(Got([255, 255, 255, 255]), 0)] + [Event(Got([b]), 0)]);
            Exchange(Connected(c, fd), Wire("", []), run).conn.overrun
  {
    var c0, w0 := Connected(c, fd), Wire("", []);
    var e0, e1, e2 := Event(Wrote(|Command(c.request)|), 0), Event(Got([255, 255, 255, 255]), 0), Event(Got([b]), 0);
    var c1, w1 := HandleEvent(c0, e0.io, 0).conn, Log(c0, w0, e0.io);
    assert Overwrite(c1.lenRaw, 0, e1.io.data) == e1.io.data;
    var c2, w2 := HandleEvent(c1, e1.io, 0).conn, Log(c1, w1, e1.io);
    assert c2.jsonLen == LONGEST && c2.json == [];
    ExchangeNext(c0, w0, e0, [e1] + [e2]);
    ExchangeNext(c1, w1, e1, [e2]);
    assert [e2][1..] == [];
  }

  lemma ExchangeNext(c: Conn, w: Wire, e: Event, rest: seq<Event>)
    requires Sound(c) && c.state != Unconnected && Legal(c, e.io)
    requires var h := HandleEvent(c, e.io, e.verdict); h.passed.None? && h.ret == 0 && Sound(h.conn)
    ensures Exchange(c, w, [e] + rest) == Exchange(HandleEvent(c, e.io, e.verdict).conn, Log(c, w, e.io), rest)
  {
    assert ([e] + rest)[1..] == rest;
  }

  /** The unsplit exchange does deliver: one write, one read of the length, one of the text. */
  lemma OneShot(c: Conn, fd: nat, stream: seq<Byte>)
    requires Sound(c) && c.state == Unconnected && c.request in {Data, Schema}
    requires Reply(stream).Some?
    ensures var len := BigEndian(stream[..4]);
            var run := [Event(Wrote(|Command(c.request)|), 0), Event(Got(stream[..4]), 0),
                        Event(Got(stream[4..4 + len]), 0)];
            var x := Exchange(Connected(c, fd), Wire("", []), run);
            && (x.passed == Reply(stream) <==> len != LONGEST)
            && x.conn == Abandon(c).(overrun := c.overrun || len == LONGEST)
  {
    var c0, w0 := Connected(c, fd), Wire("", []);
    var len := BigEndian(stream[..4]);
    var e0, e1, e2 := Event(Wrote(|Command(c.request)|), 0), Event(Got(stream[..4]), 0), Event(Got(stream[4..4 + len]), 0);
    var c1, w1 := HandleEvent(c0, e0.io, 0).conn, Log(c0, w0, e0.io);
    assert Overwrite(c1.lenRaw, 0, stream[..4]) == stream[..4];
    var c2, w2 := HandleEvent(c1, e1.io, 0).conn, Log(c1, w1, e1.io);
    assert c2.state == ReadJson && c2.jsonLen == len;
    LastRead(c2, w2, stream[4..4 + len]);
    ExchangeNext(c0, w0, e0, [e1] + [e2]);
    ExchangeNext(c1, w1, e1, [e2]);
    assert [e0, e1, e2] == [e0] + ([e1] + [e2]);
  }

  /** The whole document in one read. */
  lemma LastRead(c: Conn, w: Wire, data: seq<Byte>)
    requires Sound(c) && c.state == ReadJson && c.amt == 0 && |data| == c.jsonLen
    ensures var x := Exchange(c, w, [Event(Got(data), 0)]);
            && x.passed == Some(if c.jsonLen != LONGEST then data else [])
            && x.conn == Close(c).(request := NoRequest, overrun := c.overrun || c.jsonLen == LONGEST)
  {
    if c.jsonLen != LONGEST {
      assert Handed(Store(c.json, 0, data), c.jsonLen) == data;
    }
  }

  // ------------------------------------------------------------- the peer's side

  /** The commands as they are sent. */
  lemma CommandTexts()
    ensures Command(Version) == "{ \"prefix\": \"0\" }\n"
    ensures Command(Data) == "{ \"prefix\": \"1\" }\n"
    ensures Command(Schema) == "{ \"prefix\": \"2\" }\n"
  {
    assert Decimal(0) == "0" && Decimal(1) == "1" && Decimal(2) == "2";
  }

  /** A number of 32 bits in network order: the most significant byte goes first. */
  function NetworkOrder(n: nat): (b: seq<Byte>)
    requires n <= 0xFFFF_FFFF
    ensures |b| == 4
  {
    [n / 16777216, n / 65536 % 256, n / 256 % 256, n % 256]
  }

  /** Reading undoes sending, and sending undoes reading. */
  lemma ReadBack(n: nat)
    requires n <= 0xFFFF_FFFF
    ensures BigEndian(NetworkOrder(n)) == n
  {
    var a, b := n / 256, n / 65536;
    assert b == a / 256 && n / 16777216 == b / 256;
    assert n == 256 * a + n % 256 && a == 256 * b + a % 256 && b == 256 * (b / 256) + b % 256;
  }

  lemma SentAgain(b: seq<Byte>)
    requires |b| == 4
    ensures NetworkOrder(BigEndian(b)) == b
  {
    ReadBack(BigEndian(b));
    SameDigits(BigEndian(b), b);
  }

  lemma SameDigits(n: nat, b: seq<Byte>)
    requires |b| == 4 && n == BigEndian(b)
    ensures NetworkOrder(n) == b
  {
    var hi := (b[0] as int) * 256 + b[1] as int;
    var mid := hi * 256 + b[2] as int;
    Digit(mid, b[3]);
    Digit(hi, b[2]);
    Digit(b[0], b[1]);
    assert n / 65536 == n / 256 / 256 && n / 16777216 == n / 65536 / 256;
  }

  lemma Digit(a: nat, d: Byte)
    ensures (a * 256 + d as int) / 256 == a && (a * 256 + d as int) % 256 == d as int
  {
  }

  /** What a daemon sends for a document: its length in network order, and the text. */
  function Answer(text: seq<Byte>): seq<Byte>
    requires |text| <= 0xFFFF_FFFF
  {
    NetworkOrder(|text|) + text
  }

  lemma AnswerIsReply(text: seq<Byte>)
    requires |text| <= 0xFFFF_FFFF
    ensures 4 <= |Answer(text)| && Answer(text)[..4] == NetworkOrder(|text|)
    ensures BigEndian(Answer(text)[..4]) == |text| && Reply(Answer(text)) == Some(text)
  {
    ReadBack(|text|);
    assert Answer(text)[..4] == NetworkOrder(|text|);
    assert Answer(text)[4..4 + |text|] == text;
  }

  /** A daemon that answers with a document of less than 2^32 - 1 bytes has exactly this
      document handed over, however the answer is split: if anything is handed over, and
      whenever the whole answer has arrived (an empty document needs one more read). */
  lemma DocumentHandedOver(c: Conn, fd: nat, text: seq<Byte>, run: seq<Event>, verdict: int)
    requires Sound(c) && c.state == Unconnected && c.request in {Data, Schema}
    requires |text| < 0xFFFF_FFFF
    requires Exchange(Connected(c, fd), Wire("", []), run).wire.got <= Answer(text)
    ensures var x := Exchange(Connected(c, fd), Wire("", []), run);
            && (x.passed.Some? ==> x.passed == Some(text) && x.wire == Wire(Command(c.request), Answer(text)))
            && (Smooth(Connected(c, fd), run) && x.wire.got == Answer(text) ==>
                  || x.passed == Some(text)
                  || (text == [] && Sound(x.conn)
                      && Exchange(x.conn, x.wire, [Event(Got([]), verdict)]).passed == Some(text)))
  {
    var x := Exchange(Connected(c, fd), Wire("", []), run);
    AnswerIsReply(text);
    if x.passed.Some? {
      DeliversReply(c, fd, Answer(text), run);
      assert Answer(text)[..|Answer(text)|] == Answer(text);
    } else if Smooth(Connected(c, fd), run) && x.wire.got == Answer(text) {
      CompleteReplyDelivered(c, fd, run, verdict);
    }
  }

  /** The answer in one piece: the document is handed over and the connection done with. */
  lemma DocumentInOnePiece(c: Conn, fd: nat, text: seq<Byte>)
    requires Sound(c) && c.state == Unconnected && c.request in {Data, Schema}
    requires |text| < 0xFFFF_FFFF
    ensures var run := [Event(Wrote(|Command(c.request)|), 0), Event(Got(NetworkOrder(|text|)), 0), Event(Got(text), 0)];
            var x := Exchange(Connected(c, fd), Wire("", []), run);
            x.passed == Some(text) && Gone(x.conn)
  {
    AnswerIsReply(text);
    assert Answer(text)[4..4 + |text|] == text;
    OneShot(c, fd, Answer(text));
  }

  /** A connection that the loop is done with. */
  predicate Gone(c: Conn) {
    c.request == NoRequest && c.state == Unconnected && c.asok == -1 && c.json == []
  }

  /** A daemon that answers with its version in network order is asked for its schema if
      and only if the version is 1, however the answer is split. */
  lemma VersionAnswered(c: Conn, fd: nat, version: nat, run: seq<Event>)
    requires Sound(c) && c.state == Unconnected && c.request == Version
    requires version <= 0xFFFF_FFFF
    requires Exchange(Connected(c, fd), Wire("", []), run).wire.got == NetworkOrder(version)
    ensures var x := Exchange(Connected(c, fd), Wire("", []), run);
            && x.wire.written == Command(Version) && x.passed.None?
            && x.conn.request == (if version == 1 then Schema else Version)
            && (version == 1 ==> x.conn.state == Unconnected)
  {
    ReadBack(version);
    VersionExchange(Connected(c, fd), Wire("", []), run);
  }

  lemma {:induction false} VersionExchange(c: Conn, w: Wire, events: seq<Event>)
    requires Sound(c) && OnWire(c, w) && c.request == Version
    ensures var x := Exchange(c, w, events);
            && x.passed.None? && |x.wire.got| <= 4
            && (x.wire.got != [] ==> x.wire.written == Command(Version))
            && x.conn.request in {Version, Schema}
            && (x.conn.request == Schema <==> |x.wire.got| == 4 && BigEndian(x.wire.got) == 1)
            && (x.conn.request == Schema ==> x.conn.state == Unconnected)
    decreases |events|
  {
    if events != [] && Legal(c, events[0].io) {
      var h := HandleEvent(c, events[0].io, events[0].verdict);
      VersionEvent(c, w, events[0].io, events[0].verdict);
      HandleEventProgress(c, events[0].io, events[0].verdict);
      if h.ret == 0 && h.conn.state != Unconnected {
        VersionExchange(h.conn, Log(c, w, events[0].io), events[1..]);
      }
    }
  }

  lemma VersionEvent(c: Conn, w: Wire, io: Io, verdict: int)
    requires Sound(c) && Legal(c, io) && OnWire(c, w) && c.request == Version
    ensures var h := HandleEvent(c, io, verdict);
            var w' := Log(c, w, io);
            && h.passed.None? && |w'.got| <= 4
            && (w'.got != [] ==> w'.written == Command(Version))
            && h.conn.request in {Version, Schema}
            && (h.conn.request == Schema <==> |w'.got| == 4 && BigEndian(w'.got) == 1)
            && (h.conn.request == Schema ==> h.conn.state == Unconnected)
            && (h.conn.request == Version && h.ret == 0 ==>
                  h.conn.state != Unconnected && Sound(h.conn) && OnWire(h.conn, w'))
  {
    HandleEventOnWire(c, w, io, verdict);
    if c.state == ReadVersion && io.Got? {
      VersionOnWire(c, w, io, verdict);
    }
  }

  /** The return codes: an error of the socket, a version other than 1 (-ENOTSUP), the
      verdict on a document that has arrived, and 0 in all other cases. */
  lemma ReturnCodes(c: Conn, w: Wire, io: Io, verdict: int)
    requires Sound(c) && Legal(c, io) && OnWire(c, w)
    ensures var h := HandleEvent(c, io, verdict);
            h.ret == match io
                     case Failed(error) => error
                     case Wrote(_) => 0
                     case Got(data) =>
                       if c.state == ReadVersion && |w.got + data| == 4 && w.got + data != [0, 0, 0, 1] then -95
                       else if h.passed.Some? then verdict
                       else 0
  {
    if io.Got? && c.state == ReadVersion && |w.got + io.data| == 4 {
      var raw := Overwrite(c.verRaw, c.amt, io.data);
      assert raw[..4] == raw == w.got + io.data;
      SentAgain(raw);
      assert NetworkOrder(1) == [0, 0, 0, 1];
      ReadBack(1);
    }
  }

  /** What a turn does, by cases: a served connection stays as it is; one that cannot
      connect, polls badly or whose event fails is given up; a quiet one stays as it was
      or is freshly connected. */
  lemma TurnMeaning(c: Conn, t: Turn)
    requires Sound(c) && LegalTurn(c, t)
    ensures Served(c) ==> Take(c, t) == c
    ensures !Served(c) && c.state == Unconnected && t.connect < 0 ==> Gone(Take(c, t))
    ensures !Served(c) && !(c.state == Unconnected && t.connect < 0) ==>
              && (t.poll == Quiet && c.state != Unconnected ==> Take(c, t) == c)
              && (t.poll == Quiet && c.state == Unconnected ==>
                    && Take(c, t).state == WriteRequest && Take(c, t).asok == t.connect
                    && Take(c, t).request == c.request && Take(c, t).amt == 0)
              && (t.poll == BadEvent ==> Gone(Take(c, t)))
              && (t.poll == Ready && HandleEvent(Prepared(c, t), t.io, t.verdict).ret != 0 ==> Gone(Take(c, t)))
              && (t.poll == Ready && HandleEvent(Prepared(c, t), t.io, t.verdict).ret == 0 ==>
                    Take(c, t) == HandleEvent(Prepared(c, t), t.io, t.verdict).conn)
  {
    PreparedSound(c, t);
  }

  // ------------------------------------------------------------- the poll loop

  /** One pass of the loop in cconn_main_loop: what happens to each connection, and
      whether time has run out (or poll failed) before any event was handled. */
  datatype Round = Round(turns: seq<Turn>, stop: bool)

  /** In the last round, preparation happens but no event is handled. */
  function Effective(round: Round, i: nat): Turn
    requires i < |round.turns|
  {
    if round.stop then round.turns[i].(poll := Quiet) else round.turns[i]
  }

  /** io_array in the main loop: cells are updated in place. */
  method PrepareAt(ios: array<Conn>, i: nat, connect: int) returns (ret: int)
    requires i < ios.Length && Sound(ios[i])
    modifies ios
    ensures ios[..] == old(ios[..])[i := old(Prepare(ios[i], connect)).0]
    ensures ret == old(Prepare(ios[i], connect)).1
  {
    if ios[i].request == NoRequest || (ios[i].request == Data && ios[i].dsNum == 0) {
      return 0;
    }
    if ios[i].state == Unconnected {
      if connect < 0 {
        return connect;
      }
      ios[i] := ios[i].(asok := connect);
      ios[i] := ios[i].(state := WriteRequest);
      ios[i] := ios[i].(amt := 0, lenRaw := Zeros(4), jsonLen := 0, json := []);
    }
    return 1;
  }

  method CloseAt(ios: array<Conn>, i: nat)
    requires i < ios.Length
    modifies ios
    ensures ios[..] == old(ios[..])[i := Close(old(ios[i]))]
  {
    ios[i] := ios[i].(state := Unconnected);
    ios[i] := ios[i].(asok := -1, amt := 0, lenRaw := Zeros(4), jsonLen := 0, json := []);
  }

  method HandleEventAt(ios: array<Conn>, i: nat, io: Io, verdict: int) returns (ret: int, passed: Option<seq<Byte>>)
    requires i < ios.Length && Sound(ios[i]) && Legal(ios[i], io) && ios[i].state != Unconnected
    modifies ios
    ensures var h := old(HandleEvent(ios[i], io, verdict));
            ios[..] == old(ios[..])[i := h.conn] && ret == h.ret && passed == h.passed
  {
    ret, passed := 0, None;
    if io.Failed? {
      return io.error, None;
    }
    match ios[i].state
    case WriteRequest => WrittenAt(ios, i, io.count);
    case ReadVersion => ret := ReadVersionAt(ios, i, io.data);
    case ReadAmt => ReadAmtAt(ios, i, io.data);
    case ReadJson => ret, passed := ReadJsonAt(ios, i, io.data, verdict);
  }

  /** The case CSTATE_WRITE_REQUEST. */
  method WrittenAt(ios: array<Conn>, i: nat, count: nat)
    requires i < ios.Length && Sound(ios[i]) && Legal(ios[i], Wrote(count))
    modifies ios
    ensures ios[..] == old(ios[..])[i := old(HandleEvent(ios[i], Wrote(count), 0)).conn]
  {
    ios[i] := ios[i].(amt := ios[i].amt + count);
    if ios[i].amt >= |Command(ios[i].request)| {
      ios[i] := ios[i].(amt := 0);
      ios[i] := ios[i].(state := if ios[i].request == Version then ReadVersion else ReadAmt);
    }
  }

  /** The case CSTATE_READ_VERSION. */
  method ReadVersionAt(ios: array<Conn>, i: nat, data: seq<Byte>) returns (ret: int)
    requires i < ios.Length && Sound(ios[i]) && Legal(ios[i], Got(data)) && ios[i].state == ReadVersion
    modifies ios
    ensures var h := old(HandleEvent(ios[i], Got(data), 0)); ios[..] == old(ios[..])[i := h.conn] && ret == h.ret
  {
    ios[i] := ios[i].(verRaw := Overwrite(ios[i].verRaw, ios[i].amt, data));
    ios[i] := ios[i].(amt := ios[i].amt + |data|);
    if ios[i].amt >= 4 {
      if BigEndian(ios[i].verRaw) != 1 {
        return -ENOTSUP;
      }
      CloseAt(ios, i);
      ios[i] := ios[i].(request := Schema);
    }
    return 0;
  }

  /** The case CSTATE_READ_AMT. */
  method ReadAmtAt(ios: array<Conn>, i: nat, data: seq<Byte>)
    requires i < ios.Length && Sound(ios[i]) && Legal(ios[i], Got(data)) && ios[i].state == ReadAmt
    modifies ios
    ensures ios[..] == old(ios[..])[i := old(HandleEvent(ios[i], Got(data), 0)).conn]
  {
    ios[i] := ios[i].(lenRaw := Overwrite(ios[i].lenRaw, ios[i].amt, data));
    ios[i] := ios[i].(amt := ios[i].amt + |data|);
    if ios[i].amt >= 4 {
      ios[i] := ios[i].(jsonLen := BigEndian(ios[i].lenRaw));
      ios[i] := ios[i].(amt := 0, state := ReadJson);
      ios[i] := ios[i].(json := Allocated(ios[i].jsonLen));
    }
  }

  /** The case CSTATE_READ_JSON. */
  method ReadJsonAt(ios: array<Conn>, i: nat, data: seq<Byte>, verdict: int) returns (ret: int, passed: Option<seq<Byte>>)
    requires i < ios.Length && Sound(ios[i]) && Legal(ios[i], Got(data)) && ios[i].state == ReadJson
    modifies ios
    ensures var h := old(HandleEvent(ios[i], Got(data), verdict));
            ios[..] == old(ios[..])[i := h.conn] && ret == h.ret && passed == h.passed
  {
    passed := None;
    ios[i] := ios[i].(overrun := ios[i].overrun || PastEnd(ios[i].json, ios[i].amt, data));
    ios[i] := ios[i].(json := Store(ios[i].json, ios[i].amt, data));
    ios[i] := ios[i].(amt := ios[i].amt + |data|);
    if ios[i].amt >= ios[i].jsonLen {
      passed := Some(Handed(ios[i].json, ios[i].jsonLen));
      if verdict != 0 {
        return verdict, passed;
      }
      CloseAt(ios, i);
      ios[i] := ios[i].(request := NoRequest);
    }
    return 0, passed;
  }

  /** What one connection experiences over some rounds. */
  function History(rounds: seq<Round>, i: nat): (h: seq<Turn>)
    requires forall r :: r in rounds ==> i < |r.turns|
    ensures |h| == |rounds|
  {
    seq(|rounds|, k requires 0 <= k < |rounds| => assert rounds[k] in rounds; Effective(rounds[k], i))
  }

  lemma {:induction false} AfterConcat(c: Conn, a: seq<Turn>, b: seq<Turn>)
    requires Sound(c)
    ensures After(c, a + b) == match After(c, a) case None => None case Some(c') => After(c', b)
    decreases |a|
  {
    if a == [] {
      assert a + b == b;
    } else {
      assert (a + b)[1..] == a[1..] + b;
      if LegalTurn(c, a[0]) {
        TakeProgress(c, a[0]);
        AfterConcat(Take(c, a[0]), a[1..], b);
      }
    }
  }

  /** The connections after k rounds are legal and take one more turn in round k. */
  lemma NextRound(c: Conn, rounds: seq<Round>, i: nat, k: nat)
    requires Sound(c) && k < |rounds| && forall r :: r in rounds ==> i < |r.turns|
    requires After(c, History(rounds, i)).Some?
    ensures After(c, History(rounds[..k], i)).Some?
    ensures var before := After(c, History(rounds[..k], i)).value;
            var t := Effective(rounds[k], i);
            LegalTurn(before, t) && After(c, History(rounds[..k + 1], i)) == Some(Take(before, t))
  {
    var h := History(rounds, i);
    var t := Effective(rounds[k], i);
    assert History(rounds[..k], i) == h[..k];
    assert History(rounds[..k + 1], i) == h[..k] + [t];
    assert h == h[..k] + ([t] + h[k + 1..]);
    AfterPrefix(c, h[..k], t, h[k + 1..]);
  }

  lemma AfterPrefix(c: Conn, a: seq<Turn>, t: Turn, b: seq<Turn>)
    requires Sound(c) && After(c, a + ([t] + b)).Some?
    ensures After(c, a).Some?
    ensures LegalTurn(After(c, a).value, t) && After(c, a + [t]) == Some(Take(After(c, a).value, t))
  {
    AfterConcat(c, a, [t] + b);
    AfterConcat(c, a, [t]);
    assert ([t] + b)[1..] == b;
    assert [t][1..] == [];
  }

  method PrepareAll(ios: array<Conn>, turns: seq<Turn>) returns (polled: seq<nat>)
    requires |turns| == ios.Length && forall i :: 0 <= i < ios.Length ==> Sound(ios[i])
    modifies ios
    ensures forall i :: 0 <= i < ios.Length ==> ios[i] == Prepared(old(ios[i]), turns[i])
    ensures forall k :: k in polled ==> k < ios.Length
    ensures forall i :: 0 <= i < ios.Length ==> (i in polled <==> Prepare(old(ios[i]), turns[i].connect).1 == 1)
    ensures forall a, b :: 0 <= a < b < |polled| ==> polled[a] != polled[b]
  {
    polled := [];
    for i := 0 to ios.Length
      invariant forall k :: 0 <= k < i ==> ios[k] == Prepared(old(ios[k]), turns[k])
      invariant forall k :: i <= k < ios.Length ==> ios[k] == old(ios[k])
      invariant forall k :: k in polled ==> k < i
      invariant forall a :: 0 <= a < |polled| ==> polled[a] < i
      invariant forall k :: 0 <= k < i ==> (k in polled <==> Prepare(old(ios[k]), turns[k].connect).1 == 1)
      invariant forall a, b :: 0 <= a < b < |polled| ==> polled[a] != polled[b]
    {
      var ret := PrepareAt(ios, i, turns[i].connect);
      if ret < 0 {
        CloseAt(ios, i);
        ios[i] := ios[i].(request := NoRequest);
      } else if ret == 1 {
        polled := polled + [i];
      }
    }
  }

  method ServeAll(ios: array<Conn>, turns: seq<Turn>, polled: seq<nat>)
    requires |turns| == ios.Length
    requires forall k :: k in polled ==>
               k < ios.Length && Sound(ios[k]) && ios[k].state != Unconnected
               && (turns[k].poll == Ready ==> Legal(ios[k], turns[k].io))
    requires forall a, b :: 0 <= a < b < |polled| ==> polled[a] != polled[b]
    modifies ios
    ensures forall i :: 0 <= i < ios.Length ==>
              ios[i] == if i in polled then Serve(old(ios[i]), turns[i]) else old(ios[i])
  {
    for n := 0 to |polled|
      invariant forall i :: 0 <= i < ios.Length ==>
                  ios[i] == if i in polled[..n] then Serve(old(ios[i]), turns[i]) else old(ios[i])
    {
      var i := polled[n];
      assert i !in polled[..n] && i in polled;
      assert polled[..n + 1] == polled[..n] + [i];
      match turns[i].poll
      case Quiet =>
      case BadEvent =>
        CloseAt(ios, i);
        ios[i] := ios[i].(request := NoRequest);
      case Ready =>
        var ret, _ := HandleEventAt(ios, i, turns[i].io, turns[i].verdict);
        if ret != 0 {
          CloseAt(ios, i);
          ios[i] := ios[i].(request := NoRequest);
        }
    }
    assert polled[..|polled|] == polled;
  }

  /** What the configuration says about a daemon when the loop starts. */
  datatype Daemon = Daemon(verRaw: seq<Byte>, dsNum: nat)

  predicate Served(c: Conn) {
    c.request == NoRequest || (c.request == Data && c.dsNum == 0)
  }

  /** One pass of the loop. The loop goes on (`more`) unless nothing was left to poll
      (ret is 0) or time ran out. */
  method RunRound(ios: array<Conn>, round: Round) returns (more: bool, ret: int)
    requires |round.turns| == ios.Length
    requires forall i :: 0 <= i < ios.Length ==> Sound(ios[i]) && LegalTurn(ios[i], Effective(round, i))
    modifies ios
    ensures forall i :: 0 <= i < ios.Length ==> ios[i] == Take(old(ios[i]), Effective(round, i))
    ensures round.stop ==> !more
    ensures !more && ret == 0 ==> forall i :: 0 <= i < ios.Length ==> Served(ios[i])
  {
    var polled := PrepareAll(ios, round.turns);
    forall i | 0 <= i < ios.Length
      ensures Sound(ios[i]) && (i in polled ==> ios[i].state != Unconnected)
      ensures i in polled && !round.stop ==> Serve(ios[i], round.turns[i]) == Take(old(ios[i]), Effective(round, i))
      ensures i !in polled || round.stop ==> ios[i] == Take(old(ios[i]), Effective(round, i))
      ensures i !in polled ==> Served(ios[i])
    {
      PreparedSound(old(ios[i]), round.turns[i]);
      assert Prepared(old(ios[i]), round.turns[i]) == Prepared(old(ios[i]), Effective(round, i));
    }
    if polled == [] {
      return false, 0;
    }
    if round.stop {
      return false, -1;
    }
    ServeAll(ios, round.turns, polled);
    return true, 0;
  }

  method CloseAll(ios: array<Conn>)
    modifies ios
    ensures forall i :: 0 <= i < ios.Length ==> ios[i] == Close(old(ios[i]))
  {
    for i := 0 to ios.Length
      invariant forall j :: 0 <= j < i ==> ios[j] == Close(old(ios[j]))
      invariant forall j :: i <= j < ios.Length ==> ios[j] == old(ios[j])
    {
      CloseAt(ios, i);
    }
  }

  function Starts(request: Request, daemons: seq<Daemon>): (r: seq<Conn>)
    requires forall d :: d in daemons ==> |d.verRaw| == 4
    ensures |r| == |daemons| && forall i :: 0 <= i < |r| ==> Sound(r[i])
  {
    seq(|daemons|, i requires 0 <= i < |daemons| =>
      assert daemons[i] in daemons; Start(request, daemons[i].verRaw, daemons[i].dsNum))
  }

  /** Every connection is where k rounds take it. */
  ghost predicate Reached(start: seq<Conn>, rounds: seq<Round>, k: nat, conns: seq<Conn>)
    requires forall i :: 0 <= i < |start| ==> Sound(start[i])
    requires forall r :: r in rounds ==> |r.turns| == |start|
    requires k <= |rounds|
  {
    |conns| == |start| &&
    forall i :: 0 <= i < |start| ==> After(start[i], History(rounds[..k], i)) == Some(conns[i])
  }

  lemma ReachedNext(start: seq<Conn>, rounds: seq<Round>, k: nat, conns: seq<Conn>)
    requires forall r :: r in rounds ==> |r.turns| == |start|
    requires forall i :: 0 <= i < |start| ==> Sound(start[i]) && After(start[i], History(rounds, i)).Some?
    requires k < |rounds| && Reached(start, rounds, k, conns)
    ensures rounds[k] in rounds
    ensures forall i :: 0 <= i < |start| ==>
              Sound(conns[i]) && LegalTurn(conns[i], Effective(rounds[k], i))
              && After(start[i], History(rounds[..k + 1], i)) == Some(Take(conns[i], Effective(rounds[k], i)))
  {
    assert rounds[k] in rounds;
    forall i | 0 <= i < |start|
      ensures Sound(conns[i]) && LegalTurn(conns[i], Effective(rounds[k], i))
              && After(start[i], History(rounds[..k + 1], i)) == Some(Take(conns[i], Effective(rounds[k], i)))
    {
      NextRound(start[i], rounds, i, k);
      assert After(start[i], History(rounds[..k], i)) == Some(conns[i]);
    }
  }

  /** The loop of cconn_main_loop. */
  method RunRounds(ios: array<Conn>, start: seq<Conn>, rounds: seq<Round>) returns (ghost k: nat, ret: int)
    requires ios[..] == start && forall i :: 0 <= i < |start| ==> Sound(start[i])
    requires forall r :: r in rounds ==> |r.turns| == |start|
    requires rounds != [] && rounds[|rounds| - 1].stop
    requires forall i :: 0 <= i < |start| ==> After(start[i], History(rounds, i)).Some?
    modifies ios
    ensures 0 < k <= |rounds| && Reached(start, rounds, k, ios[..])
    ensures ret == 0 ==> forall i :: 0 <= i < ios.Length ==> Served(ios[i])
  {
    var n := 0;
    var more := true;
    ret := 0;
    while more
      invariant n <= |rounds| && (if more then n < |rounds| else 0 < n)
      invariant Reached(start, rounds, n, ios[..])
      invariant !more && ret == 0 ==> forall i :: 0 <= i < ios.Length ==> Served(ios[i])
      decreases |rounds| - n, more
    {
      ReachedNext(start, rounds, n, ios[..]);
      more, ret := RunRound(ios, rounds[n]);
      n := n + 1;
    }
    k := n;
  }

  /** cconn_main_loop: every connection takes its turns round by round, and all of them
      are closed in the end; the result 0 means that no request is left unserved. */
  method MainLoop(request: Request, daemons: seq<Daemon>, rounds: seq<Round>)
    returns (ios: array<Conn>, ret: int)
    requires forall d :: d in daemons ==> |d.verRaw| == 4
    requires forall r :: r in rounds ==> |r.turns| == |daemons|
    requires rounds != [] && rounds[|rounds| - 1].stop
    requires forall i :: 0 <= i < |daemons| ==>
               After(Starts(request, daemons)[i], History(rounds, i)).Some?
    ensures fresh(ios) && ios.Length == |daemons|
    ensures exists k, last :: 0 < k <= |rounds| && Reached(Starts(request, daemons), rounds, k, last)
              && forall i :: 0 <= i < |daemons| ==> ios[i] == Close(last[i])
    ensures forall i :: 0 <= i < ios.Length ==> ios[i].state == Unconnected && ios[i].asok == -1 && ios[i].json == []
    ensures ret == 0 ==> forall i :: 0 <= i < ios.Length ==> Served(ios[i])
  {
    var start := Starts(request, daemons);
    ios := new Conn[|daemons|](i requires 0 <= i < |daemons| => start[i]);
    assert ios[..] == start;
    ghost var k;
    k, ret := RunRounds(ios, start, rounds);
    ghost var last := ios[..];
    CloseAll(ios);
    assert Reached(start, rounds, k, last);
  }
}

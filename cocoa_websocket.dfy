/**
 * The byte-stream socket that the iOS MQTT engine reads from and writes to,
 * built on a message-framed WebSocket. Reads ask for an exact number of bytes;
 * inbound binary frames are buffered, and reads that the buffer cannot satisfy
 * yet are queued and served when more bytes arrive.
 *
 * The WebSocket library is replaced by a log of the calls made on it, and the
 * delegate by a log of the notifications it receives, in order.
 */
module CocoaWebSocket {

  import opened Options
  import opened ByteStream
  import opened WebSocketUrl

  /** Why a disconnect was reported to the delegate. */
  datatype SocketError =
    | ClosedError(domain: string, code: int, reason: string)  // built from a close frame
    | TransportError(description: string)                     // passed on from the WebSocket

  /** A call on the socket's delegate. */
  datatype Notice =
    | SocketConnected
    | DidDisconnect(error: Option<SocketError>)
    | DidRead(data: seq<byte>, tag: int)
    | DidWrite(tag: int)

  /** A call on the underlying WebSocket object. */
  datatype TransportAction = Open(request: Request) | Send(frame: seq<byte>) | Close

  /** The events the WebSocket reports. */
  datatype WebSocketEvent =
    | Connected(responseHeaders: map<string, string>)
    | Disconnected(reason: string, code: uint16)
    | Text(text: string)
    | Binary(data: seq<byte>)
    | Error(error: Option<string>)
    | Cancelled
    | Ping
    | Pong
    | ViabilityChanged(isViable: bool)
    | ReconnectSuggested(shouldReconnect: bool)
    | PeerClosed

  datatype ConnectOutcome = Opened | InvalidURL

  const ErrorDomain: string := "CocoaMQTTWebSocket"

  /** The bytes delivered by the read notices in `ns`, in order. */
  function ReadBytes(ns: seq<Notice>): seq<byte>
    decreases |ns|
  {
    if ns == [] then []
    else
      var last := ns[|ns| - 1];
      ReadBytes(ns[..|ns| - 1]) + (if last.DidRead? then last.data else [])
  }

  /** The read notices that hand the given deliveries to the delegate. */
  function ReadNotices(ds: seq<Delivery>): seq<Notice>
    decreases |ds|
  {
    if ds == [] then []
    else ReadNotices(ds[..|ds| - 1]) + [DidRead(ds[|ds| - 1].data, ds[|ds| - 1].request.tag)]
  }

  lemma {:induction false} ReadBytesAppend(a: seq<Notice>, b: seq<Notice>)
    ensures ReadBytes(a + b) == ReadBytes(a) + ReadBytes(b)
    decreases |b|
  {
    if b == [] {
      assert a + b == a;
    } else {
      var b', last := b[..|b| - 1], b[|b| - 1];
      var extra := if last.DidRead? then last.data else [];
      assert (a + b)[..|a + b| - 1] == a + b';
      assert (a + b)[|a + b| - 1] == last;
      ReadBytesAppend(a, b');
      calc {
        ReadBytes(a + b);
        ReadBytes(a + b') + extra;
        ReadBytes(a) + ReadBytes(b') + extra;
        ReadBytes(a) + (ReadBytes(b') + extra);
        ReadBytes(a) + ReadBytes(b);
      }
    }
  }

  lemma SliceOfAppend<T>(a: seq<T>, b: seq<T>, k: nat)
    requires k <= |a|
    ensures (a + b)[k..] == a[k..] + b
  {
  }

  /** Reporting the first `length` buffered bytes as read moves them from the buffer to
      the notices without losing or reordering any byte. */
  lemma ReadServes(before: seq<Notice>, buffer: seq<byte>, length: nat, tag: int)
    requires length <= |buffer|
    ensures ReadBytes(before + [DidRead(buffer[..length], tag)]) + buffer[length..]
         == ReadBytes(before) + buffer
  {
    var requested := buffer[..length];
    var after := before + [DidRead(requested, tag)];
    assert after[..|after| - 1] == before;
    assert ReadBytes(after) == ReadBytes(before) + requested;
    assert requested + buffer[length..] == buffer;
    assert (ReadBytes(before) + requested) + buffer[length..]
        == ReadBytes(before) + (requested + buffer[length..]);
  }

  lemma ReadNoticesSnoc(ds: seq<Delivery>, d: Delivery)
    ensures ReadNotices(ds + [d]) == ReadNotices(ds) + [DidRead(d.data, d.request.tag)]
  {
    assert (ds + [d])[..|ds|] == ds;
  }

  /** Removing the element at position |kept| from kept + [x] + rest. */
  lemma RemoveAt<T>(kept: seq<T>, x: T, rest: seq<T>)
    ensures var q := kept + [x] + rest; q[|kept|] == x && q[..|kept|] + q[|kept| + 1..] == kept + rest
  {
    var q := kept + [x] + rest;
    assert q[..|kept|] == kept;
    assert q[|kept| + 1..] == rest;
  }

  /** The read notices of a pass deliver exactly the bytes of its deliveries. */
  lemma {:induction false} ReadBytesOfNotices(ds: seq<Delivery>)
    ensures ReadBytes(ReadNotices(ds)) == Concat(ds)
    decreases |ds|
  {
    if ds != [] {
      var init := ds[..|ds| - 1];
      var d := ds[|ds| - 1];
      ReadBytesOfNotices(init);
      ReadBytesAppend(ReadNotices(init), [DidRead(d.data, d.request.tag)]);
      assert [DidRead(d.data, d.request.tag)][..0] == [];
    }
  }

  /** The loop invariant of `processPendingReads` after it has looked at the first `j`
      requests of `queue0`: the local state is the `Scan` of those, followed by the
      requests not yet looked at, and `i` points at the first of those. */
  ghost predicate PassAt(buffer0: seq<byte>, queue0: seq<ReadRequest>, j: nat,
                         buffer: seq<byte>, queue: seq<ReadRequest>, i: nat, delivered: seq<Notice>)
  {
    && j <= |queue0|
    && var s := Scan(buffer0, queue0[..j]);
    && buffer == s.buffer
    && queue == s.kept + queue0[j..]
    && i == |s.kept|
    && delivered == ReadNotices(s.served)
  }

  lemma PassStart(buffer0: seq<byte>, queue0: seq<ReadRequest>)
    ensures PassAt(buffer0, queue0, 0, buffer0, queue0, 0, [])
  {
    assert queue0[..0] == [] && queue0[0..] == queue0;
  }

  lemma PassBounds(buffer0: seq<byte>, queue0: seq<ReadRequest>, j: nat,
                   buffer: seq<byte>, queue: seq<ReadRequest>, i: nat, delivered: seq<Notice>)
    requires PassAt(buffer0, queue0, j, buffer, queue, i, delivered)
    ensures i <= |queue|
    ensures i < |queue| ==> j < |queue0| && queue[i] == queue0[j]
    ensures i == |queue| ==> j == |queue0| && queue0[..j] == queue0
  {
  }

  /** Serving the request at `i` moves the pass on by one request. */
  lemma PassServe(buffer0: seq<byte>, queue0: seq<ReadRequest>, j: nat,
                  buffer: seq<byte>, queue: seq<ReadRequest>, i: nat, delivered: seq<Notice>)
    requires PassAt(buffer0, queue0, j, buffer, queue, i, delivered)
    requires i < |queue| && |buffer| >= queue[i].length
    ensures PassAt(buffer0, queue0, j + 1, buffer[queue[i].length..], queue[..i] + queue[i + 1..], i,
                   delivered + [DidRead(buffer[..queue[i].length], queue[i].tag)])
  {
    PassBounds(buffer0, queue0, j, buffer, queue, i, delivered);
    var s := Scan(buffer0, queue0[..j]);
    var r := queue0[j];
    ScanNext(buffer0, queue0, j);
    assert queue0[j..] == [r] + queue0[j + 1..];
    RemoveAt(s.kept, r, queue0[j + 1..]);
    assert queue[i] == r && queue[..i] + queue[i + 1..] == s.kept + queue0[j + 1..];
    var d := Delivery(r, buffer[..r.length]);
    assert Step(s, r) == ScanState(buffer[r.length..], s.kept, s.served + [d]);
    ReadNoticesSnoc(s.served, d);
  }

  /** Leaving the request at `i` queued moves the pass on by one request. */
  lemma PassSkip(buffer0: seq<byte>, queue0: seq<ReadRequest>, j: nat,
                 buffer: seq<byte>, queue: seq<ReadRequest>, i: nat, delivered: seq<Notice>)
    requires PassAt(buffer0, queue0, j, buffer, queue, i, delivered)
    requires i < |queue| && |buffer| < queue[i].length
    ensures PassAt(buffer0, queue0, j + 1, buffer, queue, i + 1, delivered)
  {
    PassBounds(buffer0, queue0, j, buffer, queue, i, delivered);
    var s := Scan(buffer0, queue0[..j]);
    var r := queue0[j];
    ScanNext(buffer0, queue0, j);
    assert queue0[j..] == [r] + queue0[j + 1..];
    assert s.kept + queue0[j..] == (s.kept + [r]) + queue0[j + 1..];
  }

  /** When the loop stops, its local state is the whole `Scan`, which settles the queue,
      and appending its notices keeps the conservation invariant of the session. */
  lemma PassFinish(notices: seq<Notice>, sessionStart: nat, session: seq<byte>,
                   buffer0: seq<byte>, queue0: seq<ReadRequest>, j: nat,
                   buffer: seq<byte>, queue: seq<ReadRequest>, i: nat, delivered: seq<Notice>)
    requires PassAt(buffer0, queue0, j, buffer, queue, i, delivered)
    requires i >= |queue|
    requires sessionStart <= |notices| && ReadBytes(notices[sessionStart..]) + buffer0 == session
    ensures buffer == Scan(buffer0, queue0).buffer
    ensures queue == Scan(buffer0, queue0).kept
    ensures delivered == ReadNotices(Scan(buffer0, queue0).served)
    ensures Unsatisfiable(buffer, queue)
    ensures ReadBytes((notices + delivered)[sessionStart..]) + buffer == session
  {
    PassBounds(buffer0, queue0, j, buffer, queue, i, delivered);
    PassConserves(notices[sessionStart..], buffer0, queue0);
    SliceOfAppend(notices, delivered, sessionStart);
  }

  /** A pass keeps the conservation invariant: the bytes read before, then the bytes
      the pass delivers, then the buffer it leaves, are the bytes read before followed
      by the buffer it started from. */
  lemma PassConserves(before: seq<Notice>, buffer: seq<byte>, reqs: seq<ReadRequest>)
    ensures var r := Scan(buffer, reqs);
      && ReadBytes(before + ReadNotices(r.served)) + r.buffer == ReadBytes(before) + buffer
      && Unsatisfiable(r.buffer, r.kept)
  {
    var r := Scan(buffer, reqs);
    ScanSettles(buffer, reqs);
    calc {
      ReadBytes(before + ReadNotices(r.served)) + r.buffer;
      { ReadBytesAppend(before, ReadNotices(r.served)); }
      (ReadBytes(before) + ReadBytes(ReadNotices(r.served))) + r.buffer;
      { ReadBytesOfNotices(r.served); }
      (ReadBytes(before) + Concat(r.served)) + r.buffer;
      ReadBytes(before) + (Concat(r.served) + r.buffer);
      { ScanConserves(buffer, reqs); }
      ReadBytes(before) + buffer;
    }
  }

  class CocoaMQTTWebSocket {
    var enableSSL: bool
    var uri: string
    var headers: map<string, string>
    var socketURL: Option<string>
    /** The WebSocket object, given by the request it was built from; None when dropped. */
    var webSocket: Option<Request>
    var readBuffer: seq<byte>
    var pendingReads: seq<ReadRequest>
    /** Every delegate notification, oldest first. */
    var notices: seq<Notice>
    /** Every call made on a WebSocket object, oldest first. */
    var transport: seq<TransportAction>

    /** The bytes received since the socket was created or last disconnected. */
    ghost var session: seq<byte>
    /** Where in `notices` the current session started. */
    ghost var sessionStart: nat

    /** Byte conservation: what was read in this session, followed by the buffer, is
        everything received in this session. */
    ghost predicate Valid()
      reads this
    {
      && sessionStart <= |notices|
      && ReadBytes(notices[sessionStart..]) + readBuffer == session
    }

    /** Every queued read asks for more bytes than the buffer holds. */
    predicate Settled()
      reads this
    {
      Unsatisfiable(readBuffer, pendingReads)
    }

    /** `init()`: the path defaults to `/mqtt`, no custom headers, no TLS. */
    constructor ()
      ensures Valid() && Settled()
      ensures uri == DefaultUri && headers == map[] && !enableSSL
      ensures socketURL == None && webSocket == None
      ensures readBuffer == [] && pendingReads == [] && notices == [] && transport == []
    {
      enableSSL := false;
      uri := DefaultUri;
      headers := map[];
      socketURL := None;
      webSocket := None;
      readBuffer := [];
      pendingReads := [];
      notices := [];
      transport := [];
      session := [];
      sessionStart := 0;
    }

    /** `init(uri:)`: as `init()`, with the given path. */
    constructor WithUri(uri: string)
      ensures Valid() && Settled()
      ensures this.uri == uri && headers == map[] && !enableSSL
      ensures socketURL == None && webSocket == None
      ensures readBuffer == [] && pendingReads == [] && notices == [] && transport == []
    {
      enableSSL := false;
      this.uri := uri;
      headers := map[];
      socketURL := None;
      webSocket := None;
      readBuffer := [];
      pendingReads := [];
      notices := [];
      transport := [];
      session := [];
      sessionStart := 0;
    }

    /** Builds a fresh WebSocket object for `url` with the current headers. */
    method ConfigureWebSocket(url: string)
      modifies this`webSocket
      ensures webSocket == Some(Request(url, RequestHeaders(headers)))
    {
      var request := BuildRequest(url, headers);
      webSocket := Some(request);
    }

    /** Setting `enableSSL` rebuilds the WebSocket object from the address of the last
        connect, if there was one. The address keeps the scheme it was built with,
        and the rebuilt object is not opened. */
    method SetEnableSSL(value: bool)
      modifies this`enableSSL, this`webSocket
      ensures enableSSL == value
      ensures socketURL.Some? ==> webSocket == Some(Request(socketURL.value, RequestHeaders(headers)))
      ensures socketURL.None? ==> webSocket == old(webSocket)
    {
      enableSSL := value;
      if socketURL.Some? {
        ConfigureWebSocket(socketURL.value);
      }
    }

    /** `connect(toHost:onPort:withTimeout:)`. `urlParses` stands for the platform URL
        parser: whether it accepts the built address. When it does not, nothing
        changes and the call fails with `invalidURL`. */
    method Connect(host: string, port: uint16, urlParses: string -> bool) returns (outcome: ConnectOutcome)
      modifies this`socketURL, this`webSocket, this`transport
      ensures var url := SocketUrl(old(enableSSL), host, port, old(uri));
        if urlParses(url) then
          && outcome == Opened
          && socketURL == Some(url)
          && webSocket == Some(Request(url, RequestHeaders(headers)))
          && transport == old(transport) + [Open(Request(url, RequestHeaders(headers)))]
        else
          && outcome == InvalidURL
          && socketURL == old(socketURL) && webSocket == old(webSocket)
          && transport == old(transport)
    {
      var url := SocketUrl(enableSSL, host, port, uri);
      if !urlParses(url) {
        return InvalidURL;
      }
      socketURL := Some(url);
      ConfigureWebSocket(url);
      transport := transport + [Open(webSocket.value)];
      outcome := Opened;
    }

    /** `disconnect()`: closes and drops the WebSocket, tells the delegate at once
        (without waiting for a close event), and clears the buffer and the queue. A new
        conservation session starts after the disconnect notice. */
    method Disconnect()
      requires Valid()
      modifies this`transport, this`notices, this`webSocket, this`readBuffer, this`pendingReads,
               this`session, this`sessionStart
      ensures Valid() && Settled()
      ensures session == [] && sessionStart == |notices|
      ensures readBuffer == [] && pendingReads == []
      ensures webSocket == None
      ensures notices == old(notices) + [DidDisconnect(None)]
      ensures transport == old(transport) + (if old(webSocket).Some? then [Close] else [])
    {
      if webSocket.Some? {
        transport := transport + [Close];
      }
      notices := notices + [DidDisconnect(None)];
      webSocket := None;
      readBuffer := [];
      pendingReads := [];
      session := [];
      sessionStart := |notices|;
    }

    /** `readData(toLength:withTimeout:tag:)`: serves the read from the front of the
        buffer when it holds enough bytes, even while other reads are queued;
        otherwise queues it behind them. */
    method ReadData(length: nat, tag: int)
      requires Valid()
      modifies this`readBuffer, this`pendingReads, this`notices
      ensures Valid()
      ensures old(Settled()) ==> Settled()
      ensures |old(readBuffer)| >= length ==>
        && readBuffer == old(readBuffer)[length..]
        && notices == old(notices) + [DidRead(old(readBuffer)[..length], tag)]
        && pendingReads == old(pendingReads)
      ensures |old(readBuffer)| < length ==>
        && readBuffer == old(readBuffer)
        && notices == old(notices)
        && pendingReads == old(pendingReads) + [ReadRequest(length, tag)]
    {
      if |readBuffer| >= length {
        var requested := readBuffer[..length];
        ReadServes(notices[sessionStart..], readBuffer, length, tag);
        SliceOfAppend(notices, [DidRead(requested, tag)], sessionStart);
        readBuffer := readBuffer[length..];
        notices := notices + [DidRead(requested, tag)];
      } else {
        pendingReads := pendingReads + [ReadRequest(length, tag)];
      }
    }

    /** `write(_:withTimeout:tag:)`: hands the bytes to the WebSocket as one frame and
        reports the tag as written. Without a WebSocket nothing happens. */
    method Write(data: seq<byte>, tag: int)
      requires Valid()
      modifies this`transport, this`notices
      ensures Valid()
      ensures old(webSocket).Some? ==>
        transport == old(transport) + [Send(data)] && notices == old(notices) + [DidWrite(tag)]
      ensures old(webSocket).None? ==> transport == old(transport) && notices == old(notices)
    {
      if webSocket.Some? {
        transport := transport + [Send(data)];
        ReadBytesAppend(notices[sessionStart..], [DidWrite(tag)]);
        assert ReadBytes([DidWrite(tag)]) == [] by {
          assert [DidWrite(tag)][..0] == [];
        }
        SliceOfAppend(notices, [DidWrite(tag)], sessionStart);
        notices := notices + [DidWrite(tag)];
      }
    }

    /** `processPendingReads`: one pass over the queue, front to back, serving every
        request the buffer can satisfy at the moment it is looked at. */
    method ProcessPendingReads()
      requires Valid()
      modifies this`readBuffer, this`pendingReads, this`notices
      ensures Valid() && Settled()
      ensures readBuffer == Scan(old(readBuffer), old(pendingReads)).buffer
      ensures pendingReads == Scan(old(readBuffer), old(pendingReads)).kept
      ensures notices == old(notices) + ReadNotices(Scan(old(readBuffer), old(pendingReads)).served)
    {
      ghost var buffer0, queue0 := readBuffer, pendingReads;
      var buffer, queue := readBuffer, pendingReads;
      var delivered: seq<Notice> := [];
      ghost var j := 0;
      var i := 0;
      PassStart(buffer0, queue0);
      while i < |queue|
        modifies {}
        invariant PassAt(buffer0, queue0, j, buffer, queue, i, delivered)
        decreases |queue| - i
      {
        var pendingRead := queue[i];
        if |buffer| >= pendingRead.length {
          var requested := buffer[..pendingRead.length];
          PassServe(buffer0, queue0, j, buffer, queue, i, delivered);
          buffer := buffer[pendingRead.length..];
          queue := queue[..i] + queue[i + 1..];
          delivered := delivered + [DidRead(requested, pendingRead.tag)];
        } else {
          PassSkip(buffer0, queue0, j, buffer, queue, i, delivered);
          i := i + 1;
        }
        j := j + 1;
      }
      PassFinish(notices, sessionStart, session, buffer0, queue0, j, buffer, queue, i, delivered);
      readBuffer, pendingReads := buffer, queue;
      notices := notices + delivered;
    }

    /** `didReceive(event:client:)`. A binary frame is appended to the buffer, then the
        queue is served. Connection events are passed on to the delegate; text, ping,
        pong, viability and reconnect-suggested events change nothing. */
    method DidReceive(event: WebSocketEvent)
      requires Valid()
      modifies this`readBuffer, this`pendingReads, this`notices, this`session
      ensures Valid()
      ensures event.Binary? ==>
        && readBuffer == Scan(old(readBuffer) + event.data, old(pendingReads)).buffer
        && pendingReads == Scan(old(readBuffer) + event.data, old(pendingReads)).kept
        && notices == old(notices) + ReadNotices(Scan(old(readBuffer) + event.data, old(pendingReads)).served)
        && Settled()
      ensures !event.Binary? ==> readBuffer == old(readBuffer) && pendingReads == old(pendingReads)
      ensures notices == old(notices) + match event
        case Connected(_) => [SocketConnected]
        case Disconnected(reason, code) => [DidDisconnect(Some(ClosedError(ErrorDomain, code as int, reason)))]
        case Error(e) => [DidDisconnect(if e.Some? then Some(TransportError(e.value)) else None)]
        case Cancelled => [DidDisconnect(None)]
        case PeerClosed => [DidDisconnect(None)]
        case Binary(data) => ReadNotices(Scan(old(readBuffer) + data, old(pendingReads)).served)
        case _ => []
    {
      match event {
        case Connected(_) =>
          Notify(SocketConnected);
        case Disconnected(reason, code) =>
          Notify(DidDisconnect(Some(ClosedError(ErrorDomain, code as int, reason))));
        case Text(_) =>
        case Binary(data) =>
          readBuffer := readBuffer + data;
          session := session + data;
          ProcessPendingReads();
        case Error(e) =>
          Notify(DidDisconnect(if e.Some? then Some(TransportError(e.value)) else None));
        case Cancelled =>
          Notify(DidDisconnect(None));
        case Ping =>
        case Pong =>
        case ViabilityChanged(_) =>
        case ReconnectSuggested(_) =>
        case PeerClosed =>
          Notify(DidDisconnect(None));
      }
    }

    /** Passes a connection notice (not a read) to the delegate. */
    method Notify(n: Notice)
      requires Valid()
      requires !n.DidRead?
      modifies this`notices
      ensures Valid()
      ensures notices == old(notices) + [n]
    {
      ReadBytesAppend(notices[sessionStart..], [n]);
      assert ReadBytes([n]) == [] by {
        assert [n][..0] == [];
      }
      SliceOfAppend(notices, [n], sessionStart);
      notices := notices + [n];
    }
  }
}

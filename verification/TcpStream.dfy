/** One connection: its state, its two buffers, and what the kernel has taken from it. */
module TcpStream {
  import opened Wrappers
  import opened Bytes
  import opened ByteBuffer

  datatype State = Disconnected | Connecting | Connected | Disconnecting

  /** The kernel's answer to a write: an error, or that it took up to n of the bytes offered. */
  datatype WriteAnswer = WriteFailed | Took(n: nat)

  function BytesTaken(answer: WriteAnswer, offered: nat): (n: nat)
    requires answer.Took?
    ensures n <= offered
  {
    if answer.n < offered then answer.n else offered
  }

  /** A call a user callback makes on its connection. A send carries the kernel's answer to the
      write it may cause, and what the write-complete callback does if it is invoked. An empty
      script also stands for a callback that was never set. */
  datatype Call =
    | Send(message: string, answer: WriteAnswer, onComplete: seq<Call>)
    | Shutdown
    | ForceClose(onDown: seq<Call>)
    | Consume(len: nat)

  /** A connection as a value. `reading` and `writing` are its channel's events, `tracked` says whether
      the poller knows the channel. `kernel` is everything the kernel took, `accepted` everything passed
      to send while connected, `fins` what the kernel had at each call that shut down the write side. */
  datatype Conn = Conn(state: State, reading: bool, writing: bool, tracked: bool, input: string, output: string,
                       kernel: string, accepted: string, fins: seq<string>,
                       ups: nat, downs: nat, closes: nat)

  const NEW_CONN := Conn(Connecting, false, false, false, "", "", "", "", [], 0, 0, 0)

  function Sent(c: Conn, data: string, answer: WriteAnswer, onComplete: seq<Call>): Conn
    decreases onComplete, 1
  {
    if c.state == Disconnected then c
    else if !c.writing && c.output == "" then
      if answer.WriteFailed? then c.(output := c.output + data, writing := true)
      else
        var n := BytesTaken(answer, |data|);
        var c1 := c.(kernel := c.kernel + data[..n]);
        if n == |data| then AllCalled(c1, onComplete)
        else c1.(output := c1.output + data[n..], writing := true)
    else c.(output := c.output + data)
  }

  function ShutDown(c: Conn): Conn {
    if c.writing then c else c.(fins := c.fins + [c.kernel])
  }

  /** The connection as its UP callback, or its DOWN callback, finds it. */
  function Up(c: Conn): Conn {
    c.(state := Connected, reading := true, tracked := true, ups := c.ups + 1)
  }

  function Down(c: Conn): Conn {
    c.(state := Disconnected, reading := false, writing := false, downs := c.downs + 1)
  }

  function Closed(c: Conn, onDown: seq<Call>): Conn
    decreases onDown, 1
  {
    var c1 := AllCalled(Down(c), onDown);
    c1.(closes := c1.closes + 1)
  }

  function Called(c: Conn, call: Call): Conn
    decreases call
  {
    match call
    case Send(message, answer, onComplete) =>
      if c.state == Connected
      then Sent(c.(accepted := c.accepted + message), message, answer, onComplete) else c
    case Shutdown =>
      if c.state == Connected then ShutDown(c.(state := Disconnecting)) else c
    case ForceClose(onDown) =>
      if c.state == Connected || c.state == Disconnecting
      then Closed(c.(state := Disconnecting), onDown) else c
    case Consume(len) =>
      c.(input := if len < |c.input| then c.input[len..] else "")
  }

  function AllCalled(c: Conn, calls: seq<Call>): Conn
    decreases calls, 0
  {
    if calls == [] then c else AllCalled(Called(c, calls[0]), calls[1..])
  }

  function WriteHandled(c: Conn, answer: WriteAnswer, onComplete: seq<Call>): Conn {
    if !c.writing || answer.WriteFailed? || BytesTaken(answer, |c.output|) == 0 then c else
    var n := BytesTaken(answer, |c.output|);
    var c1 := c.(kernel := c.kernel + c.output[..n], output := c.output[n..]);
    if c1.output != "" then c1 else
    var c2 := AllCalled(c1.(writing := false), onComplete);
    if c2.state == Disconnecting then ShutDown(c2) else c2
  }

  function ReadHandled(c: Conn, answer: ReadResult, onMessage: seq<Call>, onDown: seq<Call>): Conn {
    match answer
    case ReadFailed(_) => c
    case ReadOk(bytes) =>
      if bytes == "" then Closed(c, onDown)
      else AllCalled(c.(input := c.input + bytes), onMessage)
  }

  function Established(c: Conn, onUp: seq<Call>): Conn {
    AllCalled(Up(c), onUp)
  }

  function Destroyed(c: Conn, onDown: seq<Call>): Conn {
    var d := if c.state == Connected
      then AllCalled(Down(c), onDown)
      else c;
    d.(tracked := false)
  }

  class TcpConnection {
    var state: State
    var reading: bool
    var writing: bool
    var tracked: bool
    const inputBuffer: Buffer
    const outputBuffer: Buffer
    ghost var kernel: string
    ghost var accepted: string
    ghost var fins: seq<string>
    ghost var ups: nat
    ghost var downs: nat
    ghost var closes: nat

    ghost function Footprint(): set<object>
      reads this, inputBuffer, outputBuffer
    {
      {this, inputBuffer, outputBuffer, inputBuffer.buffer, outputBuffer.buffer}
    }

    ghost predicate Valid()
      reads this, inputBuffer, outputBuffer
    {
      && inputBuffer != outputBuffer && inputBuffer.buffer != outputBuffer.buffer
      && inputBuffer.Valid() && outputBuffer.Valid()
    }

    ghost function View(): Conn
      reads this, inputBuffer, outputBuffer, inputBuffer.buffer, outputBuffer.buffer
      requires Valid()
    {
      Conn(state, reading, writing, tracked, inputBuffer.Contents(), outputBuffer.Contents(),
           kernel, accepted, fins, ups, downs, closes)
    }

    constructor ()
      ensures Valid() && fresh(Footprint()) && View() == NEW_CONN
    {
      state, reading, writing, tracked := Connecting, false, false, false;
      inputBuffer := new Buffer();
      outputBuffer := new Buffer();
      kernel, accepted, fins, ups, downs, closes := "", "", [], 0, 0, 0;
    }

    method ConnectEstablished(onUp: seq<Call>)
      requires Valid() && state == Connecting
      modifies Footprint()
      ensures Valid() && fresh(Footprint() - old(Footprint()))
      ensures View() == Established(old(View()), onUp)
    {
      state := Connected;
      reading, tracked := true, true;
      ups := ups + 1;
      RunCalls(onUp);
    }

    method ConnectDestroyed(onDown: seq<Call>)
      requires Valid()
      modifies Footprint()
      ensures Valid() && fresh(Footprint() - old(Footprint()))
      ensures View() == Destroyed(old(View()), onDown)
    {
      if state == Connected {
        GoDown(onDown);
      }
      tracked := false;
    }

    /** Disconnects, leaves the poller's interest set, and tells the user. */
    method GoDown(onDown: seq<Call>)
      requires Valid()
      modifies Footprint()
      ensures Valid() && fresh(Footprint() - old(Footprint()))
      ensures View() == AllCalled(Down(old(View())), onDown)
      decreases onDown, 1
    {
      state := Disconnected;
      reading, writing := false, false;
      downs := downs + 1;
      RunCalls(onDown);
    }

    method Send(message: string, answer: WriteAnswer, onComplete: seq<Call>)
      requires Valid()
      modifies Footprint()
      ensures Valid() && fresh(Footprint() - old(Footprint()))
      ensures View() == Called(old(View()), Call.Send(message, answer, onComplete))
      decreases onComplete, 2
    {
      if state == Connected {
        accepted := accepted + message;
        SendInLoop(message, answer, onComplete);
      }
    }

    /** The overload that sends a buffer and empties it, but only when connected. The buffer may be the
        connection's own input, which is what its message callback is given. */
    method SendBuffer(buffer: Buffer, answer: WriteAnswer, onComplete: seq<Call>)
      requires Valid() && buffer.Valid()
      requires {buffer, buffer.buffer} !! {this, outputBuffer, outputBuffer.buffer}
      requires buffer == inputBuffer || {buffer, buffer.buffer} !! Footprint()
      modifies Footprint(), buffer`readerIndex, buffer`writerIndex
      ensures Valid() && fresh(Footprint() - old(Footprint())) && buffer.Valid()
      ensures var sent := Called(old(View()), Call.Send(old(buffer.Contents()), answer, onComplete));
              View() == (if buffer == inputBuffer && old(state) == Connected then sent.(input := "") else sent)
      ensures buffer.Contents() == (if old(state) == Connected then "" else old(buffer.Contents()))
    {
      if state == Connected {
        accepted := accepted + buffer.Contents();
        SendInLoop(buffer.Contents(), answer, onComplete);
        buffer.RetrieveAll();
      }
    }

    method SendInLoop(data: string, answer: WriteAnswer, onComplete: seq<Call>)
      requires Valid()
      modifies Footprint()
      ensures Valid() && fresh(Footprint() - old(Footprint()))
      ensures View() == Sent(old(View()), data, answer, onComplete)
      decreases onComplete, 1
    {
      if state == Disconnected {
        return;
      }
      if !writing && outputBuffer.ReadableBytes() == 0 {
        if answer.Took? {
          var n := BytesTaken(answer, |data|);
          kernel := kernel + data[..n];
          if n == |data| {
            RunCalls(onComplete);
          } else {
            KeepForLater(data[n..]);
          }
        } else {
          KeepForLater(data);
        }
      } else {
        outputBuffer.AppendString(data);
      }
    }

    /** Buffers what the kernel did not take, and waits for a writable event. */
    method KeepForLater(data: string)
      requires Valid()
      modifies this`writing, outputBuffer, outputBuffer.buffer
      ensures Valid() && fresh(Footprint() - old(Footprint()))
      ensures View() == old(View()).(output := old(View()).output + data, writing := true)
    {
      outputBuffer.AppendString(data);
      writing := true;
    }

    method Shutdown()
      requires Valid()
      modifies this`state, this`fins
      ensures Valid() && View() == Called(old(View()), Call.Shutdown)
    {
      if state == Connected {
        state := Disconnecting;
        ShutdownInLoop();
      }
    }

    method ShutdownInLoop()
      requires Valid()
      modifies this`fins
      ensures Valid() && View() == ShutDown(old(View()))
    {
      if !writing {
        fins := fins + [kernel];
      }
    }

    method ForceClose(onDown: seq<Call>)
      requires Valid()
      modifies Footprint()
      ensures Valid() && fresh(Footprint() - old(Footprint()))
      ensures View() == Called(old(View()), Call.ForceClose(onDown))
      decreases onDown, 3
    {
      if state == Connected || state == Disconnecting {
        state := Disconnecting;
        HandleClose(onDown);
      }
    }

    method HandleRead(answer: ReadResult, onMessage: seq<Call>, onDown: seq<Call>)
      requires Valid()
      requires answer.ReadOk? ==> |answer.bytes| <= inputBuffer.ReadCapacity()
      requires answer == ReadOk("") ==> state == Connected || state == Disconnecting
      modifies Footprint()
      ensures Valid() && fresh(Footprint() - old(Footprint()))
      ensures View() == ReadHandled(old(View()), answer, onMessage, onDown)
    {
      var n := inputBuffer.ReadFd(answer);
      if n > 0 {
        RunCalls(onMessage);
      } else if n == 0 {
        assert View() == old(View());
        HandleClose(onDown);
      }
    }

    method HandleWrite(answer: WriteAnswer, onComplete: seq<Call>)
      requires Valid()
      modifies Footprint()
      ensures Valid() && fresh(Footprint() - old(Footprint()))
      ensures View() == WriteHandled(old(View()), answer, onComplete)
    {
      if writing {
        if answer.Took? && BytesTaken(answer, outputBuffer.ReadableBytes()) > 0 {
          var n := BytesTaken(answer, outputBuffer.ReadableBytes());
          kernel := kernel + outputBuffer.Contents()[..n];
          outputBuffer.RetrieveUntil(n);
          if outputBuffer.ReadableBytes() == 0 {
            writing := false;
            RunCalls(onComplete);
            if state == Disconnecting {
              ShutdownInLoop();
            }
          }
        }
      }
    }

    /** Requires what the code asserts. */
    method HandleClose(onDown: seq<Call>)
      requires Valid() && (state == Connected || state == Disconnecting)
      modifies Footprint()
      ensures Valid() && fresh(Footprint() - old(Footprint()))
      ensures View() == Closed(old(View()), onDown)
      decreases onDown, 2
    {
      GoDown(onDown);
      closes := closes + 1;
    }

    /** A callback of the user: a finite series of calls on the connection. */
    method RunCalls(calls: seq<Call>)
      requires Valid()
      modifies Footprint()
      ensures Valid() && fresh(Footprint() - old(Footprint()))
      ensures View() == AllCalled(old(View()), calls)
      decreases calls, 0
    {
      ghost var start := View();
      for i := 0 to |calls|
        invariant Valid() && fresh(Footprint() - old(Footprint()))
        invariant AllCalled(View(), calls[i..]) == AllCalled(start, calls)
      {
        assert calls[i] == calls[i..][0] && calls[i..][1..] == calls[i + 1..];
        RunCall(calls[i]);
      }
    }

    method RunCall(call: Call)
      requires Valid()
      modifies Footprint()
      ensures Valid() && fresh(Footprint() - old(Footprint()))
      ensures View() == Called(old(View()), call)
      decreases call, 3
    {
      match call {
        case Send(message, answer, onComplete) => Send(message, answer, onComplete);
        case Shutdown => Shutdown();
        case ForceClose(onDown) => ForceClose(onDown);
        case Consume(len) => inputBuffer.Retrieve(len);
      }
    }
  }

  // ---------------------------------------------------------------------------
  // Invariants of every run

  /** What holds between any two calls, also in the middle of a callback. */
  ghost predicate Sound(c: Conn) {
    && c.kernel + c.output == c.accepted
    && ((c.state == Connected || c.state == Disconnecting) && c.output != "" ==> c.writing)
    && (c.fins != [] ==> (c.state == Disconnecting || c.state == Disconnected) && !c.writing && c.output == "")
    && (forall i :: 0 <= i < |c.fins| ==> c.fins[i] == c.kernel)
    && (c.state == Disconnected ==> !c.writing && !c.reading)
    && (c.state == Connecting ==> c.accepted == "" && !c.writing)
    && (c.state == Connecting <==> c.ups == 0)
    && c.ups <= 1 && c.closes <= c.downs
    && c.downs == (if c.state == Disconnected then 1 else 0)
  }

  /** What holds when no callback is running: a Disconnecting connection is still writing, or its
      write side has been shut down. */
  ghost predicate Settled(c: Conn) {
    Sound(c) && (c.state == Disconnecting ==> c.writing || c.fins != [])
  }

  /** What no later call can undo. */
  ghost predicate Extends(c: Conn, d: Conn) {
    && c.kernel <= d.kernel && c.accepted <= d.accepted
    && c.fins <= d.fins
    && (c.state == d.state || StateAfter(c.state, d.state))
    && c.ups <= d.ups && c.downs <= d.downs
    && (c.state == Disconnecting || c.state == Disconnected ==> d.accepted == c.accepted)
  }

  /** The states only move forward, possibly skipping some. */
  predicate StateAfter(s: State, t: State) {
    match s
    case Connecting => t != Connecting
    case Connected => t == Disconnecting || t == Disconnected
    case Disconnecting => t == Disconnected
    case Disconnected => false
  }

  lemma ExtendsTransitive(a: Conn, b: Conn, c: Conn)
    requires Extends(a, b) && Extends(b, c)
    ensures Extends(a, c)
  {
  }

  /** Once disconnected, calls can only drop received bytes. */
  lemma {:induction false} DeadCalls(c: Conn, calls: seq<Call>)
    requires c.state == Disconnected
    ensures AllCalled(c, calls) == c.(input := AllCalled(c, calls).input)
    decreases calls
  {
    if calls == [] {
    } else {
      DeadCalls(Called(c, calls[0]), calls[1..]);
    }
  }

  /** The state handleClose leaves, whatever the connection callback does. */
  lemma CloseEffect(c: Conn, onDown: seq<Call>)
    ensures var d := Closed(c, onDown);
            d == Down(c).(closes := c.closes + 1, input := d.input)
  {
    DeadCalls(Down(c), onDown);
  }

  predicate ForceCloses(calls: seq<Call>) {
    exists i :: 0 <= i < |calls| && calls[i].ForceClose?
  }

  /** While disconnecting, calls cannot touch the stream: only a force-close has an effect. */
  lemma {:induction false} LateCalls(c: Conn, calls: seq<Call>)
    requires c.state == Disconnecting
    ensures var d := AllCalled(c, calls);
            d == if ForceCloses(calls)
                 then Down(c).(closes := c.closes + 1, input := d.input)
                 else c.(input := d.input)
    decreases calls
  {
    if calls == [] {
    } else {
      var d := Called(c, calls[0]);
      if calls[0].ForceClose? {
        CloseEffect(c, calls[0].onDown);
        DeadCalls(d, calls[1..]);
      } else {
        LateCalls(d, calls[1..]);
        assert ForceCloses(calls) <==> ForceCloses(calls[1..]) by {
          assert calls == [calls[0]] + calls[1..];
          if ForceCloses(calls) {
            var i :| 0 <= i < |calls| && calls[i].ForceClose?;
            assert calls[1..][i - 1].ForceClose?;
          }
        }
      }
    }
  }

  /** A send without a write-complete callback leaves the state and the input alone. */
  lemma PlainSend(c: Conn, message: string, answer: WriteAnswer)
    ensures var d := Called(c, Send(message, answer, []));
            && d.state == c.state && d.input == c.input
            && d.accepted == (if c.state == Connected then c.accepted + message else c.accepted)
  {
    if c.state == Connected {
      var c0 := c.(accepted := c.accepted + message);
      assert Called(c, Send(message, answer, [])) == Sent(c0, message, answer, []);
      if answer.Took? {
        var c1 := c0.(kernel := c0.kernel + message[..BytesTaken(answer, |message|)]);
        assert AllCalled(c1, []) == c1;
      }
    }
  }

  /** A message the kernel takes at once, before the write-complete callback. */
  lemma WholeSendIsSound(c: Conn, message: string)
    requires Settled(c) && c.state == Connected && !c.writing
    ensures var d := c.(accepted := c.accepted + message, kernel := c.kernel + message[..|message|]);
            Settled(d) && Extends(c, d)
  {
    assert message[..|message|] == message;
  }

  /** Any other message: no callback runs. */
  lemma PartialSendIsSound(c: Conn, message: string, answer: WriteAnswer, onComplete: seq<Call>)
    requires Settled(c) && c.state == Connected
    requires c.writing || answer.WriteFailed? || BytesTaken(answer, |message|) < |message|
    ensures var d := Called(c, Send(message, answer, onComplete)); Settled(d) && Extends(c, d)
  {
    if !c.writing && answer.Took? {
      var n := BytesTaken(answer, |message|);
      assert message == message[..n] + message[n..];
    }
  }

  /** One call of a callback, with everything it re-enters, keeps the stream sound and only moves it
      forward. */
  lemma {:induction false} CallIsSound(c: Conn, call: Call)
    requires Settled(c)
    ensures Settled(Called(c, call)) && Extends(c, Called(c, call))
    decreases call
  {
    match call {
      case Send(message, answer, onComplete) =>
        if c.state == Connected {
          if !c.writing && answer.Took? && BytesTaken(answer, |message|) == |message| {
            var c1 := c.(accepted := c.accepted + message, kernel := c.kernel + message[..|message|]);
            WholeSendIsSound(c, message);
            CallsAreSound(c1, onComplete);
            ExtendsTransitive(c, c1, AllCalled(c1, onComplete));
          } else {
            PartialSendIsSound(c, message, answer, onComplete);
          }
        }
      case Shutdown =>
      case ForceClose(onDown) =>
        if c.state == Connected || c.state == Disconnecting {
          CloseEffect(c.(state := Disconnecting), onDown);
        }
      case Consume(_) =>
    }
  }

  lemma {:induction false} CallsAreSound(c: Conn, calls: seq<Call>)
    requires Settled(c)
    ensures Settled(AllCalled(c, calls)) && Extends(c, AllCalled(c, calls))
    decreases calls
  {
    if calls == [] {
    } else {
      var d := Called(c, calls[0]);
      CallIsSound(c, calls[0]);
      CallsAreSound(d, calls[1..]);
      ExtendsTransitive(c, d, AllCalled(d, calls[1..]));
    }
  }

  // ---------------------------------------------------------------------------
  // Whole runs

  /** What can happen to a connection on its loop. A writable event may be stale: it then does
      nothing. Hangup is the close callback of the channel, Outside a call from a queued functor. */
  datatype Event =
    | Establish(onUp: seq<Call>)
    | Readable(answer: ReadResult, onMessage: seq<Call>, onDown: seq<Call>)
    | Writable(taken: WriteAnswer, onComplete: seq<Call>)
    | Hangup(onDown: seq<Call>)
    | Outside(call: Call)
    | Destroy(onDown: seq<Call>)

  /** The state the code asserts, or its channel's registration guarantees, before each event. */
  ghost predicate Allowed(c: Conn, e: Event) {
    && (e.Establish? ==> c.state == Connecting)
    && (e.Readable? || e.Hangup? ==> c.state == Connected || c.state == Disconnecting)
  }

  function Happen(c: Conn, e: Event): Conn {
    match e
    case Establish(onUp) => Established(c, onUp)
    case Readable(answer, onMessage, onDown) => ReadHandled(c, answer, onMessage, onDown)
    case Writable(taken, onComplete) => WriteHandled(c, taken, onComplete)
    case Hangup(onDown) => Closed(c, onDown)
    case Outside(call) => Called(c, call)
    case Destroy(onDown) => Destroyed(c, onDown)
  }

  function HappenAll(c: Conn, es: seq<Event>): Conn
    decreases |es|
  {
    if es == [] then c else HappenAll(Happen(c, es[0]), es[1..])
  }

  ghost predicate AllAllowed(c: Conn, es: seq<Event>)
    decreases |es|
  {
    es == [] || (Allowed(c, es[0]) && AllAllowed(Happen(c, es[0]), es[1..]))
  }

  predicate Drains(c: Conn, answer: WriteAnswer) {
    c.writing && c.output != "" && answer.Took? && answer.n >= |c.output|
  }

  /** The connection as its write-complete callback finds it after the last buffered byte. */
  function Drained(c: Conn): Conn {
    c.(kernel := c.kernel + c.output, output := "", writing := false)
  }

  lemma DrainingWrite(c: Conn, answer: WriteAnswer, onComplete: seq<Call>)
    requires Drains(c, answer)
    ensures var e := AllCalled(Drained(c), onComplete);
            WriteHandled(c, answer, onComplete) == if e.state == Disconnecting then ShutDown(e) else e
  {
    assert c.output[..|c.output|] == c.output && c.output[|c.output|..] == "";
  }

  lemma DrainingWriteIsSound(c: Conn, answer: WriteAnswer, onComplete: seq<Call>)
    requires Settled(c) && Drains(c, answer)
    ensures Settled(WriteHandled(c, answer, onComplete)) && Extends(c, WriteHandled(c, answer, onComplete))
  {
    var d := Drained(c);
    var e := AllCalled(d, onComplete);
    DrainingWrite(c, answer, onComplete);
    assert d.kernel + "" == d.kernel;
    if c.state == Disconnecting {
      LateCalls(d, onComplete);
    } else {
      assert Settled(d) && Extends(c, d);
      CallsAreSound(d, onComplete);
      ExtendsTransitive(c, d, e);
    }
  }

  lemma WriteIsSound(c: Conn, answer: WriteAnswer, onComplete: seq<Call>)
    requires Settled(c)
    ensures Settled(WriteHandled(c, answer, onComplete)) && Extends(c, WriteHandled(c, answer, onComplete))
  {
    if Drains(c, answer) {
      DrainingWriteIsSound(c, answer, onComplete);
    } else if c.writing && answer.Took? && BytesTaken(answer, |c.output|) > 0 {
      var n := BytesTaken(answer, |c.output|);
      assert c.output == c.output[..n] + c.output[n..];
      assert (c.kernel + c.output[..n]) + c.output[n..] == c.kernel + c.output;
    }
  }

  lemma EstablishIsSound(c: Conn, onUp: seq<Call>)
    requires Settled(c) && c.state == Connecting
    ensures Settled(Established(c, onUp)) && Extends(c, Established(c, onUp))
  {
    assert c.kernel + "" == c.kernel;
    assert Settled(Up(c)) && Extends(c, Up(c));
    CallsAreSound(Up(c), onUp);
    ExtendsTransitive(c, Up(c), AllCalled(Up(c), onUp));
  }

  lemma DestroyIsSound(c: Conn, onDown: seq<Call>)
    requires Settled(c)
    ensures Settled(Destroyed(c, onDown)) && Extends(c, Destroyed(c, onDown))
  {
    if c.state == Connected {
      DeadCalls(Down(c), onDown);
    }
  }

  lemma ReadIsSound(c: Conn, answer: ReadResult, onMessage: seq<Call>, onDown: seq<Call>)
    requires Settled(c) && (c.state == Connected || c.state == Disconnecting)
    ensures Settled(ReadHandled(c, answer, onMessage, onDown)) && Extends(c, ReadHandled(c, answer, onMessage, onDown))
  {
    if answer.ReadOk? {
      if answer.bytes == "" {
        CloseEffect(c, onDown);
      } else {
        var c1 := c.(input := c.input + answer.bytes);
        assert Settled(c1) && Extends(c, c1);
        CallsAreSound(c1, onMessage);
        ExtendsTransitive(c, c1, AllCalled(c1, onMessage));
      }
    }
  }

  lemma EventIsSound(c: Conn, e: Event)
    requires Settled(c) && Allowed(c, e)
    ensures Settled(Happen(c, e)) && Extends(c, Happen(c, e))
  {
    match e {
      case Establish(onUp) => EstablishIsSound(c, onUp);
      case Readable(answer, onMessage, onDown) => ReadIsSound(c, answer, onMessage, onDown);
      case Writable(taken, onComplete) => WriteIsSound(c, taken, onComplete);
      case Hangup(onDown) => CloseEffect(c, onDown);
      case Outside(call) => CallIsSound(c, call);
      case Destroy(onDown) => DestroyIsSound(c, onDown);
    }
  }

  lemma {:induction false} RunIsSound(c: Conn, es: seq<Event>)
    requires Settled(c) && AllAllowed(c, es)
    ensures Settled(HappenAll(c, es)) && Extends(c, HappenAll(c, es))
    decreases |es|
  {
    if es == [] {
    } else {
      var d := Happen(c, es[0]);
      EventIsSound(c, es[0]);
      RunIsSound(d, es[1..]);
      ExtendsTransitive(c, d, HappenAll(d, es[1..]));
    }
  }

  /** Conservation: over any run, short and failing writes and re-entrant callbacks included, what the
      kernel took followed by what is buffered is what was accepted, in order. */
  lemma StreamIsConserved(es: seq<Event>)
    requires AllAllowed(NEW_CONN, es)
    ensures var c := HappenAll(NEW_CONN, es);
            && c.kernel + c.output == c.accepted
            && ((c.state == Connected || c.state == Disconnecting) && c.output != "" ==> c.writing)
            && c.ups <= 1 && c.downs <= c.ups
  {
    RunIsSound(NEW_CONN, es);
  }

  /** Half-close: the write side is shut down only when the kernel has every accepted byte; nothing
      is written or accepted afterwards; and a disconnecting connection is never left in between. */
  lemma HalfCloseIsGraceful(before: seq<Event>, after: seq<Event>)
    requires AllAllowed(NEW_CONN, before)
    requires AllAllowed(HappenAll(NEW_CONN, before), after)
    ensures var c := HappenAll(NEW_CONN, before);
            var d := HappenAll(c, after);
            && (c.state == Disconnecting ==> c.writing || c.fins != [])
            && (forall i :: 0 <= i < |c.fins| ==> c.fins[i] == c.accepted == c.kernel)
            && (c.fins != [] ==> d.kernel == c.kernel && d.accepted == c.accepted)
            && (c.state == d.state || StateAfter(c.state, d.state))
  {
    RunIsSound(NEW_CONN, before);
    RunIsSound(HappenAll(NEW_CONN, before), after);
    var c := HappenAll(NEW_CONN, before);
    assert c.kernel + "" == c.kernel;
  }

  // ---------------------------------------------------------------------------
  // How often is the write side shut down?

  /** The calls of a callback shut it down once at most, and only if it was not before. */
  ghost predicate OneMore(c: Conn, d: Conn) {
    d.fins == c.fins || (c.fins == [] && |d.fins| == 1)
  }

  lemma {:induction false} CallShutsOnce(c: Conn, call: Call)
    requires Settled(c)
    ensures OneMore(c, Called(c, call))
    decreases call
  {
    match call {
      case Send(message, answer, onComplete) =>
        if c.state == Connected && !c.writing && answer.Took? && BytesTaken(answer, |message|) == |message| {
          var c1 := c.(accepted := c.accepted + message, kernel := c.kernel + message[..|message|]);
          assert message[..|message|] == message;
          CallsShutOnce(c1, onComplete);
        }
      case Shutdown =>
      case ForceClose(onDown) =>
        if c.state == Connected || c.state == Disconnecting {
          CloseEffect(c.(state := Disconnecting), onDown);
        }
      case Consume(_) =>
    }
  }

  lemma {:induction false} CallsShutOnce(c: Conn, calls: seq<Call>)
    requires Settled(c)
    ensures OneMore(c, AllCalled(c, calls))
    decreases calls
  {
    if calls == [] {
    } else {
      CallIsSound(c, calls[0]);
      CallShutsOnce(c, calls[0]);
      CallsShutOnce(Called(c, calls[0]), calls[1..]);
    }
  }

  /** Where a connection stands, as far as a script can tell: Quiet is connected with nothing to write,
      Busy connected and writing, Blocked half-closed once the write is through, Finished half-closed. */
  datatype Mood = Unborn | Quiet | Busy | Blocked | Finished | Dead

  function MoodOf(c: Conn): Mood {
    match c.state
    case Connecting => Unborn
    case Connected => if c.writing then Busy else Quiet
    case Disconnecting => if c.writing then Blocked else Finished
    case Disconnected => Dead
  }

  /** What a call makes of it, read off the script. */
  function MoodAfter(m: Mood, call: Call): Mood
    decreases call
  {
    match call
    case Send(message, answer, onComplete) =>
      if m != Quiet then m
      else if answer.Took? && answer.n >= |message| then MoodAfterAll(Quiet, onComplete) else Busy
    case Shutdown => if m == Quiet then Finished else if m == Busy then Blocked else m
    case ForceClose(_) => if m == Unborn then m else Dead
    case Consume(_) => m
  }

  function MoodAfterAll(m: Mood, calls: seq<Call>): Mood
    decreases calls
  {
    if calls == [] then m else MoodAfterAll(MoodAfter(m, calls[0]), calls[1..])
  }

  lemma {:induction false} CallSetsMood(c: Conn, call: Call)
    requires Settled(c)
    ensures MoodOf(Called(c, call)) == MoodAfter(MoodOf(c), call)
    decreases call
  {
    match call {
      case Send(message, answer, onComplete) =>
        if MoodOf(c) == Quiet && answer.Took? && answer.n >= |message| {
          assert c.output == "";
          WholeSendIsSound(c, message);
          CallsSetMood(c.(accepted := c.accepted + message, kernel := c.kernel + message[..|message|]), onComplete);
        }
      case Shutdown =>
      case ForceClose(onDown) =>
        if c.state == Connected || c.state == Disconnecting {
          CloseEffect(c.(state := Disconnecting), onDown);
        }
      case Consume(_) =>
    }
  }

  lemma {:induction false} CallsSetMood(c: Conn, calls: seq<Call>)
    requires Settled(c)
    ensures MoodOf(AllCalled(c, calls)) == MoodAfterAll(MoodOf(c), calls)
    decreases calls
  {
    if calls == [] {
    } else {
      CallIsSound(c, calls[0]);
      CallSetsMood(c, calls[0]);
      CallsSetMood(Called(c, calls[0]), calls[1..]);
    }
  }

  /** A writable event shuts it down twice exactly when it takes the last byte of a connected connection
      whose write-complete callback is a script that half-closes: it calls shutdown while nothing it sent
      before was left to write, and does not force-close. */
  lemma SecondShutdownExactly(c: Conn, answer: WriteAnswer, onComplete: seq<Call>)
    requires Settled(c)
    ensures var d := WriteHandled(c, answer, onComplete);
            && |d.fins| <= |c.fins| + 2
            && (|d.fins| == |c.fins| + 2
                <==> Drains(c, answer) && c.state == Connected && MoodAfterAll(Quiet, onComplete) == Finished)
  {
    if Drains(c, answer) {
      DrainingWrite(c, answer, onComplete);
      if c.state == Disconnecting {
        LateCalls(Drained(c), onComplete);
      } else {
        DrainedIsSettled(c);
        CallsAreSound(Drained(c), onComplete);
        CallsShutOnce(Drained(c), onComplete);
        CallsSetMood(Drained(c), onComplete);
      }
    }
  }

  lemma DrainedIsSettled(c: Conn)
    requires Settled(c) && c.state == Connected && c.writing
    ensures Settled(Drained(c)) && MoodOf(Drained(c)) == Quiet && c.fins == []
  {
    assert Drained(c).kernel + "" == Drained(c).kernel;
  }

  /** Once the write side is shut down no event does it again, so over any run the count is at most two. */
  lemma {:induction false} ShutDownTwiceAtMost(c: Conn, es: seq<Event>)
    requires Settled(c) && AllAllowed(c, es) && |c.fins| <= 2
    ensures |HappenAll(c, es).fins| <= 2
    ensures c.fins != [] ==> HappenAll(c, es).fins == c.fins
    decreases |es|
  {
    if es == [] {
    } else {
      var d := Happen(c, es[0]);
      EventIsSound(c, es[0]);
      EventShuts(c, es[0]);
      ShutDownTwiceAtMost(d, es[1..]);
    }
  }

  lemma EventShuts(c: Conn, e: Event)
    requires Settled(c) && Allowed(c, e)
    ensures e.Writable? ==> |Happen(c, e).fins| <= |c.fins| + 2
    ensures !e.Writable? ==> OneMore(c, Happen(c, e))
    ensures c.fins != [] ==> Happen(c, e).fins == c.fins
  {
    match e {
      case Establish(onUp) =>
        CallsShutOnce(Up(c), onUp);
      case Readable(answer, onMessage, onDown) =>
        if answer.ReadOk? && answer.bytes == "" {
          CloseEffect(c, onDown);
        } else if answer.ReadOk? {
          CallsShutOnce(c.(input := c.input + answer.bytes), onMessage);
        }
      case Writable(taken, onComplete) => SecondShutdownExactly(c, taken, onComplete);
      case Hangup(onDown) => CloseEffect(c, onDown);
      case Outside(call) => CallShutsOnce(c, call);
      case Destroy(onDown) =>
        if c.state == Connected {
          DeadCalls(Down(c), onDown);
        }
    }
  }

  // ---------------------------------------------------------------------------
  // What a callback does, read off its script

  /** The kernel took the whole message at once, so that the write-complete callback runs. */
  predicate Whole(m: Mood, message: string, answer: WriteAnswer) {
    m == Quiet && answer.Took? && answer.n >= |message|
  }

  /** The messages it gets accepted. */
  function Says(m: Mood, call: Call): string
    decreases call
  {
    match call
    case Send(message, answer, onComplete) =>
      if m != Quiet && m != Busy then ""
      else message + (if Whole(m, message, answer) then SaysAll(Quiet, onComplete) else "")
    case _ => ""
  }

  function SaysAll(m: Mood, calls: seq<Call>): string
    decreases calls
  {
    if calls == [] then "" else Says(m, calls[0]) + SaysAll(MoodAfter(m, calls[0]), calls[1..])
  }

  /** How many received bytes it asks to drop. */
  function Eats(m: Mood, call: Call): nat
    decreases call
  {
    match call
    case Send(message, answer, onComplete) => if Whole(m, message, answer) then EatsAll(Quiet, onComplete) else 0
    case ForceClose(onDown) => if m == Unborn || m == Dead then 0 else EatsAll(Dead, onDown)
    case Consume(len) => len
    case Shutdown => 0
  }

  function EatsAll(m: Mood, calls: seq<Call>): nat
    decreases calls
  {
    if calls == [] then 0 else Eats(m, calls[0]) + EatsAll(MoodAfter(m, calls[0]), calls[1..])
  }

  /** How many bytes the kernel takes meanwhile. */
  function Takes(m: Mood, call: Call): nat
    decreases call
  {
    match call
    case Send(message, answer, onComplete) =>
      if m != Quiet || answer.WriteFailed? then 0
      else BytesTaken(answer, |message|) + (if Whole(m, message, answer) then TakesAll(Quiet, onComplete) else 0)
    case _ => 0
  }

  function TakesAll(m: Mood, calls: seq<Call>): nat
    decreases calls
  {
    if calls == [] then 0 else Takes(m, calls[0]) + TakesAll(MoodAfter(m, calls[0]), calls[1..])
  }

  function Dropped(s: string, n: nat): string { if n < |s| then s[n..] else "" }

  lemma DroppedTwice(s: string, m: nat, n: nat)
    ensures Dropped(Dropped(s, m), n) == Dropped(s, m + n)
  {
  }

  /** Between two connections: what was accepted, dropped and taken. */
  ghost predicate Did(c: Conn, d: Conn, says: string, eats: nat, takes: nat) {
    && d.accepted == c.accepted + says
    && d.input == Dropped(c.input, eats)
    && |d.kernel| == |c.kernel| + takes
    && d.closes - c.closes == d.downs - c.downs
  }

  lemma DidJoin(a: Conn, b: Conn, c: Conn, s1: string, e1: nat, t1: nat, s2: string, e2: nat, t2: nat)
    requires Did(a, b, s1, e1, t1) && Did(b, c, s2, e2, t2)
    ensures Did(a, c, s1 + s2, e1 + e2, t1 + t2)
  {
    DroppedTwice(a.input, e1, e2);
    assert (a.accepted + s1) + s2 == a.accepted + (s1 + s2);
  }

  lemma {:induction false} CallDoes(c: Conn, call: Call)
    requires Settled(c)
    ensures var m := MoodOf(c); Did(c, Called(c, call), Says(m, call), Eats(m, call), Takes(m, call))
    decreases call, 3
  {
    match call {
      case Send(message, answer, onComplete) => SendDoes(c, message, answer, onComplete);
      case Shutdown => assert c.accepted + "" == c.accepted;
      case ForceClose(onDown) =>
        assert c.accepted + "" == c.accepted;
        if c.state == Connected || c.state == Disconnecting {
          CloseDoes(c.(state := Disconnecting), onDown);
        }
      case Consume(_) => assert c.accepted + "" == c.accepted;
    }
  }

  lemma {:induction false} SendDoes(c: Conn, message: string, answer: WriteAnswer, onComplete: seq<Call>)
    requires Settled(c)
    ensures var m, call := MoodOf(c), Send(message, answer, onComplete);
            Did(c, Called(c, call), Says(m, call), Eats(m, call), Takes(m, call))
    decreases onComplete, 2
  {
    assert c.accepted + "" == c.accepted;
    if MoodOf(c) == Quiet || MoodOf(c) == Busy {
      assert message + "" == message;
      if Whole(MoodOf(c), message, answer) {
        var c1 := c.(accepted := c.accepted + message, kernel := c.kernel + message[..|message|]);
        assert c.output == "";
        WholeSendIsSound(c, message);
        CallsDo(c1, onComplete);
        assert MoodOf(c1) == Quiet;
        assert Did(c, c1, message, 0, |message|);
        DidJoin(c, c1, AllCalled(c1, onComplete), message, 0, |message|,
                SaysAll(Quiet, onComplete), EatsAll(Quiet, onComplete), TakesAll(Quiet, onComplete));
      }
    }
  }

  /** handleClose from its DOWN callback on. */
  lemma {:induction false} CloseDoes(c: Conn, onDown: seq<Call>)
    requires Sound(c) && c.state == Disconnecting
    ensures Did(c, Closed(c, onDown), "", EatsAll(Dead, onDown), 0)
    decreases onDown, 2
  {
    CallsDo(Down(c), onDown);
    DeadCalls(Down(c), onDown);
    assert c.accepted + "" == c.accepted;
  }

  lemma {:induction false} CallsDo(c: Conn, calls: seq<Call>)
    requires Settled(c)
    ensures var m := MoodOf(c);
            Did(c, AllCalled(c, calls), SaysAll(m, calls), EatsAll(m, calls), TakesAll(m, calls))
    decreases calls, 0
  {
    if calls == [] {
      assert c.accepted + "" == c.accepted;
    } else {
      var m, d, rest := MoodOf(c), Called(c, calls[0]), calls[1..];
      CallIsSound(c, calls[0]);
      CallSetsMood(c, calls[0]);
      CallDoes(c, calls[0]);
      CallsDo(d, rest);
      var n := MoodOf(d);
      DidJoin(c, d, AllCalled(d, rest), Says(m, calls[0]), Eats(m, calls[0]), Takes(m, calls[0]),
              SaysAll(n, rest), EatsAll(n, rest), TakesAll(n, rest));
    }
  }

  // Which callback an event runs, what it finds, and what is left.

  /** The callback that an event must lead to. */
  function Invoked(c: Conn, e: Event): seq<Call> {
    match e
    case Establish(onUp) => onUp
    case Readable(answer, onMessage, onDown) =>
      if answer.ReadFailed? then [] else if answer.bytes == "" then onDown else onMessage
    case Writable(taken, onComplete) => if Drains(c, taken) then onComplete else []
    case Hangup(onDown) => onDown
    case Outside(call) => [call]
    case Destroy(onDown) => if c.state == Connected then onDown else []
  }

  /** Where the connection stands when it runs. */
  function MoodFor(c: Conn, e: Event): Mood {
    match e
    case Establish(_) => Quiet
    case Readable(answer, _, _) => if answer == ReadOk("") then Dead else MoodOf(c)
    case Writable(taken, _) =>
      if !Drains(c, taken) then MoodOf(c) else if c.state == Connected then Quiet else Finished
    case Hangup(_) => Dead
    case Outside(_) => MoodOf(c)
    case Destroy(_) => if c.state == Connected then Dead else MoodOf(c)
  }

  /** The received bytes it finds. */
  function InputFor(c: Conn, e: Event): string {
    if e.Readable? && e.answer.ReadOk? then c.input + e.answer.bytes else c.input
  }

  function TakenFirst(c: Conn, e: Event): nat {
    if e.Writable? && c.writing && e.taken.Took? then BytesTaken(e.taken, |c.output|) else 0
  }

  ghost predicate AsScripted(c: Conn, d: Conn, e: Event) {
    var m, calls := MoodFor(c, e), Invoked(c, e);
    && MoodOf(d) == MoodAfterAll(m, calls)
    && d.accepted == c.accepted + SaysAll(m, calls)
    && d.input == Dropped(InputFor(c, e), EatsAll(m, calls))
    && |d.kernel| == |c.kernel| + TakenFirst(c, e) + TakesAll(m, calls)
  }

  lemma CallbackAsScripted(c: Conn, c1: Conn, d: Conn, e: Event)
    requires Settled(c1) && MoodOf(c1) == MoodFor(c, e) && c1.accepted == c.accepted && c1.input == InputFor(c, e)
    requires |c1.kernel| == |c.kernel| + TakenFirst(c, e)
    requires var r := AllCalled(c1, Invoked(c, e));
             MoodOf(d) == MoodOf(r) && d.accepted == r.accepted && d.input == r.input && d.kernel == r.kernel
    ensures AsScripted(c, d, e)
  {
    CallsSetMood(c1, Invoked(c, e));
    CallsDo(c1, Invoked(c, e));
  }

  /** Every event runs exactly the callback it is there for, where the connection then stands, with every
      byte received and not dropped before it; and leaves what that callback's script does, no more and no
      less. An error on reading does nothing at all. */
  lemma EventIsAsScripted(c: Conn, e: Event)
    requires Settled(c) && Allowed(c, e)
    ensures AsScripted(c, Happen(c, e), e)
    ensures e.Readable? && e.answer.ReadFailed? ==> Happen(c, e) == c
    ensures e.Hangup? || (e.Readable? && e.answer == ReadOk("")) ==>
              Happen(c, e).state == Disconnected && Happen(c, e).downs == c.downs + 1
              && Happen(c, e).closes == c.closes + 1
  {
    match e {
      case Establish(onUp) =>
        assert c.kernel + "" == c.kernel;
        CallbackAsScripted(c, Up(c), Happen(c, e), e);
      case Readable(answer, onMessage, onDown) => ReadAsScripted(c, e);
      case Writable(taken, onComplete) => WriteAsScripted(c, e);
      case Hangup(onDown) =>
        CloseEffect(c, onDown);
        CallbackAsScripted(c, Down(c), Happen(c, e), e);
      case Outside(call) =>
        assert [call][1..] == [];
        CallbackAsScripted(c, c, Happen(c, e), e);
      case Destroy(onDown) =>
        CallbackAsScripted(c, if c.state == Connected then Down(c) else c, Happen(c, e), e);
    }
  }

  lemma ReadAsScripted(c: Conn, e: Event)
    requires Settled(c) && Allowed(c, e) && e.Readable?
    ensures AsScripted(c, Happen(c, e), e)
    ensures e.answer == ReadOk("") ==>
              Happen(c, e).state == Disconnected && Happen(c, e).downs == c.downs + 1
              && Happen(c, e).closes == c.closes + 1
  {
    if e.answer.ReadFailed? {
      CallbackAsScripted(c, c, c, e);
    } else if e.answer.bytes == "" {
      assert c.input + "" == c.input;
      CloseEffect(c, e.onDown);
      CallbackAsScripted(c, Down(c), Happen(c, e), e);
    } else {
      CallbackAsScripted(c, c.(input := c.input + e.answer.bytes), Happen(c, e), e);
    }
  }

  lemma WriteAsScripted(c: Conn, e: Event)
    requires Settled(c) && e.Writable?
    ensures AsScripted(c, Happen(c, e), e)
  {
    if Drains(c, e.taken) {
      DrainingWrite(c, e.taken, e.onComplete);
      if c.state == Connected {
        DrainedIsSettled(c);
        CallbackAsScripted(c, Drained(c), Happen(c, e), e);
      } else {
        LateWriteAsScripted(c, e);
      }
    } else {
      assert c.accepted + "" == c.accepted;
    }
  }

  /** The last byte of a half-closed connection: the callback runs before the write side is shut down. */
  lemma LateWriteAsScripted(c: Conn, e: Event)
    requires Settled(c) && e.Writable? && Drains(c, e.taken) && c.state != Connected
    ensures AsScripted(c, Happen(c, e), e)
  {
    DrainingWrite(c, e.taken, e.onComplete);
    var c1, late := Drained(c), Drained(c).(fins := [Drained(c).kernel]);
    assert c1.kernel + "" == c1.kernel;
    LateCalls(c1, e.onComplete);
    LateCalls(late, e.onComplete);
    InputOnly(c1, late, e.onComplete);
    CallsSetMood(late, e.onComplete);
    CallsDo(late, e.onComplete);
  }

  /** What the calls drop does not depend on the half-closes so far. */
  lemma {:induction false} InputOnly(c: Conn, d: Conn, calls: seq<Call>)
    requires d == c.(fins := d.fins) && (c.state == Disconnecting || c.state == Disconnected)
    ensures AllCalled(d, calls).input == AllCalled(c, calls).input
    ensures AllCalled(d, calls) == AllCalled(c, calls).(fins := d.fins)
    decreases calls
  {
    if calls == [] {
    } else {
      if calls[0].ForceClose? && c.state == Disconnecting {
        InputOnly(Down(c), Down(d), calls[0].onDown);
        CloseEffect(c, calls[0].onDown);
        CloseEffect(d, calls[0].onDown);
      }
      InputOnly(Called(c, calls[0]), Called(d, calls[0]), calls[1..]);
    }
  }

  // ---------------------------------------------------------------------------
  // Does a shutdown complete?

  /** A writable event: the kernel's answer, and what the write-complete callback does if it is invoked. */
  datatype Flush = Flush(answer: WriteAnswer, onComplete: seq<Call>)

  function Writes(c: Conn, flushes: seq<Flush>): Conn
    decreases |flushes|
  {
    if flushes == [] then c
    else Writes(WriteHandled(c, flushes[0].answer, flushes[0].onComplete), flushes[1..])
  }

  /** It waits for a writable event and has nothing to write. */
  predicate Waits(c: Conn) { c.writing && c.output == "" }

  /** Writable events mean nothing to a connection that does not wait for one, or waits in vain. */
  lemma {:induction false} IdleWaitIsForever(c: Conn, flushes: seq<Flush>)
    requires !c.writing || Waits(c)
    ensures Writes(c, flushes) == c
    decreases |flushes|
  {
    if flushes == [] {
    } else {
      IdleWaitIsForever(c, flushes[1..]);
    }
  }

  ghost predicate Productive(flushes: seq<Flush>) {
    forall i :: 0 <= i < |flushes| ==> flushes[i].answer.Took? && flushes[i].answer.n >= 1
  }

  /** Draining: when each writable event takes at least one byte, as many events as there are buffered
      bytes get them all to the kernel, and complete the shutdown unless a write-complete callback
      force-closes the connection. */
  lemma {:induction false} ShutdownDrains(c: Conn, flushes: seq<Flush>)
    requires Settled(c) && c.state == Disconnecting && !Waits(c)
    requires Productive(flushes) && |flushes| >= |c.output|
    ensures var d := Writes(c, flushes);
            && d.kernel == c.accepted && d.accepted == c.accepted
            && (d.fins != [] || d.state == Disconnected)
            && (forall i :: 0 <= i < |d.fins| ==> d.fins[i] == c.accepted)
    ensures (forall i :: 0 <= i < |flushes| ==> !ForceCloses(flushes[i].onComplete)) ==> Writes(c, flushes).fins != []
    decreases |flushes|
  {
    if !c.writing {
      IdleWaitIsForever(c, flushes);
      assert c.kernel + "" == c.kernel;
    } else {
      var d := WriteHandled(c, flushes[0].answer, flushes[0].onComplete);
      WriteIsSound(c, flushes[0].answer, flushes[0].onComplete);
      FlushEffect(c, flushes[0]);
      if d.writing {
        ShutdownDrains(d, flushes[1..]);
      } else {
        IdleWaitIsForever(d, flushes[1..]);
      }
    }
  }

  /** One productive writable event of a disconnecting connection. */
  lemma FlushEffect(c: Conn, flush: Flush)
    requires Settled(c) && c.state == Disconnecting && c.writing && c.output != ""
    requires flush.answer.Took? && flush.answer.n >= 1
    ensures var d := WriteHandled(c, flush.answer, flush.onComplete);
            && d.accepted == c.accepted
            && (d.writing ==> d.state == Disconnecting && 0 < |d.output| < |c.output|)
            && (!d.writing ==> d.kernel == c.accepted
                               && if ForceCloses(flush.onComplete) then d.state == Disconnected && d.fins == []
                                  else d.fins == [c.accepted])
  {
    if Drains(c, flush.answer) {
      DrainingWrite(c, flush.answer, flush.onComplete);
      LateCalls(Drained(c), flush.onComplete);
    }
  }

  /** A pending shutdown can complete exactly when the connection is not waiting with an empty buffer. */
  lemma ShutdownCompletesExactly(c: Conn)
    requires Settled(c) && c.state == Disconnecting
    ensures (exists flushes :: Writes(c, flushes).fins != []) <==> !Waits(c)
  {
    if Waits(c) {
      forall flushes ensures Writes(c, flushes).fins == [] {
        IdleWaitIsForever(c, flushes);
      }
    } else {
      var flushes := seq(|c.output|, _ => Flush(Took(1), []));
      ShutdownDrains(c, flushes);
      assert Writes(c, flushes).fins != [];
    }
  }

  /** No message of the script, however deep in its callbacks, is empty. */
  predicate NonEmpty(call: Call)
    decreases call
  {
    match call
    case Send(message, _, onComplete) => message != "" && AllNonEmpty(onComplete)
    case ForceClose(onDown) => AllNonEmpty(onDown)
    case _ => true
  }

  predicate AllNonEmpty(calls: seq<Call>)
    decreases calls
  {
    calls == [] || (NonEmpty(calls[0]) && AllNonEmpty(calls[1..]))
  }

  predicate EventNonEmpty(e: Event) {
    match e
    case Establish(onUp) => AllNonEmpty(onUp)
    case Readable(_, onMessage, onDown) => AllNonEmpty(onMessage) && AllNonEmpty(onDown)
    case Writable(_, onComplete) => AllNonEmpty(onComplete)
    case Hangup(onDown) => AllNonEmpty(onDown)
    case Outside(call) => NonEmpty(call)
    case Destroy(onDown) => AllNonEmpty(onDown)
  }

  lemma {:induction false} NonEmptyCallNeverWaits(c: Conn, call: Call)
    requires NonEmpty(call) && !Waits(c)
    ensures !Waits(Called(c, call))
    decreases call, 0
  {
    match call {
      case Send(message, answer, onComplete) =>
        if c.state == Connected && !c.writing && c.output == "" && answer.Took?
           && BytesTaken(answer, |message|) == |message| {
          NonEmptyCallsNeverWait(c.(accepted := c.accepted + message, kernel := c.kernel + message[..|message|]),
                                 onComplete);
        }
      case Shutdown =>
      case ForceClose(onDown) =>
        if c.state == Connected || c.state == Disconnecting {
          CloseEffect(c.(state := Disconnecting), onDown);
        }
      case Consume(_) =>
    }
  }

  lemma {:induction false} NonEmptyCallsNeverWait(c: Conn, calls: seq<Call>)
    requires AllNonEmpty(calls) && !Waits(c)
    ensures !Waits(AllCalled(c, calls))
    decreases calls, 1
  {
    if calls == [] {
    } else {
      NonEmptyCallNeverWaits(c, calls[0]);
      NonEmptyCallsNeverWait(Called(c, calls[0]), calls[1..]);
    }
  }

  lemma NonEmptyEventNeverWaits(c: Conn, e: Event)
    requires EventNonEmpty(e) && !Waits(c)
    ensures !Waits(Happen(c, e))
  {
    match e {
      case Establish(onUp) =>
        NonEmptyCallsNeverWait(Up(c), onUp);
      case Readable(answer, onMessage, onDown) =>
        if answer.ReadOk? && answer.bytes == "" {
          CloseEffect(c, onDown);
        } else if answer.ReadOk? {
          NonEmptyCallsNeverWait(c.(input := c.input + answer.bytes), onMessage);
        }
      case Writable(taken, onComplete) =>
        if Drains(c, taken) {
          DrainingWrite(c, taken, onComplete);
          NonEmptyCallsNeverWait(Drained(c), onComplete);
        }
      case Hangup(onDown) => CloseEffect(c, onDown);
      case Outside(call) => NonEmptyCallNeverWaits(c, call);
      case Destroy(onDown) =>
        if c.state == Connected {
          DeadCalls(Down(c), onDown);
        }
    }
  }

  lemma {:induction false} NonEmptyRunNeverWaits(c: Conn, es: seq<Event>)
    requires !Waits(c) && forall i :: 0 <= i < |es| ==> EventNonEmpty(es[i])
    ensures !Waits(HappenAll(c, es))
    decreases |es|
  {
    if es == [] {
    } else {
      NonEmptyEventNeverWaits(c, es[0]);
      NonEmptyRunNeverWaits(Happen(c, es[0]), es[1..]);
    }
  }

  /** What a caller can do: over any run that never sends an empty message, callbacks of callbacks
      included, a pending shutdown can still complete. */
  lemma NonEmptySendsComplete(es: seq<Event>)
    requires AllAllowed(NEW_CONN, es) && forall i :: 0 <= i < |es| ==> EventNonEmpty(es[i])
    requires HappenAll(NEW_CONN, es).state == Disconnecting
    ensures exists flushes :: Writes(HappenAll(NEW_CONN, es), flushes).fins != []
  {
    RunIsSound(NEW_CONN, es);
    NonEmptyRunNeverWaits(NEW_CONN, es);
    ShutdownCompletesExactly(HappenAll(NEW_CONN, es));
  }

  /** And no less: on an idle connection, whose callbacks send nothing empty, the kernel can make a send
      end in that wait exactly when its message is empty; and if the write fails it does, whatever the
      callback would have been. */
  lemma EmptySendWaitsExactly(c: Conn, message: string)
    requires c.state == Connected && !c.writing && c.output == ""
    ensures (exists answer, onComplete ::
               AllNonEmpty(onComplete) && Waits(Called(c, Send(message, answer, onComplete))))
            <==> message == ""
    ensures forall onComplete :: Waits(Called(c, Send("", WriteFailed, onComplete)))
  {
    if message == "" {
      var none: seq<Call> := [];
      assert AllNonEmpty(none) && Waits(Called(c, Send("", WriteFailed, none)));
    } else {
      forall answer, onComplete | AllNonEmpty(onComplete)
        ensures !Waits(Called(c, Send(message, answer, onComplete)))
      {
        NonEmptyCallNeverWaits(c, Send(message, answer, onComplete));
      }
    }
  }

  /** A concrete run that ends there: the peer never sees the end of the stream. */
  lemma EmptySendBlocksShutdown(flushes: seq<Flush>)
    ensures var c := HappenAll(NEW_CONN, [Establish([Send("", WriteFailed, []), Shutdown])]);
            c.state == Disconnecting && Writes(c, flushes).fins == []
  {
    var up := Establish([Send("", WriteFailed, []), Shutdown]);
    var c0 := NEW_CONN.(state := Connected, reading := true, tracked := true, ups := 1);
    var c1 := Called(c0, Send("", WriteFailed, []));
    assert c1 == c0.(writing := true, accepted := "", output := "");
    var calls := [Send("", WriteFailed, []), Shutdown];
    assert calls[1..] == [Shutdown] && calls[1..][1..] == [];
    var c := c1.(state := Disconnecting);
    assert AllCalled(c1, [Shutdown]) == AllCalled(Called(c1, Shutdown), [Shutdown][1..]) == c;
    assert Happen(NEW_CONN, up) == c;
    assert [up][1..] == [];
    IdleWaitIsForever(c, flushes);
  }
}

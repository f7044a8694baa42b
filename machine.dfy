/**
 * The stream's connection, retry and buffering behaviour as a function of
 * its state: one function per socket event, timer and public operation. The
 * class in stream.dfy carries the same state in fields and is proved to
 * perform exactly these transitions; the properties of the behaviour are
 * proved here, on the functions.
 */
module Machine {
  import opened Wrappers
  import opened JsValues
  import opened Settings
  import CircularBuffer

  /** The notifications the stream emits, in order. */
  datatype Notification = ConnectNote | CloseNote | ErrorNote(cause: Value) | TimeoutNote

  /**
   * The stream's fields: `connected`, `connecting`, `retries`, `silent`,
   * `socket` (the serial number of the current socket, or none), `log_queue`.
   * Besides them: how many sockets were created (`created`), which were
   * destroyed, how many reconnect timers are pending, everything handed to
   * `socket.write` (`written`) and everything emitted.
   */
  datatype State = State(
    connected: bool,
    connecting: bool,
    retries: int,
    silent: bool,
    socket: Option<nat>,
    created: nat,
    destroyed: set<nat>,
    queue: CircularBuffer.CBuffer,
    pendingReconnects: nat,
    written: seq<string>,
    emitted: seq<Notification>)

  /**
   * What every reachable state satisfies: the queue is within its capacity,
   * the stream is connected only through a socket, and sockets are numbered
   * in creation order.
   */
  predicate Inv(s: State) {
    && CircularBuffer.Valid(s.queue)
    && (s.connected ==> s.socket.Some?)
    && (s.socket.Some? ==> s.socket.value < s.created)
    && (forall d :: d in s.destroyed ==> d < s.created)
  }

  /** A message as framed on the wire: newline-delimited. */
  function Frame(message: string): (f: string)
    ensures |f| == |message| + 1 && f[..|message|] == message && f[|message|] == '\n'
  {
    message + "\n"
  }

  /**
   * The writes a flush performs: `pop` takes the most recently pushed entry
   * first, so the messages come out newest first.
   */
  function Drained(items: seq<CircularBuffer.Entry>): (out: seq<string>)
    ensures |out| == |items|
    decreases |items|
  {
    if items == [] then [] else Drained(items[1..]) + [Frame(items[0].message)]
  }

  /** Sending the entry just before a drained suffix extends the drained writes by it. */
  lemma DrainedStep(items: seq<CircularBuffer.Entry>, n: nat)
    requires 0 < n <= |items|
    ensures Drained(items[n - 1..]) == Drained(items[n..]) + [Frame(items[n - 1].message)]
  {
    assert items[n - 1..][1..] == items[n..];
  }

  /** The retry budget is left when it is unlimited or not yet used up. */
  predicate HasBudget(c: Config, s: State) {
    c.maxConnectRetries < 0 || s.retries < c.maxConnectRetries
  }

  /** `connect()`: one more attempt, through a new socket. */
  function Connect(s: State): (r: State)
    ensures Inv(s) ==> Inv(r)
    ensures r.retries == s.retries + 1 && r.connecting
    ensures r.socket == Some(s.created) && (Inv(s) ==> s.created !in r.destroyed)
    ensures r.queue == s.queue && r.connected == s.connected && r.silent == s.silent
    ensures r.written == s.written && r.emitted == s.emitted
    ensures r.created == s.created + 1
    ensures r.(retries := s.retries, connecting := s.connecting, socket := s.socket, created := s.created) == s
  {
    s.(retries := s.retries + 1, connecting := true, socket := Some(s.created), created := s.created + 1)
  }

  /** The constructor: defaults, an empty queue, `retries` at -1, then `connect()`. */
  function Initial(c: Config): (s: State)
    requires c.capacity > 0
    ensures Inv(s)
    ensures s.retries == 0 && s.connecting && !s.connected && !s.silent
    ensures s.queue == CircularBuffer.Create(c.capacity) && s.pendingReconnects == 0
    ensures s.socket.Some? && s.written == [] && s.emitted == []
  {
    Connect(State(false, false, -1, false, None, 0, {}, CircularBuffer.Create(c.capacity), 0, [], []))
  }

  /** `sendLog(message)`: one write of the framed message on the socket. */
  function SendLog(s: State, message: string): (r: State)
    requires s.socket.Some?
    ensures Inv(s) ==> Inv(r)
    ensures r.written == s.written + [Frame(message)]
    ensures r.(written := s.written) == s
  {
    s.(written := s.written + [Frame(message)])
  }

  /**
   * `send(message)`: while disconnected, one `{message}` entry is pushed and
   * nothing is written; while connected, the framed message is written and
   * the queue is left alone. `silent` is never consulted.
   */
  function Send(s: State, message: string): (r: State)
    requires Inv(s)
    ensures Inv(r)
    ensures !s.connected ==> r == s.(queue := CircularBuffer.Push(s.queue, CircularBuffer.Entry(message)))
    ensures s.connected ==> r == s.(written := s.written + [Frame(message)])
  {
    if !s.connected then s.(queue := CircularBuffer.Push(s.queue, CircularBuffer.Entry(message)))
    else SendLog(s, message)
  }

  /** `flush()`: every queued message is written once and the queue ends empty. */
  function Flush(s: State): (r: State)
    requires s.socket.Some? || s.queue.items == []
    ensures Inv(s) ==> Inv(r)
    ensures r.queue == CircularBuffer.Clear(s.queue)
    ensures r.written == s.written + Drained(s.queue.items)
    ensures r.(queue := s.queue, written := s.written) == s
  {
    s.(queue := CircularBuffer.Clear(s.queue), written := s.written + Drained(s.queue.items))
  }

  /** `announce()`: connected, then the queue is flushed. */
  function Announce(s: State): (r: State)
    requires s.socket.Some?
    ensures Inv(s) ==> Inv(r)
    ensures r.connected && r.queue.items == [] && r.queue.capacity == s.queue.capacity
    ensures r.written == s.written + Drained(s.queue.items)
    ensures r.(connected := s.connected, queue := s.queue, written := s.written) == s
  {
    Flush(s.(connected := true))
  }

  /** The callback given to `socket.connect` / `tls.connect`: announce, then no longer connecting. */
  function Handshake(s: State): (r: State)
    requires s.socket.Some?
    ensures Inv(s) ==> Inv(r)
    ensures r.connected && !r.connecting && r.queue.items == []
    ensures r.written == s.written + Drained(s.queue.items)
    ensures r.retries == s.retries && r.socket == s.socket && r.emitted == s.emitted
    ensures r.queue.capacity == s.queue.capacity
    ensures r.(connected := s.connected, connecting := s.connecting, queue := s.queue, written := s.written) == s
  {
    Announce(s).(connecting := false)
  }

  /**
   * The socket's `error` handler: not connecting, not connected, the socket
   * destroyed and dropped, `error` emitted with the cause. The ES5 copy also
   * records in a local flag whether the cause's message mentions
   * ECONNREFUSED; nothing reads that flag, so it is not part of the state.
   * Reading that message throws for a null or undefined cause in the ES5
   * copy, before `error` is emitted; the transport always passes an Error.
   */
  function OnError(s: State, cause: Value): (r: State)
    requires s.socket.Some?
    ensures Inv(s) ==> Inv(r)
    ensures !r.connected && !r.connecting && r.socket == None
    ensures r.destroyed == s.destroyed + {s.socket.value}
    ensures r.emitted == s.emitted + [ErrorNote(cause)]
    ensures r.retries == s.retries && r.queue == s.queue && r.silent == s.silent
    ensures r.pendingReconnects == s.pendingReconnects && r.written == s.written
    ensures r.created == s.created
  {
    s.(connecting := false, connected := false, destroyed := s.destroyed + {s.socket.value},
       socket := None, emitted := s.emitted + [ErrorNote(cause)])
  }

  /**
   * The socket's `timeout` handler: the socket is destroyed unless its
   * readyState is "open"; `timeout` is emitted in either case.
   */
  function OnTimeout(s: State, readyStateOpen: bool): (r: State)
    requires s.socket.Some?
    ensures Inv(s) ==> Inv(r)
    ensures r.destroyed == if readyStateOpen then s.destroyed else s.destroyed + {s.socket.value}
    ensures r.emitted == s.emitted + [TimeoutNote]
    ensures r.(destroyed := s.destroyed, emitted := s.emitted) == s
  {
    s.(destroyed := if readyStateOpen then s.destroyed else s.destroyed + {s.socket.value},
       emitted := s.emitted + [TimeoutNote])
  }

  /** The socket's `connect` handler: the attempt counter restarts at 0 and `connect` is emitted. */
  function OnConnectEvent(s: State): (r: State)
    ensures Inv(s) ==> Inv(r)
    ensures r.retries == 0 && r.emitted == s.emitted + [ConnectNote]
    ensures r.(retries := s.retries, emitted := s.emitted) == s
  {
    s.(retries := 0, emitted := s.emitted + [ConnectNote])
  }

  /**
   * The socket's `close` handler. Not connected any more, and `close` is
   * emitted in every case. With budget left, one reconnect is scheduled
   * unless an attempt is already in flight; without, the queue is replaced by
   * an empty one of the configured capacity and the stream turns silent.
   */
  function OnClose(c: Config, s: State): (r: State)
    requires c.capacity > 0
    ensures Inv(s) ==> Inv(r)
    ensures !r.connected && r.emitted == s.emitted + [CloseNote]
    ensures HasBudget(c, s) ==>
              && r.pendingReconnects == s.pendingReconnects + (if s.connecting then 0 else 1)
              && r.queue == s.queue && r.silent == s.silent
    ensures !HasBudget(c, s) ==>
              && r.pendingReconnects == s.pendingReconnects
              && r.queue == CircularBuffer.Create(c.capacity) && r.silent
    ensures r.retries == s.retries && r.connecting == s.connecting && r.socket == s.socket
    ensures r.written == s.written && r.destroyed == s.destroyed && r.created == s.created
  {
    var t := s.(connected := false);
    var t := if HasBudget(c, s) then
               (if !s.connecting then t.(pendingReconnects := t.pendingReconnects + 1) else t)
             else t.(queue := CircularBuffer.Create(c.capacity), silent := true);
    t.(emitted := t.emitted + [CloseNote])
  }

  /** A scheduled reconnect timer fires and calls `connect()`. */
  function FireReconnect(s: State): (r: State)
    requires s.pendingReconnects > 0
    ensures Inv(s) ==> Inv(r)
    ensures r.pendingReconnects == s.pendingReconnects - 1
    ensures r == Connect(s.(pendingReconnects := s.pendingReconnects - 1))
  {
    Connect(s.(pendingReconnects := s.pendingReconnects - 1))
  }
}

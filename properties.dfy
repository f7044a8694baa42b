/**
 * Properties of the stream's behaviour that span several events: what a
 * flush writes, how the retry budget runs out, what stays buffered while
 * disconnected, and what the error cause does (nothing).
 */
module Properties {
  import opened Wrappers
  import opened JsValues
  import opened Settings
  import opened Machine
  import CircularBuffer

  /** The queued messages, framed, in queue order. */
  function Framed(items: seq<CircularBuffer.Entry>): (out: seq<string>)
    ensures |out| == |items|
  {
    seq(|items|, i requires 0 <= i < |items| => Frame(items[i].message))
  }

  /** The flush writes are the queue read from its newest entry back to its oldest. */
  lemma {:induction false} DrainedIsNewestFirst(items: seq<CircularBuffer.Entry>, k: nat)
    requires k < |items|
    ensures Drained(items)[k] == Frame(items[|items| - 1 - k].message)
    decreases |items|
  {
    if k < |items| - 1 {
      DrainedIsNewestFirst(items[1..], k);
    }
  }

  /** A flush writes each queued message exactly once, whatever the order. */
  lemma {:induction false} DrainedWritesEachOnce(items: seq<CircularBuffer.Entry>)
    ensures multiset(Drained(items)) == multiset(Framed(items))
    decreases |items|
  {
    if items != [] {
      DrainedWritesEachOnce(items[1..]);
      assert Framed(items) == [Frame(items[0].message)] + Framed(items[1..]);
    }
  }

  /**
   * `flush()` leaves the queue empty and adds to the socket's writes exactly
   * the queued messages, each once, each followed by a newline.
   */
  lemma FlushSendsEachOnce(s: State)
    requires s.socket.Some? || s.queue.items == []
    ensures Flush(s).queue.items == []
    ensures Flush(s).written[..|s.written|] == s.written
    ensures multiset(Flush(s).written[|s.written|..]) == multiset(Framed(s.queue.items))
  {
    DrainedWritesEachOnce(s.queue.items);
    assert Flush(s).written[|s.written|..] == Drained(s.queue.items);
  }

  /** `send` of each message in turn. */
  function SendAll(s: State, messages: seq<string>): (r: State)
    requires Inv(s)
    ensures Inv(r) && r.connected == s.connected && r.socket == s.socket
    decreases |messages|
  {
    if messages == [] then s
    else Send(SendAll(s, messages[..|messages| - 1]), messages[|messages| - 1])
  }

  /** The queue entries for a list of messages. */
  function Entries(messages: seq<string>): (es: seq<CircularBuffer.Entry>)
    ensures |es| == |messages|
  {
    seq(|messages|, i requires 0 <= i < |messages| => CircularBuffer.Entry(messages[i]))
  }

  /**
   * While disconnected, sends write nothing and leave in the queue exactly
   * the newest entries that fit its capacity, in send order; the rest of
   * the state is untouched.
   */
  lemma {:induction false} SendsWhileDisconnected(s: State, messages: seq<string>)
    requires Inv(s) && !s.connected
    ensures SendAll(s, messages).queue == CircularBuffer.PushAll(s.queue, Entries(messages))
    ensures SendAll(s, messages).queue.items
            == CircularBuffer.Newest(s.queue.items + Entries(messages), s.queue.capacity)
    ensures SendAll(s, messages) == s.(queue := SendAll(s, messages).queue)
    decreases |messages|
  {
    if messages != [] {
      var init, last := messages[..|messages| - 1], messages[|messages| - 1];
      SendsWhileDisconnected(s, init);
      var t := SendAll(s, init);
      var es := Entries(messages);
      assert es[..|messages| - 1] == Entries(init);
      assert es[|messages| - 1] == CircularBuffer.Entry(last);
      assert SendAll(s, messages) == Send(t, last);
      assert Send(t, last) == t.(queue := CircularBuffer.Push(t.queue, CircularBuffer.Entry(last)));
    }
    CircularBuffer.PushAllKeepsNewest(s.queue, Entries(messages));
  }

  /** The newest two of three entries are the second and the third. */
  lemma NewestTwoOfThree(messages: seq<string>)
    requires |messages| == 3
    ensures CircularBuffer.Newest(Entries(messages), 2)
            == [CircularBuffer.Entry(messages[1]), CircularBuffer.Entry(messages[2])]
  {
    var es := Entries(messages);
    assert CircularBuffer.Newest(es, 2) == es[1..];
    assert es[1..] == [es[1], es[2]];
  }

  /** Three sends into an empty buffer of two keep the last two. */
  lemma CapacityTwoKeepsLastTwo(s: State, messages: seq<string>)
    requires Inv(s) && !s.connected
    requires s.queue == CircularBuffer.Create(2) && |messages| == 3
    ensures SendAll(s, messages).queue.items
            == [CircularBuffer.Entry(messages[1]), CircularBuffer.Entry(messages[2])]
    ensures SendAll(s, messages).written == s.written
  {
    SendsWhileDisconnected(s, messages);
    assert s.queue.items + Entries(messages) == Entries(messages);
    NewestTwoOfThree(messages);
  }

  /**
   * With a buffer of two and three messages A, B, C sent while disconnected,
   * only B and C are kept; the handshake then writes C before B, and the
   * queue is empty.
   */
  lemma CapacityTwoScenario(s: State, messages: seq<string>)
    requires Inv(s) && !s.connected && s.socket.Some?
    requires s.queue == CircularBuffer.Create(2) && |messages| == 3
    ensures Handshake(SendAll(s, messages)).written == s.written + [Frame(messages[2]), Frame(messages[1])]
    ensures Handshake(SendAll(s, messages)).queue.items == []
  {
    CapacityTwoKeepsLastTwo(s, messages);
    DrainedTwo(messages[1], messages[2]);
  }

  /** Two queued messages drain newest first. */
  lemma DrainedTwo(a: string, b: string)
    ensures Drained([CircularBuffer.Entry(a), CircularBuffer.Entry(b)]) == [Frame(b), Frame(a)]
  {
    var kept := [CircularBuffer.Entry(a), CircularBuffer.Entry(b)];
    assert Drained(kept[1..]) == [Frame(b)];
  }

  /**
   * `send` never reads `silent`: a silent, disconnected stream still pushes
   * the message onto its queue and writes nothing.
   */
  lemma SilentStillBuffers(s: State, message: string)
    requires Inv(s) && s.silent && !s.connected
    ensures var r := Send(s, message);
            r.queue.items != [] && r.queue.items[|r.queue.items| - 1] == CircularBuffer.Entry(message)
            && r.written == s.written && r.silent
  {
  }

  /**
   * Whatever the error cause, the error and the close that follows it leave
   * the same state; only the emitted `error` notification carries the cause.
   */
  lemma ErrorCauseIgnored(c: Config, s: State, a: Value, b: Value)
    requires c.capacity > 0 && s.socket.Some?
    ensures OnError(s, a).(emitted := s.emitted) == OnError(s, b).(emitted := s.emitted)
    ensures var ra := OnClose(c, OnError(s, a));
            var rb := OnClose(c, OnError(s, b));
            ra.(emitted := s.emitted) == rb.(emitted := s.emitted)
  {
  }

  /**
   * The stream after n failed attempts, each an error then a close on the
   * socket of the attempt, each followed by the reconnect it scheduled,
   * starting from the fresh stream. Defined while the budget lasts.
   */
  function Failing(c: Config, cause: Value, n: nat): (s: State)
    requires c.capacity > 0
    requires c.maxConnectRetries < 0 || n <= c.maxConnectRetries
    ensures Inv(s) && s.retries == n && s.connecting && !s.connected && !s.silent
    ensures s.socket.Some? && s.pendingReconnects == 0
    ensures s.queue == CircularBuffer.Create(c.capacity) && s.written == []
    ensures |s.emitted| == 2 * n
    decreases n
  {
    if n == 0 then Initial(c)
    else FireReconnect(OnClose(c, OnError(Failing(c, cause, n - 1), cause)))
  }

  /**
   * From any state with budget left (or an unlimited budget), a failed
   * attempt, an error then a close on the current socket, schedules exactly
   * one reconnect and keeps the queue, `silent` and the retry count.
   */
  lemma FailureWithinBudgetRetries(c: Config, s: State, cause: Value)
    requires c.capacity > 0 && s.socket.Some?
    requires c.maxConnectRetries < 0 || s.retries < c.maxConnectRetries
    ensures var r := OnClose(c, OnError(s, cause));
            && r.pendingReconnects == s.pendingReconnects + 1
            && r.queue == s.queue && r.silent == s.silent && r.retries == s.retries
            && !r.connected && !r.connecting && r.socket == None && r.written == s.written
            && r.emitted == s.emitted + [ErrorNote(cause), CloseNote]
  {
    var e := OnError(s, cause);
    assert !e.connecting && e.retries == s.retries;
    assert HasBudget(c, e);
  }

  /**
   * With a budget of m >= 0, the failure of the attempt after the m retries
   * schedules nothing: the queue is reset and the stream turns silent. So a
   * fresh stream makes 1 + m attempts in all.
   */
  lemma FailureBeyondBudgetSilences(c: Config, cause: Value)
    requires c.capacity > 0 && c.maxConnectRetries >= 0
    ensures var r := OnClose(c, OnError(Failing(c, cause, c.maxConnectRetries), cause));
            r.pendingReconnects == 0 && r.silent && r.queue == CircularBuffer.Create(c.capacity)
            && !r.connected && r.emitted[|r.emitted| - 1] == CloseNote
  {
  }
}

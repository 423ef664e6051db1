/**
 * The USB console task: `log_print`, the only producer-side entry point of
 * the log queue, and one iteration of the USB task that drains that queue to the
 * console and prints a periodic status line.
 */
module UsbTask {
  import opened Wrappers
  import opened Text
  import opened Shared

  const STATUS_PERIOD_MS: nat := 10000

  /** The log line vsnprintf leaves in a 256-byte buffer: at most 255 characters, a prefix of the formatted text. */
  function LogMessageOf(formatted: string): (m: LogMessage)
    ensures ValidLogMessage(m)
    ensures |m.buf| <= |formatted| && m.buf == formatted[..|m.buf|]
    ensures |formatted| <= LOG_BUF_SIZE - 1 ==> m.buf == formatted
    ensures |formatted| > LOG_BUF_SIZE - 1 ==> |m.buf| == LOG_BUF_SIZE - 1
  {
    LogMessage(Truncate(formatted, LOG_BUF_SIZE - 1))
  }

  /** The log messages a run of log_print calls hands to the queue, in call order. */
  function LogMessages(lines: seq<string>): (ms: seq<LogMessage>)
    ensures |ms| == |lines|
    ensures forall i :: 0 <= i < |lines| ==> ms[i] == LogMessageOf(lines[i])
  {
    if lines == [] then [] else [LogMessageOf(lines[0])] + LogMessages(lines[1..])
  }

  lemma {:induction false} LogMessagesAppend(a: seq<string>, b: seq<string>)
    ensures LogMessages(a + b) == LogMessages(a) + LogMessages(b)
    decreases |a|
  {
    if a == [] {
      assert a + b == b;
    } else {
      assert (a + b)[0] == a[0] && (a + b)[1..] == a[1..] + b;
      LogMessagesAppend(a[1..], b);
      assert LogMessages(a + b) == [LogMessageOf(a[0])] + (LogMessages(a[1..]) + LogMessages(b));
    }
  }


  lemma {:induction false} PushAllAppend<T>(q: seq<T>, capacity: nat, xs: seq<T>, ys: seq<T>)
    ensures PushAll(q, capacity, xs + ys) == PushAll(PushAll(q, capacity, xs), capacity, ys)
    decreases |xs|
  {
    if xs == [] {
      assert xs + ys == ys;
    } else {
      assert (xs + ys)[0] == xs[0] && (xs + ys)[1..] == xs[1..] + ys;
      PushAllAppend(Pushed(q, capacity, xs[0]), capacity, xs[1..], ys);
    }
  }

  /**
   * log_print: formats into a 256-byte buffer and pushes it without blocking;
   * on a full queue the line is dropped and the queued lines stay as they were.
   */
  method LogPrint(logQ: BoundedQueue<LogMessage>, formatted: string) returns (accepted: bool)
    requires logQ.Valid() && logQ.capacity == LOG_QUEUE_DEPTH
    modifies logQ
    ensures logQ.Valid()
    ensures accepted == (|old(logQ.items)| < LOG_QUEUE_DEPTH)
    ensures logQ.items == Pushed(old(logQ.items), LOG_QUEUE_DEPTH, LogMessageOf(formatted))
  {
    accepted := logQ.TrySend(LogMessageOf(formatted));
  }

  /** log_print called once per line, in order. */
  method LogPrintAll(logQ: BoundedQueue<LogMessage>, lines: seq<string>)
    requires logQ.Valid() && logQ.capacity == LOG_QUEUE_DEPTH
    modifies logQ
    ensures logQ.Valid()
    ensures logQ.items == PushAll(old(logQ.items), LOG_QUEUE_DEPTH, LogMessages(lines))
  {
    var i := 0;
    while i < |lines|
      invariant 0 <= i <= |lines|
      invariant logQ.Valid()
      invariant logQ.items == PushAll(old(logQ.items), LOG_QUEUE_DEPTH, LogMessages(lines[..i]))
    {
      ghost var before := logQ.items;
      var _ := LogPrint(logQ, lines[i]);
      assert lines[..i + 1] == lines[..i] + [lines[i]];
      LogMessagesAppend(lines[..i], [lines[i]]);
      PushAllAppend(old(logQ.items), LOG_QUEUE_DEPTH, LogMessages(lines[..i]), LogMessages([lines[i]]));
      i := i + 1;
    }
    assert lines[..i] == lines;
  }

  /** What the USB task writes to the console: a log line, or the periodic status line with both queue fill levels. */
  datatype ConsoleLine = Printed(text: string) | Status(logWaiting: nat, mqttWaiting: nat)

  function PrintedLines(ms: seq<LogMessage>): (out: seq<ConsoleLine>)
    ensures |out| == |ms|
    ensures forall i :: 0 <= i < |ms| ==> out[i] == Printed(ms[i].buf)
  {
    if ms == [] then [] else [Printed(ms[0].buf)] + PrintedLines(ms[1..])
  }

  /** Whether the status period has elapsed, in wrapping tick arithmetic. */
  predicate StatusDue(now: Tick, lastStatus: Tick) {
    TicksSince(now, lastStatus) >= STATUS_PERIOD_MS
  }

  /** The USB console task: the sole consumer of the log queue. */
  class UsbTask {
    var lastStatus: Tick
    var console: seq<ConsoleLine>

    constructor ()
      ensures lastStatus == 0 && console == []
    {
      lastStatus := 0;
      console := [];
    }

    /** The inner drain loop: receives until the queue reports empty, returning what it received in order. */
    static method DrainQueue(logQ: BoundedQueue<LogMessage>) returns (drained: seq<LogMessage>)
      requires logQ.Valid()
      modifies logQ
      ensures logQ.Valid() && logQ.items == []
      ensures drained == old(logQ.items)
    {
      drained := [];
      var more := true;
      while more
        invariant logQ.Valid()
        invariant old(logQ.items) == drained + logQ.items
        invariant !more ==> logQ.items == []
        decreases |logQ.items| + (if more then 1 else 0)
      {
        var next := logQ.TryReceive();
        if next.Some? {
          drained := drained + [next.value];
        } else {
          more := false;
        }
      }
    }

    /**
     * One loop iteration: once a first line is received, drain the queue
     * until it is empty, printing every line in the order it was queued;
     * then write a status line if STATUS_PERIOD_MS ticks have passed.
     */
    method Cycle(logQ: BoundedQueue<LogMessage>, mqttQ: BoundedQueue<MqttMessage>, now: Tick)
      requires logQ.Valid() && mqttQ.Valid()
      modifies this, logQ
      ensures logQ.Valid() && logQ.items == []
      ensures lastStatus == if StatusDue(now, old(lastStatus)) then now else old(lastStatus)
      ensures console == old(console) + PrintedLines(old(logQ.items))
                         + (if StatusDue(now, old(lastStatus)) then [Status(0, mqttQ.Waiting())] else [])
    {
      var first := logQ.TryReceive();
      if first.Some? {
        var rest := DrainQueue(logQ);
        assert old(logQ.items) == [first.value] + rest;
        console := console + PrintedLines([first.value] + rest);
      }
      if StatusDue(now, lastStatus) {
        lastStatus := now;
        console := console + [Status(logQ.Waiting(), mqttQ.Waiting())];
      }
    }
  }
}

/**
 * The objects the firmware tasks share: the message records, the capacities
 * of the two FreeRTOS queues, the depth-1 overwrite slots that carry the
 * latest station and rocket positions, and FreeRTOS' wrapping tick counter.
 *
 * Tasks are modelled as atomic steps, so a queue push that may wait
 * ("xQueueSend with a timeout") succeeds exactly when there is room and
 * otherwise drops the message.
 */
module Shared {
  import opened Wrappers

  const LOG_BUF_SIZE: nat := 256
  const LOG_QUEUE_DEPTH: nat := 64
  const TOPIC_SIZE: nat := 64
  const PAYLOAD_SIZE: nat := 384
  const MQTT_QUEUE_DEPTH: nat := 8

  /** A position: exactly latitude, longitude and altitude, no validity flag and no satellite count. */
  datatype LocationMsg = LocationMsg(lat: real, lon: real, altM: real)

  /** One log line: the text in front of the NUL of a 256-byte buffer. */
  datatype LogMessage = LogMessage(buf: string)

  predicate ValidLogMessage(m: LogMessage) {
    |m.buf| <= LOG_BUF_SIZE - 1
  }

  /** One publish request: topic and payload, each the text in front of the NUL of its buffer. */
  datatype MqttMessage = MqttMessage(topic: string, payload: string)

  predicate ValidMqttMessage(m: MqttMessage) {
    |m.topic| <= TOPIC_SIZE - 1 && |m.payload| <= PAYLOAD_SIZE - 1
  }

  // ── Wrapping ticks ────────────────────────────────────────────────────────
  // TickType_t is a 32-bit unsigned counter; one tick is one millisecond.

  const TICK_MODULUS: int := 0x1_0000_0000

  type Tick = t: int | 0 <= t < TICK_MODULUS

  /** `now - since` in unsigned 32-bit arithmetic. */
  function TicksSince(now: Tick, since: Tick): (d: Tick)
    ensures (since + d) % TICK_MODULUS == now
    ensures since <= now ==> d == now - since
  {
    (now - since) % TICK_MODULUS
  }

  /** The tick counter `d` ticks after `t`, wrapped. */
  function TickAdvance(t: Tick, d: nat): Tick {
    (t + d) % TICK_MODULUS
  }

  /** Elapsed time is recovered exactly across a wrap of the counter, as long as less than a full period passed. */
  lemma TicksSinceAdvance(t: Tick, d: nat)
    requires d < TICK_MODULUS
    ensures TicksSince(TickAdvance(t, d), t) == d
  {
    var n := TickAdvance(t, d);
    if t + d < TICK_MODULUS {
      assert n == t + d;
    } else {
      assert n == t + d - TICK_MODULUS;
      assert n - t == d - TICK_MODULUS;
    }
  }

  // ── Bounded FIFO queues ───────────────────────────────────────────────────

  /** Queue contents after one non-blocking push: appended when there is room, dropped otherwise. */
  function Pushed<T>(q: seq<T>, capacity: nat, x: T): seq<T> {
    if |q| < capacity then q + [x] else q
  }

  /** Queue contents after pushing `xs` in order, with no consumer running in between. */
  function PushAll<T>(q: seq<T>, capacity: nat, xs: seq<T>): seq<T>
    decreases |xs|
  {
    if xs == [] then q else PushAll(Pushed(q, capacity, xs[0]), capacity, xs[1..])
  }

  function Min(a: int, b: int): int { if a <= b then a else b }

  /**
   * Pushing a batch keeps what was queued, never exceeds the capacity, and
   * accepts exactly the longest prefix of the batch that fits: the first
   * message dropped is followed only by dropped messages.
   */
  lemma {:induction false} PushAllPrefix<T>(q: seq<T>, capacity: nat, xs: seq<T>)
    requires |q| <= capacity
    ensures PushAll(q, capacity, xs) == q + xs[..Min(|xs|, capacity - |q|)]
    decreases |xs|
  {
    if xs != [] {
      var q' := Pushed(q, capacity, xs[0]);
      PushAllPrefix(q', capacity, xs[1..]);
      if |q| < capacity {
        assert xs[..Min(|xs|, capacity - |q|)] == [xs[0]] + xs[1..][..Min(|xs| - 1, capacity - |q'|)];
      } else {
        assert Min(|xs| - 1, capacity - |q'|) == 0;
      }
    }
  }

  /**
   * A bounded FIFO queue (a statically allocated FreeRTOS queue). Producers
   * push without blocking and are told when the message was dropped;
   * the consumer receives in FIFO order.
   */
  class BoundedQueue<T> {
    const capacity: nat
    var items: seq<T>

    ghost predicate Valid()
      reads this
    {
      |items| <= capacity
    }

    constructor (capacity: nat)
      ensures Valid() && this.capacity == capacity && items == []
    {
      this.capacity := capacity;
      items := [];
    }

    /** Number of queued messages (uxQueueMessagesWaiting). */
    function Waiting(): (n: nat)
      reads this
      requires Valid()
      ensures n <= capacity
    {
      |items|
    }

    /** xQueueSend: accepted when there is room, otherwise the queue is left unchanged. */
    method TrySend(x: T) returns (accepted: bool)
      requires Valid()
      modifies this
      ensures Valid()
      ensures accepted == (|old(items)| < capacity)
      ensures items == Pushed(old(items), capacity, x)
    {
      accepted := |items| < capacity;
      if accepted {
        items := items + [x];
      }
    }

    /** xQueueReceive: the oldest message, or nothing when the queue is empty. */
    method TryReceive() returns (r: Option<T>)
      requires Valid()
      modifies this
      ensures Valid()
      ensures old(items) == [] ==> r == None && items == []
      ensures old(items) != [] ==> r == Some(old(items)[0]) && items == old(items)[1..]
    {
      if items == [] {
        r := None;
      } else {
        r := Some(items[0]);
        items := items[1..];
      }
    }
  }

  // ── Latest-value slots ────────────────────────────────────────────────────

  /**
   * A depth-1 overwrite queue holding the latest known position. Writers
   * overwrite, readers peek; nothing ever empties it once written.
   */
  class Slot {
    var value: Option<LocationMsg>

    constructor ()
      ensures value == None
    {
      value := None;
    }

    /** xQueueOverwrite: always succeeds and replaces whatever was there. */
    method Overwrite(m: LocationMsg)
      modifies this
      ensures value == Some(m)
    {
      value := Some(m);
    }

    /** xQueuePeek: non-destructive; nothing when no write has happened yet. */
    method Peek() returns (r: Option<LocationMsg>)
      ensures r == value
    {
      r := value;
    }
  }

  /** What a peek returns after a run of overwrites on a slot that held `init`: the last write, if any. */
  function AfterWrites(init: Option<LocationMsg>, writes: seq<LocationMsg>): Option<LocationMsg>
    decreases |writes|
  {
    if writes == [] then init else AfterWrites(Some(writes[0]), writes[1..])
  }

  /** After N writes a peek returns the N-th value exactly, never an older one. */
  lemma {:induction false} AfterWritesIsLast(init: Option<LocationMsg>, writes: seq<LocationMsg>)
    requires writes != []
    ensures AfterWrites(init, writes) == Some(writes[|writes| - 1])
    decreases |writes|
  {
    if |writes| > 1 {
      AfterWritesIsLast(Some(writes[0]), writes[1..]);
    }
  }
}

/**
 * The firmware GPS task. Each cycle drains every byte waiting on the UART,
 * feeds each one to the NMEA parser and echoes complete raw sentences to the
 * log; then, while the parser holds a fix, it overwrites the station slot and
 * publishes a rate-limited `rocket/gps` message. Fix acquisition and loss are
 * logged on the edges only.
 *
 * The NMEA parser (gps::GPSParser) is not part of this model: it is taken as
 * a deterministic function of the whole byte history fed to it so far
 * (`hasFix`, `coordinate`). printf's float formatting is external too and
 * enters as the `Formatter` functions.
 */
module GpsTask {
  import opened Wrappers
  import opened Text
  import opened Shared
  import UsbTask

  const GPS_PUB_MS: nat := 1000
  const NMEA_BUF_SIZE: nat := 128
  const JSON_BUF_SIZE: nat := 128
  const GPS_TOPIC: string := "rocket/gps"

  /** The fix the parser exposes. */
  datatype Coordinate = Coordinate(latitude: real, longitude: real, altitude: real, satellites: int)

  /** The printf-formatted texts that carry floats: the "fix acquired" log line and the JSON payload. */
  datatype Formatter = Formatter(fixAcquired: Coordinate -> string, fixJson: Coordinate -> string)

  /** The lines the GPS task hands to log_print. */
  datatype LogLine = RawSentence(text: string) | FixAcquired(c: Coordinate) | FixLost

  function Render(fmt: Formatter, line: LogLine): string {
    match line
    case RawSentence(t) => "[gps raw] " + t + "\n"
    case FixAcquired(c) => fmt.fixAcquired(c)
    case FixLost => "[gps] fix lost\n"
  }

  /** The texts of a run of log lines, in order. */
  function RenderAll(fmt: Formatter, lines: seq<LogLine>): seq<string> {
    seq(|lines|, i requires 0 <= i < |lines| => Render(fmt, lines[i]))
  }

  // ── The raw-sentence echo buffer ──────────────────────────────────────────

  /** Longest echo line: the buffer keeps one byte for the terminating NUL. */
  const ECHO_MAX: nat := NMEA_BUF_SIZE - 1

  /** Characters that can be stored in the echo buffer. */
  predicate Echoable(c: char) {
    c != '\0' && c != '\n' && c != '\r'
  }

  predicate CleanLine(s: string) {
    |s| <= ECHO_MAX && forall i :: 0 <= i < |s| ==> Echoable(s[i])
  }

  /** The echo buffer after one byte, and the line it emits, if any. */
  datatype Echo = Echo(buf: string, line: Option<string>)

  function EchoByte(buf: string, c: char): (e: Echo)
    ensures e.line.Some? <==> c == '\n' && buf != []
    ensures e.line.Some? ==> e.line.value == buf
    ensures c == '\0' ==> e.buf == buf
    ensures c == '\n' ==> e.buf == []
    ensures c != '\0' && c != '\n' && |buf| >= ECHO_MAX ==> e.buf == []
    ensures c != '\n' && |buf| < ECHO_MAX ==> e.buf == if Echoable(c) then buf + [c] else buf
  {
    if c == '\0' then Echo(buf, None)
    else if c == '\n' then Echo([], if |buf| > 0 then Some(buf) else None)
    else if c != '\r' && |buf| < ECHO_MAX then Echo(buf + [c], None)
    else if |buf| >= ECHO_MAX then Echo([], None)
    else Echo(buf, None)
  }

  /** The emitted line as a list of zero or one lines. */
  function LineOf(e: Echo): seq<string> {
    if e.line.Some? then [e.line.value] else []
  }

  /** The echo buffer after a run of bytes, and the lines emitted on the way, in order. */
  function EchoAll(buf: string, bytes: seq<char>): (string, seq<string>)
    decreases |bytes|
  {
    if bytes == [] then (buf, [])
    else
      var prev := EchoAll(buf, bytes[..|bytes| - 1]);
      var e := EchoByte(prev.0, bytes[|bytes| - 1]);
      (e.buf, prev.1 + LineOf(e))
  }

  lemma EchoAllSnoc(buf: string, bytes: seq<char>, c: char)
    ensures EchoAll(buf, bytes + [c]) ==
      (EchoByte(EchoAll(buf, bytes).0, c).buf, EchoAll(buf, bytes).1 + LineOf(EchoByte(EchoAll(buf, bytes).0, c)))
  {
    assert (bytes + [c])[..|bytes|] == bytes;
  }

  /** The log messages handed to log_print for a run of echoed lines, one "[gps raw]" line each. */
  function RawLog(fmt: Formatter, lines: seq<string>): seq<LogMessage> {
    if lines == [] then []
    else [UsbTask.LogMessageOf(Render(fmt, RawSentence(lines[0])))] + RawLog(fmt, lines[1..])
  }

  lemma {:induction false} RawLogAppend(fmt: Formatter, a: seq<string>, b: seq<string>)
    ensures RawLog(fmt, a + b) == RawLog(fmt, a) + RawLog(fmt, b)
    decreases |a|
  {
    if a == [] {
      assert a + b == b;
    } else {
      assert (a + b)[0] == a[0] && (a + b)[1..] == a[1..] + b;
      RawLogAppend(fmt, a[1..], b);
    }
  }

  /**
   * The echo buffer never holds more than 127 characters and never a NUL,
   * CR or LF; every emitted line is non-empty and just as clean.
   */
  lemma {:induction false} EchoAllClean(buf: string, bytes: seq<char>)
    requires CleanLine(buf)
    ensures CleanLine(EchoAll(buf, bytes).0)
    ensures forall i :: 0 <= i < |EchoAll(buf, bytes).1| ==>
      EchoAll(buf, bytes).1[i] != [] && CleanLine(EchoAll(buf, bytes).1[i])
    decreases |bytes|
  {
    if bytes != [] {
      EchoAllClean(buf, bytes[..|bytes| - 1]);
      var prev := EchoAll(buf, bytes[..|bytes| - 1]);
      var c := bytes[|bytes| - 1];
      var e := EchoByte(prev.0, c);
      if c != '\0' && c != '\n' && |prev.0| < ECHO_MAX && Echoable(c) {
        assert e.buf == prev.0 + [c];
        assert forall i :: 0 <= i < |e.buf| ==> Echoable(e.buf[i]) by {
          forall i | 0 <= i < |e.buf| ensures Echoable(e.buf[i]) {
            if i < |prev.0| { assert e.buf[i] == prev.0[i]; }
          }
        }
      }
    }
  }

  /** The published message: the JSON cut to the 128-byte snprintf buffer, then copied into the topic and payload fields. */
  function GpsMessage(json: string): (m: MqttMessage)
    ensures ValidMqttMessage(m)
    ensures m.topic == GPS_TOPIC
    ensures |m.payload| <= JSON_BUF_SIZE - 1 && |m.payload| <= |json| && m.payload == json[..|m.payload|]
    ensures |json| <= JSON_BUF_SIZE - 1 ==> m.payload == json
  {
    var payload := Truncate(json, JSON_BUF_SIZE - 1);
    MqttMessage(Truncate(GPS_TOPIC, TOPIC_SIZE - 1), Truncate(payload, PAYLOAD_SIZE - 1))
  }

  /** The lines logged on a fix edge: "fix acquired" on false→true, "fix lost" on true→false, nothing otherwise. */
  function EdgeLines(hadFix: bool, hasFix: bool, c: Coordinate): (lines: seq<LogLine>)
    ensures (FixAcquired(c) in lines) <==> !hadFix && hasFix
    ensures (FixLost in lines) <==> hadFix && !hasFix
    ensures |lines| <= 1
  {
    if hasFix && !hadFix then [FixAcquired(c)]
    else if !hasFix && hadFix then [FixLost]
    else []
  }

  /** Whether a publish is due, in wrapping tick arithmetic. */
  predicate PublishDue(now: Tick, lastPub: Tick) {
    TicksSince(now, lastPub) >= GPS_PUB_MS
  }

  /** Logging a run of lines and then some more is logging the whole run. */
  lemma LogAfterLines(fmt: Formatter, q0: seq<LogMessage>, lines: seq<string>, more: seq<string>,
                      mid: seq<LogMessage>, end: seq<LogMessage>)
    requires mid == PushAll(q0, LOG_QUEUE_DEPTH, RawLog(fmt, lines))
    requires end == PushAll(mid, LOG_QUEUE_DEPTH, RawLog(fmt, more))
    ensures end == PushAll(q0, LOG_QUEUE_DEPTH, RawLog(fmt, lines + more))
  {
    RawLogAppend(fmt, lines, more);
    UsbTask.PushAllAppend(q0, LOG_QUEUE_DEPTH, RawLog(fmt, lines), RawLog(fmt, more));
  }

  class GpsTask {
    const hasFix: seq<char> -> bool
    const coordinate: seq<char> -> Coordinate
    const fmt: Formatter
    const nmeaBuf: array<char>
    var fed: seq<char>
    var nmeaLen: int
    var hadFix: bool
    var lastPub: Tick

    ghost predicate Valid()
      reads this
    {
      nmeaBuf.Length == NMEA_BUF_SIZE && 0 <= nmeaLen <= ECHO_MAX
    }

    /** The characters currently held in the echo buffer. */
    ghost function Echoed(): string
      reads this, nmeaBuf
      requires Valid()
    {
      nmeaBuf[..nmeaLen]
    }

    constructor (hasFix: seq<char> -> bool, coordinate: seq<char> -> Coordinate, fmt: Formatter)
      ensures Valid() && fresh(nmeaBuf)
      ensures this.hasFix == hasFix && this.coordinate == coordinate && this.fmt == fmt
      ensures fed == [] && Echoed() == [] && !hadFix && lastPub == 0
    {
      this.hasFix := hasFix;
      this.coordinate := coordinate;
      this.fmt := fmt;
      nmeaBuf := new char[NMEA_BUF_SIZE](_ => '\0');
      fed := [];
      nmeaLen := 0;
      hadFix := false;
      lastPub := 0;
    }

    /** One byte of the drain loop: feed the parser, then update the echo buffer (the NUL at nmeaBuf[nmeaLen] is always in bounds). */
    method DrainByte(c: char, logQ: BoundedQueue<LogMessage>)
      requires Valid() && logQ.Valid() && logQ.capacity == LOG_QUEUE_DEPTH
      modifies this, nmeaBuf, logQ
      ensures Valid()
      ensures fed == old(fed) + [c]
      ensures hadFix == old(hadFix) && lastPub == old(lastPub)
      ensures Echoed() == EchoByte(old(Echoed()), c).buf
      ensures logQ.Valid()
      ensures logQ.items == PushAll(old(logQ.items), LOG_QUEUE_DEPTH, RawLog(fmt, LineOf(EchoByte(old(Echoed()), c))))
    {
      fed := fed + [c];
      if c == '\0' {
        // spurious NUL: fed to the parser, never echoed
      } else if c == '\n' {
        nmeaBuf[nmeaLen] := '\0';
        if nmeaLen > 0 {
          var line := nmeaBuf[..nmeaLen];
          var _ := UsbTask.LogPrint(logQ, Render(fmt, RawSentence(line)));
        }
        nmeaLen := 0;
      } else if c != '\r' && nmeaLen < NMEA_BUF_SIZE - 1 {
        nmeaBuf[nmeaLen] := c;
        nmeaLen := nmeaLen + 1;
        assert nmeaBuf[..nmeaLen] == old(nmeaBuf[..nmeaLen]) + [c];
      } else if nmeaLen >= NMEA_BUF_SIZE - 1 {
        nmeaLen := 0;
      }
    }

    /**
     * The state after draining `prefix`, from a start where the parser had
     * been fed `fed0`, the echo buffer held `echo0` and the log queue `q0`.
     */
    ghost predicate DrainedFrom(fed0: seq<char>, echo0: string, q0: seq<LogMessage>, prefix: seq<char>,
                                logQ: BoundedQueue<LogMessage>)
      reads this, nmeaBuf, logQ
    {
      && Valid() && logQ.Valid() && logQ.capacity == LOG_QUEUE_DEPTH
      && fed == fed0 + prefix
      && Echoed() == EchoAll(echo0, prefix).0
      && logQ.items == PushAll(q0, LOG_QUEUE_DEPTH, RawLog(fmt, EchoAll(echo0, prefix).1))
    }

    /** Before the first byte the drain state is the starting state. */
    lemma NothingDrained(logQ: BoundedQueue<LogMessage>)
      requires Valid() && logQ.Valid() && logQ.capacity == LOG_QUEUE_DEPTH
      ensures DrainedFrom(fed, Echoed(), logQ.items, [], logQ)
    {
      assert fed == fed + [];
      assert EchoAll(Echoed(), []) == (Echoed(), []) && RawLog(fmt, []) == [];
    }

    /** One pass of the drain loop's body, stated against the bytes drained so far. */
    method DrainNext(ghost fed0: seq<char>, ghost echo0: string, ghost q0: seq<LogMessage>, ghost prefix: seq<char>,
                     c: char, logQ: BoundedQueue<LogMessage>)
      requires DrainedFrom(fed0, echo0, q0, prefix, logQ)
      modifies this, nmeaBuf, logQ
      ensures DrainedFrom(fed0, echo0, q0, prefix + [c], logQ)
      ensures hadFix == old(hadFix) && lastPub == old(lastPub)
    {
      ghost var items0 := logQ.items;
      ghost var prev := EchoAll(echo0, prefix);
      DrainByte(c, logQ);
      EchoAllSnoc(echo0, prefix, c);
      LogAfterLines(fmt, q0, prev.1, LineOf(EchoByte(prev.0, c)), items0, logQ.items);
      assert fed == fed0 + (prefix + [c]);
    }

    /** The inner `while (uart_is_readable)` loop over the bytes waiting this cycle. */
    method Drain(bytes: seq<char>, logQ: BoundedQueue<LogMessage>)
      requires Valid() && logQ.Valid() && logQ.capacity == LOG_QUEUE_DEPTH
      modifies this, nmeaBuf, logQ
      ensures DrainedFrom(old(fed), old(Echoed()), old(logQ.items), bytes, logQ)
      ensures hadFix == old(hadFix) && lastPub == old(lastPub)
    {
      ghost var fed0, echo0, q0 := fed, Echoed(), logQ.items;
      ghost var drained: seq<char> := [];
      NothingDrained(logQ);
      var i := 0;
      while i < |bytes|
        invariant 0 <= i <= |bytes| && drained == bytes[..i]
        invariant DrainedFrom(fed0, echo0, q0, drained, logQ)
        invariant hadFix == old(hadFix) && lastPub == old(lastPub)
      {
        DrainNext(fed0, echo0, q0, drained, bytes[i], logQ);
        drained := drained + [bytes[i]];
        i := i + 1;
        assert drained == bytes[..i];
      }
      assert drained == bytes;
    }

    /**
     * One iteration of the GPS task loop. Afterwards `hadFix` equals the parser's
     * fix state; the edge lines are logged exactly on a change; the station
     * slot is overwritten with the fix while there is one and untouched
     * otherwise; and a message is published only when GPS_PUB_MS ticks have
     * passed since the last one, in wrapping arithmetic.
     */
    method Cycle(bytes: seq<char>, now: Tick, gsSlot: Slot,
                 mqttQ: BoundedQueue<MqttMessage>, logQ: BoundedQueue<LogMessage>)
      returns (published: bool)
      requires Valid() && logQ.Valid() && logQ.capacity == LOG_QUEUE_DEPTH
      requires mqttQ.Valid() && mqttQ.capacity == MQTT_QUEUE_DEPTH
      modifies this, nmeaBuf, logQ, gsSlot, mqttQ
      ensures Valid()
      ensures fed == old(fed) + bytes
      ensures hadFix == hasFix(fed)
      ensures Echoed() == EchoAll(old(Echoed()), bytes).0
      ensures hasFix(fed) ==> gsSlot.value == Some(LocationMsg(coordinate(fed).latitude, coordinate(fed).longitude, coordinate(fed).altitude))
      ensures !hasFix(fed) ==> gsSlot.value == old(gsSlot.value)
      ensures published == (hasFix(fed) && PublishDue(now, old(lastPub)))
      ensures lastPub == if published then now else old(lastPub)
      ensures mqttQ.Valid()
      ensures mqttQ.items == if published then Pushed(old(mqttQ.items), MQTT_QUEUE_DEPTH, GpsMessage(fmt.fixJson(coordinate(fed))))
                             else old(mqttQ.items)
      ensures logQ.Valid()
      ensures logQ.items == PushAll(PushAll(old(logQ.items), LOG_QUEUE_DEPTH, RawLog(fmt, EchoAll(old(Echoed()), bytes).1)),
                                    LOG_QUEUE_DEPTH, UsbTask.LogMessages(RenderAll(fmt, EdgeLines(old(hadFix), hasFix(fed), coordinate(fed)))))
    {
      Drain(bytes, logQ);
      ghost var q1 := logQ.items;
      ghost var edge := EdgeLines(old(hadFix), hasFix(fed), coordinate(fed));
      published := false;
      if hasFix(fed) {
        var c := coordinate(fed);
        if !hadFix {
          var _ := UsbTask.LogPrint(logQ, fmt.fixAcquired(c));
          hadFix := true;
        }
        gsSlot.Overwrite(LocationMsg(c.latitude, c.longitude, c.altitude));
        if TicksSince(now, lastPub) >= GPS_PUB_MS {
          lastPub := now;
          published := true;
          var json := Truncate(fmt.fixJson(c), JSON_BUF_SIZE - 1);
          var msg := MqttMessage(Truncate(GPS_TOPIC, TOPIC_SIZE - 1), Truncate(json, PAYLOAD_SIZE - 1));
          var _ := mqttQ.TrySend(msg);
        }
      } else if hadFix {
        var _ := UsbTask.LogPrint(logQ, "[gps] fix lost\n");
        hadFix := false;
      }
      assert logQ.items == PushAll(q1, LOG_QUEUE_DEPTH, UsbTask.LogMessages(RenderAll(fmt, edge)));
    }
  }
}

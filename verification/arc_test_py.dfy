/**
 * The PyQt port of the ground-station window: the key/value telemetry
 * parser, the length-prefixed protobuf framing it reads from the serial
 * port, the packet handler that also steps the demo simulation, and the
 * serial-settings lookups.
 *
 * Python's int() and float() and protobuf's ParseFromString are taken as
 * given functions (None where they raise). The trigonometry that turns
 * simulated time into a ground position (`groundTrack`) and the speed
 * formula with its square root (`speed`) are given functions of the
 * simulation time.
 */
module ArcTestPy {
  import opened Wrappers
  import opened Text
  import opened Bytes
  import opened Mission
  import opened Folds

  const LAUNCH_LAT: real := 34.0522
  const LAUNCH_LON: real := -118.2437
  /** Simulated launch speed upward, m/s. */
  const INITIAL_VELOCITY_Z: real := 200.0

  // ── parseTelemetryData ────────────────────────────────────────────────────

  /** The eight keys the dictionary starts with. */
  const KNOWN_KEYS: seq<string> := ["LAT", "LON", "ALT", "VEL", "ACC", "TEMP", "PRES", "BAT"]

  /** `{k: 0.0 for k in [...]}`. */
  const DEFAULT_VALS: map<string, real> := map k | k in KNOWN_KEYS :: 0.0

  /** The key of a part with a ':': the text before the first ':', stripped and upper-cased. */
  function KeyText(part: string): string {
    AsciiUpper(Strip(part[..IndexOf(part, ':')], IsSpace))
  }

  /** The value text of a part with a ':': everything after the first ':'. */
  function ValueText(part: string): string
    requires ':' in part
  {
    part[IndexOf(part, ':') + 1..]
  }

  /** Whether a part sets `key`: it has a ':', its key is `key`, and float() accepts its value. */
  predicate Sets(part: string, key: string, toFloat: string -> Option<real>) {
    ':' in part && KeyText(part) == key && toFloat(ValueText(part)).Some?
  }

  /** The effect of one part on the dictionary. Parts without ':' and values float() rejects leave it unchanged. */
  function Assign(vals: map<string, real>, part: string, toFloat: string -> Option<real>): (vals': map<string, real>)
    ensures vals.Keys <= vals'.Keys
    ensures forall key :: key in vals && !Sets(part, key, toFloat) ==> key in vals' && vals'[key] == vals[key]
    ensures forall key :: Sets(part, key, toFloat) ==> key in vals' && vals'[key] == toFloat(ValueText(part)).value
  {
    if ':' !in part then vals
    else match toFloat(ValueText(part))
      case None => vals
      case Some(x) => vals[KeyText(part) := x]
  }

  /** The dictionary after the loop has seen `parts`, in order. */
  function ParsedVals(parts: seq<string>, toFloat: string -> Option<real>): (vals: map<string, real>)
    ensures forall i :: 0 <= i < |KNOWN_KEYS| ==> KNOWN_KEYS[i] in vals
    decreases |parts|
  {
    if parts == [] then DEFAULT_VALS
    else Assign(ParsedVals(parts[..|parts| - 1], toFloat), parts[|parts| - 1], toFloat)
  }

  /** The four keys the window shows are always in the dictionary, whatever the text. */
  lemma ShownKeysPresent(parts: seq<string>, toFloat: string -> Option<real>)
    ensures var vals := ParsedVals(parts, toFloat);
      "LAT" in vals && "LON" in vals && "ALT" in vals && "VEL" in vals
  {
    assert KNOWN_KEYS[0] == "LAT" && KNOWN_KEYS[1] == "LON" && KNOWN_KEYS[2] == "ALT" && KNOWN_KEYS[3] == "VEL";
  }

  /** The parts of the received text: stripped, then split on ','. */
  function TelemetryParts(dataStr: string): seq<string> {
    Split(Strip(dataStr, IsSpace), ',')
  }

  /** ParsedVals is the fold of Assign over the parts. */
  lemma {:induction false} ParsedValsFold(parts: seq<string>, toFloat: string -> Option<real>,
                                          step: (map<string, real>, string) -> map<string, real>)
    requires forall m, p :: step(m, p) == Assign(m, p, toFloat)
    ensures ParsedVals(parts, toFloat) == Fold(DEFAULT_VALS, parts, step)
    decreases |parts|
  {
    if parts != [] {
      ParsedValsFold(parts[..|parts| - 1], toFloat, step);
    }
  }

  /** A key holds the value of the last part that sets it: later parts win, and parts float() rejects are skipped. */
  lemma LastSettingWins(parts: seq<string>, toFloat: string -> Option<real>, key: string, i: nat)
    requires i < |parts| && Sets(parts[i], key, toFloat)
    requires forall j :: i < j < |parts| ==> !Sets(parts[j], key, toFloat)
    ensures key in ParsedVals(parts, toFloat)
    ensures ParsedVals(parts, toFloat)[key] == toFloat(ValueText(parts[i])).value
  {
    var step := (m: map<string, real>, p: string) => Assign(m, p, toFloat);
    var sets := (p: string) => Sets(p, key, toFloat);
    var value := (p: string) => if Sets(p, key, toFloat) then toFloat(ValueText(p)).value else 0.0;
    var holds := (m: map<string, real>, x: real) => key in m && m[key] == x;
    ParsedValsFold(parts, toFloat, step);
    LastUpdateWins(DEFAULT_VALS, parts, step, sets, value, holds, i);
  }

  /** A known key that no part sets keeps its default 0.0. */
  lemma {:induction false} UnsetKeyIsZero(parts: seq<string>, toFloat: string -> Option<real>, key: string)
    requires key in KNOWN_KEYS
    requires forall j :: 0 <= j < |parts| ==> !Sets(parts[j], key, toFloat)
    ensures key in ParsedVals(parts, toFloat) && ParsedVals(parts, toFloat)[key] == 0.0
    decreases |parts|
  {
    if parts != [] {
      var init := parts[..|parts| - 1];
      forall j | 0 <= j < |init|
        ensures !Sets(init[j], key, toFloat)
      {
        assert init[j] == parts[j];
      }
      UnsetKeyIsZero(init, toFloat, key);
    }
  }

  /**
   * Keys are matched after stripping and upper-casing: whitespace around the
   * key and the case of its letters do not matter, so " lat :1.5" sets LAT
   * where the Qt window's parser would ignore it.
   */
  lemma KeyIgnoresCaseAndSpaces(pre: string, k: string, post: string, v: string)
    requires forall c | c in pre :: IsSpace(c)
    requires forall c | c in post :: IsSpace(c)
    requires ':' !in k
    requires k == [] || (!IsSpace(k[0]) && !IsSpace(k[|k| - 1]))
    ensures KeyText(pre + k + post + ":" + v) == AsciiUpper(k)
  {
    var s := pre + k + post;
    var part := s + ":" + v;
    NoColonInPadded(pre, k, post);
    FirstColon(s, v);
    StripPadded(pre, k, post);
    KeyTextOfKey(part, s, k);
  }

  /** The key text of a part whose text before the first ':' strips to k. */
  lemma KeyTextOfKey(part: string, s: string, k: string)
    requires IndexOf(part, ':') == |s| && part[..|s|] == s
    requires Strip(s, IsSpace) == k
    ensures KeyText(part) == AsciiUpper(k)
  {
  }

  /** Whitespace padding adds no ':' to a key without one. */
  lemma NoColonInPadded(pre: string, k: string, post: string)
    requires forall c | c in pre :: IsSpace(c)
    requires forall c | c in post :: IsSpace(c)
    requires ':' !in k
    ensures ':' !in pre + k + post
  {
    assert !IsSpace(':');
  }

  /** The key text of `s + ":" + v` is all of s when s has no ':'. */
  lemma FirstColon(s: string, v: string)
    requires ':' !in s
    ensures IndexOf(s + ":" + v, ':') == |s| && (s + ":" + v)[..|s|] == s
  {
    var part := s + ":" + v;
    assert part[|s|] == ':';
    forall j | 0 <= j < |s|
      ensures part[j] != ':'
    {
      assert part[j] == s[j];
    }
  }

  /** str.strip() removes exactly the whitespace padding around a text that neither starts nor ends with whitespace. */
  lemma StripPadded(pre: string, k: string, post: string)
    requires forall c | c in pre :: IsSpace(c)
    requires forall c | c in post :: IsSpace(c)
    requires k == [] || (!IsSpace(k[0]) && !IsSpace(k[|k| - 1]))
    ensures Strip(pre + k + post, IsSpace) == k
  {
    var s := pre + k + post;
    forall j | 0 <= j < |pre|
      ensures IsSpace(s[j])
    {
      assert s[j] == pre[j];
    }
    forall j | |pre| + |k| <= j < |s|
      ensures IsSpace(s[j])
    {
      assert s[j] == post[j - |pre| - |k|];
    }
    if k == [] {
      StripAllSpace(s);
    } else {
      assert s[|pre|] == k[0] && s[|pre| + |k| - 1] == k[|k| - 1];
      StripBetween(s, |pre|, |pre| + |k|);
      assert s[|pre|..|pre| + |k|] == k;
    }
  }

  /** str.strip() of a text made only of whitespace is empty. */
  lemma StripAllSpace(s: string)
    requires forall j :: 0 <= j < |s| ==> IsSpace(s[j])
    ensures Strip(s, IsSpace) == []
  {
    assert LeadingSpace(s, IsSpace) == |s|;
  }

  /** str.strip() keeps exactly s[lo..hi] when only whitespace lies outside it and it neither starts nor ends with whitespace. */
  lemma StripBetween(s: string, lo: nat, hi: nat)
    requires lo < hi <= |s|
    requires forall j :: 0 <= j < lo ==> IsSpace(s[j])
    requires forall j :: hi <= j < |s| ==> IsSpace(s[j])
    requires !IsSpace(s[lo]) && !IsSpace(s[hi - 1])
    ensures Strip(s, IsSpace) == s[lo..hi]
  {
    var lead := LeadingSpace(s, IsSpace);
    assert lead == lo;
    var r := Strip(s, IsSpace);
    assert |r| >= hi - lo;
    assert r[|r| - 1] == s[lo + |r| - 1];
    assert |r| == hi - lo;
  }

  // ── Length-prefixed framing ───────────────────────────────────────────────

  /** `struct.unpack('<H', header)`. */
  function Le16(lo: byte, hi: byte): (n: nat)
    ensures n < 0x1_0000
    ensures n % 256 == lo && n / 256 == hi
  {
    lo + 256 * hi
  }

  /** What the sender puts on the wire: a little-endian 16-bit length, then the encoded packet. */
  function EncodeFrame(body: seq<byte>): (frame: seq<byte>)
    requires |body| < 0x1_0000
    ensures |frame| == |body| + 2 && frame[2..] == body
    ensures Le16(frame[0], frame[1]) == |body|
  {
    [|body| % 256, |body| / 256] + body
  }

  /** The outcome of one read attempt: the body, if one was read, and the bytes left waiting. */
  datatype Take = Take(body: Option<seq<byte>>, rest: seq<byte>)

  /**
   * One read attempt on the bytes waiting: with fewer than two nothing is
   * read; otherwise the two header bytes are read, and the body only when
   * all of it is already waiting. A body read is exactly one frame's worth;
   * a body not yet complete leaves the header consumed.
   */
  function TakeFrame(rx: seq<byte>): (r: Take)
    ensures |rx| < 2 ==> r == Take(None, rx)
    ensures r.body.Some? ==> |r.body.value| < 0x1_0000 && rx == EncodeFrame(r.body.value) + r.rest
    ensures |rx| >= 2 && r.body.None? ==> r.rest == rx[2..]
    ensures |rx| >= 2 ==> |r.rest| <= |rx| - 2
  {
    if |rx| < 2 then Take(None, rx)
    else
      var n := Le16(rx[0], rx[1]);
      var after := rx[2..];
      if |after| >= n then
        assert rx == [rx[0], rx[1]] + after[..n] + after[n..];
        Take(Some(after[..n]), after[n..])
      else Take(None, after)
  }

  /** A whole frame at the front is read back exactly, and what follows it is left waiting. */
  lemma FrameRoundTrip(body: seq<byte>, rest: seq<byte>)
    requires |body| < 0x1_0000
    ensures TakeFrame(EncodeFrame(body) + rest) == Take(Some(body), rest)
  {
    var rx := EncodeFrame(body) + rest;
    assert rx[2..] == body + rest;
    assert (body + rest)[..|body|] == body && (body + rest)[|body|..] == rest;
  }

  /**
   * A frame whose body has only partly arrived is not read, but its header
   * is consumed: the body bytes already waiting stay behind, to be taken as
   * the next header.
   */
  lemma PartialFrameLosesHeader(body: seq<byte>, k: nat)
    requires |body| < 0x1_0000 && 2 <= k < |body| + 2
    ensures TakeFrame(EncodeFrame(body)[..k]) == Take(None, body[..k - 2])
  {
    var rx := EncodeFrame(body)[..k];
    assert rx[0] == EncodeFrame(body)[0] && rx[1] == EncodeFrame(body)[1];
    assert rx[2..] == body[..k - 2];
  }

  /** The bodies read by successive attempts while no new bytes arrive. */
  function Frames(rx: seq<byte>): seq<seq<byte>>
    decreases |rx|
  {
    if |rx| < 2 then []
    else
      var r := TakeFrame(rx);
      (if r.body.Some? then [r.body.value] else []) + Frames(r.rest)
  }

  /** Frames sent back to back. */
  function EncodeAll(bodies: seq<seq<byte>>): seq<byte>
    requires forall i :: 0 <= i < |bodies| ==> |bodies[i]| < 0x1_0000
  {
    if bodies == [] then [] else EncodeFrame(bodies[0]) + EncodeAll(bodies[1..])
  }

  /** Frames that are all there when read come back in order, each exactly as sent. */
  lemma {:induction false} StreamRoundTrip(bodies: seq<seq<byte>>)
    requires forall i :: 0 <= i < |bodies| ==> |bodies[i]| < 0x1_0000
    ensures Frames(EncodeAll(bodies)) == bodies
  {
    if bodies != [] {
      var rest := EncodeAll(bodies[1..]);
      FrameRoundTrip(bodies[0], rest);
      StreamRoundTrip(bodies[1..]);
      assert EncodeAll(bodies) == EncodeFrame(bodies[0]) + rest;
    }
  }

  // ── handleProtobufPacket ──────────────────────────────────────────────────

  datatype PacketType = GpsPacket | OtherPacket(code: int)
  datatype GpsData = GpsData(lat: real, lon: real, alt: real)
  /** A decoded TrackerPacket: its type and, when present, its gps field. */
  datatype TrackerPacket = TrackerPacket(packetType: PacketType, gps: Option<GpsData>)

  /** A point shown in the Lat/Lon/Alt label. */
  datatype Position = Position(lat: real, lon: real, alt: real)

  const LAUNCH_POINT := Position(LAUNCH_LAT, LAUNCH_LON, GROUND_LEVEL)

  /** What the packet handler reads and writes: the simulation clock, the statistics and the two labels. */
  datatype Dashboard = Dashboard(time: real, stats: Stats, gpsShown: Option<Position>, altitudeShown: Option<real>)

  /** Whether a packet updates the GPS display: a GPS packet that carries a gps field. */
  predicate ShowsGps(pkt: TrackerPacket) {
    pkt.packetType == GpsPacket && pkt.gps.Some?
  }

  /** The simulated point at clock t: the ground track and the capped ballistic altitude. */
  function SimPoint(groundTrack: real -> (real, real), t: real): Position {
    Position(groundTrack(t).0, groundTrack(t).1, CapAltitude(SimAltitude(INITIAL_VELOCITY_Z, t)))
  }

  /**
   * handleProtobufPacket: a GPS packet with a gps field is shown, then the
   * simulation takes one step. Below ground it restarts (clock 0,
   * statistics cleared, label at the launch site); otherwise the label and
   * altitude show the simulated point, the statistics take its altitude and
   * speed, and the clock advances, restarting past SIM_PERIOD. Either way
   * the Lat/Lon/Alt label ends on the launch site or the simulated point,
   * never on the packet's own position.
   */
  function HandlePacket(d: Dashboard, pkt: TrackerPacket, groundTrack: real -> (real, real), speed: real -> real): (d': Dashboard)
    ensures 0.0 <= d.time ==> 0.0 <= d'.time <= SIM_PERIOD
    ensures d'.gpsShown == Some(LAUNCH_POINT) || d'.gpsShown == Some(SimPoint(groundTrack, d.time))
    ensures d'.time == 0.0 && 0.0 <= d.time ==> d'.stats == NO_STATS && d'.gpsShown == Some(LAUNCH_POINT)
    ensures d'.time != 0.0 ==>
      && d'.time == d.time + TIME_STEP
      && d'.stats == Track(d.stats, Reading(SimPoint(groundTrack, d.time).alt, speed(d.time)), FLIGHT_ALTITUDE)
      && d'.gpsShown == Some(SimPoint(groundTrack, d.time))
    ensures SimPoint(groundTrack, d.time).alt >= GROUND_LEVEL ==> d'.altitudeShown == Some(SimPoint(groundTrack, d.time).alt)
    ensures SimPoint(groundTrack, d.time).alt < GROUND_LEVEL ==>
      d'.altitudeShown == if ShowsGps(pkt) then Some(pkt.gps.value.alt) else d.altitudeShown
  {
    var shown := if ShowsGps(pkt) then
        d.(gpsShown := Some(Position(pkt.gps.value.lat, pkt.gps.value.lon, pkt.gps.value.alt)),
           altitudeShown := Some(pkt.gps.value.alt))
      else d;
    var t := d.time;
    var newAlt := CapAltitude(SimAltitude(INITIAL_VELOCITY_Z, t));
    if newAlt < GROUND_LEVEL then
      shown.(time := 0.0, stats := NO_STATS, gpsShown := Some(LAUNCH_POINT))
    else
      var stats := Track(d.stats, Reading(newAlt, speed(t)), FLIGHT_ALTITUDE);
      if PeriodOver(t) then
        Dashboard(0.0, NO_STATS, Some(LAUNCH_POINT), Some(newAlt))
      else
        Dashboard(t + TIME_STEP, stats, Some(Position(groundTrack(t).0, groundTrack(t).1, newAlt)), Some(newAlt))
  }

  /**
   * With the 200 m/s launch the clock stays below 41 s from start-up on:
   * the rocket lands first, so the restart past SIM_PERIOD never happens
   * and the altitude cap never applies.
   */
  lemma ClockStaysBelowLanding(d: Dashboard, pkt: TrackerPacket, groundTrack: real -> (real, real), speed: real -> real)
    requires 0.0 <= d.time < 41.0
    ensures HandlePacket(d, pkt, groundTrack, speed).time < 41.0
    ensures !PeriodOver(d.time) || SimAltitude(INITIAL_VELOCITY_Z, d.time) < GROUND_LEVEL
    ensures CapAltitude(SimAltitude(INITIAL_VELOCITY_Z, d.time)) == SimAltitude(INITIAL_VELOCITY_Z, d.time)
  {
    SlowClimbUnderCap(d.time);
    if SimAltitude(INITIAL_VELOCITY_Z, d.time) >= GROUND_LEVEL {
      SlowClimbLandsEarly(d.time);
    }
  }

  // ── applySerialSettings ───────────────────────────────────────────────────

  /** `parity_map`, the parity letter pyserial takes for each parity combo code. */
  const PARITY_MAP: map<int, char> := map[0 := 'N', 2 := 'E', 3 := 'O', 4 := 'M', 5 := 'S']

  /** `stop_map`, the stop bits for each stop-bits combo code. */
  const STOP_MAP: map<int, real> := map[1 := 1.0, 2 := 2.0, 3 := 1.5]

  /** The parity combo: label and code, in menu order. */
  const PARITY_CHOICES: seq<(string, int)> := [("None", 0), ("Even", 2), ("Odd", 3), ("Mark", 4), ("Space", 5)]

  /** The stop-bits combo: the number its label shows and its code, in menu order. */
  const STOP_CHOICES: seq<(real, int)> := [(1.0, 1), (1.5, 3), (2.0, 2)]

  /** `parity_map.get(code, 'N')`. */
  function ParityFor(code: int): (p: char)
    ensures p in "NEOMS"
    ensures code !in PARITY_MAP ==> p == 'N'
  {
    if code in PARITY_MAP then PARITY_MAP[code] else 'N'
  }

  /** `stop_map.get(code, 1)`. */
  function StopBitsFor(code: int): (stop: real)
    ensures stop == 1.0 || stop == 1.5 || stop == 2.0
    ensures code !in STOP_MAP ==> stop == 1.0
  {
    if code in STOP_MAP then STOP_MAP[code] else 1.0
  }

  /** Every parity choice of the menu gets the letter its label starts with, and different choices get different letters. */
  lemma ParityMatchesMenu()
    ensures forall i :: 0 <= i < |PARITY_CHOICES| ==> ParityFor(PARITY_CHOICES[i].1) == PARITY_CHOICES[i].0[0]
    ensures forall i, j :: 0 <= i < j < |PARITY_CHOICES| ==> ParityFor(PARITY_CHOICES[i].1) != ParityFor(PARITY_CHOICES[j].1)
  {
  }

  /** Every stop-bits choice of the menu gets the number its label shows. */
  lemma StopBitsMatchMenu()
    ensures forall i :: 0 <= i < |STOP_CHOICES| ==> StopBitsFor(STOP_CHOICES[i].1) == STOP_CHOICES[i].0
  {
  }

  /** What the four settings combos hold: the baud and data-bits texts, the parity and stop-bits codes. */
  datatype SerialChoice = SerialChoice(baudText: string, bitsText: string, parityCode: int, stopCode: int)

  /** A pyserial port: whether it is open, its settings, and the received bytes not yet read. */
  class SerialPort {
    var isOpen: bool
    var baudrate: int
    var bytesize: int
    var parity: char
    var stopbits: real
    var rx: seq<byte>

    /** An open port with pyserial's defaults (9600 8N1) and nothing received. */
    constructor ()
      ensures isOpen && baudrate == 9600 && bytesize == 8 && parity == 'N' && stopbits == 1.0 && rx == []
    {
      isOpen := true;
      baudrate, bytesize, parity, stopbits := 9600, 8, 'N', 1.0;
      rx := [];
    }

    /** Bytes arriving from the device. */
    method Receive(data: seq<byte>)
      modifies this
      ensures rx == old(rx) + data
      ensures isOpen == old(isOpen) && baudrate == old(baudrate) && bytesize == old(bytesize)
      ensures parity == old(parity) && stopbits == old(stopbits)
    {
      rx := rx + data;
    }

    /** read(n): up to n of the waiting bytes, oldest first. */
    method Read(n: nat) returns (data: seq<byte>)
      modifies this
      ensures |data| == if n <= |old(rx)| then n else |old(rx)|
      ensures old(rx) == data + rx
      ensures isOpen == old(isOpen) && baudrate == old(baudrate) && bytesize == old(bytesize)
      ensures parity == old(parity) && stopbits == old(stopbits)
    {
      var k := if n <= |rx| then n else |rx|;
      data := rx[..k];
      rx := rx[k..];
      assert old(rx) == data + rx;
    }

    method Close()
      modifies this
      ensures !isOpen && rx == old(rx)
      ensures baudrate == old(baudrate) && bytesize == old(bytesize)
      ensures parity == old(parity) && stopbits == old(stopbits)
    {
      isOpen := false;
    }
  }

  class ArcTest {
    const toInt: string -> Option<int>
    const toFloat: string -> Option<real>
    /** ParseFromString; None where it raises. */
    const parse: seq<byte> -> Option<TrackerPacket>
    const groundTrack: real -> (real, real)
    const speed: real -> real

    var port: SerialPort?
    var currentTime: real
    var maxAltitude: real
    var maxVelocity: real
    var flightStarted: bool
    var gpsShown: Option<Position>
    var altitudeShown: Option<real>
    var isConnected: bool
    var useRealTelemetry: bool

    function Stats(): Stats
      reads this
    {
      Mission.Stats(maxAltitude, maxVelocity, flightStarted)
    }

    /** The part of the window the packet handler works on. */
    function Board(): Dashboard
      reads this
    {
      Dashboard(currentTime, Stats(), gpsShown, altitudeShown)
    }

    ghost predicate Valid()
      reads this
    {
      0.0 <= currentTime
    }

    /** The window at start-up: clock and statistics at zero, labels empty, no port. */
    constructor (toInt: string -> Option<int>, toFloat: string -> Option<real>, parse: seq<byte> -> Option<TrackerPacket>,
                 groundTrack: real -> (real, real), speed: real -> real)
      ensures Valid()
      ensures this.toInt == toInt && this.toFloat == toFloat && this.parse == parse
      ensures this.groundTrack == groundTrack && this.speed == speed
      ensures Board() == Dashboard(0.0, NO_STATS, None, None)
      ensures port == null && !isConnected && !useRealTelemetry
    {
      this.toInt := toInt;
      this.toFloat := toFloat;
      this.parse := parse;
      this.groundTrack := groundTrack;
      this.speed := speed;
      currentTime := 0.0;
      maxAltitude, maxVelocity, flightStarted := 0.0, 0.0, false;
      gpsShown, altitudeShown := None, None;
      port := null;
      isConnected, useRealTelemetry := false, false;
    }

    /**
     * The statistics block both handlers share: raise each maximum the
     * reading exceeds, and start the flight once its altitude is above
     * FLIGHT_ALTITUDE.
     */
    method UpdateStatistics(r: Reading)
      modifies this
      ensures Stats() == Track(old(Stats()), r, FLIGHT_ALTITUDE)
      ensures currentTime == old(currentTime) && gpsShown == old(gpsShown) && altitudeShown == old(altitudeShown)
      ensures port == old(port) && isConnected == old(isConnected) && useRealTelemetry == old(useRealTelemetry)
    {
      if r.alt > maxAltitude {
        maxAltitude := r.alt;
      }
      if r.vel > maxVelocity {
        maxVelocity := r.vel;
      }
      if !flightStarted && r.alt > FLIGHT_ALTITUDE {
        flightStarted := true;
      }
    }

    /**
     * parseTelemetryData: fill the dictionary from the parts, then show the
     * values and update the statistics. The eight known keys are always in
     * the dictionary, so the final lookups cannot fail.
     */
    method ParseTelemetryData(dataStr: string)
      requires Valid()
      modifies this
      ensures Valid()
      ensures var vals := ParsedVals(TelemetryParts(dataStr), toFloat);
        && "LAT" in vals && "LON" in vals && "ALT" in vals && "VEL" in vals
        && altitudeShown == Some(vals["ALT"])
        && gpsShown == Some(Position(vals["LAT"], vals["LON"], vals["ALT"]))
        && Stats() == Track(old(Stats()), Reading(vals["ALT"], vals["VEL"]), FLIGHT_ALTITUDE)
      ensures currentTime == old(currentTime) && port == old(port)
      ensures isConnected == old(isConnected) && useRealTelemetry == old(useRealTelemetry)
    {
      var vals := ParseValues(TelemetryParts(dataStr));
      ShownKeysPresent(TelemetryParts(dataStr), toFloat);
      var lat, lon, alt, vel := vals["LAT"], vals["LON"], vals["ALT"], vals["VEL"];
      altitudeShown := Some(alt);
      UpdateStatistics(Reading(alt, vel));
      gpsShown := Some(Position(lat, lon, alt));
    }

    /** The dictionary loop of parseTelemetryData: every part in order, starting from the eight zeroed keys. */
    method ParseValues(parts: seq<string>) returns (vals: map<string, real>)
      ensures vals == ParsedVals(parts, toFloat)
    {
      vals := DEFAULT_VALS;
      var i := 0;
      while i < |parts|
        invariant 0 <= i <= |parts|
        invariant vals == ParsedVals(parts[..i], toFloat)
      {
        vals := Assign(vals, parts[i], toFloat);
        assert parts[..i + 1][..i] == parts[..i];
        i := i + 1;
      }
      assert parts[..i] == parts;
    }

    /** handleProtobufPacket, in the window's fields. */
    method HandleProtobufPacket(pkt: TrackerPacket)
      requires Valid()
      modifies this
      ensures Valid()
      ensures Board() == HandlePacket(old(Board()), pkt, groundTrack, speed)
      ensures port == old(port) && isConnected == old(isConnected) && useRealTelemetry == old(useRealTelemetry)
    {
      if pkt.packetType == GpsPacket && pkt.gps.Some? {
        var gps := pkt.gps.value;
        gpsShown := Some(Position(gps.lat, gps.lon, gps.alt));
        altitudeShown := Some(gps.alt);
      }
      var t := currentTime;
      var newAlt := SimAltitude(INITIAL_VELOCITY_Z, t);
      if newAlt > MAX_ALTITUDE {
        newAlt := MAX_ALTITUDE;
      }
      if newAlt < GROUND_LEVEL {
        currentTime := 0.0;
        maxAltitude, maxVelocity, flightStarted := 0.0, 0.0, false;
        gpsShown := Some(LAUNCH_POINT);
        return;
      }
      var (newLat, newLon) := groundTrack(t);
      gpsShown := Some(Position(newLat, newLon, newAlt));
      var currentVel := speed(t);
      altitudeShown := Some(newAlt);
      UpdateStatistics(Reading(newAlt, currentVel));
      currentTime := currentTime + TIME_STEP;
      if currentTime > SIM_PERIOD {
        currentTime := 0.0;
        maxAltitude, maxVelocity, flightStarted := 0.0, 0.0, false;
        gpsShown := Some(LAUNCH_POINT);
      }
    }

    /**
     * updateRocketPosition, one timer tick. Only with real telemetry on an
     * open port: with two bytes waiting it reads the length header, and
     * when the whole body is waiting it reads it and hands the decoded
     * packet to the handler; a body that does not decode is dropped.
     * Otherwise nothing happens, and in particular nothing is simulated.
     */
    method UpdateRocketPosition()
      requires Valid()
      modifies this, port
      ensures Valid()
      ensures port == old(port) && isConnected == old(isConnected) && useRealTelemetry == old(useRealTelemetry)
      ensures !(old(useRealTelemetry) && port != null && old(port.isOpen)) ==>
        Board() == old(Board()) && (port != null ==> unchanged(port))
      ensures old(useRealTelemetry) && port != null && old(port.isOpen) ==>
        var r := TakeFrame(old(port.rx));
        && port.rx == r.rest && port.isOpen
        && port.baudrate == old(port.baudrate) && port.bytesize == old(port.bytesize)
        && port.parity == old(port.parity) && port.stopbits == old(port.stopbits)
        && (r.body.Some? && parse(r.body.value).Some? ==>
              Board() == HandlePacket(old(Board()), parse(r.body.value).value, groundTrack, speed))
        && (!(r.body.Some? && parse(r.body.value).Some?) ==> Board() == old(Board()))
    {
      if useRealTelemetry && port != null && port.isOpen {
        if |port.rx| >= 2 {
          var header := port.Read(2);
          if |header| == 2 {
            var msgLen := Le16(header[0], header[1]);
            if |port.rx| >= msgLen {
              var msgBytes := port.Read(msgLen);
              if |msgBytes| == msgLen {
                var pkt := parse(msgBytes);
                if pkt.Some? {
                  HandleProtobufPacket(pkt.value);
                }
              }
            }
          }
        }
      }
    }

    /**
     * applySerialSettings: nothing without an open port. Otherwise the baud
     * rate and data bits are set from their texts, stopping at the first
     * text int() rejects (the ValueError is caught), then parity and stop
     * bits from their codes.
     */
    method ApplySerialSettings(choice: SerialChoice)
      modifies port
      ensures port == null || !old(port.isOpen) ==> port == null || unchanged(port)
      ensures port != null && old(port.isOpen) ==>
        && port.isOpen == old(port.isOpen) && port.rx == old(port.rx)
        && port.baudrate == toInt(choice.baudText).GetOr(old(port.baudrate))
        && (toInt(choice.baudText).Some? && toInt(choice.bitsText).Some? ==>
              && port.bytesize == toInt(choice.bitsText).value
              && port.parity == ParityFor(choice.parityCode)
              && port.stopbits == StopBitsFor(choice.stopCode))
        && (toInt(choice.baudText).None? || toInt(choice.bitsText).None? ==>
              port.bytesize == old(port.bytesize) && port.parity == old(port.parity) && port.stopbits == old(port.stopbits))
    {
      if port == null || !port.isOpen {
        return;
      }
      var baud := toInt(choice.baudText);
      if baud.None? {
        return;
      }
      port.baudrate := baud.value;
      var bits := toInt(choice.bitsText);
      if bits.None? {
        return;
      }
      port.bytesize := bits.value;
      port.parity := ParityFor(choice.parityCode);
      port.stopbits := StopBitsFor(choice.stopCode);
    }

    /**
     * toggleConnection. Connecting needs a selected port and a port that
     * opens (`newPort`, null where serial.Serial raises); the settings are
     * then applied and real telemetry switched on. Disconnecting closes the
     * port, keeps it, and switches real telemetry off.
     */
    method ToggleConnection(selectedPort: string, newPort: SerialPort?, choice: SerialChoice)
      requires Valid()
      modifies this, port, newPort
      ensures Valid() && Board() == old(Board())
      ensures old(isConnected) ==> !isConnected && !useRealTelemetry && port == old(port)
                                   && (port != null ==> !port.isOpen && port.rx == old(port.rx))
      ensures !old(isConnected) && (selectedPort == [] || newPort == null) ==>
        isConnected == old(isConnected) && useRealTelemetry == old(useRealTelemetry) && port == old(port)
      ensures !old(isConnected) && selectedPort != [] && newPort != null ==>
        isConnected && useRealTelemetry && port == newPort && port.rx == old(newPort.rx)
        && port.isOpen == old(newPort.isOpen)
      ensures !old(isConnected) && selectedPort != [] && newPort != null && !old(newPort.isOpen) ==>
        port.baudrate == old(newPort.baudrate) && port.bytesize == old(newPort.bytesize)
        && port.parity == old(newPort.parity) && port.stopbits == old(newPort.stopbits)
      ensures !old(isConnected) && selectedPort != [] && newPort != null && old(newPort.isOpen) ==>
        && port.baudrate == toInt(choice.baudText).GetOr(old(newPort.baudrate))
        && (toInt(choice.baudText).Some? && toInt(choice.bitsText).Some? ==>
              && port.bytesize == toInt(choice.bitsText).value
              && port.parity == ParityFor(choice.parityCode)
              && port.stopbits == StopBitsFor(choice.stopCode))
        && (toInt(choice.baudText).None? || toInt(choice.bitsText).None? ==>
              port.bytesize == old(newPort.bytesize) && port.parity == old(newPort.parity)
              && port.stopbits == old(newPort.stopbits))
      ensures old(isConnected) && port != null ==>
        port.baudrate == old(port.baudrate) && port.bytesize == old(port.bytesize)
        && port.parity == old(port.parity) && port.stopbits == old(port.stopbits)
      ensures (old(isConnected) || selectedPort == []) && newPort != null && newPort != old(port) ==> unchanged(newPort)
      ensures !old(isConnected) && old(port) != null && old(port) != newPort ==> unchanged(old(port))
    {
      if !isConnected {
        if selectedPort == [] || newPort == null {
          return;
        }
        port := newPort;
        ApplySerialSettings(choice);
        isConnected := true;
        useRealTelemetry := true;
      } else {
        if port != null {
          port.Close();
        }
        isConnected := false;
        useRealTelemetry := false;
      }
    }
  }
}

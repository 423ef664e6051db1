/**
 * The firmware LoRa task: the flight-state names used in the CSV log, the
 * start-up (a failed radio init halts the LoRa task), and one iteration of the
 * receive loop, which decodes each available packet, logs it, overwrites the
 * rocket slot when the frame says its GPS position is valid, and re-arms the
 * receiver whatever happened.
 *
 * The radio driver (SX1276Radio) and the SIGMA frame decoder
 * (SigmaLoRaData::deserialize) are not part of this model: their results
 * enter as parameters, the decoder as a function. printf formatting of the
 * log lines is external too (`render`).
 */
module LoraTask {
  import opened Wrappers
  import opened Shared
  import UsbTask

  /** The nine named flight states, and any other encoded value. */
  datatype FlightState =
    | GroundIdle | Armed | PoweredAscent | CoastAscent | Apogee
    | DescentDrogue | DescentMain | Landed | Fault
    | Unrecognized(raw: int)

  /** state_name: each named state to its own identifier, anything else to "UNKNOWN". */
  function StateName(s: FlightState): (name: string)
    ensures name == "UNKNOWN" <==> s.Unrecognized?
    ensures name != []
  {
    match s
    case GroundIdle => "GROUND_IDLE"
    case Armed => "ARMED"
    case PoweredAscent => "POWERED_ASCENT"
    case CoastAscent => "COAST_ASCENT"
    case Apogee => "APOGEE"
    case DescentDrogue => "DESCENT_DROGUE"
    case DescentMain => "DESCENT_MAIN"
    case Landed => "LANDED"
    case Fault => "FAULT"
    case Unrecognized(_) => "UNKNOWN"
  }

  /** The reading side of the names: which named state an identifier denotes. */
  function StateFromName(name: string): (s: Option<FlightState>)
    ensures s.Some? ==> !s.value.Unrecognized?
  {
    if name == "GROUND_IDLE" then Some(GroundIdle)
    else if name == "ARMED" then Some(Armed)
    else if name == "POWERED_ASCENT" then Some(PoweredAscent)
    else if name == "COAST_ASCENT" then Some(CoastAscent)
    else if name == "APOGEE" then Some(Apogee)
    else if name == "DESCENT_DROGUE" then Some(DescentDrogue)
    else if name == "DESCENT_MAIN" then Some(DescentMain)
    else if name == "LANDED" then Some(Landed)
    else if name == "FAULT" then Some(Fault)
    else None
  }

  /** Names and states correspond one to one: reading a named state's name back gives the state, and "UNKNOWN" reads as nothing. */
  lemma StateNameRoundTrip(s: FlightState)
    ensures StateFromName(StateName(s)) == if s.Unrecognized? then None else Some(s)
  {
  }

  /** state_name is injective on the nine named states. */
  lemma StateNameInjective(a: FlightState, b: FlightState)
    requires !a.Unrecognized? && !b.Unrecognized?
    requires StateName(a) == StateName(b)
    ensures a == b
  {
    StateNameRoundTrip(a);
    StateNameRoundTrip(b);
  }

  /** A decoded SIGMA telemetry frame. */
  datatype SigmaData = SigmaData(
    bootMs: nat, state: FlightState, satellites: nat, flags: bv8,
    lat: real, lon: real, altGpsM: real, altBaroM: real, speedMs: real,
    q: seq<real>)

  /** A received packet with its signal metrics. */
  datatype LoRaPacket = LoRaPacket(data: seq<bv8>, rssi: real, snr: real)

  /** Return status of the radio driver's begin / readPacket. */
  datatype RadioStatus = LoraOk | LoraError(code: int)

  /** What readPacket produced. */
  datatype ReadResult = ReadOk(pkt: LoRaPacket) | ReadFailed(code: int)

  /** The lines the LoRa task hands to log_print; a CSV row carries the state's name. */
  datatype LogLine =
    | InitFailed(code: int)
    | Ready
    | CsvHeader
    | CsvRow(d: SigmaData, stateName: string, rssi: real, snr: real)
    | BadFrame(len: nat, rssi: real, snr: real)
    | ReadError(code: int)

  /** The log lines of one received packet. */
  function PacketLog(read: ReadResult, deserialize: seq<bv8> -> Option<SigmaData>): (lines: seq<LogLine>)
    ensures |lines| == 1
    ensures lines[0].ReadError? <==> read.ReadFailed?
    ensures lines[0].CsvRow? <==> read.ReadOk? && deserialize(read.pkt.data).Some?
    ensures lines[0].CsvRow? ==> lines[0].d == deserialize(read.pkt.data).value
                                 && lines[0].stateName == StateName(lines[0].d.state)
    ensures lines[0].CsvRow? ==> lines[0].rssi == read.pkt.rssi && lines[0].snr == read.pkt.snr
    ensures read.ReadOk? && deserialize(read.pkt.data).None? ==>
              lines[0] == BadFrame(|read.pkt.data|, read.pkt.rssi, read.pkt.snr)
    ensures read.ReadFailed? ==> lines[0] == ReadError(read.code)
  {
    match read
    case ReadFailed(code) => [ReadError(code)]
    case ReadOk(pkt) =>
      match deserialize(pkt.data)
      case Some(d) => [CsvRow(d, StateName(d.state), pkt.rssi, pkt.snr)]
      case None => [BadFrame(|pkt.data|, pkt.rssi, pkt.snr)]
  }

  /**
   * The position a packet writes into the rocket slot: only a packet read
   * without error, decoded successfully and flagged GPS-valid; it carries
   * the GPS altitude, never the barometric one.
   */
  function RocketFix(read: ReadResult, deserialize: seq<bv8> -> Option<SigmaData>, gpsValidFlag: bv8): (loc: Option<LocationMsg>)
    ensures loc.Some? <==> read.ReadOk? && deserialize(read.pkt.data).Some?
                           && deserialize(read.pkt.data).value.flags & gpsValidFlag != 0
    ensures loc.Some? ==> var d := deserialize(read.pkt.data).value;
                          loc.value == LocationMsg(d.lat, d.lon, d.altGpsM)
  {
    if read.ReadOk? && deserialize(read.pkt.data).Some? then
      var d := deserialize(read.pkt.data).value;
      if d.flags & gpsValidFlag != 0 then Some(LocationMsg(d.lat, d.lon, d.altGpsM)) else None
    else None
  }

  /** The texts of a run of log lines, in order. */
  function RenderAll(render: LogLine -> string, lines: seq<LogLine>): seq<string> {
    seq(|lines|, i requires 0 <= i < |lines| => render(lines[i]))
  }

  class LoraTask {
    const deserialize: seq<bv8> -> Option<SigmaData>
    const gpsValidFlag: bv8
    const render: LogLine -> string
    /** The LoRa task hit a failed init and sits in its halt loop. */
    var halted: bool
    /** How many times startReceive has re-armed the receiver. */
    var rearms: nat

    constructor (deserialize: seq<bv8> -> Option<SigmaData>, gpsValidFlag: bv8, render: LogLine -> string)
      ensures this.deserialize == deserialize && this.gpsValidFlag == gpsValidFlag && this.render == render
      ensures !halted && rearms == 0
    {
      this.deserialize := deserialize;
      this.gpsValidFlag := gpsValidFlag;
      this.render := render;
      halted := false;
      rearms := 0;
    }

    /** Start-up: a failed begin logs and halts; otherwise log the banner and CSV header and arm the receiver once. */
    method Start(begin: RadioStatus, logQ: BoundedQueue<LogMessage>)
      requires logQ.Valid() && logQ.capacity == LOG_QUEUE_DEPTH
      requires !halted && rearms == 0
      modifies this, logQ
      ensures logQ.Valid()
      ensures halted == begin.LoraError?
      ensures rearms == if halted then 0 else 1
      ensures logQ.items == PushAll(old(logQ.items), LOG_QUEUE_DEPTH, UsbTask.LogMessages(RenderAll(render,
        if halted then [InitFailed(begin.code)] else [Ready, CsvHeader])))
    {
      if begin.LoraError? {
        UsbTask.LogPrintAll(logQ, RenderAll(render, [InitFailed(begin.code)]));
        halted := true;
      } else {
        UsbTask.LogPrintAll(logQ, RenderAll(render, [Ready, CsvHeader]));
        rearms := rearms + 1;
      }
    }

    /**
     * One iteration of the receive loop. A halted task does nothing. When a
     * packet is available its outcome is logged, the rocket slot is
     * overwritten exactly when RocketFix says so (left alone otherwise), and
     * the receiver is re-armed once, whatever the outcome.
     */
    method Cycle(available: bool, read: ReadResult, rktSlot: Slot, logQ: BoundedQueue<LogMessage>)
      requires logQ.Valid() && logQ.capacity == LOG_QUEUE_DEPTH
      modifies this, rktSlot, logQ
      ensures logQ.Valid() && halted == old(halted)
      ensures halted || !available ==>
        rearms == old(rearms) && rktSlot.value == old(rktSlot.value) && logQ.items == old(logQ.items)
      ensures !halted && available ==> rearms == old(rearms) + 1
      ensures !halted && available ==>
        rktSlot.value == (var fix := RocketFix(read, deserialize, gpsValidFlag); if fix.Some? then fix else old(rktSlot.value))
      ensures !halted && available ==>
        logQ.items == PushAll(old(logQ.items), LOG_QUEUE_DEPTH, UsbTask.LogMessages(RenderAll(render, PacketLog(read, deserialize))))
    {
      if halted || !available {
        return;
      }
      UsbTask.LogPrintAll(logQ, RenderAll(render, PacketLog(read, deserialize)));
      var fix := RocketFix(read, deserialize, gpsValidFlag);
      if fix.Some? {
        rktSlot.Overwrite(fix.value);
      }
      rearms := rearms + 1;
    }
  }
}

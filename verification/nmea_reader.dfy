/**
 * The MicroPython NMEA reader of the tracker board: it assembles UART bytes
 * into lines (with a guard against garbage flooding), dispatches `$xxRMC`
 * and `$xxGGA` sentences on the last three letters of their first field and
 * copies selected fields into the current fix.
 *
 * Python's int() and float() are taken as given functions (`Numbers`):
 * None stands for the ValueError they raise.
 */
module NmeaReader {
  import opened Wrappers
  import opened Text

  /** Longest line the reader keeps; one more character clears the buffer. */
  const GUARD_LEN: nat := 120

  /** Python's int() and float() applied to text; None where they raise ValueError. */
  datatype Numbers = Numbers(toInt: string -> Option<int>, toFloat: string -> Option<real>)

  /** What Python's int() and float() are known to do on the inputs that matter below: reject the empty text, any text with a '.', and a lone '.'. */
  ghost predicate PythonLike(num: Numbers) {
    && num.toInt([]).None?
    && (forall s :: '.' in s ==> num.toInt(s).None?)
    && num.toFloat(".").None?
  }

  /** _to_float: float(s), or 0.0 when it raises. */
  function ToFloat(num: Numbers, s: string): real {
    num.toFloat(s).GetOr(0.0)
  }

  /** _to_int: int(s), or 0 when it raises. */
  function ToInt(num: Numbers, s: string): int {
    num.toInt(s).GetOr(0)
  }

  /** The value of a GPSFix's eight slots. */
  datatype FixData = FixData(
    latitude: real, longitude: real, altitude: real,
    speedKnots: real, course: real, satellites: int,
    fixQuality: int, valid: bool)

  /** A fresh GPSFix: everything zero, not valid. */
  const EMPTY_FIX := FixData(0.0, 0.0, 0.0, 0.0, 0.0, 0, 0, false)

  // ── _nmea_to_dd ───────────────────────────────────────────────────────────

  /** The text int() sees: everything before the two digits that precede the first '.' (Python slicing). */
  function DegreeText(raw: string): string {
    PySliceTo(raw, IndexOf(raw, '.') - 2)
  }

  /** The text float() sees: from the two digits in front of the first '.' to the end. */
  function MinuteText(raw: string): string {
    PySliceFrom(raw, IndexOf(raw, '.') - 2)
  }

  /**
   * _nmea_to_dd: ddmm.mmmm (or dddmm.mmmm) to signed decimal degrees.
   * Empty text, text without '.', and degree or minute text that int() or
   * float() refuses give None; 'S' and 'W' negate.
   */
  function NmeaToDd(num: Numbers, raw: string, hemi: string): (dd: Option<real>)
    ensures dd.Some? <==> raw != [] && '.' in raw && num.toInt(DegreeText(raw)).Some?
                          && num.toFloat(MinuteText(raw)).Some?
    ensures dd.Some? ==>
      var magnitude := num.toInt(DegreeText(raw)).value as real + num.toFloat(MinuteText(raw)).value / 60.0;
      dd.value == if hemi == "S" || hemi == "W" then -magnitude else magnitude
  {
    if raw == [] || IndexOf(raw, '.') == |raw| then None
    else
      match (num.toInt(DegreeText(raw)), num.toFloat(MinuteText(raw)))
      case (Some(deg), Some(minutes)) =>
        var magnitude := deg as real + minutes / 60.0;
        Some(if hemi == "S" || hemi == "W" then -magnitude else magnitude)
      case _ => None
  }

  /**
   * With at least three characters in front of the '.', the degree text
   * and the minute text split the field exactly, and the minute text is
   * two characters, the '.', then the fraction.
   */
  lemma DegreeMinuteSplit(raw: string)
    requires 3 <= IndexOf(raw, '.') < |raw|
    ensures DegreeText(raw) + MinuteText(raw) == raw
    ensures '.' !in DegreeText(raw)
    ensures |MinuteText(raw)| >= 3 && MinuteText(raw)[2] == '.'
  {
    var dot := IndexOf(raw, '.');
    var deg, minutes := raw[..dot - 2], raw[dot - 2..];
    assert DegreeText(raw) == deg;
    assert MinuteText(raw) == minutes;
    assert deg + minutes == raw;
    assert forall j :: 0 <= j < |deg| ==> deg[j] == raw[j];
    assert minutes[2] == raw[dot];
  }

  /**
   * Fewer than three characters before the first '.' never yield a value:
   * Python's negative slicing then hands int() either the empty text or text
   * still holding the '.', or hands float() a lone '.'.
   */
  lemma NmeaToDdNeedsDegrees(num: Numbers, raw: string, hemi: string)
    requires PythonLike(num)
    requires IndexOf(raw, '.') < 3
    ensures NmeaToDd(num, raw, hemi) == None
  {
    var dot := IndexOf(raw, '.');
    if raw != [] && dot < |raw| {
      var d := DegreeText(raw);
      if dot == 2 {
        assert d == [];
      } else if |raw| >= 3 {
        assert d == raw[..|raw| + dot - 2];
        assert d[dot] == '.';
      } else if dot == 1 {
        assert MinuteText(raw) == raw[1..] == ".";
      } else {
        assert d == [];
      }
    }
  }

  // ── _parse_rmc / _parse_gga / _parse, on values ─────────────────────────────

  /**
   * _parse_rmc on a fix value: whether the sentence was accepted and the fix
   * afterwards. An accepted RMC makes the fix valid and changes only the
   * position, speed and course; a status other than 'A' only clears `valid`;
   * every other rejection leaves the fix untouched.
   */
  function ApplyRmc(num: Numbers, f: FixData, p: seq<string>): (r: (bool, FixData))
    ensures r.0 <==> |p| >= 10 && p[2] == "A" && NmeaToDd(num, p[3], p[4]).Some? && NmeaToDd(num, p[5], p[6]).Some?
    ensures r.0 ==> r.1 == f.(latitude := NmeaToDd(num, p[3], p[4]).value,
                               longitude := NmeaToDd(num, p[5], p[6]).value,
                               speedKnots := ToFloat(num, p[7]), course := ToFloat(num, p[8]), valid := true)
    ensures !r.0 && |p| >= 10 && p[2] != "A" ==> r.1 == f.(valid := false)
    ensures !r.0 && (|p| < 10 || p[2] == "A") ==> r.1 == f
  {
    if |p| < 10 then (false, f)
    else if p[2] != "A" then (false, f.(valid := false))
    else
      match (NmeaToDd(num, p[3], p[4]), NmeaToDd(num, p[5], p[6]))
      case (Some(lat), Some(lon)) =>
        (true, f.(latitude := lat, longitude := lon,
                  speedKnots := ToFloat(num, p[7]), course := ToFloat(num, p[8]), valid := true))
      case _ => (false, f)
  }

  /**
   * _parse_gga on a fix value. An accepted GGA has a non-zero quality, makes
   * the fix valid and changes only the position, quality, satellite count and
   * altitude; a rejected one leaves the fix untouched (a zero or unreadable
   * quality included).
   */
  function ApplyGga(num: Numbers, f: FixData, p: seq<string>): (r: (bool, FixData))
    ensures r.0 <==> |p| >= 11 && ToInt(num, p[6]) != 0 && NmeaToDd(num, p[2], p[3]).Some? && NmeaToDd(num, p[4], p[5]).Some?
    ensures r.0 ==> r.1 == f.(latitude := NmeaToDd(num, p[2], p[3]).value,
                               longitude := NmeaToDd(num, p[4], p[5]).value,
                               fixQuality := ToInt(num, p[6]), satellites := ToInt(num, p[7]),
                               altitude := ToFloat(num, p[9]), valid := true)
    ensures !r.0 ==> r.1 == f
  {
    if |p| < 11 then (false, f)
    else
      var quality := ToInt(num, p[6]);
      if quality == 0 then (false, f)
      else
        match (NmeaToDd(num, p[2], p[3]), NmeaToDd(num, p[4], p[5]))
        case (Some(lat), Some(lon)) =>
          (true, f.(latitude := lat, longitude := lon, fixQuality := quality,
                    satellites := ToInt(num, p[7]), altitude := ToFloat(num, p[9]), valid := true))
        case _ => (false, f)
  }

  /** The sentence with everything from the first '*' on removed (the checksum is dropped, never checked). */
  function Unchecked(sentence: string): (body: string)
    ensures '*' !in body
    ensures '*' !in sentence ==> body == sentence
    ensures |body| <= |sentence| && body == sentence[..|body|]
  {
    sentence[..IndexOf(sentence, '*')]
  }

  /** The sentence id: the last three characters of the first field (Python's talker[-3:]). */
  function MessageId(talker: string): (id: string)
    ensures |id| == if |talker| < 3 then |talker| else 3
    ensures id == talker[|talker| - |id|..]
  {
    PySliceFrom(talker, -3)
  }

  /** _parse on a fix value: drop the checksum, split at ',', dispatch on the sentence id. */
  function ApplySentence(num: Numbers, f: FixData, sentence: string): (r: (bool, FixData))
    ensures var parts := Split(Unchecked(sentence), ',');
      |parts| < 2 || (MessageId(parts[0]) != "RMC" && MessageId(parts[0]) != "GGA") ==> r == (false, f)
    ensures var parts := Split(Unchecked(sentence), ',');
      |parts| >= 2 && MessageId(parts[0]) == "RMC" ==> r == ApplyRmc(num, f, parts)
    ensures var parts := Split(Unchecked(sentence), ',');
      |parts| >= 2 && MessageId(parts[0]) == "GGA" ==> r == ApplyGga(num, f, parts)
  {
    var parts := Split(Unchecked(sentence), ',');
    if |parts| < 2 then (false, f)
    else
      var id := MessageId(parts[0]);
      if id == "RMC" then ApplyRmc(num, f, parts)
      else if id == "GGA" then ApplyGga(num, f, parts)
      else (false, f)
  }

  /** A sentence is judged without its checksum: any text after a '*' changes nothing. */
  lemma ChecksumIgnored(num: Numbers, f: FixData, body: string, checksum: string)
    requires '*' !in body
    ensures ApplySentence(num, f, body + "*" + checksum) == ApplySentence(num, f, body)
  {
    UncheckedDropsChecksum(body, checksum);
  }

  lemma UncheckedDropsChecksum(body: string, checksum: string)
    requires '*' !in body
    ensures Unchecked(body + "*" + checksum) == body
  {
    var s := body + "*" + checksum;
    assert ("*" + checksum)[0] == '*';
    assert s == body + ("*" + checksum);
    IndexOfAppend(body, "*" + checksum, '*');
    assert s[..|body|] == body;
  }

  lemma {:induction false} IndexOfAppend(a: string, b: string, c: char)
    requires c !in a
    ensures IndexOf(a + b, c) == |a| + IndexOf(b, c)
    decreases |a|
  {
    if a != [] {
      assert (a + b)[1..] == a[1..] + b;
      IndexOfAppend(a[1..], b, c);
    } else {
      assert a + b == b;
    }
  }

  /** A sentence with fewer than two fields, or another id, is rejected with the fix untouched. */
  lemma OtherSentencesIgnored(num: Numbers, f: FixData, sentence: string)
    requires ',' !in Unchecked(sentence)
    ensures ApplySentence(num, f, sentence) == (false, f)
  {
    var parts := Split(Unchecked(sentence), ',');
    CountAbsent(Unchecked(sentence), ',');
    assert |parts| == 1;
  }

  lemma {:induction false} CountAbsent(s: string, c: char)
    requires c !in s
    ensures Count(s, c) == 0
    decreases |s|
  {
    if s != [] {
      assert c !in s[1..] by {
        forall i | 0 <= i < |s[1..]| ensures s[1..][i] != c { assert s[1..][i] == s[i + 1]; }
      }
      CountAbsent(s[1..], c);
    }
  }

  // ── update: line assembly ───────────────────────────────────────────────────

  /** The reader's state between bytes: the partial line, the fix, and whether update() will report an accepted sentence. */
  datatype Reader = Reader(buf: string, fix: FixData, updated: bool)

  /**
   * One character of update(): '\n' ends the line, which is stripped and
   * parsed if it starts with '$', and empties the buffer; '\r' is dropped;
   * anything else is appended, and a buffer grown past 120 characters is
   * cleared.
   */
  function Step(num: Numbers, r: Reader, ch: char): (r': Reader)
    ensures ch == '\n' ==> r'.buf == []
    ensures ch != '\n' ==> r'.fix == r.fix && r'.updated == r.updated
    ensures ch == '\r' ==> r' == r
    ensures ch != '\n' && ch != '\r' ==>
      r'.buf == if |r.buf| + 1 > GUARD_LEN then [] else r.buf + [ch]
    ensures ch == '\n' ==>
      var line := Strip(r.buf, IsAsciiSpace);
      (r'.fix, r'.updated) == if StartsWith(line, "$")
                              then (ApplySentence(num, r.fix, line).1, r.updated || ApplySentence(num, r.fix, line).0)
                              else (r.fix, r.updated)
  {
    if ch == '\n' then
      var line := Strip(r.buf, IsAsciiSpace);
      if StartsWith(line, "$") then
        var (ok, f) := ApplySentence(num, r.fix, line);
        Reader([], f, r.updated || ok)
      else Reader([], r.fix, r.updated)
    else if ch != '\r' then
      var b := r.buf + [ch];
      Reader(if |b| > GUARD_LEN then [] else b, r.fix, r.updated)
    else r
  }

  /** The reader after a run of characters, one Step each, in order. */
  function Run(num: Numbers, r: Reader, chars: string): Reader
    decreases |chars|
  {
    if chars == [] then r else Step(num, Run(num, r, chars[..|chars| - 1]), chars[|chars| - 1])
  }

  /** A line buffer as update() keeps it: at most 120 characters, never a '\r' or '\n'. */
  predicate CleanBuffer(buf: string) {
    |buf| <= GUARD_LEN && '\r' !in buf && '\n' !in buf
  }

  /** The buffer stays clean whatever bytes arrive. */
  lemma {:induction false} RunKeepsBufferClean(num: Numbers, r: Reader, chars: string)
    requires CleanBuffer(r.buf)
    ensures CleanBuffer(Run(num, r, chars).buf)
    decreases |chars|
  {
    if chars != [] {
      RunKeepsBufferClean(num, r, chars[..|chars| - 1]);
    }
  }

  /** Without a '\n' nothing is parsed: the fix and the result flag stay as they were. */
  lemma {:induction false} NoNewlineNoParse(num: Numbers, r: Reader, chars: string)
    requires '\n' !in chars
    ensures Run(num, r, chars).fix == r.fix && Run(num, r, chars).updated == r.updated
    decreases |chars|
  {
    if chars != [] {
      var init := chars[..|chars| - 1];
      assert '\n' !in init by {
        forall i | 0 <= i < |init| ensures init[i] != '\n' { assert init[i] == chars[i]; }
      }
      NoNewlineNoParse(num, r, init);
    }
  }

  /** Ordinary characters that fit under the guard are accumulated verbatim. */
  lemma {:induction false} PlainTextAccumulates(num: Numbers, r: Reader, chars: string)
    requires '\n' !in chars && '\r' !in chars
    requires |r.buf| + |chars| <= GUARD_LEN
    ensures Run(num, r, chars).buf == r.buf + chars
    decreases |chars|
  {
    if chars != [] {
      var init := chars[..|chars| - 1];
      assert '\n' !in init && '\r' !in init by {
        forall i | 0 <= i < |init| ensures init[i] != '\n' && init[i] != '\r' { assert init[i] == chars[i]; }
      }
      PlainTextAccumulates(num, r, init);
      assert r.buf + init + [chars[|chars| - 1]] == r.buf + chars;
    }
  }

  /** A line's characters as update() sees them: chr() of each byte read. */
  function Chars(bytes: seq<bv8>): (s: string)
    ensures |s| == |bytes|
    ensures forall i :: 0 <= i < |bytes| ==> s[i] as int == bytes[i] as int
  {
    seq(|bytes|, i requires 0 <= i < |bytes| => bytes[i] as int as char)
  }

  // ── The objects ─────────────────────────────────────────────────────────────

  /** GPSFix: the most recent fix, updated field by field. */
  class GpsFix {
    var latitude: real
    var longitude: real
    var altitude: real
    var speedKnots: real
    var course: real
    var satellites: int
    var fixQuality: int
    var valid: bool

    constructor ()
      ensures Data() == EMPTY_FIX
    {
      latitude, longitude, altitude := 0.0, 0.0, 0.0;
      speedKnots, course := 0.0, 0.0;
      satellites, fixQuality := 0, 0;
      valid := false;
    }

    /** The eight slots as one value. */
    function Data(): FixData
      reads this
    {
      FixData(latitude, longitude, altitude, speedKnots, course, satellites, fixQuality, valid)
    }

    /** The assignments of an accepted RMC sentence: position, speed and course, and the fix becomes valid. */
    method StoreRmc(lat: real, lon: real, speed: real, heading: real)
      modifies this
      ensures Data() == old(Data()).(latitude := lat, longitude := lon, speedKnots := speed, course := heading, valid := true)
    {
      latitude := lat;
      longitude := lon;
      speedKnots := speed;
      course := heading;
      valid := true;
    }

    /** The assignments of an accepted GGA sentence: position, quality, satellites and altitude, and the fix becomes valid. */
    method StoreGga(lat: real, lon: real, quality: int, sats: int, alt: real)
      modifies this
      ensures Data() == old(Data()).(latitude := lat, longitude := lon, fixQuality := quality,
                                     satellites := sats, altitude := alt, valid := true)
    {
      latitude := lat;
      longitude := lon;
      fixQuality := quality;
      satellites := sats;
      altitude := alt;
      valid := true;
    }
  }

  /** GPS: the non-blocking reader with its partial line and its fix. */
  class Gps {
    const num: Numbers
    const fix: GpsFix
    var buf: string

    constructor (num: Numbers)
      ensures this.num == num && buf == [] && fix.Data() == EMPTY_FIX && fresh(fix)
    {
      this.num := num;
      fix := new GpsFix();
      buf := [];
    }

    /** _parse_rmc: assigns the fields ApplyRmc says, in place. */
    method ParseRmc(p: seq<string>) returns (ok: bool)
      modifies fix
      ensures (ok, fix.Data()) == ApplyRmc(num, old(fix.Data()), p)
    {
      if |p| < 10 {
        return false;
      }
      if p[2] != "A" {
        fix.valid := false;
        return false;
      }
      var lat := NmeaToDd(num, p[3], p[4]);
      var lon := NmeaToDd(num, p[5], p[6]);
      if lat.None? || lon.None? {
        return false;
      }
      fix.StoreRmc(lat.value, lon.value, ToFloat(num, p[7]), ToFloat(num, p[8]));
      return true;
    }

    /** _parse_gga: assigns the fields ApplyGga says, in place. */
    method ParseGga(p: seq<string>) returns (ok: bool)
      modifies fix
      ensures (ok, fix.Data()) == ApplyGga(num, old(fix.Data()), p)
    {
      if |p| < 11 {
        return false;
      }
      var quality := ToInt(num, p[6]);
      if quality == 0 {
        return false;
      }
      var lat := NmeaToDd(num, p[2], p[3]);
      var lon := NmeaToDd(num, p[4], p[5]);
      if lat.None? || lon.None? {
        return false;
      }
      fix.StoreGga(lat.value, lon.value, quality, ToInt(num, p[7]), ToFloat(num, p[9]));
      return true;
    }

    /** _parse: dispatch one sentence. */
    method Parse(sentence: string) returns (ok: bool)
      modifies fix
      ensures (ok, fix.Data()) == ApplySentence(num, old(fix.Data()), sentence)
    {
      var parts := Split(Unchecked(sentence), ',');
      if |parts| < 2 {
        return false;
      }
      var id := MessageId(parts[0]);
      if id == "RMC" {
        ok := ParseRmc(parts);
      } else if id == "GGA" {
        ok := ParseGga(parts);
      } else {
        ok := false;
      }
    }

    /**
     * The body of update's loop for one character: a '\n' ends the line and
     * parses it when it starts with '$', a '\r' is dropped, anything else
     * joins the buffer, which is cleared once it outgrows GUARD_LEN.
     */
    method Feed(ch: char, updated: bool) returns (updated': bool)
      modifies this, fix
      ensures Reader(buf, fix.Data(), updated') == Step(num, Reader(old(buf), old(fix.Data()), updated), ch)
    {
      updated' := updated;
      if ch == '\n' {
        var line := Strip(buf, IsAsciiSpace);
        buf := [];
        if StartsWith(line, "$") {
          var ok := Parse(line);
          if ok {
            updated' := true;
          }
        }
      } else if ch != '\r' {
        buf := buf + [ch];
        if |buf| > GUARD_LEN {
          buf := [];
        }
      }
    }

    /**
     * update: consume every byte the UART holds. The buffer and the fix end
     * as Run says, and the result is true exactly when some completed line
     * was an accepted sentence.
     */
    method Update(incoming: seq<bv8>) returns (updated: bool)
      modifies this, fix
      ensures Reader(buf, fix.Data(), updated) == Run(num, Reader(old(buf), old(fix.Data()), false), Chars(incoming))
    {
      ghost var start := Reader(buf, fix.Data(), false);
      var text := Chars(incoming);
      updated := false;
      var i := 0;
      while i < |text|
        invariant 0 <= i <= |text|
        invariant Reader(buf, fix.Data(), updated) == Run(num, start, text[..i])
      {
        updated := Feed(text[i], updated);
        assert text[..i + 1][..i] == text[..i];
        i := i + 1;
      }
      assert text[..|text|] == text;
    }
  }
}

/** The compliance posture as InfluxDB line protocol: escaping of tag values, the lines, and a reader
    that gets the values back. */
module LineProtocol {
  import opened Json

  // --- escaping -----------------------------------------------------------------------------

  /** `s.replace(sought, instead)` for a single character. */
  function Replace(s: string, sought: char, instead: string): string {
    if s == "" then "" else (if s[0] == sought then instead else [s[0]]) + Replace(s[1..], sought, instead)
  }

  /** The four passes, backslash first. */
  function EscapeTag(value: string): string {
    Replace(Replace(Replace(Replace(value, '\\', "\\\\"), ' ', "\\ "), ',', "\\,"), '=', "\\=")
  }

  predicate IsSpecial(c: char) {
    c == '\\' || c == ' ' || c == ',' || c == '='
  }

  /** One pass that puts a backslash before each special character. */
  function EscapeOnce(value: string): string {
    if value == "" then ""
    else (if IsSpecial(value[0]) then ['\\', value[0]] else [value[0]]) + EscapeOnce(value[1..])
  }

  /** A backslash makes the next character stand for itself. */
  function Unescape(s: string): string {
    if s == "" then ""
    else if s[0] == '\\' && |s| > 1 then [s[1]] + Unescape(s[2..])
    else [s[0]] + Unescape(s[1..])
  }

  lemma {:induction false} ReplaceConcat(a: string, b: string, sought: char, instead: string)
    ensures Replace(a + b, sought, instead) == Replace(a, sought, instead) + Replace(b, sought, instead)
    decreases |a|
  {
    if a == "" {
      assert a + b == b;
    } else {
      assert (a + b)[1..] == a[1..] + b;
      ReplaceConcat(a[1..], b, sought, instead);
    }
  }

  lemma EscapeTagConcat(a: string, b: string)
    ensures EscapeTag(a + b) == EscapeTag(a) + EscapeTag(b)
  {
    hide Replace;
    var a1, b1 := Replace(a, '\\', "\\\\"), Replace(b, '\\', "\\\\");
    var a2, b2 := Replace(a1, ' ', "\\ "), Replace(b1, ' ', "\\ ");
    var a3, b3 := Replace(a2, ',', "\\,"), Replace(b2, ',', "\\,");
    ReplaceConcat(a, b, '\\', "\\\\");
    ReplaceConcat(a1, b1, ' ', "\\ ");
    ReplaceConcat(a2, b2, ',', "\\,");
    ReplaceConcat(a3, b3, '=', "\\=");
  }

  lemma ReplaceChar(c: char, sought: char, instead: string)
    ensures Replace([c], sought, instead) == if c == sought then instead else [c]
  {
    assert [c][1..] == "";
  }

  lemma ReplacePair(b: char, c: char, sought: char, instead: string)
    requires b != sought && c != sought
    ensures Replace([b, c], sought, instead) == [b, c]
  {
    assert [b, c] == [b] + [c];
    ReplaceConcat([b], [c], sought, instead);
    ReplaceChar(b, sought, instead);
    ReplaceChar(c, sought, instead);
  }

  /** On one character the passes do not disturb each other: only the first can see a backslash that
      an escape has put there, and it runs before any has. */
  lemma EscapeTagChar(c: char)
    ensures EscapeTag([c]) == if IsSpecial(c) then ['\\', c] else [c]
  {
    hide Replace;
    ReplaceChar(c, '\\', "\\\\");
    ReplaceChar(c, ' ', "\\ ");
    ReplaceChar(c, ',', "\\,");
    ReplaceChar(c, '=', "\\=");
    ReplacePair('\\', '\\', ' ', "\\ ");
    ReplacePair('\\', '\\', ',', "\\,");
    ReplacePair('\\', '\\', '=', "\\=");
    ReplacePair('\\', ' ', ',', "\\,");
    ReplacePair('\\', ' ', '=', "\\=");
    ReplacePair('\\', ',', '=', "\\=");
  }

  lemma {:induction false} FourPassesAreOne(value: string)
    ensures EscapeTag(value) == EscapeOnce(value)
    decreases |value|
  {
    if value != "" {
      assert value == [value[0]] + value[1..];
      EscapeTagConcat([value[0]], value[1..]);
      EscapeTagChar(value[0]);
      FourPassesAreOne(value[1..]);
    }
  }

  lemma {:induction false} UnescapeEscaped(value: string)
    ensures Unescape(EscapeOnce(value)) == value
    decreases |value|
  {
    if value != "" {
      UnescapeEscaped(value[1..]);
      var head := if IsSpecial(value[0]) then ['\\', value[0]] else [value[0]];
      assert EscapeOnce(value)[|head|..] == EscapeOnce(value[1..]);
    }
  }

  lemma EscapeRoundTrip(value: string)
    ensures Unescape(EscapeTag(value)) == value
  {
    FourPassesAreOne(value);
    UnescapeEscaped(value);
  }

  // --- splitting at unescaped delimiters ----------------------------------------------------

  function Prepend(p: string, parts: seq<string>): (r: seq<string>)
    requires parts != []
    ensures r != []
  {
    [p + parts[0]] + parts[1..]
  }

  function Split(s: string, d: char): (parts: seq<string>)
    ensures parts != []
  {
    if s == "" then [""]
    else if s[0] == '\\' && |s| > 1 then Prepend(s[..2], Split(s[2..], d))
    else if s[0] == d then [""] + Split(s[1..], d)
    else Prepend(s[..1], Split(s[1..], d))
  }

  function Join(parts: seq<string>, d: char): string {
    if parts == [] then ""
    else if |parts| == 1 then parts[0]
    else parts[0] + [d] + Join(parts[1..], d)
  }

  /** Text in which every `d` is escaped and no escape is left open. */
  predicate Inert(p: string, d: char) {
    p == ""
    || (p[0] == '\\' && |p| > 1 && Inert(p[2..], d))
    || (p[0] != '\\' && p[0] != d && Inert(p[1..], d))
  }

  /** Text without anything special in it. */
  predicate Plain(p: string) {
    forall c | c in p :: !IsSpecial(c) && c != '\n'
  }

  lemma {:induction false} PlainIsInert(p: string, d: char)
    requires Plain(p) && IsSpecial(d)
    ensures Inert(p, d)
    decreases |p|
  {
    if p != "" {
      assert p[0] in p;
      PlainIsInert(p[1..], d);
    }
  }

  lemma {:induction false} EscapedIsInert(value: string, d: char)
    requires d == ' ' || d == ',' || d == '='
    ensures Inert(EscapeTag(value), d)
    decreases |value|
  {
    FourPassesAreOne(value);
    if value != "" {
      EscapedIsInert(value[1..], d);
      FourPassesAreOne(value[1..]);
      var head := if IsSpecial(value[0]) then ['\\', value[0]] else [value[0]];
      assert EscapeOnce(value)[|head|..] == EscapeOnce(value[1..]);
    }
  }

  lemma {:induction false} InertConcat(p: string, q: string, d: char)
    requires Inert(p, d) && Inert(q, d)
    ensures Inert(p + q, d)
    decreases |p|
  {
    if p == "" {
      assert p + q == q;
    } else {
      var n := if p[0] == '\\' then 2 else 1;
      InertConcat(p[n..], q, d);
      assert (p + q)[n..] == p[n..] + q;
    }
  }

  lemma PrependTwice(a: string, b: string, parts: seq<string>)
    requires parts != []
    ensures Prepend(a, Prepend(b, parts)) == Prepend(a + b, parts)
  {
    assert a + (b + parts[0]) == (a + b) + parts[0];
  }

  lemma PrependNothing(parts: seq<string>)
    requires parts != []
    ensures Prepend("", parts) == parts
  {
    assert "" + parts[0] == parts[0];
  }

  lemma {:induction false} InertPrepends(p: string, rest: string, d: char)
    requires Inert(p, d)
    ensures Split(p + rest, d) == Prepend(p, Split(rest, d))
    decreases |p|
  {
    if p == "" {
      assert p + rest == rest;
      PrependNothing(Split(rest, d));
    } else {
      var n := if p[0] == '\\' then 2 else 1;
      InertPrepends(p[n..], rest, d);
      assert (p + rest)[n..] == p[n..] + rest;
      assert (p + rest)[..n] == p[..n];
      PrependTwice(p[..n], p[n..], Split(rest, d));
      assert p[..n] + p[n..] == p;
    }
  }

  /** Splitting undoes joining, when the parts have their delimiters escaped. */
  lemma {:induction false} SplitJoined(parts: seq<string>, d: char)
    requires parts != [] && d != '\\' && forall i | 0 <= i < |parts| :: Inert(parts[i], d)
    ensures Split(Join(parts, d), d) == parts
    decreases |parts|
  {
    if |parts| == 1 {
      InertPrepends(parts[0], "", d);
      assert parts[0] + "" == parts[0];
    } else {
      var rest := Join(parts[1..], d);
      SplitJoined(parts[1..], d);
      InertPrepends(parts[0], [d] + rest, d);
      assert ([d] + rest)[1..] == rest;
      assert parts[0] + [d] + rest == parts[0] + ([d] + rest);
      assert parts[0] + "" == parts[0] && [parts[0]] + parts[1..] == parts;
    }
  }

  // --- the lines ----------------------------------------------------------------------------

  const DEVICE_MEASUREMENT := "compliance_posture"
  const FLEET_MEASUREMENT := "compliance_posture_fleet"

  datatype DevicePosture = DevicePosture(
    device: string, deviceGroup: string, completeness: real, driftScore: Option<real>)

  function TotalCompleteness(postures: seq<DevicePosture>): real {
    if postures == [] then 0.0
    else TotalCompleteness(postures[..|postures| - 1]) + postures[|postures| - 1].completeness
  }

  /** The mean completeness of the fleet; zero for an empty one. */
  function FleetCoverageRatio(postures: seq<DevicePosture>): real {
    if postures == [] then 0.0 else TotalCompleteness(postures) / |postures| as real
  }

  /** The ratio lies between any bounds that hold of every device. */
  lemma RatioBetween(postures: seq<DevicePosture>, low: real, high: real)
    requires postures != [] && forall i | 0 <= i < |postures| :: low <= postures[i].completeness <= high
    ensures low <= FleetCoverageRatio(postures) <= high
  {
    var total, n := TotalCompleteness(postures), |postures| as real;
    TotalBetween(postures, low, high);
    hide TotalCompleteness;
    assert total / n * n == total;
    if total / n < low { assert total / n * n < low * n; }
    if total / n > high { assert total / n * n > high * n; }
  }

  lemma {:induction false} TotalBetween(postures: seq<DevicePosture>, low: real, high: real)
    requires forall i | 0 <= i < |postures| :: low <= postures[i].completeness <= high
    ensures low * |postures| as real <= TotalCompleteness(postures) <= high * |postures| as real
    decreases |postures|
  {
    if postures != [] {
      var n := |postures| - 1;
      TotalBetween(postures[..n], low, high);
      assert low * (n + 1) as real == low * n as real + low;
      assert high * (n + 1) as real == high * n as real + high;
    }
  }

  /** A posture with its numbers printed. */
  datatype PrintedPosture = PrintedPosture(
    device: string, deviceGroup: string, completeness: string, driftScore: Option<string>)

  /** A number prints without anything special in it. */
  predicate PlainNumbers(p: PrintedPosture) {
    Plain(p.completeness) && (p.driftScore.Some? ==> Plain(p.driftScore.value))
  }

  /** `show` prints a number, as an f-string does. */
  function Print(p: DevicePosture, show: real -> string): PrintedPosture {
    PrintedPosture(p.device, p.deviceGroup, show(p.completeness),
                   if p.driftScore.Some? then Some(show(p.driftScore.value)) else None)
  }

  ghost predicate PrintsPlainly(show: real -> string) {
    forall x: real :: Plain(show(x))
  }

  lemma PrintedPlainly(p: DevicePosture, show: real -> string)
    requires PrintsPlainly(show)
    ensures PlainNumbers(Print(p, show))
  {
    assert Plain(show(p.completeness));
    if p.driftScore.Some? {
      var x := p.driftScore.value;
      assert Plain(show(x));
    }
  }

  function Pair(key: string, text: string): string {
    key + "=" + text
  }

  function DeviceLine(p: PrintedPosture, environment: string, timestamp: string): string {
    var tags := Pair("environment", EscapeTag(environment)) + "," + Pair("device_group", EscapeTag(p.deviceGroup))
                + "," + Pair("device", EscapeTag(p.device));
    var fields := Pair("completeness", p.completeness)
                  + (if p.driftScore.Some? then "," + Pair("drift_score", p.driftScore.value) else "");
    DEVICE_MEASUREMENT + "," + tags + " " + fields + " " + timestamp
  }

  function FleetLine(ratio: string, environment: string, timestamp: string): string {
    FLEET_MEASUREMENT + "," + Pair("environment", EscapeTag(environment)) + " "
    + Pair("lineage_coverage_ratio", ratio) + " " + timestamp
  }

  datatype Point = Point(
    measurement: string, tags: seq<(string, string)>, fields: seq<(string, string)>, timestamp: string)

  function ReadPair(s: string): Option<(string, string)> {
    var sides := Split(s, '=');
    if |sides| == 2 then Some((Unescape(sides[0]), Unescape(sides[1]))) else None
  }

  function ReadPairs(ss: seq<string>): Option<seq<(string, string)>> {
    if ss == [] then Some([])
    else match (ReadPair(ss[0]), ReadPairs(ss[1..]))
      case (Some(p), Some(rest)) => Some([p] + rest)
      case _ => None
  }

  /** A reader of line protocol, independent of how the lines are written. */
  function ReadLine(line: string): Option<Point> {
    var words := Split(line, ' ');
    if |words| != 3 then None
    else
      var keys := Split(words[0], ',');
      match (ReadPairs(keys[1..]), ReadPairs(Split(words[1], ',')))
      case (Some(tags), Some(fields)) => Some(Point(Unescape(keys[0]), tags, fields, words[2]))
      case _ => None
  }

  function DevicePoint(p: PrintedPosture, environment: string, timestamp: string): Point {
    Point(DEVICE_MEASUREMENT,
          [("environment", environment), ("device_group", p.deviceGroup), ("device", p.device)],
          [("completeness", p.completeness)]
          + (if p.driftScore.Some? then [("drift_score", p.driftScore.value)] else []),
          timestamp)
  }

  function FleetPoint(ratio: string, environment: string, timestamp: string): Point {
    Point(FLEET_MEASUREMENT, [("environment", environment)], [("lineage_coverage_ratio", ratio)], timestamp)
  }

  lemma {:induction false} PlainUnescapes(p: string)
    requires Plain(p)
    ensures Unescape(p) == p
    decreases |p|
  {
    if p != "" {
      assert p[0] in p && p == [p[0]] + p[1..];
      PlainUnescapes(p[1..]);
    }
  }

  /** The text is inert and reads as `value`. */
  predicate Reads(text: string, value: string) {
    Inert(text, '=') && Inert(text, ',') && Inert(text, ' ') && Unescape(text) == value
  }

  lemma EscapedReads(value: string)
    ensures Reads(EscapeTag(value), value)
  {
    EscapedIsInert(value, '=');
    EscapedIsInert(value, ',');
    EscapedIsInert(value, ' ');
    EscapeRoundTrip(value);
  }

  lemma PlainReads(p: string)
    requires Plain(p)
    ensures Reads(p, p)
  {
    PlainIsInert(p, '=');
    PlainIsInert(p, ',');
    PlainIsInert(p, ' ');
    PlainUnescapes(p);
  }

  /** The text reads as the pair, and has its commas and spaces escaped. */
  predicate ReadsPair(text: string, pair: (string, string)) {
    ReadPair(text) == Some(pair) && Inert(text, ',') && Inert(text, ' ')
  }

  lemma NamesArePlain()
    ensures Plain(DEVICE_MEASUREMENT) && Plain(FLEET_MEASUREMENT)
    ensures Plain("environment") && Plain("device_group") && Plain("device")
    ensures Plain("completeness") && Plain("drift_score") && Plain("lineage_coverage_ratio")
  {
  }

  lemma PairReads(key: string, text: string, value: string)
    requires Plain(key) && Reads(text, value)
    ensures ReadsPair(Pair(key, text), (key, value))
  {
    PlainReads(key);
    assert Join([key, text], '=') == key + "=" + text;
    SplitJoined([key, text], '=');
    InertConcat(key, "=", ',');
    InertConcat(key + "=", text, ',');
    InertConcat(key, "=", ' ');
    InertConcat(key + "=", text, ' ');
  }

  lemma {:induction false} PairsRead(texts: seq<string>, pairs: seq<(string, string)>)
    requires |texts| == |pairs| && forall i | 0 <= i < |texts| :: ReadPair(texts[i]) == Some(pairs[i])
    ensures ReadPairs(texts) == Some(pairs)
    decreases |texts|
  {
    if texts != [] {
      PairsRead(texts[1..], pairs[1..]);
      assert pairs == [pairs[0]] + pairs[1..];
    }
  }

  lemma {:induction false} JoinInert(parts: seq<string>, d: char, e: char)
    requires d != '\\' && d != e && forall i | 0 <= i < |parts| :: Inert(parts[i], e)
    ensures Inert(Join(parts, d), e)
    decreases |parts|
  {
    if |parts| > 1 {
      JoinInert(parts[1..], d, e);
      InertConcat(parts[0], [d], e);
      InertConcat(parts[0] + [d], Join(parts[1..], d), e);
    }
  }

  predicate Readable(texts: seq<string>, pairs: seq<(string, string)>) {
    |texts| == |pairs| && forall i | 0 <= i < |texts| :: ReadsPair(texts[i], pairs[i])
  }

  lemma LineReads(measurement: string, tagTexts: seq<string>, tags: seq<(string, string)>,
                  fieldTexts: seq<string>, fields: seq<(string, string)>, timestamp: string)
    requires Plain(measurement) && Plain(timestamp) && fieldTexts != []
    requires Readable(tagTexts, tags) && Readable(fieldTexts, fields)
    ensures ReadLine(Assemble(measurement, tagTexts, fieldTexts, timestamp))
            == Some(Point(measurement, tags, fields, timestamp))
  {
    hide Split;
    hide Inert;
    hide ReadPair;
    hide Join;
    PlainReads(measurement);
    PlainReads(timestamp);
    var keys := [measurement] + tagTexts;
    JoinInert(keys, ',', ' ');
    JoinInert(fieldTexts, ',', ' ');
    SplitJoined([Join(keys, ','), Join(fieldTexts, ','), timestamp], ' ');
    SplitJoined(keys, ',');
    SplitJoined(fieldTexts, ',');
    assert keys[1..] == tagTexts;
    PairsRead(tagTexts, tags);
    PairsRead(fieldTexts, fields);
  }

  function DeviceTags(p: PrintedPosture, environment: string): seq<string> {
    [Pair("environment", EscapeTag(environment)), Pair("device_group", EscapeTag(p.deviceGroup)),
     Pair("device", EscapeTag(p.device))]
  }

  function DeviceFields(p: PrintedPosture): seq<string> {
    [Pair("completeness", p.completeness)]
    + (if p.driftScore.Some? then [Pair("drift_score", p.driftScore.value)] else [])
  }

  /** A line as its parts, joined. */
  function Assemble(measurement: string, tags: seq<string>, fields: seq<string>, timestamp: string): string {
    Join([Join([measurement] + tags, ','), Join(fields, ','), timestamp], ' ')
  }

  lemma JoinTwo(a: string, b: string, d: char)
    ensures Join([a, b], d) == a + [d] + b
  {
  }

  lemma JoinFour(a: string, b: string, c: string, e: string, d: char)
    ensures Join([a, b, c, e], d) == a + [d] + b + [d] + c + [d] + e
  {
    JoinTwo(c, e, d);
    assert [a, b, c, e][1..] == [b, c, e] && [b, c, e][1..] == [c, e];
    assert Join([b, c, e], d) == b + [d] + (c + [d] + e);
  }

  lemma JoinThree(a: string, b: string, c: string, d: char)
    ensures Join([a, b, c], d) == a + [d] + b + [d] + c
  {
    JoinTwo(b, c, d);
    assert [a, b, c][1..] == [b, c];
  }

  lemma DeviceLineIsAssembled(p: PrintedPosture, environment: string, timestamp: string)
    ensures DeviceLine(p, environment, timestamp)
            == Assemble(DEVICE_MEASUREMENT, DeviceTags(p, environment), DeviceFields(p), timestamp)
  {
    hide EscapeTag;
    hide Join;
    hide Pair;
    var tags := DeviceTags(p, environment);
    var keys := DEVICE_MEASUREMENT + [','] + tags[0] + [','] + tags[1] + [','] + tags[2];
    assert [DEVICE_MEASUREMENT] + tags == [DEVICE_MEASUREMENT, tags[0], tags[1], tags[2]];
    JoinFour(DEVICE_MEASUREMENT, tags[0], tags[1], tags[2], ',');
    assert keys == DEVICE_MEASUREMENT + "," + (tags[0] + "," + tags[1] + "," + tags[2]);
    FieldsAssemble(p);
    JoinThree(keys, Join(DeviceFields(p), ','), timestamp, ' ');
  }

  lemma FieldsAssemble(p: PrintedPosture)
    ensures Join(DeviceFields(p), ',') ==
            Pair("completeness", p.completeness)
            + (if p.driftScore.Some? then "," + Pair("drift_score", p.driftScore.value) else "")
  {
    hide Pair;
    var c := Pair("completeness", p.completeness);
    if p.driftScore.Some? {
      var s := Pair("drift_score", p.driftScore.value);
      assert DeviceFields(p) == [c, s];
      JoinTwo(c, s, ',');
      assert c + [','] + s == c + ("," + s);
    } else {
      assert DeviceFields(p) == [c];
    }
  }

  /** The line of a posture reads back as exactly its environment, group, device and numbers, whatever
      characters they hold. */
  lemma DeviceLineReads(p: PrintedPosture, environment: string, timestamp: string)
    requires Plain(timestamp) && PlainNumbers(p)
    ensures ReadLine(DeviceLine(p, environment, timestamp)) == Some(DevicePoint(p, environment, timestamp))
  {
    NamesArePlain();
    hide Plain;
    hide Inert;
    hide Assemble;
    hide ReadsPair;
    hide Reads;
    hide Pair;
    hide EscapeTag;
    hide DeviceLine;
    hide ReadLine;
    EscapedReads(environment);
    EscapedReads(p.deviceGroup);
    EscapedReads(p.device);
    PairReads("environment", EscapeTag(environment), environment);
    PairReads("device_group", EscapeTag(p.deviceGroup), p.deviceGroup);
    PairReads("device", EscapeTag(p.device), p.device);
    PlainReads(p.completeness);
    PairReads("completeness", p.completeness, p.completeness);
    if p.driftScore.Some? {
      PlainReads(p.driftScore.value);
      PairReads("drift_score", p.driftScore.value, p.driftScore.value);
    }
    var point := DevicePoint(p, environment, timestamp);
    LineReads(DEVICE_MEASUREMENT, DeviceTags(p, environment), point.tags, DeviceFields(p), point.fields, timestamp);
    DeviceLineIsAssembled(p, environment, timestamp);
  }

  lemma FleetLineIsAssembled(ratio: string, environment: string, timestamp: string)
    ensures FleetLine(ratio, environment, timestamp)
            == Assemble(FLEET_MEASUREMENT, [Pair("environment", EscapeTag(environment))],
                        [Pair("lineage_coverage_ratio", ratio)], timestamp)
  {
    hide EscapeTag;
    hide Join;
    hide Pair;
    var e, r := Pair("environment", EscapeTag(environment)), Pair("lineage_coverage_ratio", ratio);
    assert [FLEET_MEASUREMENT] + [e] == [FLEET_MEASUREMENT, e];
    JoinTwo(FLEET_MEASUREMENT, e, ',');
    JoinOne(r, ',');
    JoinThree(FLEET_MEASUREMENT + [','] + e, r, timestamp, ' ');
  }

  lemma JoinOne(a: string, d: char)
    ensures Join([a], d) == a
  {
  }

  lemma FleetLineReads(ratio: string, environment: string, timestamp: string)
    requires Plain(timestamp) && Plain(ratio)
    ensures ReadLine(FleetLine(ratio, environment, timestamp)) == Some(FleetPoint(ratio, environment, timestamp))
  {
    NamesArePlain();
    hide Plain;
    hide Inert;
    hide Assemble;
    hide ReadsPair;
    hide Reads;
    hide Pair;
    hide EscapeTag;
    hide FleetLine;
    hide ReadLine;
    EscapedReads(environment);
    PairReads("environment", EscapeTag(environment), environment);
    PlainReads(ratio);
    PairReads("lineage_coverage_ratio", ratio, ratio);
    var point := FleetPoint(ratio, environment, timestamp);
    LineReads(FLEET_MEASUREMENT, [Pair("environment", EscapeTag(environment))], point.tags,
              [Pair("lineage_coverage_ratio", ratio)], point.fields, timestamp);
    FleetLineIsAssembled(ratio, environment, timestamp);
  }

  /** One line for each posture, in order, and the line of the fleet. */
  predicate Built(
      lines: seq<string>, postures: seq<DevicePosture>, environment: string, timestamp: string, show: real -> string)
  {
    && |lines| == |postures| + 1
    && (forall i | 0 <= i < |postures| :: lines[i] == DeviceLine(Print(postures[i], show), environment, timestamp))
    && lines[|postures|] == FleetLine(show(FleetCoverageRatio(postures)), environment, timestamp)
  }

  method BuildInfluxLines(postures: seq<DevicePosture>, environment: string, timestamp: string, show: real -> string)
    returns (lines: seq<string>)
    ensures Built(lines, postures, environment, timestamp, show)
  {
    var environmentTag := EscapeTag(environment);
    lines := [];
    var n := 0;
    while n < |postures|
      invariant 0 <= n <= |postures| && |lines| == n
      invariant forall i | 0 <= i < n :: lines[i] == DeviceLine(Print(postures[i], show), environment, timestamp)
    {
      var p := postures[n];
      var tags := Pair("environment", environmentTag) + "," + Pair("device_group", EscapeTag(p.deviceGroup))
                  + "," + Pair("device", EscapeTag(p.device));
      var fields := Pair("completeness", show(p.completeness));
      if p.driftScore.Some? {
        fields := fields + ("," + Pair("drift_score", show(p.driftScore.value)));
      }
      var line := DEVICE_MEASUREMENT + "," + tags + " " + fields + " " + timestamp;
      assert fields + "" == fields;
      lines := lines + [line];
      n := n + 1;
    }
    var ratio := FleetCoverageRatio(postures);
    lines := lines + [FLEET_MEASUREMENT + "," + Pair("environment", environmentTag) + " "
                      + Pair("lineage_coverage_ratio", show(ratio)) + " " + timestamp];
  }

  /** Every line that is built reads back as its posture, and the last one as the mean. */
  lemma BuiltLinesRead(
      lines: seq<string>, postures: seq<DevicePosture>, environment: string, timestamp: string, show: real -> string)
    requires Built(lines, postures, environment, timestamp, show) && PrintsPlainly(show) && Plain(timestamp)
    ensures forall i | 0 <= i < |postures| ::
              ReadLine(lines[i]) == Some(DevicePoint(Print(postures[i], show), environment, timestamp))
    ensures ReadLine(lines[|postures|])
            == Some(FleetPoint(show(FleetCoverageRatio(postures)), environment, timestamp))
  {
    hide Plain;
    hide ReadLine;
    hide DeviceLine;
    hide FleetLine;
    hide Print;
    forall i | 0 <= i < |postures|
      ensures ReadLine(lines[i]) == Some(DevicePoint(Print(postures[i], show), environment, timestamp))
    {
      PrintedPlainly(postures[i], show);
      DeviceLineReads(Print(postures[i], show), environment, timestamp);
    }
    var ratio := FleetCoverageRatio(postures);
    assert Plain(show(ratio));
    FleetLineReads(show(ratio), environment, timestamp);
  }

  // --- the body -----------------------------------------------------------------------------

  predicate OneLine(s: string) {
    '\n' !in s
  }

  /** The lines of a text, cut at every newline. */
  function Lines(s: string): (ls: seq<string>)
    ensures ls != []
  {
    if s == "" then [""]
    else if s[0] == '\n' then [""] + Lines(s[1..])
    else Prepend(s[..1], Lines(s[1..]))
  }

  lemma {:induction false} LinesAreOneLine(s: string)
    ensures forall i | 0 <= i < |Lines(s)| :: OneLine(Lines(s)[i])
    decreases |s|
  {
    if s != "" { LinesAreOneLine(s[1..]); }
  }

  lemma {:induction false} LinesPrepend(p: string, rest: string)
    requires OneLine(p)
    ensures Lines(p + rest) == Prepend(p, Lines(rest))
    decreases |p|
  {
    if p == "" {
      assert p + rest == rest;
      PrependNothing(Lines(rest));
    } else {
      LinesPrepend(p[1..], rest);
      assert (p + rest)[1..] == p[1..] + rest && (p + rest)[..1] == p[..1];
      PrependTwice(p[..1], p[1..], Lines(rest));
      assert p[..1] + p[1..] == p;
    }
  }

  lemma {:induction false} LinesOfJoined(lines: seq<string>)
    requires lines != [] && forall i | 0 <= i < |lines| :: OneLine(lines[i])
    ensures Lines(Join(lines, '\n')) == lines
    decreases |lines|
  {
    if |lines| == 1 {
      LinesPrepend(lines[0], "");
      assert lines[0] + "" == lines[0];
    } else {
      var rest := Join(lines[1..], '\n');
      LinesOfJoined(lines[1..]);
      LinesPrepend(lines[0], "\n" + rest);
      assert ("\n" + rest)[1..] == rest;
      assert lines[0] + ['\n'] + rest == lines[0] + ("\n" + rest);
      assert lines[0] + "" == lines[0] && [lines[0]] + lines[1..] == lines;
    }
  }

  lemma {:induction false} EscapingKeepsLines(value: string)
    ensures OneLine(EscapeTag(value)) <==> OneLine(value)
    decreases |value|
  {
    FourPassesAreOne(value);
    if value != "" {
      FourPassesAreOne(value[1..]);
      EscapingKeepsLines(value[1..]);
    }
  }

  lemma PlainIsOneLine()
    ensures forall s | Plain(s) :: OneLine(s)
  {
  }

  lemma OneLineConcat(a: string, b: string)
    ensures OneLine(a + b) <==> OneLine(a) && OneLine(b)
  {
  }

  lemma {:induction false} OneLineJoin(parts: seq<string>, d: char)
    requires d != '\n'
    ensures OneLine(Join(parts, d)) <==> forall i | 0 <= i < |parts| :: OneLine(parts[i])
    decreases |parts|
  {
    if |parts| > 1 {
      OneLineJoin(parts[1..], d);
      OneLineConcat(parts[0], [d]);
      OneLineConcat(parts[0] + [d], Join(parts[1..], d));
      assert forall i | 0 < i < |parts| :: parts[i] == parts[1..][i - 1];
    }
  }

  lemma OneLinePair(key: string, text: string)
    requires Plain(key)
    ensures OneLine(Pair(key, text)) <==> OneLine(text)
  {
    OneLineConcat(key, "=");
    OneLineConcat(key + "=", text);
  }

  predicate AllOneLine(ss: seq<string>) {
    forall i | 0 <= i < |ss| :: OneLine(ss[i])
  }

  lemma OneLineAssembled(measurement: string, tags: seq<string>, fields: seq<string>, timestamp: string)
    requires Plain(measurement) && Plain(timestamp)
    ensures OneLine(Assemble(measurement, tags, fields, timestamp)) <==> AllOneLine(tags) && AllOneLine(fields)
  {
    hide Join;
    var keys := [measurement] + tags;
    OneLineJoin(keys, ',');
    OneLineJoin(fields, ',');
    var words := [Join(keys, ','), Join(fields, ','), timestamp];
    OneLineJoin(words, ' ');
    assert forall i | 0 <= i < |tags| :: tags[i] == keys[i + 1];
    assert OneLine(timestamp) && OneLine(measurement);
    assert AllOneLine(keys) <==> AllOneLine(tags);
    assert AllOneLine(words) <==> OneLine(words[0]) && OneLine(words[1]);
  }

  lemma DeviceLineOneLineIff(p: PrintedPosture, environment: string, timestamp: string)
    requires Plain(timestamp) && PlainNumbers(p)
    ensures OneLine(DeviceLine(p, environment, timestamp))
            <==> OneLine(environment) && OneLine(p.deviceGroup) && OneLine(p.device)
  {
    NamesArePlain();
    PlainIsOneLine();
    hide Plain;
    hide OneLine;
    hide EscapeTag;
    hide Pair;
    hide DeviceLine;
    hide Assemble;
    var tags, fields := DeviceTags(p, environment), DeviceFields(p);
    EscapingKeepsLines(environment);
    EscapingKeepsLines(p.deviceGroup);
    EscapingKeepsLines(p.device);
    OneLinePair("environment", EscapeTag(environment));
    OneLinePair("device_group", EscapeTag(p.deviceGroup));
    OneLinePair("device", EscapeTag(p.device));
    assert AllOneLine(tags) <==> OneLine(tags[0]) && OneLine(tags[1]) && OneLine(tags[2]);
    OneLinePair("completeness", p.completeness);
    if p.driftScore.Some? { OneLinePair("drift_score", p.driftScore.value); }
    assert AllOneLine(fields);
    DeviceLineIsAssembled(p, environment, timestamp);
    OneLineAssembled(DEVICE_MEASUREMENT, tags, fields, timestamp);
  }

  lemma FleetLineOneLineIff(ratio: string, environment: string, timestamp: string)
    requires Plain(timestamp) && Plain(ratio)
    ensures OneLine(FleetLine(ratio, environment, timestamp)) <==> OneLine(environment)
  {
    NamesArePlain();
    PlainIsOneLine();
    hide Plain;
    hide OneLine;
    hide EscapeTag;
    hide Pair;
    hide FleetLine;
    hide Assemble;
    var tags, fields := [Pair("environment", EscapeTag(environment))], [Pair("lineage_coverage_ratio", ratio)];
    EscapingKeepsLines(environment);
    OneLinePair("environment", EscapeTag(environment));
    OneLinePair("lineage_coverage_ratio", ratio);
    assert AllOneLine(tags) <==> OneLine(tags[0]);
    FleetLineIsAssembled(ratio, environment, timestamp);
    OneLineAssembled(FLEET_MEASUREMENT, tags, fields, timestamp);
  }

  /** A newline in a tag is not escaped. The body cut into lines is the lines that were built exactly
      when the environment and every group and device are free of newlines. */
  lemma BodyReadsIff(
      lines: seq<string>, postures: seq<DevicePosture>, environment: string, timestamp: string, show: real -> string)
    requires Built(lines, postures, environment, timestamp, show) && PrintsPlainly(show) && Plain(timestamp)
    ensures Lines(Join(lines, '\n')) == lines <==>
            OneLine(environment)
            && forall i | 0 <= i < |postures| :: OneLine(postures[i].deviceGroup) && OneLine(postures[i].device)
  {
    hide Plain;
    hide FleetLine;
    hide OneLine;
    hide Join;
    hide Lines;
    hide DeviceLine;
    forall i | 0 <= i < |postures|
      ensures OneLine(lines[i]) <==>
              OneLine(environment) && OneLine(postures[i].deviceGroup) && OneLine(postures[i].device)
    {
      PrintedPlainly(postures[i], show);
      DeviceLineOneLineIff(Print(postures[i], show), environment, timestamp);
    }
    var ratio := FleetCoverageRatio(postures);
    assert Plain(show(ratio));
    FleetLineOneLineIff(show(ratio), environment, timestamp);
    LinesAreOneLine(Join(lines, '\n'));
    if forall i | 0 <= i < |lines| :: OneLine(lines[i]) { LinesOfJoined(lines); }
    if Lines(Join(lines, '\n')) == lines {
      assert forall i | 0 <= i < |lines| :: OneLine(lines[i]);
    }
  }

  const SPLIT_NAME := "leaf\n1"

  /** Every number printed alike, for a concrete body. */
  function One(x: real): string {
    "1"
  }

  lemma ConcreteTexts()
    ensures !OneLine(SPLIT_NAME) && Plain("1")
  {
    assert SPLIT_NAME[4] == '\n';
  }

  /** A device with a newline in its name: its lines do not come back out of the body. */
  lemma NewlineBreaksBody()
    ensures var p := DevicePosture(SPLIT_NAME, "leaf", 1.0, None);
            var lines := [DeviceLine(Print(p, One), "lab", "1"), FleetLine("1", "lab", "1")];
            Built(lines, [p], "lab", "1", One) && Lines(Join(lines, '\n')) != lines
  {
    hide Lines;
    hide Join;
    hide DeviceLine;
    hide FleetLine;
    hide FleetCoverageRatio;
    ConcreteTexts();
    hide Plain;
    hide OneLine;
    var p := DevicePosture(SPLIT_NAME, "leaf", 1.0, None);
    var lines := [DeviceLine(Print(p, One), "lab", "1"), FleetLine("1", "lab", "1")];
    var postures := [p];
    assert postures[0].device == SPLIT_NAME;
    BodyReadsIff(lines, postures, "lab", "1", One);
  }
}

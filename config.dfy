// The run configuration: default cut and binning parameters, the category labels
// and the timestamp used in output file names. The process-wide singleton of the
// original becomes a plain value that callers pass around.
module Config {
  import Text

  /** Number of per-category slots in every histogram array: slot 0 plus categories 1..8. */
  const NSAMPLES: int := 9

  datatype Config = Config(
    eTolerance: real,
    distanceCut: real,
    cutNuFinal: bool,
    cutToWall: bool,
    cutEmatch: bool,
    modeDebug: bool,
    modeEventDisplay: bool,
    histoHalfRange: real,
    nBinsEdiff: int,
    diffTolerance: real)

  /** The values the private constructor initialises. */
  function Default(): (c: Config)
    ensures c.eTolerance == 0.001 && c.distanceCut == 50.0
    ensures c.cutNuFinal && c.cutToWall && c.cutEmatch
    ensures !c.modeDebug && !c.modeEventDisplay
    ensures c.histoHalfRange == 1000.0 && c.nBinsEdiff == 1000 && c.diffTolerance == 0.001
  {
    Config(0.001, 50.0, true, true, true, false, false, 1000.0, 1000, 0.001)
  }

  // Setters: each replaces exactly one field.

  function SetDebugMode(c: Config, debug: bool): (r: Config)
    ensures GetDebugMode(r) == debug
    ensures r.(modeDebug := c.modeDebug) == c
  {
    c.(modeDebug := debug)
  }

  function SetEventDisplayMode(c: Config, ed: bool): (r: Config)
    ensures GetEventDisplayMode(r) == ed
    ensures r.(modeEventDisplay := c.modeEventDisplay) == c
  {
    c.(modeEventDisplay := ed)
  }

  function SetCutNuFinal(c: Config, cut: bool): (r: Config)
    ensures r.cutNuFinal == cut
    ensures r.(cutNuFinal := c.cutNuFinal) == c
  {
    c.(cutNuFinal := cut)
  }

  function SetCutToWall(c: Config, cut: bool): (r: Config)
    ensures r.cutToWall == cut
    ensures r.(cutToWall := c.cutToWall) == c
  {
    c.(cutToWall := cut)
  }

  function SetCutEmatch(c: Config, cut: bool): (r: Config)
    ensures r.cutEmatch == cut
    ensures r.(cutEmatch := c.cutEmatch) == c
  {
    c.(cutEmatch := cut)
  }

  function SetETolerance(c: Config, tol: real): (r: Config)
    ensures r.eTolerance == tol
    ensures r.(eTolerance := c.eTolerance) == c
  {
    c.(eTolerance := tol)
  }

  function SetDistanceCut(c: Config, dist: real): (r: Config)
    ensures r.distanceCut == dist
    ensures r.(distanceCut := c.distanceCut) == c
  {
    c.(distanceCut := dist)
  }

  function GetDebugMode(c: Config): bool {
    c.modeDebug
  }

  function GetEventDisplayMode(c: Config): bool {
    c.modeEventDisplay
  }

  /** The label of a category; every id outside 1..4 (including 0 and 5..8) has the empty label. */
  function FlavorName(dataset: int): (name: string)
    ensures name != "" <==> 1 <= dataset <= 4
  {
    match dataset
    case 1 => "nue"
    case 2 => "numu"
    case 3 => "anue"
    case 4 => "anumu"
    case _ => ""
  }

  /** Different categories never share a non-empty label, so a label identifies its category. */
  lemma FlavorNamesDistinct(d1: int, d2: int)
    requires FlavorName(d1) != "" && FlavorName(d1) == FlavorName(d2)
    ensures d1 == d2
  {
  }

  /** "%d%02d%02d_%02d%02d%02d" of the wall-clock fields. */
  function Timestamp(year: nat, month: nat, day: nat, hour: nat, minute: nat, second: nat): string
  {
    Fields(Text.Decimal(year), month, day) + "_" + Fields(Text.ZeroPad(hour, 2), minute, second)
  }

  /** A leading field followed by two two-digit fields. */
  function Fields(lead: string, a: nat, b: nat): string
  {
    lead + Text.ZeroPad(a, 2) + Text.ZeroPad(b, 2)
  }

  datatype Clock = Clock(year: nat, month: nat, day: nat, hour: nat, minute: nat, second: nat)

  predicate InRange(t: Clock) {
    1000 <= t.year <= 9999 && t.month < 100 && t.day < 100
      && t.hour < 100 && t.minute < 100 && t.second < 100
  }

  /** Reads the fixed-width layout YYYYMMDD_HHMMSS back into its fields. */
  function ParseTimestamp(s: string): (t: Clock)
    requires |s| == 15 && Text.AllDigits(s[..8]) && Text.AllDigits(s[9..])
  {
    var date, time := s[..8], s[9..];
    Clock(Text.ParseDecimal(date[..4]), Text.ParseDecimal(date[4..6]), Text.ParseDecimal(date[6..]),
          Text.ParseDecimal(time[..2]), Text.ParseDecimal(time[2..4]), Text.ParseDecimal(time[4..]))
  }

  lemma TwoDigits(n: nat)
    requires n < 100
    ensures |Text.ZeroPad(n, 2)| == 2
  {
    assert Text.Pow10(2) == 100;
    Text.DecimalAtMost(n, 2);
  }

  /** A leading field of width w followed by two two-digit fields reads back field by field. */
  lemma FieldsLayout(lead: string, a: nat, b: nat)
    requires Text.AllDigits(lead) && a < 100 && b < 100
    ensures var s := Fields(lead, a, b);
      && |s| == |lead| + 4 && Text.AllDigits(s)
      && s[..|lead|] == lead
      && Text.ParseDecimal(s[|lead|..|lead| + 2]) == a
      && Text.ParseDecimal(s[|lead| + 2..]) == b
  {
    TwoDigits(a);
    TwoDigits(b);
    var pa, pb := Text.ZeroPad(a, 2), Text.ZeroPad(b, 2);
    var s := lead + pa + pb;
    assert s[..|lead|] == lead;
    assert s[|lead|..|lead| + 2] == pa;
    assert s[|lead| + 2..] == pb;
    Text.ZeroPadRoundTrip(a, 2);
    Text.ZeroPadRoundTrip(b, 2);
  }

  lemma ParseJoined(date: string, time: string)
    requires |date| == 8 && |time| == 6 && Text.AllDigits(date) && Text.AllDigits(time)
    ensures var s := date + "_" + time;
      && |s| == 15 && s[8] == '_' && s[..8] == date && s[9..] == time
  {
    var s := date + "_" + time;
    assert s[..8] == date;
    assert s[9..] == time;
  }

  /** For a four-digit year and two-digit fields the timestamp is 15 characters long,
      has the separator at index 8, and every field can be read back from its fixed columns. */
  lemma TimestampLayout(t: Clock)
    requires InRange(t)
    ensures var s := Timestamp(t.year, t.month, t.day, t.hour, t.minute, t.second);
      && |s| == 15 && s[8] == '_'
      && Text.AllDigits(s[..8]) && Text.AllDigits(s[9..])
      && ParseTimestamp(s) == t
  {
    assert Text.Pow10(3) == 1000 && Text.Pow10(4) == 10000;
    Text.DecimalLength(t.year, 4);
    TwoDigits(t.hour);
    var y, h := Text.Decimal(t.year), Text.ZeroPad(t.hour, 2);
    FieldsLayout(y, t.month, t.day);
    FieldsLayout(h, t.minute, t.second);
    Text.DecimalRoundTrip(t.year);
    Text.ZeroPadRoundTrip(t.hour, 2);
    var date, time := Fields(y, t.month, t.day), Fields(h, t.minute, t.second);
    ParseJoined(date, time);
  }
}

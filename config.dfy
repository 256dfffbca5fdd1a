/** The configuration file reader (load_config, config_band).

    Each line is cut at its first carriage return, its first line feed and
    its first ';' (the comment mark), then split into fields at runs of
    white space.  Blank lines are skipped.  The first field is a keyword,
    matched without regard to case together with the number of fields; an
    unknown keyword/field-count pair, or a value outside a keyword's set of
    choices, is fatal. */
module Config {
  import opened Basics

  /** Size of the band table; the last slot is never used (see ConfigBand). */
  const MaxBands: nat := 40

  datatype Side = Left | Right
  datatype Policy = Spectrum | BandsMulti | BandsEach

  /** A monitored band: identifier, input side, frequency range in hertz. */
  datatype Band = Band(ident: string, side: Side, start: int, end: int)

  /** Every setting the file can change other than the band table.  Values
      the daemon converts with atof() are kept as the text atof() is given;
      the numeric conversion is not modelled. */
  datatype Settings = Settings(
    policy: Policy,
    outputInterval: string,   // atof text, seconds
    range1: int,              // spectrum_range, hertz
    range2: int,
    logfile: string,          // empty stands for no log file
    losThresh: string,        // atof text, 0..1
    losTimeout: int,          // seconds
    device: string,
    chans: int,               // 1 mono, 2 stereo
    bytes: int,               // sample width
    outputFiles: string,      // file name template
    timestamp: string,        // time stamp template
    outputHeader: bool,
    outputPower: bool,
    outputPeak: bool,
    uspecFile: Option<string>,
    uspecSecs: string,        // atof text, seconds
    priority: bool,
    sampleRate: int,
    bins: int,
    datadir: string,
    cardDelay: int,
    offsetDb: string,         // atof text
    nread: int,
    fieldFormat: string,
    logScale: bool,
    mailaddr: Option<string>)

  datatype Config = Config(settings: Settings, bands: seq<Band>)

  /** The values the daemon starts with before reading the file. */
  function Defaults(): (c: Config)
    ensures c.bands == [] && c.settings.chans == 1 && c.settings.bytes == 2
    ensures c.settings.bins == 2048 && c.settings.policy == BandsEach
  {
    Config(Settings(BandsEach, "0", 0, 0, "/var/log/sidd/sidd.log", "0", 0, "hw:0,0", 1, 2,
                    "%y%m%d.dat", "%u", false, false, false, None, "30", false, 192000, 2048,
                    "/var/lib/sidd/", 0, "0", 2048, "%.2e", false, None),
           [])
  }

  // ---------------------------------------------------------------------
  // Line clean-up and tokenizing

  /** The part of s before the first c (all of s when there is none). */
  function CutAt(s: string, c: char): (r: string)
    ensures r <= s && c !in r
    ensures |r| < |s| ==> s[|r|] == c
  {
    if s == [] then []
    else if s[0] == c then []
    else [s[0]] + CutAt(s[1..], c)
  }

  /** A line after its CR, LF and comment are cut off: the longest prefix
      free of all three characters. */
  function Truncate(line: string): (r: string)
    ensures r <= line && '\r' !in r && '\n' !in r && ';' !in r
    ensures |r| < |line| ==> line[|r|] == '\r' || line[|r|] == '\n' || line[|r|] == ';'
  {
    var a := CutAt(line, '\r');
    var b := CutAt(a, '\n');
    var c := CutAt(b, ';');
    PrefixChars(c, b);
    PrefixChars(b, a);
    c
  }

  /** Every character of a prefix occurs in the whole. */
  lemma PrefixChars(p: string, s: string)
    requires p <= s
    ensures forall ch :: ch in p ==> ch in s
  {
    forall ch | ch in p ensures ch in s {
      var i :| 0 <= i < |p| && p[i] == ch;
      assert s[i] == ch;
    }
  }

  /** The longest prefix of s without white space. */
  function TakeWord(s: string): (w: string)
    ensures w <= s && forall i :: 0 <= i < |w| ==> !IsSpace(w[i])
    ensures |w| < |s| ==> IsSpace(s[|w|])
  {
    if s != [] && !IsSpace(s[0]) then [s[0]] + TakeWord(s[1..]) else []
  }

  predicate IsField(w: string) {
    |w| > 0 && forall i :: 0 <= i < |w| ==> !IsSpace(w[i])
  }

  /** The fields of a line: its maximal runs of non-white-space characters. */
  function Fields(s: string): (fs: seq<string>)
    ensures |fs| <= |s|
    decreases |s|
  {
    var t := DropSpace(s);
    if t == [] then []
    else
      var w := TakeWord(t);
      [w] + Fields(t[|w|..])
  }

  lemma FieldsSkipSpace(s: string)
    requires s != [] && IsSpace(s[0])
    ensures Fields(s) == Fields(s[1..])
  {
    assert DropSpace(s) == DropSpace(s[1..]);
  }

  lemma FieldsOfWord(s: string, k: nat)
    requires 0 < k <= |s|
    requires forall i :: 0 <= i < k ==> !IsSpace(s[i])
    requires k < |s| ==> IsSpace(s[k])
    ensures Fields(s) == [s[..k]] + Fields(s[k..])
  {
    assert DropSpace(s) == s;
    assert TakeWord(s) == s[..k];
  }

  /** Every element is a non-empty run of non-white-space characters. */
  predicate AllFields(fs: seq<string>) {
    fs == [] || (IsField(fs[0]) && AllFields(fs[1..]))
  }

  /** Every field is a non-empty run of non-white-space characters. */
  lemma {:induction false} FieldsAreWords(s: string)
    ensures AllFields(Fields(s))
    decreases |s|
  {
    var t := DropSpace(s);
    if t != [] {
      FieldsAreWords(t[|TakeWord(t)|..]);
      assert ([TakeWord(t)] + Fields(t[|TakeWord(t)|..]))[1..] == Fields(t[|TakeWord(t)|..]);
    }
  }

  /** Stepping over a white-space character at p leaves the fields ahead unchanged. */
  lemma SkipStep(line: string, p: nat)
    requires p < |line| && IsSpace(line[p])
    ensures Fields(line[p..]) == Fields(line[p + 1..])
  {
    FieldsSkipSpace(line[p..]);
    assert line[p..][1..] == line[p + 1..];
  }

  /** A maximal run of non-white-space characters from start to p is the next field. */
  lemma WordStep(line: string, start: nat, p: nat)
    requires start < p <= |line|
    requires forall i :: start <= i < p ==> !IsSpace(line[i])
    requires p < |line| ==> IsSpace(line[p])
    ensures Fields(line[start..]) == [line[start..p]] + Fields(line[p..])
  {
    var s := line[start..];
    var k := p - start;
    assert forall i :: 0 <= i < k ==> s[i] == line[start + i];
    assert forall i :: 0 <= i < k ==> !IsSpace(s[i]);
    assert k < |s| ==> IsSpace(s[k]);
    assert s[..k] == line[start..p];
    assert s[k..] == line[p..];
    FieldsOfWord(s, k);
  }

  /** The end of the run of non-white-space characters starting at p. */
  function WordEnd(line: string, p: nat): (e: nat)
    requires p <= |line|
    ensures p <= e <= |line|
    ensures forall i :: p <= i < e ==> !IsSpace(line[i])
    ensures e < |line| ==> IsSpace(line[e])
    decreases |line| - p
  {
    if p < |line| && !IsSpace(line[p]) then WordEnd(line, p + 1) else p
  }

  /** The fields from position p on, read position by position. */
  function FieldsFrom(line: string, p: nat): seq<string>
    requires p <= |line|
    decreases |line| - p
  {
    if p == |line| then []
    else if IsSpace(line[p]) then FieldsFrom(line, p + 1)
    else [line[p..WordEnd(line, p)]] + FieldsFrom(line, WordEnd(line, p))
  }

  lemma FieldsFromWord(line: string, start: nat, e: nat)
    requires start < e <= |line|
    requires forall i :: start <= i < e ==> !IsSpace(line[i])
    requires e < |line| ==> IsSpace(line[e])
    ensures FieldsFrom(line, start) == [line[start..e]] + FieldsFrom(line, e)
  {
    assert WordEnd(line, start) == e;
  }

  /** Reading position by position gives the fields of the rest of the line. */
  lemma {:induction false} FieldsFromIsFields(line: string, p: nat)
    requires p <= |line|
    ensures FieldsFrom(line, p) == Fields(line[p..])
    decreases |line| - p
  {
    if p == |line| {
      assert line[p..] == [];
    } else if IsSpace(line[p]) {
      FieldsFromIsFields(line, p + 1);
      SkipStep(line, p);
    } else {
      var e := WordEnd(line, p);
      FieldsFromIsFields(line, e);
      WordStep(line, p, e);
    }
  }

  /** The tokenizing loop: skip white space, mark a field, run to its end,
      and step over the character that ends it. */
  method SplitFields(line: string) returns (fields: seq<string>)
    ensures fields == Fields(line)
  {
    fields := [];
    var p := 0;
    while true
      invariant 0 <= p <= |line|
      invariant FieldsFrom(line, 0) == fields + FieldsFrom(line, p)
      decreases |line| - p
    {
      while p < |line| && IsSpace(line[p])
        invariant 0 <= p <= |line|
        invariant FieldsFrom(line, 0) == fields + FieldsFrom(line, p)
      {
        p := p + 1;
      }
      if p == |line| {
        break;
      }
      var start := p;
      while p < |line| && !IsSpace(line[p])
        invariant start <= p <= |line|
        invariant forall i :: start <= i < p ==> !IsSpace(line[i])
      {
        p := p + 1;
      }
      FieldsFromWord(line, start, p);
      assert fields + ([line[start..p]] + FieldsFrom(line, p))
          == (fields + [line[start..p]]) + FieldsFrom(line, p);
      fields := fields + [line[start..p]];
      if p < |line| {
        p := p + 1;
      }
    }
    assert fields + [] == fields;
    FieldsFromIsFields(line, 0);
    assert line[0..] == line;
  }

  /** Fields joined by single spaces. */
  function JoinSpace(fs: seq<string>): string {
    if fs == [] then []
    else if |fs| == 1 then fs[0]
    else fs[0] + " " + JoinSpace(fs[1..])
  }

  lemma FieldsOfLast(w: string)
    requires IsField(w)
    ensures Fields(w) == [w]
  {
    assert forall i :: 0 <= i < |w| ==> !IsSpace(w[i]);
    assert w[..|w|] == w && w[|w|..] == [];
    FieldsOfWord(w, |w|);
  }

  lemma FieldsOfFirst(w: string, rest: string)
    requires IsField(w)
    ensures Fields(w + " " + rest) == [w] + Fields(rest)
  {
    var s := w + " " + rest;
    var k := |w|;
    assert forall i :: 0 <= i < k ==> s[i] == w[i];
    assert forall i :: 0 <= i < k ==> !IsSpace(s[i]);
    assert s[k] == ' ';
    assert s[..k] == w;
    assert s[k..] == " " + rest;
    FieldsOfWord(s, k);
    FieldsSkipSpace(" " + rest);
    assert (" " + rest)[1..] == rest;
  }

  lemma JoinStep(fs: seq<string>)
    requires |fs| > 1 && IsField(fs[0])
    requires Fields(JoinSpace(fs[1..])) == fs[1..]
    ensures Fields(JoinSpace(fs)) == fs
  {
    var w, tail := fs[0], fs[1..];
    var j := JoinSpace(tail);
    calc {
      Fields(JoinSpace(fs));
      { assert JoinSpace(fs) == w + " " + j; }
      Fields(w + " " + j);
      { FieldsOfFirst(w, j); }
      [w] + Fields(j);
      [w] + tail;
      { assert [w] + tail == fs; }
      fs;
    }
  }

  /** Splitting undoes joining: fields written out with single spaces are
      read back as the same fields. */
  lemma {:induction false} FieldsOfJoin(fs: seq<string>)
    requires AllFields(fs)
    ensures Fields(JoinSpace(fs)) == fs
  {
    if |fs| == 1 {
      FieldsOfLast(fs[0]);
    } else if |fs| > 1 {
      FieldsOfJoin(fs[1..]);
      JoinStep(fs);
    }
  }

  // ---------------------------------------------------------------------
  // Keyword dispatch

  /** A value, or the message the daemon terminates with. */
  datatype Outcome<T> = Ok(value: T) | Fatal(msg: string)

  /** A word in lower case, as tolower() leaves it. */
  function Lower(s: string): (r: string)
    ensures |r| == |s| && forall i :: 0 <= i < |s| ==> r[i] == ToLower(s[i])
  {
    seq(|s|, i requires 0 <= i < |s| => ToLower(s[i]))
  }

  /** strcasecmp() against a keyword written in lower case is equality of the
      lower-cased word with the keyword; the dispatch below compares that way. */
  lemma CaseInsensitiveMatch(field: string, keyword: string)
    requires Lower(keyword) == keyword
    ensures EqualsIgnoreCase(field, keyword) <==> Lower(field) == keyword
  {
    if Lower(field) == keyword {
      forall i | 0 <= i < |field| ensures ToLower(field[i]) == ToLower(keyword[i]) {
        assert ToLower(keyword[i]) == Lower(keyword)[i];
      }
    }
    if EqualsIgnoreCase(field, keyword) {
      forall i | 0 <= i < |field| ensures Lower(field)[i] == keyword[i] {
        assert ToLower(keyword[i]) == Lower(keyword)[i];
      }
    }
  }

  /** A yes/no, high/low or db/linear choice. */
  function Choice(value: string, yes: string, no: string): Option<bool> {
    var v := Lower(value);
    if v == yes then Some(true) else if v == no then Some(false) else None
  }

  /** The sample width in bytes for a `bits` value. */
  function BytesForBits(bits: int): (r: Option<int>)
    ensures r.Some? <==> bits == 8 || bits == 16 || bits == 24 || bits == 32
    ensures r.Some? ==> 1 <= r.value <= 4 && r.value == bits / 8
  {
    match bits
    case 8 => Some(1)
    case 16 => Some(2)
    case 24 => Some(3)
    case 32 => Some(4)
    case _ => None
  }

  /** The side of a band, named in any case. */
  function SideOf(side: string): (r: Option<Side>)
    ensures r == Some(Left) <==> EqualsIgnoreCase(side, "left")
    ensures r == Some(Right) <==> EqualsIgnoreCase(side, "right")
    ensures r.None? <==> !EqualsIgnoreCase(side, "left") && !EqualsIgnoreCase(side, "right")
  {
    CaseInsensitiveMatch(side, "left");
    CaseInsensitiveMatch(side, "right");
    var s := Lower(side);
    if s == "left" then Some(Left) else if s == "right" then Some(Right) else None
  }

  /** config_band: takes the next slot, counting it before the capacity
      test, so the slot that would make the table full is refused. */
  function ConfigBand(bands: seq<Band>, ident: string, start: string, end: string, side: string)
    : (r: Outcome<seq<Band>>)
    requires |bands| < MaxBands
    ensures r.Ok? ==> |r.value| == |bands| + 1 < MaxBands && r.value[..|bands|] == bands
  {
    if |bands| + 1 == MaxBands then Fatal("too many bands specified in config file")
    else match SideOf(side)
      case Some(s) => Ok(bands + [Band(ident, s, Atoi(start), Atoi(end))])
      case None => Fatal("must specify left or right side for band " + ident)
  }

  function LineError(lino: nat): string {
    "error in config file, line " + Decimal(lino)
  }

  /** One non-band line, given as its fields, applied to the settings.
      `dirs` is the set of paths that name directories (the stat() test). */
  function ApplySetting(s: Settings, f: seq<string>, lino: nat, dirs: set<string>): (r: Outcome<Settings>)
    requires |f| >= 1
    ensures r.Ok? ==> |f| == 2 || |f| == 3
  {
    var n, k := |f|, Lower(f[0]);
    if n == 2 && k == "output_policy" then
      var v := Lower(f[1]);
      if v == "spectrum" then Ok(s.(policy := Spectrum))
      else if v == "bands_each" then Ok(s.(policy := BandsEach))
      else if v == "bands_multi" then Ok(s.(policy := BandsMulti))
      else Fatal("unrecognised output policy [" + f[1] + "]")
    else if n == 2 && k == "output_interval" then Ok(s.(outputInterval := f[1]))
    else if n == 3 && k == "spectrum_range" then Ok(s.(range1 := Atoi(f[1]), range2 := Atoi(f[2])))
    else if n == 2 && k == "logfile" then
      Ok(s.(logfile := if |s.logfile| > 0 then f[1] else []))
    else if n == 3 && k == "los" then Ok(s.(losThresh := f[1], losTimeout := Atoi(f[2])))
    else if n == 2 && k == "device" then Ok(s.(device := f[1]))
    else if n == 2 && k == "mode" then
      var v := Lower(f[1]);
      if v == "mono" then Ok(s.(chans := 1))
      else if v == "stereo" then Ok(s.(chans := 2))
      else Fatal(LineError(lino))
    else if n == 2 && k == "bits" then
      match BytesForBits(Atoi(f[1]))
      case Some(b) => Ok(s.(bytes := b))
      case None => Fatal("can only do 8,16,24,32  bits, config file line " + Decimal(lino))
    else if n == 2 && k == "output_files" then Ok(s.(outputFiles := f[1]))
    else if n == 2 && k == "timestamp" then Ok(s.(timestamp := f[1]))
    else if n == 2 && k == "output_header" then
      match Choice(f[1], "yes", "no")
      case Some(v) => Ok(s.(outputHeader := v))
      case None => Fatal("expecting yes or no for output_header")
    else if n == 2 && k == "output_power" then
      match Choice(f[1], "yes", "no")
      case Some(v) => Ok(s.(outputPower := v))
      case None => Fatal("expecting yes or no for output_power")
    else if n == 2 && k == "output_peak" then
      match Choice(f[1], "yes", "no")
      case Some(v) => Ok(s.(outputPeak := v))
      case None => Fatal("expecting yes or no for output_peak")
    else if n == 3 && k == "utility_spectrum" then
      Ok(s.(uspecFile := Some(f[1]), uspecSecs := f[2]))
    else if n == 2 && k == "sched" then
      match Choice(f[1], "high", "low")
      case Some(v) => Ok(s.(priority := v))
      case None => Fatal("expecting high or low for sched parameter")
    else if n == 2 && k == "rate" then Ok(s.(sampleRate := Atoi(f[1])))
    else if n == 2 && k == "bins" then Ok(s.(bins := Atoi(f[1])))
    else if n == 2 && k == "datadir" then
      if f[1] in dirs then Ok(s.(datadir := f[1])) else Fatal("no data directory, " + f[1])
    else if n == 2 && k == "card_delay" then Ok(s.(cardDelay := Atoi(f[1])))
    else if n == 2 && k == "offset_db" then Ok(s.(offsetDb := f[1]))
    else if n == 2 && k == "nread" then Ok(s.(nread := Atoi(f[1])))
    else if n == 2 && k == "field_format" then Ok(s.(fieldFormat := f[1]))
    else if n == 2 && k == "field_scale" then
      match Choice(f[1], "db", "linear")
      case Some(v) => Ok(s.(logScale := v))
      case None => Fatal("expecting linear or db for field_scale")
    else if n == 2 && k == "mail" then Ok(s.(mailaddr := Some(f[1])))
    else Fatal(LineError(lino))
  }

  /** One non-blank line, given as its fields, applied to the configuration. */
  function ApplyLine(cfg: Config, f: seq<string>, lino: nat, dirs: set<string>): (r: Outcome<Config>)
    requires |f| >= 1 && |cfg.bands| < MaxBands
    ensures r.Ok? ==> |r.value.bands| < MaxBands && cfg.bands <= r.value.bands
  {
    if |f| == 5 && Lower(f[0]) == "band" then
      match ConfigBand(cfg.bands, f[1], f[2], f[3], f[4])
      case Ok(b) => Ok(cfg.(bands := b))
      case Fatal(m) => Fatal(m)
    else
      match ApplySetting(cfg.settings, f, lino, dirs)
      case Ok(s) => Ok(cfg.(settings := s))
      case Fatal(m) => Fatal(m)
  }

  /** The file read line by line, numbering lines from lino + 1. */
  function ApplyLines(cfg: Config, lines: seq<string>, lino: nat, dirs: set<string>): (r: Outcome<Config>)
    requires |cfg.bands| < MaxBands
    ensures r.Ok? ==> cfg.bands <= r.value.bands
    decreases |lines|
  {
    if lines == [] then Ok(cfg)
    else
      var f := Fields(Truncate(lines[0]));
      if f == [] then ApplyLines(cfg, lines[1..], lino + 1, dirs)
      else match ApplyLine(cfg, f, lino + 1, dirs)
        case Ok(c) => ApplyLines(c, lines[1..], lino + 1, dirs)
        case Fatal(m) => Fatal(m)
  }

  /** load_config: reads the lines in order from the defaults on; the first
      fatal line ends it. */
  method LoadConfig(lines: seq<string>, dirs: set<string>) returns (r: Outcome<Config>)
    ensures r == ApplyLines(Defaults(), lines, 0, dirs)
    ensures r.Ok? ==> |r.value.bands| < MaxBands
  {
    var cfg := Defaults();
    var lino := 0;
    while lino < |lines|
      invariant 0 <= lino <= |lines| && |cfg.bands| < MaxBands
      invariant ApplyLines(Defaults(), lines, 0, dirs) == ApplyLines(cfg, lines[lino..], lino, dirs)
    {
      assert lines[lino..][1..] == lines[lino + 1..];
      var line := Truncate(lines[lino]);
      var fields := SplitFields(line);
      lino := lino + 1;
      if fields == [] {
        continue;
      }
      var next := ApplyLine(cfg, fields, lino, dirs);
      if next.Fatal? {
        return next;
      }
      cfg := next.value;
    }
    assert lines[lino..] == [];
    r := Ok(cfg);
    BandTableNeverFull(Defaults(), lines, 0, dirs);
  }

  // ---------------------------------------------------------------------
  // Properties of the dispatch

  /** The keyword and field-count pairs the reader knows, independently of
      the order in which it tries them. */
  predicate Known(keyword: string, n: nat) {
    var k := Lower(keyword);
    (n == 2 && k in {"output_policy", "output_interval", "logfile", "device", "mode", "bits",
                     "output_files", "timestamp", "output_header", "output_power", "output_peak",
                     "sched", "rate", "bins", "datadir", "card_delay", "offset_db", "nread",
                     "field_format", "field_scale", "mail"})
    || (n == 3 && k in {"spectrum_range", "los", "utility_spectrum"})
    || (n == 5 && k == "band")
  }

  /** A line whose keyword and field count the reader does not know is
      fatal, whatever the configuration so far. */
  lemma UnknownLineIsFatal(cfg: Config, f: seq<string>, lino: nat, dirs: set<string>)
    requires |f| >= 1 && |cfg.bands| < MaxBands && !Known(f[0], |f|)
    ensures ApplyLine(cfg, f, lino, dirs) == Fatal(LineError(lino))
  {
  }

  /** The keywords whose values are taken without any check. */
  predicate FreeKeyword(keyword: string, n: nat) {
    var k := Lower(keyword);
    (n == 2 && k in {"output_interval", "logfile", "device", "output_files", "timestamp",
                     "rate", "bins", "card_delay", "offset_db", "nread", "field_format", "mail"})
    || (n == 3 && k in {"spectrum_range", "los", "utility_spectrum"})
  }

  /** A line with one of those keywords is always accepted and leaves the
      band table alone. */
  lemma FreeLineIsAccepted(cfg: Config, f: seq<string>, lino: nat, dirs: set<string>)
    requires |f| >= 1 && |cfg.bands| < MaxBands && FreeKeyword(f[0], |f|)
    ensures ApplyLine(cfg, f, lino, dirs).Ok?
    ensures ApplyLine(cfg, f, lino, dirs).value.bands == cfg.bands
  {
  }

  /** `bits` accepts exactly 8, 16, 24 and 32 and sets the width to an
      eighth of it; nothing else changes. */
  lemma BitsSetting(cfg: Config, value: string, lino: nat, dirs: set<string>)
    requires |cfg.bands| < MaxBands
    ensures var r := ApplyLine(cfg, ["bits", value], lino, dirs);
      (r.Ok? <==> Atoi(value) in {8, 16, 24, 32})
      && (r.Ok? ==> r.value == cfg.(settings := cfg.settings.(bytes := Atoi(value) / 8)))
  {
    BitsDispatch(cfg.settings, value, lino, dirs);
  }

  /** A `bits` line reaches the width table. */
  lemma BitsDispatch(s: Settings, value: string, lino: nat, dirs: set<string>)
    ensures var r := ApplySetting(s, ["bits", value], lino, dirs);
      (r.Ok? <==> BytesForBits(Atoi(value)).Some?)
      && (r.Ok? ==> r.value == s.(bytes := BytesForBits(Atoi(value)).value))
  {
    assert Lower("bits") == "bits";
  }

  /** `mode` accepts mono and stereo in any letter case, giving one or two
      channels; any other word is fatal with the line number. */
  lemma ModeSetting(cfg: Config, value: string, lino: nat, dirs: set<string>)
    requires |cfg.bands| < MaxBands
    ensures var r := ApplyLine(cfg, ["mode", value], lino, dirs);
      (r.Ok? <==> EqualsIgnoreCase(value, "mono") || EqualsIgnoreCase(value, "stereo"))
      && (r.Ok? ==> r.value == cfg.(settings := cfg.settings.(chans := if Lower(value) == "mono" then 1 else 2)))
      && (r.Fatal? ==> r.msg == LineError(lino))
  {
    assert Lower("mode") == "mode";
    CaseInsensitiveMatch(value, "mono");
    CaseInsensitiveMatch(value, "stereo");
  }

  /** `output_policy` accepts SPECTRUM, BANDS_EACH and BANDS_MULTI in any
      letter case and sets the policy; any other word is fatal, naming it. */
  lemma PolicySetting(cfg: Config, value: string, lino: nat, dirs: set<string>)
    requires |cfg.bands| < MaxBands
    ensures var r := ApplyLine(cfg, ["output_policy", value], lino, dirs);
      var s := cfg.settings;
      (r.Ok? <==> EqualsIgnoreCase(value, "spectrum") || EqualsIgnoreCase(value, "bands_each")
                  || EqualsIgnoreCase(value, "bands_multi"))
      && (EqualsIgnoreCase(value, "spectrum") ==> r == Ok(cfg.(settings := s.(policy := Spectrum))))
      && (EqualsIgnoreCase(value, "bands_each") ==> r == Ok(cfg.(settings := s.(policy := BandsEach))))
      && (EqualsIgnoreCase(value, "bands_multi") ==> r == Ok(cfg.(settings := s.(policy := BandsMulti))))
      && (r.Fatal? ==> r.msg == "unrecognised output policy [" + value + "]")
  {
    assert Lower("output_policy") == "output_policy";
    CaseInsensitiveMatch(value, "spectrum");
    CaseInsensitiveMatch(value, "bands_each");
    CaseInsensitiveMatch(value, "bands_multi");
  }

  /** `output_header` accepts yes and no in any letter case, turning file headers on or
      off; any other word is fatal. */
  lemma HeaderSetting(cfg: Config, value: string, lino: nat, dirs: set<string>)
    requires |cfg.bands| < MaxBands
    ensures var r := ApplyLine(cfg, ["output_header", value], lino, dirs);
      (r.Ok? <==> EqualsIgnoreCase(value, "yes") || EqualsIgnoreCase(value, "no"))
      && (r.Ok? ==> r.value == cfg.(settings := cfg.settings.(outputHeader := EqualsIgnoreCase(value, "yes"))))
      && (r.Fatal? ==> r.msg == "expecting yes or no for output_header")
  {
    assert Lower("output_header") == "output_header";
    CaseInsensitiveMatch(value, "yes");
    CaseInsensitiveMatch(value, "no");
  }

  /** `output_power` accepts yes and no in any letter case, turning the total power output on or
      off; any other word is fatal. */
  lemma PowerSetting(cfg: Config, value: string, lino: nat, dirs: set<string>)
    requires |cfg.bands| < MaxBands
    ensures var r := ApplyLine(cfg, ["output_power", value], lino, dirs);
      (r.Ok? <==> EqualsIgnoreCase(value, "yes") || EqualsIgnoreCase(value, "no"))
      && (r.Ok? ==> r.value == cfg.(settings := cfg.settings.(outputPower := EqualsIgnoreCase(value, "yes"))))
      && (r.Fatal? ==> r.msg == "expecting yes or no for output_power")
  {
    assert Lower("output_power") == "output_power";
    CaseInsensitiveMatch(value, "yes");
    CaseInsensitiveMatch(value, "no");
  }

  /** `output_peak` accepts yes and no in any letter case, turning the peak output on or
      off; any other word is fatal. */
  lemma PeakSetting(cfg: Config, value: string, lino: nat, dirs: set<string>)
    requires |cfg.bands| < MaxBands
    ensures var r := ApplyLine(cfg, ["output_peak", value], lino, dirs);
      (r.Ok? <==> EqualsIgnoreCase(value, "yes") || EqualsIgnoreCase(value, "no"))
      && (r.Ok? ==> r.value == cfg.(settings := cfg.settings.(outputPeak := EqualsIgnoreCase(value, "yes"))))
      && (r.Fatal? ==> r.msg == "expecting yes or no for output_peak")
  {
    assert Lower("output_peak") == "output_peak";
    CaseInsensitiveMatch(value, "yes");
    CaseInsensitiveMatch(value, "no");
  }

  /** `sched` accepts high and low in any letter case, giving high or
      normal priority; any other word is fatal. */
  lemma SchedSetting(cfg: Config, value: string, lino: nat, dirs: set<string>)
    requires |cfg.bands| < MaxBands
    ensures var r := ApplyLine(cfg, ["sched", value], lino, dirs);
      (r.Ok? <==> EqualsIgnoreCase(value, "high") || EqualsIgnoreCase(value, "low"))
      && (r.Ok? ==> r.value == cfg.(settings := cfg.settings.(priority := EqualsIgnoreCase(value, "high"))))
      && (r.Fatal? ==> r.msg == "expecting high or low for sched parameter")
  {
    assert Lower("sched") == "sched";
    CaseInsensitiveMatch(value, "high");
    CaseInsensitiveMatch(value, "low");
  }

  /** `field_scale` accepts db and linear in any letter case, turning the
      logarithmic scale on or off; any other word is fatal. */
  lemma ScaleSetting(cfg: Config, value: string, lino: nat, dirs: set<string>)
    requires |cfg.bands| < MaxBands
    ensures var r := ApplyLine(cfg, ["field_scale", value], lino, dirs);
      (r.Ok? <==> EqualsIgnoreCase(value, "db") || EqualsIgnoreCase(value, "linear"))
      && (r.Ok? ==> r.value == cfg.(settings := cfg.settings.(logScale := EqualsIgnoreCase(value, "db"))))
      && (r.Fatal? ==> r.msg == "expecting linear or db for field_scale")
  {
    assert Lower("field_scale") == "field_scale";
    CaseInsensitiveMatch(value, "db");
    CaseInsensitiveMatch(value, "linear");
  }

  /** `datadir` is accepted exactly when the path names a directory, and
      then becomes the data directory; otherwise it is fatal, naming it. */
  lemma DatadirSetting(cfg: Config, value: string, lino: nat, dirs: set<string>)
    requires |cfg.bands| < MaxBands
    ensures var r := ApplyLine(cfg, ["datadir", value], lino, dirs);
      (r.Ok? <==> value in dirs)
      && (r.Ok? ==> r.value == cfg.(settings := cfg.settings.(datadir := value)))
      && (r.Fatal? ==> r.msg == "no data directory, " + value)
  {
    assert Lower("datadir") == "datadir";
  }

  /** Band registration: it succeeds exactly when the table has room to
      spare and the side is left or right in any letter case, and then
      appends the band. */
  lemma ConfigBandSpec(bands: seq<Band>, ident: string, start: string, end: string, side: string)
    requires |bands| < MaxBands
    ensures var r := ConfigBand(bands, ident, start, end, side);
      (r.Ok? <==> |bands| < MaxBands - 1
                  && (EqualsIgnoreCase(side, "left") || EqualsIgnoreCase(side, "right")))
      && (r.Ok? ==> r.value == bands + [Band(ident, if Lower(side) == "left" then Left else Right,
                                              Atoi(start), Atoi(end))])
      && (|bands| == MaxBands - 1 ==> r == Fatal("too many bands specified in config file"))
  {
    CaseInsensitiveMatch(side, "left");
    CaseInsensitiveMatch(side, "right");
  }

  /** However long the file, an accepted configuration leaves the last slot
      of the band table unused. */
  lemma {:induction false} BandTableNeverFull(cfg: Config, lines: seq<string>, lino: nat, dirs: set<string>)
    requires |cfg.bands| < MaxBands
    ensures ApplyLines(cfg, lines, lino, dirs).Ok? ==>
              |ApplyLines(cfg, lines, lino, dirs).value.bands| <= MaxBands - 1
    decreases |lines|
  {
    if lines != [] {
      var f := Fields(Truncate(lines[0]));
      if f == [] {
        BandTableNeverFull(cfg, lines[1..], lino + 1, dirs);
      } else if ApplyLine(cfg, f, lino + 1, dirs).Ok? {
        BandTableNeverFull(ApplyLine(cfg, f, lino + 1, dirs).value, lines[1..], lino + 1, dirs);
      }
    }
  }

  lemma BlankHasNoFields(s: string)
    requires forall i :: 0 <= i < |s| ==> IsSpace(s[i])
    ensures Fields(s) == []
  {
  }

  /** A line holding only white space before its comment mark changes
      nothing but the line count. */
  lemma CommentLineIgnored(cfg: Config, blank: string, comment: string, rest: seq<string>,
                           lino: nat, dirs: set<string>)
    requires |cfg.bands| < MaxBands
    requires forall i :: 0 <= i < |blank| ==> IsSpace(blank[i])
    ensures ApplyLines(cfg, [blank + ";" + comment] + rest, lino, dirs)
         == ApplyLines(cfg, rest, lino + 1, dirs)
  {
    var line := blank + ";" + comment;
    var t := Truncate(line);
    assert line[|blank|] == ';';
    assert forall i :: 0 <= i < |t| ==> t[i] == blank[i];
    BlankHasNoFields(t);
    assert ([line] + rest)[0] == line && ([line] + rest)[1..] == rest;
  }
}

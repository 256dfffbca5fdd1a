/** The output files (output_record_multi, output_record_each and
    output_spectrum_record) against an abstract file store.

    The store maps file names to their lines.  A record is written through a
    handle: the name of the file it was opened on.  On every record the
    output_files template is expanded; only when the expansion differs from
    the last one are the files reopened, in append mode, and a header is
    written into a reopened file only when it is wanted and the file is
    empty, since the daemon may be restarting onto an existing file.

    Lines are kept abstract: a header of fixed text, the frequency header of
    the spectrum file, or a record holding its time stamp and its numbers
    before printf formats them. */
module Output {
  import opened Basics
  import opened Template
  import opened Config
  import opened Calendar

  /** One line of an output file. */
  datatype Line =
    | Heading(s: string)
    | FreqHeader(freqs: seq<real>)
    | Record(stamp: string, fields: seq<real>)

  const BadTemplate: string := "error in output_files configuration"
  const BandNotAllowed: string := "cannot specify %B in this mode"
  /** The header of a BANDS_EACH file. */
  const EachHeader: Line := Heading("stamp power")

  /** The file name for an expanded prefix: the data directory, a slash and
      the prefix. */
  function PathOf(datadir: string, prefix: string): (p: string)
    ensures |p| == |datadir| + 1 + |prefix| && p[|datadir|] == '/'
  {
    datadir + "/" + prefix
  }

  /** The prefix a record goes under: a failed expansion of output_files is
      fatal, with its own message when it failed on %B. */
  function PrefixOf(e: Expansion): (r: Outcome<string>)
    ensures r.Ok? <==> e.Expanded?
    ensures r.Ok? ==> r.value == e.text
    ensures r.Fatal? ==> r.msg == (if e.NoBand? then BandNotAllowed else BadTemplate)
  {
    match e
    case Expanded(t) => Ok(t)
    case BadDirective(_) => Fatal(BadTemplate)
    case NoBand => Fatal(BandNotAllowed)
  }

  /** What the buffer holds after an expansion whose result is not checked:
      the whole text, or what was written before a bad directive. */
  function TextOf(e: Expansion): (r: string)
    ensures e.Expanded? ==> r == e.text
    ensures e.BadDirective? ==> r == e.partial
    ensures e.NoBand? ==> r == []
  {
    match e
    case Expanded(t) => t
    case BadDirective(p) => p
    case NoBand => []
  }

  /** A time stamp: its expansion is not checked, but %B without a band is
      fatal inside the expander itself. */
  function StampOf(e: Expansion): (r: Outcome<string>)
    ensures r.Fatal? <==> e.NoBand?
    ensures r.Ok? ==> r.value == TextOf(e)
  {
    if e.NoBand? then Fatal(BandNotAllowed) else Ok(TextOf(e))
  }

  function Contents(files: map<string, seq<Line>>, name: string): seq<Line> {
    if name in files then files[name] else []
  }

  /** Lines appended to a file, which is created when missing. */
  function Append(files: map<string, seq<Line>>, name: string, ls: seq<Line>): (r: map<string, seq<Line>>)
    ensures Contents(r, name) == Contents(files, name) + ls
    ensures forall n :: n != name ==> Contents(r, n) == Contents(files, n)
  {
    files[name := Contents(files, name) + ls]
  }

  /** What is put into a handle just opened: the header when one is wanted
      and stat finds the file empty, nothing otherwise. */
  function HeaderFor(before: seq<Line>, header: Option<Line>): (ls: seq<Line>)
    ensures |ls| <= 1 && (ls != [] <==> header.Some? && before == [])
    ensures ls != [] ==> ls[0] == header.value
  {
    if header.Some? && before == [] then [header.value] else []
  }

  /** A file's lines after it is opened and its header written out: the
      header when one is wanted and the file is empty, its old lines
      otherwise. */
  function Opened(before: seq<Line>, header: Option<Line>): seq<Line> {
    before + HeaderFor(before, header)
  }

  /** fopen in append mode, which creates a missing file and writes
      nothing. */
  function Touch(files: map<string, seq<Line>>, name: string): (r: map<string, seq<Line>>)
    ensures name in r
  {
    Append(files, name, [])
  }

  /** Opening a file leaves every file's lines as they were. */
  lemma TouchKeeps(files: map<string, seq<Line>>, name: string, n: string)
    ensures Contents(Touch(files, name), n) == Contents(files, n)
  {
    assert Contents(files, name) + [] == Contents(files, name);
  }

  /** fopen in append mode, then the header when one is wanted and the file
      is empty. */
  function Open(files: map<string, seq<Line>>, name: string, header: Option<Line>): (r: map<string, seq<Line>>)
    ensures Contents(r, name) == Opened(Contents(files, name), header)
    ensures forall n :: n != name ==> Contents(r, n) == Contents(files, n)
  {
    Append(files, name, HeaderFor(Contents(files, name), header))
  }

  /** Lines written through a handle; with no file open they go nowhere. */
  function Write(files: map<string, seq<Line>>, handle: Option<string>, ls: seq<Line>): map<string, seq<Line>> {
    if handle.Some? then Append(files, handle.value, ls) else files
  }

  /** The files together with the output state of the daemon: the last
      expanded prefix (out_prefix), the handle of the single output file
      (bm_fo or sf_fo) and one handle per band (the bands' fo). */
  datatype Store = Store(files: map<string, seq<Line>>, prefix: string,
                         shared: Option<string>, perBand: seq<Option<string>>)

  /** No output handle for any of n bands. */
  function NoHandles(n: nat): (hs: seq<Option<string>>)
    ensures |hs| == n && forall i :: 0 <= i < n ==> hs[i].None?
  {
    seq(n, _ => None)
  }

  /** The band identifiers, each followed by a space. */
  function IdentList(idents: seq<string>): string
    decreases |idents|
  {
    if idents == [] then []
    else IdentList(idents[..|idents| - 1]) + idents[|idents| - 1] + " "
  }

  /** The header of the BANDS_MULTI file. */
  function MultiHeader(idents: seq<string>): Line {
    Heading("stamp lpeak rpeak lrms rrms " + IdentList(idents))
  }

  /** One record into the single output file of the BANDS_MULTI and
      SPECTRUM policies, with `header` as that policy's header line. */
  function SharedStep(st: Store, s: Settings, header: Line, tv: Timeval, frac: Fractions,
                      fields: seq<real>): (r: Outcome<Store>)
    ensures r.Ok? ==> r.value.perBand == st.perBand
    ensures r.Ok? && r.value.prefix != st.prefix ==> r.value.shared == Some(PathOf(s.datadir, r.value.prefix))
    ensures r.Ok? ==> forall n :: Contents(st.files, n) <= Contents(r.value.files, n)
  {
    var env := Env(tv, frac, None);
    match PrefixOf(Expand(s.outputFiles, env))
    case Fatal(m) => Fatal(m)
    case Ok(p) =>
      var st1 :=
        if p == st.prefix then st
        else
          var name := PathOf(s.datadir, p);
          st.(files := Open(st.files, name, if s.outputHeader then Some(header) else None),
              prefix := p, shared := Some(name));
      match StampOf(Expand(s.timestamp, env))
      case Fatal(m) => Fatal(m)
      case Ok(stamp) => Ok(st1.(files := Write(st1.files, st1.shared, [Record(stamp, fields)])))
  }

  /** The file of one band under the BANDS_EACH policy. */
  function BandFile(s: Settings, ident: string, tv: Timeval, frac: Fractions): string {
    PathOf(s.datadir, TextOf(Expand(s.outputFiles, Env(tv, frac, Some(ident)))))
  }

  function BandHeader(s: Settings): Option<Line> {
    if s.outputHeader then Some(EachHeader) else None
  }

  /** The files of all bands, in table order. */
  function BandFiles(s: Settings, idents: seq<string>, tv: Timeval, frac: Fractions): (names: seq<string>)
    ensures |names| == |idents|
  {
    seq(|idents|, i requires 0 <= i < |idents| => BandFile(s, idents[i], tv, frac))
  }

  /** Opening a list of files in order.  Opening writes nothing to the
      files themselves: a header goes into the stdio buffer of the new
      handle (see Buffered). */
  function OpenAll(files: map<string, seq<Line>>, names: seq<string>): (r: map<string, seq<Line>>)
    ensures forall n :: n in files ==> n in r
    ensures forall i :: 0 <= i < |names| ==> names[i] in r
    decreases |names|
  {
    if names == [] then files
    else Touch(OpenAll(files, names[..|names| - 1]), names[|names| - 1])
  }

  /** What each new band handle holds unflushed after the reopening loop:
      the header when it is wanted and the band's file was empty.  Nothing
      is flushed during the loop, so stat sees every file as it was before
      it, and bands sharing one empty file each hold a header. */
  function Buffered(files: map<string, seq<Line>>, names: seq<string>, header: Option<Line>): (pend: seq<seq<Line>>)
    ensures |pend| == |names|
  {
    seq(|names|, i requires 0 <= i < |names| => HeaderFor(Contents(files, names[i]), header))
  }

  /** n handles with nothing buffered. */
  function NoLines(n: nat): (pend: seq<seq<Line>>)
    ensures |pend| == n && forall i :: 0 <= i < n ==> pend[i] == []
  {
    seq(n, _ => [])
  }

  /** One handle per file name. */
  function Handles(names: seq<string>): (hs: seq<Option<string>>)
    ensures |hs| == |names|
  {
    seq(|names|, i requires 0 <= i < |names| => Some(names[i]))
  }

  /** The time stamp of one band's record. */
  function BandStamp(s: Settings, ident: string, tv: Timeval, frac: Fractions): string {
    TextOf(Expand(s.timestamp, Env(tv, frac, Some(ident))))
  }

  /** The record of one band. */
  function BandRecord(s: Settings, ident: string, tv: Timeval, frac: Fractions, value: real): Line {
    Record(BandStamp(s, ident, tv, frac), [value])
  }

  /** One record per band, each through the band's own handle, in table
      order; the fflush after a band's record also writes out what its
      handle still buffered. */
  function Records(files: map<string, seq<Line>>, handles: seq<Option<string>>, pend: seq<seq<Line>>,
                   s: Settings, idents: seq<string>, tv: Timeval, frac: Fractions,
                   values: seq<real>): (r: map<string, seq<Line>>)
    requires |handles| == |pend| == |idents| == |values|
    ensures forall n :: Contents(files, n) <= Contents(r, n)
    decreases |idents|
  {
    if idents == [] then files
    else
      var n := |idents| - 1;
      Write(Records(files, handles[..n], pend[..n], s, idents[..n], tv, frac, values[..n]),
            handles[n], pend[n] + [BandRecord(s, idents[n], tv, frac, values[n])])
  }

  /** The lines the bands' flushes bring, in table order: each band's
      buffered lines, then its record. */
  function Flushed(pend: seq<seq<Line>>, s: Settings, idents: seq<string>, tv: Timeval, frac: Fractions,
                   values: seq<real>): seq<Line>
    requires |pend| == |idents| == |values|
    decreases |idents|
  {
    if idents == [] then []
    else
      var n := |idents| - 1;
      Flushed(pend[..n], s, idents[..n], tv, frac, values[..n])
        + pend[n] + [BandRecord(s, idents[n], tv, frac, values[n])]
  }

  /** One record per band under the BANDS_EACH policy.  The prefix is
      expanded with the stand-in band "ID". */
  function EachStep(st: Store, s: Settings, idents: seq<string>, tv: Timeval, frac: Fractions,
                    values: seq<real>): (r: Outcome<Store>)
    requires |values| == |idents| == |st.perBand|
    ensures r.Ok? ==> r.value.shared == st.shared && |r.value.perBand| == |idents|
    ensures r.Ok? && r.value.prefix != st.prefix ==> r.value.perBand == Handles(BandFiles(s, idents, tv, frac))
  {
    match PrefixOf(Expand(s.outputFiles, Env(tv, frac, Some("ID"))))
    case Fatal(m) => Fatal(m)
    case Ok(p) =>
      var names := BandFiles(s, idents, tv, frac);
      var st1 :=
        if p == st.prefix then st
        else st.(files := OpenAll(st.files, names), prefix := p, perBand := Handles(names));
      var pend := if p == st.prefix then NoLines(|idents|) else Buffered(st.files, names, BandHeader(s));
      Ok(st1.(files := Records(st1.files, st1.perBand, pend, s, idents, tv, frac, values)))
  }

  /** fopen of one band's file in append mode, then, when a header is
      wanted, the stat: the header goes into the new handle's buffer when
      the file is empty. */
  method OpenBand(disk: map<string, seq<Line>>, name: string, wanted: bool)
    returns (disk': map<string, seq<Line>>, header: seq<Line>)
    ensures disk' == Touch(disk, name)
    ensures header == HeaderFor(Contents(disk, name), if wanted then Some(EachHeader) else None)
  {
    disk' := Touch(disk, name);
    TouchKeeps(disk, name, name);
    header := [];
    if wanted && Contents(disk', name) == [] {
      header := [EachHeader];
    }
  }

  /** One turn of the reopening loop: band i's file is opened, and its
      handle and its buffered header are kept after the earlier bands'. */
  method OpenNext(ghost f0: map<string, seq<Line>>, ghost names: seq<string>, i: nat, name: string, s: Settings,
                  disk: map<string, seq<Line>>, hs: seq<Option<string>>, pend: seq<seq<Line>>)
    returns (disk': map<string, seq<Line>>, hs': seq<Option<string>>, pend': seq<seq<Line>>)
    requires i < |names| && name == names[i]
    requires disk == OpenAll(f0, names[..i]) && hs == Handles(names[..i])
    requires pend == Buffered(f0, names[..i], BandHeader(s))
    ensures disk' == OpenAll(f0, names[..i + 1]) && hs' == Handles(names[..i + 1])
    ensures pend' == Buffered(f0, names[..i + 1], BandHeader(s))
  {
    assert Contents(disk, name) == Contents(f0, names[i]) by {
      OpenAllKeeps(f0, names[..i], name);
    }
    var header;
    disk', header := OpenBand(disk, name, s.outputHeader);
    OpenAllStep(f0, names, i);
    HandlesStep(names, i);
    BufferedStep(f0, names, BandHeader(s), i);
    hs' := hs + [Some(name)];
    pend' := pend + [header];
  }

  /** The output state of the daemon over a file store. */
  class OutputFiles {
    var files: map<string, seq<Line>>
    var prefix: string
    var shared: Option<string>
    var perBand: seq<Option<string>>

    function State(): Store
      reads this
    {
      Store(files, prefix, shared, perBand)
    }

    /** The store as the daemon starts: no prefix yet, no file open, and
        no band with an output handle. */
    constructor (disk: map<string, seq<Line>>, nbands: nat)
      ensures State() == Store(disk, [], None, NoHandles(nbands))
    {
      files := disk;
      prefix := [];
      shared := None;
      perBand := NoHandles(nbands);
    }

    /** output_record_multi and output_spectrum_record. */
    method WriteShared(s: Settings, header: Line, tv: Timeval, frac: Fractions, fields: seq<real>)
      returns (err: Option<string>)
      modifies this
      ensures match SharedStep(old(State()), s, header, tv, frac, fields)
        case Ok(st) => err.None? && State() == st
        case Fatal(m) => err == Some(m)
    {
      var env := Env(tv, frac, None);
      var e := SubstituteParams(s.outputFiles, env);
      if !e.Expanded? {
        return Some(PrefixOf(e).msg);
      }
      if e.text != prefix {
        prefix := e.text;
        var name := PathOf(s.datadir, prefix);
        shared := Some(name);
        files := Open(files, name, if s.outputHeader then Some(header) else None);
      }
      var stamp := SubstituteParams(s.timestamp, env);
      if stamp.NoBand? {
        return Some(BandNotAllowed);
      }
      files := Write(files, shared, [Record(TextOf(stamp), fields)]);
      err := None;
    }

    /** output_record_each. */
    method WriteEach(s: Settings, idents: seq<string>, tv: Timeval, frac: Fractions, values: seq<real>)
      returns (err: Option<string>)
      requires |values| == |idents| == |perBand|
      modifies this
      ensures match EachStep(old(State()), s, idents, tv, frac, values)
        case Ok(st) => err.None? && State() == st
        case Fatal(m) => err == Some(m)
    {
      var e := SubstituteParams(s.outputFiles, Env(tv, frac, Some("ID")));
      if !e.Expanded? {
        return Some(PrefixOf(e).msg);
      }
      var pend := NoLines(|idents|);
      if e.text != prefix {
        prefix := e.text;
        pend := ReopenBands(s, idents, tv, frac);
      }
      WriteRecords(s, idents, pend, tv, frac, values);
      err := None;
    }

    /** The reopening loop of output_record_each: each band's file is opened
        in table order, and its header, when wanted and stat finds the file
        empty, is put into the new handle's buffer, returned as `pend`. */
    method ReopenBands(s: Settings, idents: seq<string>, tv: Timeval, frac: Fractions)
      returns (pend: seq<seq<Line>>)
      modifies this
      ensures prefix == old(prefix) && shared == old(shared)
      ensures files == OpenAll(old(files), BandFiles(s, idents, tv, frac))
      ensures perBand == Handles(BandFiles(s, idents, tv, frac))
      ensures pend == Buffered(old(files), BandFiles(s, idents, tv, frac), BandHeader(s))
    {
      ghost var names := BandFiles(s, idents, tv, frac);
      ghost var f0 := files;
      var disk := files;
      var hs: seq<Option<string>> := [];
      pend := [];
      var i := 0;
      while i < |idents|
        invariant 0 <= i <= |idents|
        invariant files == f0 && prefix == old(prefix) && shared == old(shared)
        invariant disk == OpenAll(f0, names[..i])
        invariant hs == Handles(names[..i])
        invariant pend == Buffered(f0, names[..i], BandHeader(s))
      {
        var b := SubstituteParams(s.outputFiles, Env(tv, frac, Some(idents[i])));
        var name := PathOf(s.datadir, TextOf(b));
        assert name == names[i];
        disk, hs, pend := OpenNext(f0, names, i, name, s, disk, hs, pend);
        i := i + 1;
      }
      assert names[..i] == names;
      files := disk;
      perBand := hs;
    }

    /** The record loop of output_record_each: one record per band through
        the band's handle, stamped with the band's identifier. */
    method WriteRecords(s: Settings, idents: seq<string>, pend: seq<seq<Line>>, tv: Timeval, frac: Fractions,
                        values: seq<real>)
      requires |values| == |idents| == |perBand| == |pend|
      modifies this
      ensures prefix == old(prefix) && shared == old(shared) && perBand == old(perBand)
      ensures files == Records(old(files), perBand, pend, s, idents, tv, frac, values)
    {
      var i := 0;
      while i < |idents|
        invariant 0 <= i <= |idents|
        invariant prefix == old(prefix) && shared == old(shared) && perBand == old(perBand)
        invariant files == Records(old(files), perBand[..i], pend[..i], s, idents[..i], tv, frac, values[..i])
      {
        var stamp := SubstituteParams(s.timestamp, Env(tv, frac, Some(idents[i])));
        assert idents[..i + 1][..i] == idents[..i];
        assert perBand[..i + 1][..i] == perBand[..i];
        assert pend[..i + 1][..i] == pend[..i];
        assert values[..i + 1][..i] == values[..i];
        files := Write(files, perBand[i], pend[i] + [Record(TextOf(stamp), [values[i]])]);
        i := i + 1;
      }
      assert idents[..i] == idents && perBand[..i] == perBand && pend[..i] == pend && values[..i] == values;
    }
  }

  /** The single-file policies fail only on a bad output_files template or
      on a %B in either template, and then with the daemon's messages; with
      well-formed templates free of %B they always write. */
  lemma SharedFatalCases(st: Store, s: Settings, header: Line, tv: Timeval, frac: Fractions,
                         fields: seq<real>)
    ensures var r := SharedStep(st, s, header, tv, frac, fields);
      (r.Fatal? ==>
         ((r.msg == BadTemplate && !WellFormed(s.outputFiles))
          || (r.msg == BandNotAllowed && (UsesBand(s.outputFiles) || UsesBand(s.timestamp)))))
      && (WellFormed(s.outputFiles) && !UsesBand(s.outputFiles) && !UsesBand(s.timestamp) ==> r.Ok?)
  {
    var env := Env(tv, frac, None);
    NoBandNeedsBandDirective(s.outputFiles, env);
    NoBandNeedsBandDirective(s.timestamp, env);
    ExpandSucceedsIffWellFormed(s.outputFiles, env.(band := Some("ID")));
    BadDirectiveIgnoresBand(s.outputFiles, env, "ID");
  }

  /** A template that fails on a bad directive without a band fails the same
      way with one. */
  lemma {:induction false} BadDirectiveIgnoresBand(t: string, env: Env, band: string)
    ensures Expand(t, env).BadDirective? ==> Expand(t, env.(band := Some(band))).BadDirective?
    decreases |t|
  {
    var env2 := env.(band := Some(band));
    if t == [] {
    } else if t[0] != '%' {
      BadDirectiveIgnoresBand(t[1..], env, band);
    } else if |t| >= 2 {
      BadDirectiveIgnoresBand(t[2..], env, band);
      if DirectiveText(t[1], env).Text? {
        assert DirectiveText(t[1], env2).Text?;
      }
    }
  }

  /** A record of a single-file policy reopens only when the expanded prefix
      changes, then onto the file of the new prefix; the record lands in the
      open file after the header, which is written only when wanted and the
      file was empty; every other file is left as it was. */
  lemma SharedRecordPlacement(st: Store, s: Settings, header: Line, tv: Timeval, frac: Fractions,
                              fields: seq<real>)
    requires SharedStep(st, s, header, tv, frac, fields).Ok?
    ensures var st2 := SharedStep(st, s, header, tv, frac, fields).value;
      var p := Expand(s.outputFiles, Env(tv, frac, None)).text;
      var stamp := TextOf(Expand(s.timestamp, Env(tv, frac, None)));
      var reopened := p != st.prefix;
      && st2.prefix == p
      && st2.perBand == st.perBand
      && st2.shared == (if reopened then Some(PathOf(s.datadir, p)) else st.shared)
      && (st2.shared.Some? ==>
            var name := st2.shared.value;
            var old_ := Contents(st.files, name);
            Contents(st2.files, name) ==
              (if reopened && s.outputHeader && old_ == [] then [header] else old_) + [Record(stamp, fields)]
            && forall n :: n != name ==> Contents(st2.files, n) == Contents(st.files, n))
  {
  }

  /** With a template made of calendar fields and literals (the default
      "%y%m%d.dat"), a second record on the same UTC day goes into the same
      file, with no reopening and no header. */
  lemma SameDaySameFile(st: Store, s: Settings, header: Line, tv1: Timeval, tv2: Timeval,
                        frac1: Fractions, frac2: Fractions, fields1: seq<real>, fields2: seq<real>)
    requires DayOnly(s.outputFiles)
    requires tv1.sec / SecondsPerDay == tv2.sec / SecondsPerDay
    requires SharedStep(st, s, header, tv1, frac1, fields1).Ok?
    ensures var st1 := SharedStep(st, s, header, tv1, frac1, fields1).value;
      var r := SharedStep(st1, s, header, tv2, frac2, fields2);
      r.Ok? ==> r.value.prefix == st1.prefix && r.value.shared == st1.shared
  {
    SameDaySameExpansion(s.outputFiles, Env(tv1, frac1, None), Env(tv2, frac2, None));
  }

  /** Under BANDS_EACH the only failure is a bad output_files template:
      every band has an identifier for %B, and its time stamp is not checked. */
  lemma EachFatalCases(st: Store, s: Settings, idents: seq<string>, tv: Timeval, frac: Fractions,
                       values: seq<real>)
    requires |values| == |idents| == |st.perBand|
    ensures var r := EachStep(st, s, idents, tv, frac, values);
      (r.Fatal? <==> !WellFormed(s.outputFiles)) && (r.Fatal? ==> r.msg == BadTemplate)
  {
    ExpandSucceedsIffWellFormed(s.outputFiles, Env(tv, frac, Some("ID")));
  }

  /** Opening one more file of a list. */
  lemma OpenAllStep(files: map<string, seq<Line>>, names: seq<string>, i: nat)
    requires i < |names|
    ensures OpenAll(files, names[..i + 1]) == Touch(OpenAll(files, names[..i]), names[i])
  {
    var s := names[..i + 1];
    assert s[..|s| - 1] == names[..i] && s[|s| - 1] == names[i];
  }

  /** Holding one more handle. */
  lemma HandlesStep(names: seq<string>, i: nat)
    requires i < |names|
    ensures Handles(names[..i + 1]) == Handles(names[..i]) + [Some(names[i])]
  {
    var h, h' := Handles(names[..i + 1]), Handles(names[..i]) + [Some(names[i])];
    forall k | 0 <= k <= i
      ensures h[k] == h'[k]
    {
      if k < i {
        assert h'[k] == Handles(names[..i])[k];
      }
    }
  }

  /** Buffering one more header. */
  lemma BufferedStep(files: map<string, seq<Line>>, names: seq<string>, header: Option<Line>, i: nat)
    requires i < |names|
    ensures Buffered(files, names[..i + 1], header)
         == Buffered(files, names[..i], header) + [HeaderFor(Contents(files, names[i]), header)]
  {
    var b, b' := Buffered(files, names[..i + 1], header),
                 Buffered(files, names[..i], header) + [HeaderFor(Contents(files, names[i]), header)];
    forall k | 0 <= k <= i
      ensures b[k] == b'[k]
    {
      if k < i {
        assert b'[k] == Buffered(files, names[..i], header)[k];
      }
    }
  }

  /** Opening files writes nothing to them: every file keeps its lines. */
  lemma {:induction false} OpenAllKeeps(files: map<string, seq<Line>>, names: seq<string>, name: string)
    ensures Contents(OpenAll(files, names), name) == Contents(files, name)
    decreases |names|
  {
    if names != [] {
      OpenAllKeeps(files, names[..|names| - 1], name);
      TouchKeeps(OpenAll(files, names[..|names| - 1]), names[|names| - 1], name);
    }
  }

  /** No two entries of a list are equal. */
  predicate Distinct<T(==)>(xs: seq<T>) {
    forall i, j :: 0 <= i < j < |xs| ==> xs[i] != xs[j]
  }

  /** With one handle per file, each band's file gains exactly what that
      band's handle buffered, then that band's record, stamped with its own
      identifier. */
  lemma {:induction false} RecordsPerBand(files: map<string, seq<Line>>, handles: seq<Option<string>>,
                                          pend: seq<seq<Line>>, s: Settings, idents: seq<string>, tv: Timeval,
                                          frac: Fractions, values: seq<real>, i: nat)
    requires |handles| == |pend| == |idents| == |values|
    requires i < |idents| && handles[i].Some?
    requires forall j :: 0 <= j < |idents| && j != i ==> handles[j] != handles[i]
    ensures Contents(Records(files, handles, pend, s, idents, tv, frac, values), handles[i].value)
         == Contents(files, handles[i].value) + pend[i] + [Record(BandStamp(s, idents[i], tv, frac), [values[i]])]
    decreases |idents|
  {
    var n := |idents| - 1;
    if i < n {
      assert handles[..n][i] == handles[i] && pend[..n][i] == pend[i];
      assert idents[..n][i] == idents[i] && values[..n][i] == values[i];
      RecordsPerBand(files, handles[..n], pend[..n], s, idents[..n], tv, frac, values[..n], i);
      assert handles[n] != handles[i];
    } else {
      RecordsUntouched(files, handles[..n], pend[..n], s, idents[..n], tv, frac, values[..n], handles[i].value);
    }
  }

  /** Files no band writes to are left as they were. */
  lemma {:induction false} RecordsUntouched(files: map<string, seq<Line>>, handles: seq<Option<string>>,
                                            pend: seq<seq<Line>>, s: Settings, idents: seq<string>, tv: Timeval,
                                            frac: Fractions, values: seq<real>, name: string)
    requires |handles| == |pend| == |idents| == |values|
    requires forall j :: 0 <= j < |idents| ==> handles[j] != Some(name)
    ensures Contents(Records(files, handles, pend, s, idents, tv, frac, values), name) == Contents(files, name)
    decreases |idents|
  {
    if idents != [] {
      var n := |idents| - 1;
      RecordsUntouched(files, handles[..n], pend[..n], s, idents[..n], tv, frac, values[..n], name);
    }
  }

  /** With every band on one file, the file gains each band's buffered
      lines and record, band after band in table order. */
  lemma {:induction false} RecordsOneFile(files: map<string, seq<Line>>, handles: seq<Option<string>>,
                                          pend: seq<seq<Line>>, s: Settings, idents: seq<string>, tv: Timeval,
                                          frac: Fractions, values: seq<real>, name: string)
    requires |handles| == |pend| == |idents| == |values|
    requires forall j :: 0 <= j < |idents| ==> handles[j] == Some(name)
    ensures Contents(Records(files, handles, pend, s, idents, tv, frac, values), name)
         == Contents(files, name) + Flushed(pend, s, idents, tv, frac, values)
    decreases |idents|
  {
    if idents != [] {
      var n := |idents| - 1;
      var last := pend[n] + [BandRecord(s, idents[n], tv, frac, values[n])];
      var r0 := Records(files, handles[..n], pend[..n], s, idents[..n], tv, frac, values[..n]);
      var f0 := Flushed(pend[..n], s, idents[..n], tv, frac, values[..n]);
      RecordsOneFile(files, handles[..n], pend[..n], s, idents[..n], tv, frac, values[..n], name);
      assert Records(files, handles, pend, s, idents, tv, frac, values) == Write(r0, Some(name), last);
      assert Flushed(pend, s, idents, tv, frac, values) == f0 + last;
      assert Contents(Write(r0, Some(name), last), name) == Contents(r0, name) + last;
      ConcatAssoc(Contents(files, name), f0, last);
    }
  }

  /** Under BANDS_EACH, a record on a new prefix opens every band's file,
      holds one handle per band and writes each band's record after what
      its new handle buffered. */
  lemma EachStepReopened(st: Store, s: Settings, idents: seq<string>, tv: Timeval, frac: Fractions,
                         values: seq<real>)
    requires |values| == |idents| == |st.perBand|
    requires EachStep(st, s, idents, tv, frac, values).Ok?
    requires Expand(s.outputFiles, Env(tv, frac, Some("ID"))).text != st.prefix
    ensures var names := BandFiles(s, idents, tv, frac);
      var st2 := EachStep(st, s, idents, tv, frac, values).value;
      && st2.perBand == Handles(names)
      && st2.files == Records(OpenAll(st.files, names), Handles(names), Buffered(st.files, names, BandHeader(s)),
                              s, idents, tv, frac, values)
  {
  }

  /** Under BANDS_EACH, when the prefix changes onto one file per band,
      each band's file gets the header exactly when it is wanted and the
      file was empty, then that band's own record, stamped with its
      identifier. */
  lemma EachRecordPlacement(st: Store, s: Settings, idents: seq<string>, tv: Timeval, frac: Fractions,
                            values: seq<real>, i: nat)
    requires |values| == |idents| == |st.perBand|
    requires EachStep(st, s, idents, tv, frac, values).Ok?
    requires Expand(s.outputFiles, Env(tv, frac, Some("ID"))).text != st.prefix
    requires Distinct(BandFiles(s, idents, tv, frac))
    requires i < |idents|
    ensures var st2 := EachStep(st, s, idents, tv, frac, values).value;
      var name := BandFile(s, idents[i], tv, frac);
      var old_ := Contents(st.files, name);
      && st2.perBand[i] == Some(name)
      && Contents(st2.files, name)
         == (if s.outputHeader && old_ == [] then [EachHeader] else old_)
            + [Record(BandStamp(s, idents[i], tv, frac), [values[i]])]
  {
    var names := BandFiles(s, idents, tv, frac);
    var hs := Handles(names);
    var pend := Buffered(st.files, names, BandHeader(s));
    var old_ := Contents(st.files, names[i]);
    EachStepReopened(st, s, idents, tv, frac, values);
    OpenAllKeeps(st.files, names, names[i]);
    assert pend[i] == HeaderFor(old_, BandHeader(s));
    assert forall j :: 0 <= j < |idents| && j != i ==> hs[j] != hs[i];
    RecordsPerBand(OpenAll(st.files, names), hs, pend, s, idents, tv, frac, values, i);
    EachOpened(old_, s);
  }

  /** A band file's lines once its header is written out. */
  lemma EachOpened(before: seq<Line>, s: Settings)
    ensures before + HeaderFor(before, BandHeader(s))
         == (if s.outputHeader && before == [] then [EachHeader] else before)
  {
    if !(s.outputHeader && before == []) {
      assert before + [] == before;
    }
  }

  /** Under BANDS_EACH, when the prefix changes onto a file that every band
      shares, every band brings its own header, when wanted and the file
      was empty, just before its own record: the headers wait unflushed in
      the bands' handles, so stat sees the file empty for each of them. */
  lemma EachSharedFile(st: Store, s: Settings, idents: seq<string>, tv: Timeval, frac: Fractions,
                       values: seq<real>, name: string)
    requires |values| == |idents| == |st.perBand|
    requires EachStep(st, s, idents, tv, frac, values).Ok?
    requires Expand(s.outputFiles, Env(tv, frac, Some("ID"))).text != st.prefix
    requires forall j :: 0 <= j < |idents| ==> BandFile(s, idents[j], tv, frac) == name
    ensures var old_ := Contents(st.files, name);
      Contents(EachStep(st, s, idents, tv, frac, values).value.files, name)
        == old_ + Flushed(seq(|idents|, _ => HeaderFor(old_, BandHeader(s))), s, idents, tv, frac, values)
  {
    var names := BandFiles(s, idents, tv, frac);
    var hs := Handles(names);
    var pend := Buffered(st.files, names, BandHeader(s));
    assert pend == seq(|idents|, _ => HeaderFor(Contents(st.files, name), BandHeader(s)));
    EachStepReopened(st, s, idents, tv, frac, values);
    OpenAllKeeps(st.files, names, name);
    RecordsOneFile(OpenAll(st.files, names), hs, pend, s, idents, tv, frac, values, name);
  }

  /** With a template without %B, such as the default "%y%m%d.dat", every
      band's file is the one the stand-in identifier names. */
  lemma BandFileWithoutBand(s: Settings, ident: string, tv: Timeval, frac: Fractions)
    requires !UsesBand(s.outputFiles)
    ensures BandFile(s, ident, tv, frac) == PathOf(s.datadir, TextOf(Expand(s.outputFiles, Env(tv, frac, Some("ID")))))
  {
    ExpandIgnoresBand(s.outputFiles, Env(tv, frac, Some("ID")), Some(ident));
  }

  /** Two bands, a template without %B, headers on and an empty file: the
      file holds a header before each band's record. */
  lemma TwoBandsTwoHeaders(st: Store, s: Settings, idents: seq<string>, tv: Timeval, frac: Fractions,
                           values: seq<real>)
    requires |values| == |idents| == |st.perBand| == 2
    requires !UsesBand(s.outputFiles) && s.outputHeader
    requires EachStep(st, s, idents, tv, frac, values).Ok?
    requires Expand(s.outputFiles, Env(tv, frac, Some("ID"))).text != st.prefix
    requires Contents(st.files, BandFile(s, "ID", tv, frac)) == []
    ensures Contents(EachStep(st, s, idents, tv, frac, values).value.files, BandFile(s, "ID", tv, frac))
         == [EachHeader, Record(BandStamp(s, idents[0], tv, frac), [values[0]]),
             EachHeader, Record(BandStamp(s, idents[1], tv, frac), [values[1]])]
  {
    var pend := seq(|idents|, _ => HeaderFor([], BandHeader(s)));
    assert Contents(EachStep(st, s, idents, tv, frac, values).value.files, BandFile(s, "ID", tv, frac))
        == [] + Flushed(pend, s, idents, tv, frac, values) by {
      OneFileForAll(st, s, idents, tv, frac, values);
    }
    FlushedTwoHeaders(s, idents, tv, frac, values);
  }

  /** The step of TwoBandsTwoHeaders that puts both bands in one file. */
  lemma OneFileForAll(st: Store, s: Settings, idents: seq<string>, tv: Timeval, frac: Fractions,
                      values: seq<real>)
    requires |values| == |idents| == |st.perBand| == 2
    requires !UsesBand(s.outputFiles)
    requires EachStep(st, s, idents, tv, frac, values).Ok?
    requires Expand(s.outputFiles, Env(tv, frac, Some("ID"))).text != st.prefix
    ensures var name := BandFile(s, "ID", tv, frac);
      var old_ := Contents(st.files, name);
      Contents(EachStep(st, s, idents, tv, frac, values).value.files, name)
        == old_ + Flushed(seq(|idents|, _ => HeaderFor(old_, BandHeader(s))), s, idents, tv, frac, values)
  {
    var name := BandFile(s, "ID", tv, frac);
    BandFileWithoutBand(s, "ID", tv, frac);
    BandFileWithoutBand(s, idents[0], tv, frac);
    BandFileWithoutBand(s, idents[1], tv, frac);
    forall j | 0 <= j < |idents|
      ensures BandFile(s, idents[j], tv, frac) == name
    {
      assert j == 0 || j == 1;
    }
    EachSharedFile(st, s, idents, tv, frac, values, name);
  }

  /** Into an empty file, two bands with headers on flush a header each. */
  lemma FlushedTwoHeaders(s: Settings, idents: seq<string>, tv: Timeval, frac: Fractions, values: seq<real>)
    requires |idents| == |values| == 2 && s.outputHeader
    ensures [] + Flushed(seq(|idents|, _ => HeaderFor([], BandHeader(s))), s, idents, tv, frac, values)
         == [EachHeader, Record(BandStamp(s, idents[0], tv, frac), [values[0]]),
             EachHeader, Record(BandStamp(s, idents[1], tv, frac), [values[1]])]
  {
    var h := [EachHeader];
    assert seq(|idents|, _ => HeaderFor([], BandHeader(s))) == [h, h];
    var r0, r1 := BandRecord(s, idents[0], tv, frac, values[0]), BandRecord(s, idents[1], tv, frac, values[1]);
    FlushedTwo(h, s, idents, tv, frac, values);
    assert [] + (h + [r0] + h + [r1]) == [EachHeader, r0, EachHeader, r1];
  }

  /** What two bands with the same buffered lines flush. */
  lemma FlushedTwo(h: seq<Line>, s: Settings, idents: seq<string>, tv: Timeval, frac: Fractions, values: seq<real>)
    requires |idents| == |values| == 2
    ensures Flushed([h, h], s, idents, tv, frac, values)
         == h + [BandRecord(s, idents[0], tv, frac, values[0])] + h + [BandRecord(s, idents[1], tv, frac, values[1])]
  {
    var p1, i1, v1 := [h, h][..1], idents[..1], values[..1];
    assert p1[..0] == [] && i1[..0] == [] && v1[..0] == [];
    assert Flushed(p1, s, i1, tv, frac, v1) == h + [BandRecord(s, idents[0], tv, frac, values[0])];
  }

  /** Under BANDS_EACH a record leaves alone every file that is neither a
      band's new file nor reached through a handle the bands already hold. */
  lemma EachOtherFiles(st: Store, s: Settings, idents: seq<string>, tv: Timeval, frac: Fractions,
                       values: seq<real>, name: string)
    requires |values| == |idents| == |st.perBand|
    requires EachStep(st, s, idents, tv, frac, values).Ok?
    requires name !in BandFiles(s, idents, tv, frac) && Some(name) !in st.perBand
    ensures Contents(EachStep(st, s, idents, tv, frac, values).value.files, name) == Contents(st.files, name)
  {
    var names := BandFiles(s, idents, tv, frac);
    if Expand(s.outputFiles, Env(tv, frac, Some("ID"))).text != st.prefix {
      OpenAllKeeps(st.files, names, name);
      RecordsUntouched(OpenAll(st.files, names), Handles(names), Buffered(st.files, names, BandHeader(s)),
                       s, idents, tv, frac, values, name);
    } else {
      RecordsUntouched(st.files, st.perBand, NoLines(|idents|), s, idents, tv, frac, values, name);
    }
  }
}

/** The file-name and time-stamp template expander (substitute_params).

    A template is copied character by character; a '%' introduces a
    one-character directive:
      %y %m %d  two-digit year (of the century), month, day
      %H %M %S  two-digit hour, minute, second
      %B        the band identifier (fatal when the caller has no band)
      %U        Unix seconds          %u  Unix seconds with three decimals
      %E        seconds of the day    %e  seconds of the day with three decimals
      %%        a single '%'
    Any other character after '%', or a '%' that ends the template, makes the
    expansion fail.  The calendar fields come from the start of the UTC day,
    not from the time itself. */
module Template {
  import opened Basics
  import opened Calendar

  /** struct timeval: seconds and microseconds since the epoch. */
  datatype Timeval = Timeval(sec: nat, usec: nat)

  /** printf("%.3f") of the two fractional times (%u and %e).  Floating-point
      formatting is not modelled: the caller supplies the two renderings. */
  datatype Fractions = Fractions(unix: string, ofDay: string)

  /** Everything an expansion depends on besides the template. */
  datatype Env = Env(tv: Timeval, frac: Fractions, band: Option<string>)

  /** Outcome of an expansion: the text, a failure on an unknown directive
      (with what had been written before it), or the fatal %B without band. */
  datatype Expansion = Expanded(text: string) | BadDirective(partial: string) | NoBand

  /** What one directive character stands for. */
  datatype Directive = Text(s: string) | Unknown | MissingBand

  /** The directive characters the expander accepts. */
  predicate IsDirective(c: char) {
    c in "%ymdHMSBUuEe"
  }

  /** The broken-down time used for the calendar fields: midnight UTC of
      the day holding the time. */
  function DayFields(tv: Timeval): (tm: Tm)
    ensures ValidTm(tm) && tm.tmHour == 0 && tm.tmMin == 0 && tm.tmSec == 0
    ensures Timegm(tm) == tv.sec - tv.sec % SecondsPerDay
  {
    DayStartIsMidnight(tv.sec);
    Gmtime(DayStart(tv.sec))
  }

  function DirectiveText(c: char, env: Env): (d: Directive)
    ensures d.Unknown? <==> !IsDirective(c)
    ensures d.MissingBand? <==> c == 'B' && env.band.None?
  {
    var tm := DayFields(env.tv);
    match c
    case '%' => Text("%")
    case 'y' => Text(Pad2(tm.tmYear % 100))
    case 'm' => Text(Pad2(tm.tmMon + 1))
    case 'd' => Text(Pad2(tm.tmMday))
    case 'H' => Text(Pad2(tm.tmHour))
    case 'M' => Text(Pad2(tm.tmMin))
    case 'S' => Text(Pad2(tm.tmSec))
    case 'B' => if env.band.Some? then Text(env.band.value) else MissingBand
    case 'U' => Text(Decimal(env.tv.sec))
    case 'u' => Text(env.frac.unix)
    case 'E' => Text(Decimal(env.tv.sec % SecondsPerDay))
    case 'e' => Text(env.frac.ofDay)
    case _ => Unknown
  }

  /** Puts text already written in front of an outcome. */
  function Prepend(s: string, e: Expansion): Expansion {
    match e
    case Expanded(x) => Expanded(s + x)
    case BadDirective(x) => BadDirective(s + x)
    case NoBand => NoBand
  }

  lemma PrependAssoc(a: string, b: string, e: Expansion)
    ensures Prepend(a, Prepend(b, e)) == Prepend(a + b, e)
  {
    match e
    case Expanded(x) => assert a + (b + x) == (a + b) + x;
    case BadDirective(x) => assert a + (b + x) == (a + b) + x;
    case NoBand =>
  }

  /** The meaning of a template, read left to right. */
  function Expand(t: string, env: Env): (e: Expansion)
    ensures e.NoBand? ==> env.band.None?
    decreases |t|
  {
    if t == [] then Expanded([])
    else if t[0] != '%' then Prepend([t[0]], Expand(t[1..], env))
    else if |t| == 1 then BadDirective([])
    else match DirectiveText(t[1], env)
      case Text(s) => Prepend(s, Expand(t[2..], env))
      case Unknown => BadDirective([])
      case MissingBand => NoBand
  }

  /** substitute_params: walks the template with a write position into the
      output buffer; returns the expansion, or stops at the first failure. */
  method SubstituteParams(format: string, env: Env) returns (r: Expansion)
    ensures r == Expand(format, env)
  {
    var d: string := [];
    var i := 0;
    while i < |format|
      invariant 0 <= i <= |format|
      invariant Expand(format, env) == Prepend(d, Expand(format[i..], env))
    {
      if format[i] != '%' {
        PrependAssoc(d, [format[i]], Expand(format[i + 1..], env));
        assert format[i..][1..] == format[i + 1..];
        d := d + [format[i]];
        i := i + 1;
        continue;
      }
      if i + 1 == |format| {
        return BadDirective(d);
      }
      var directive := DirectiveText(format[i + 1], env);
      assert format[i..][2..] == format[i + 2..];
      match directive
      case Text(s) =>
        PrependAssoc(d, s, Expand(format[i + 2..], env));
        d := d + s;
        i := i + 2;
      case Unknown =>
        return BadDirective(d);
      case MissingBand =>
        return NoBand;
    }
    assert Expand(format[i..], env) == Expanded([]);
    assert d + [] == d;
    r := Expanded(d);
  }

  /** Every '%' in t opens one of the accepted directives. */
  predicate WellFormed(t: string)
    decreases |t|
  {
    if t == [] then true
    else if t[0] != '%' then WellFormed(t[1..])
    else |t| >= 2 && IsDirective(t[1]) && WellFormed(t[2..])
  }

  /** t uses the %B directive. */
  predicate UsesBand(t: string)
    decreases |t|
  {
    if t == [] then false
    else if t[0] != '%' then UsesBand(t[1..])
    else |t| >= 2 && (t[1] == 'B' || UsesBand(t[2..]))
  }

  /** A template without '%' is copied unchanged. */
  lemma {:induction false} ExpandLiteral(t: string, env: Env)
    requires '%' !in t
    ensures Expand(t, env) == Expanded(t)
  {
    if t != [] {
      assert t[0] in t;
      ExpandLiteral(t[1..], env);
      assert [t[0]] + t[1..] == t;
    }
  }

  /** Expanding a concatenation: a template that expands fully contributes
      its text in front of the expansion of what follows it. */
  lemma {:induction false} ExpandConcat(a: string, b: string, env: Env)
    requires Expand(a, env).Expanded?
    ensures Expand(a + b, env) == Prepend(Expand(a, env).text, Expand(b, env))
    decreases |a|
  {
    if a == [] {
      assert a + b == b;
      match Expand(b, env)
      case Expanded(x) => assert [] + x == x;
      case BadDirective(x) => assert [] + x == x;
      case NoBand =>
    } else if a[0] != '%' {
      assert (a + b)[1..] == a[1..] + b;
      ExpandConcat(a[1..], b, env);
      PrependAssoc([a[0]], Expand(a[1..], env).text, Expand(b, env));
    } else {
      assert (a + b)[..2] == a[..2] && (a + b)[2..] == a[2..] + b;
      var s := DirectiveText(a[1], env).s;
      ExpandConcat(a[2..], b, env);
      PrependAssoc(s, Expand(a[2..], env).text, Expand(b, env));
    }
  }

  /** "%%" stands for one '%'. */
  lemma PercentEscape(env: Env)
    ensures Expand("%%", env) == Expanded("%")
  {
    assert "%%"[2..] == [];
  }

  /** With a band at hand, a template expands exactly when every '%' opens an
      accepted directive, and otherwise it fails as an unknown directive. */
  lemma {:induction false} ExpandSucceedsIffWellFormed(t: string, env: Env)
    requires env.band.Some?
    ensures Expand(t, env).Expanded? <==> WellFormed(t)
    ensures Expand(t, env).BadDirective? <==> !WellFormed(t)
    decreases |t|
  {
    if t == [] {
    } else if t[0] != '%' {
      ExpandSucceedsIffWellFormed(t[1..], env);
    } else if |t| >= 2 && IsDirective(t[1]) {
      ExpandSucceedsIffWellFormed(t[2..], env);
    }
  }

  /** Without a band, the only new way to fail is a %B reached before any
      bad directive: the fatal NoBand outcome needs a %B in the template. */
  lemma {:induction false} NoBandNeedsBandDirective(t: string, env: Env)
    ensures Expand(t, env).NoBand? ==> UsesBand(t) && env.band.None?
    ensures env.band.Some? ==> !Expand(t, env).NoBand?
    ensures !UsesBand(t) && WellFormed(t) ==> Expand(t, env).Expanded?
    decreases |t|
  {
    if t == [] {
    } else if t[0] != '%' {
      NoBandNeedsBandDirective(t[1..], env);
    } else if |t| >= 2 {
      NoBandNeedsBandDirective(t[2..], env);
    }
  }

  /** A template without %B expands the same whatever band is named. */
  lemma {:induction false} ExpandIgnoresBand(t: string, env: Env, band: Option<string>)
    requires !UsesBand(t)
    ensures Expand(t, env.(band := band)) == Expand(t, env)
    decreases |t|
  {
    if t == [] {
    } else if t[0] != '%' {
      ExpandIgnoresBand(t[1..], env, band);
    } else if |t| >= 2 {
      ExpandIgnoresBand(t[2..], env, band);
      assert DirectiveText(t[1], env.(band := band)) == DirectiveText(t[1], env);
    }
  }

  /** Whether a template expands does not depend on which band is named, so
      a check with a stand-in identifier speaks for every band. */
  lemma SuccessIndependentOfBand(t: string, env: Env, band: string)
    requires env.band.Some?
    ensures Expand(t, env).Expanded? <==> Expand(t, env.(band := Some(band))).Expanded?
  {
    ExpandSucceedsIffWellFormed(t, env);
    ExpandSucceedsIffWellFormed(t, env.(band := Some(band)));
  }

  /** The clock fields are taken from the start of the day, so they always
      read "00". */
  lemma ClockFieldsAreZero(env: Env)
    ensures Expand("%H", env) == Expanded("00")
    ensures Expand("%M", env) == Expanded("00")
    ensures Expand("%S", env) == Expanded("00")
  {
    ClockField('H', env);
    ClockField('M', env);
    ClockField('S', env);
  }

  /** Any one of %H, %M and %S reads "00". */
  lemma ClockField(c: char, env: Env)
    requires c == 'H' || c == 'M' || c == 'S'
    ensures Expand(['%', c], env) == Expanded("00")
  {
    assert Pad2(0) == "00";
    assert DirectiveText(c, env) == Text("00");
    DirectiveStep(c, [], env);
    assert ['%', c] + [] == ['%', c];
    assert "00" + [] == "00";
  }

  /** %U is the Unix time and %E the seconds since midnight UTC. */
  lemma SecondsDirectives(env: Env)
    ensures Expand("%U", env) == Expanded(Decimal(env.tv.sec))
    ensures Expand("%E", env) == Expanded(Decimal(env.tv.sec % SecondsPerDay))
    ensures env.tv.sec % SecondsPerDay < SecondsPerDay
  {
    assert "%U"[2..] == "%E"[2..] == [];
    assert Decimal(env.tv.sec) + [] == Decimal(env.tv.sec);
    assert Decimal(env.tv.sec % SecondsPerDay) + [] == Decimal(env.tv.sec % SecondsPerDay);
  }

  /** One accepted directive followed by the rest of a template. */
  lemma DirectiveStep(c: char, rest: string, env: Env)
    requires DirectiveText(c, env).Text?
    ensures Expand(['%', c] + rest, env) == Prepend(DirectiveText(c, env).s, Expand(rest, env))
  {
    assert (['%', c] + rest)[2..] == rest;
  }

  /** A name made of %y, %m and %d followed by a literal suffix, as the
      default output file name "%y%m%d.dat": two digits each of the year in
      its century, the month (1..12) and the day of the month, then the
      suffix. */
  lemma DateFileName(env: Env, suffix: string)
    requires '%' !in suffix
    ensures var tm := DayFields(env.tv);
      Expand(['%', 'y'] + (['%', 'm'] + (['%', 'd'] + suffix)), env)
        == Expanded(Pad2(tm.tmYear % 100) + (Pad2(tm.tmMon + 1) + (Pad2(tm.tmMday) + suffix)))
    ensures |Expand(['%', 'y'] + (['%', 'm'] + (['%', 'd'] + suffix)), env).text| == 6 + |suffix|
  {
    ExpandLiteral(suffix, env);
    DirectiveStep('d', suffix, env);
    DirectiveStep('m', ['%', 'd'] + suffix, env);
    DirectiveStep('y', ['%', 'm'] + (['%', 'd'] + suffix), env);
  }

  /** Templates whose directives are all calendar fields, band or '%'. */
  predicate DayOnly(t: string)
    decreases |t|
  {
    if t == [] then true
    else if t[0] != '%' then DayOnly(t[1..])
    else |t| >= 2 && t[1] in "%ymdHMSB" && DayOnly(t[2..])
  }

  /** A template built from calendar fields, the band and literals gives the
      same text for every time in one UTC day: this is what makes the output
      file change once a day with the default template. */
  lemma {:induction false} SameDaySameExpansion(t: string, env1: Env, env2: Env)
    requires DayOnly(t)
    requires env1.tv.sec / SecondsPerDay == env2.tv.sec / SecondsPerDay
    requires env1.band == env2.band
    ensures Expand(t, env1) == Expand(t, env2)
    decreases |t|
  {
    if t == [] {
    } else if t[0] != '%' {
      SameDaySameExpansion(t[1..], env1, env2);
    } else {
      SameDaySameDirective(t[1], env1, env2);
      SameDaySameExpansion(t[2..], env1, env2);
    }
  }

  /** The directives of a day-only template read the same in one UTC day. */
  lemma SameDaySameDirective(c: char, env1: Env, env2: Env)
    requires c in "%ymdHMSB"
    requires env1.tv.sec / SecondsPerDay == env2.tv.sec / SecondsPerDay
    requires env1.band == env2.band
    ensures DirectiveText(c, env1) == DirectiveText(c, env2)
  {
    assert DayFields(env1.tv) == DayFields(env2.tv) by {
      assert env1.tv.sec == env1.tv.sec / SecondsPerDay * SecondsPerDay + env1.tv.sec % SecondsPerDay;
      assert env2.tv.sec == env2.tv.sec / SecondsPerDay * SecondsPerDay + env2.tv.sec % SecondsPerDay;
      assert DayStart(env1.tv.sec) == DayStart(env2.tv.sec);
    }
  }
}

/** The `mm:ss` display shared by the home page and the timer context:
    `Math.floor(t / 60)` and `t % 60`, each written in decimal and left-padded
    with '0' to two characters, joined by a colon.  A small parser of that
    format is the partner that shows the display loses nothing. */
module TimeFormat {
  import opened Base

  function DigitChar(d: int): char
    requires 0 <= d < 10
  {
    "0123456789"[d]
  }

  predicate IsDigit(c: char) {
    '0' <= c <= '9'
  }

  function DigitValue(c: char): int {
    c as int - '0' as int
  }

  predicate AllDigits(s: string) {
    forall i :: 0 <= i < |s| ==> IsDigit(s[i])
  }

  /** `n.toString()` for a non-negative integer: no leading zero except for 0 itself. */
  function NatToString(n: nat): (r: string)
    ensures |r| >= 1 && AllDigits(r)
    ensures r[0] == '0' <==> n == 0
    ensures n < 10 <==> |r| == 1
    decreases n
  {
    if n < 10 then [DigitChar(n)] else NatToString(n / 10) + [DigitChar(n % 10)]
  }

  /** `n.toString()` for any integer. */
  function IntToString(n: int): (r: string)
    ensures n >= 0 ==> r == NatToString(n)
    ensures n < 0 ==> r == "-" + NatToString(-n)
  {
    if n < 0 then "-" + NatToString(-n) else NatToString(n)
  }

  /** `s.padStart(2, "0")`. */
  function PadStart2(s: string): (r: string)
    ensures |r| == if |s| >= 2 then |s| else 2
    ensures r[|r| - |s|..] == s
    ensures forall i :: 0 <= i < |r| - |s| ==> r[i] == '0'
  {
    if |s| >= 2 then s else seq(2 - |s|, _ => '0') + s
  }

  /** JavaScript's `a % b` for `b > 0`: the remainder takes the sign of `a`. */
  function JsRemainder(a: int, b: int): (r: int)
    requires b > 0
    ensures a >= 0 ==> 0 <= r < b && r == a % b
    ensures a < 0 ==> -b < r <= 0 && r == -((-a) % b)
  {
    if a >= 0 then a % b else -((-a) % b)
  }

  /** `formatTime(t)`; `Math.floor` agrees with Dafny's division by a positive
      divisor, and for a non-negative time the display is its two fields. */
  function FormatTime(t: int): (r: string)
    ensures t >= 0 ==> r == Clock(t / 60, t % 60)
  {
    PadStart2(IntToString(t / 60)) + ":" + PadStart2(IntToString(JsRemainder(t, 60)))
  }

  /** The value of a string of decimal digits (the empty string reads as 0). */
  function ParseDigits(s: string): int
    decreases |s|
  {
    if s == [] then 0 else ParseDigits(s[..|s| - 1]) * 10 + DigitValue(s[|s| - 1])
  }

  /** Reads `m:s` back into minutes and seconds; `None` unless both fields are
      non-empty digit strings around the first colon. */
  function ParseClock(s: string): (r: Option<(int, int)>)
    ensures r.Some? ==> exists i :: 0 <= i < |s| && s[i] == ':' && r.value == (ParseDigits(s[..i]), ParseDigits(s[i + 1..]))
  {
    match FindIndex(s, (c: char) => c == ':')
    case None => None
    case Some(i) =>
      if 0 < i && i + 1 < |s| && AllDigits(s[..i]) && AllDigits(s[i + 1..])
      then Some((ParseDigits(s[..i]), ParseDigits(s[i + 1..])))
      else None
  }

  // ---------------------------------------------------------------------
  // Properties of the display

  lemma {:induction false} ParseNatToString(n: nat)
    ensures ParseDigits(NatToString(n)) == n
    decreases n
  {
    if n >= 10 {
      var s := NatToString(n);
      assert s[..|s| - 1] == NatToString(n / 10);
      ParseNatToString(n / 10);
    }
  }

  /** Leading zeros do not change the value of a digit string. */
  lemma {:induction false} ParseLeadingZeros(z: nat, s: string)
    ensures ParseDigits(seq(z, _ => '0') + s) == ParseDigits(s)
    decreases |s|, z
  {
    var zs := seq(z, _ => '0');
    if s == [] {
      if z > 0 {
        assert (zs + s)[..z - 1] == seq(z - 1, _ => '0') + [];
        ParseLeadingZeros(z - 1, []);
      }
    } else {
      assert (zs + s)[..|zs + s| - 1] == zs + s[..|s| - 1];
      ParseLeadingZeros(z, s[..|s| - 1]);
    }
  }

  /** A padded non-negative number reads back as itself. */
  lemma PadRoundTrip(n: nat)
    ensures AllDigits(PadStart2(NatToString(n)))
    ensures ParseDigits(PadStart2(NatToString(n))) == n
  {
    var s := NatToString(n);
    ParseNatToString(n);
    if |s| < 2 {
      ParseLeadingZeros(2 - |s|, s);
    }
  }

  /** The display of a non-negative time, in terms of its two fields. */
  function Clock(m: nat, sec: nat): string {
    PadStart2(NatToString(m)) + ":" + PadStart2(NatToString(sec))
  }

  /** A number below 100 takes at most two digits. */
  lemma SmallWidth(n: nat)
    requires n < 100
    ensures |NatToString(n)| <= 2
  {
    if n >= 10 {
      assert NatToString(n) == NatToString(n / 10) + [DigitChar(n % 10)];
    }
  }

  /** Where the colon sits between a digit string and anything after it. */
  lemma ColonSplit(a: string, b: string)
    requires AllDigits(a)
    ensures var f := a + ":" + b;
      && |a| < |f| && f[|a|] == ':' && (forall k :: 0 <= k < |a| ==> f[k] != ':')
      && f[..|a|] == a && f[|a| + 1..] == b
  {
    var f := a + ":" + b;
    assert forall k :: 0 <= k < |a| ==> f[k] == a[k];
  }

  /** Where the colon sits in a clock display and what lies on either side. */
  lemma ClockFields(m: nat, sec: nat)
    ensures var f := Clock(m, sec); var i := |PadStart2(NatToString(m))|;
      && i < |f| && f[i] == ':' && (forall k :: 0 <= k < i ==> f[k] != ':')
      && f[..i] == PadStart2(NatToString(m)) && f[i + 1..] == PadStart2(NatToString(sec))
  {
    PadRoundTrip(m);
    ColonSplit(PadStart2(NatToString(m)), PadStart2(NatToString(sec)));
  }

  /** The layout: for a non-negative time, at least two minute digits, a colon
      and exactly two second digits. */
  lemma Shape(t: int)
    requires t >= 0
    ensures var f := FormatTime(t);
      && |f| >= 5 && f[|f| - 3] == ':'
      && AllDigits(f[..|f| - 3]) && AllDigits(f[|f| - 2..])
  {
    var m, sec := t / 60, t % 60;
    assert FormatTime(t) == Clock(m, sec);
    ClockShape(m, sec);
  }

  lemma ClockShape(m: nat, sec: nat)
    requires sec < 60
    ensures var f := Clock(m, sec);
      && |f| >= 5 && f[|f| - 3] == ':'
      && AllDigits(f[..|f| - 3]) && AllDigits(f[|f| - 2..])
  {
    SmallWidth(sec);
    PadRoundTrip(m);
    PadRoundTrip(sec);
    FieldsShape(PadStart2(NatToString(m)), PadStart2(NatToString(sec)));
  }

  /** Two digit fields around a colon, the second exactly two wide. */
  lemma FieldsShape(a: string, b: string)
    requires |a| >= 2 && |b| == 2 && AllDigits(a) && AllDigits(b)
    ensures var f := a + ":" + b;
      && |f| >= 5 && f[|f| - 3] == ':'
      && AllDigits(f[..|f| - 3]) && AllDigits(f[|f| - 2..])
  {
    var f := a + ":" + b;
    assert f[..|f| - 3] == a;
    assert f[|f| - 2..] == b;
  }

  /** The round trip: the display of a non-negative time reads back as its
      minutes and seconds, and they add up to the time again. */
  lemma {:induction false} FormatRoundTrip(t: int)
    requires t >= 0
    ensures ParseClock(FormatTime(t)) == Some((t / 60, t % 60))
    ensures t / 60 * 60 + t % 60 == t && 0 <= t % 60 < 60
  {
    var m, sec := t / 60, t % 60;
    ClockRoundTrip(m, sec);
  }

  lemma {:induction false} ClockRoundTrip(m: nat, sec: nat)
    ensures ParseClock(Clock(m, sec)) == Some((m, sec))
  {
    var f := Clock(m, sec);
    var i := |PadStart2(NatToString(m))|;
    ClockFields(m, sec);
    FirstColon(f, i);
    PadRoundTrip(m);
    PadRoundTrip(sec);
  }

  /** The first colon is found where it is. */
  lemma FirstColon(f: string, i: nat)
    requires i < |f| && f[i] == ':' && forall k :: 0 <= k < i ==> f[k] != ':'
    ensures FindIndex(f, (c: char) => c == ':') == Some(i)
  {
    var r := FindIndex(f, (c: char) => c == ':');
    assert r.Some?;
  }

  /** Distinct non-negative times are displayed differently. */
  lemma {:induction false} FormatInjective(a: int, b: int)
    requires a >= 0 && b >= 0 && FormatTime(a) == FormatTime(b)
    ensures a == b
  {
    FormatRoundTrip(a);
    FormatRoundTrip(b);
  }
}

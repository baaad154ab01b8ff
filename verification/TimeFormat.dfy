// time.cpp: fractions of a second, and the %f markers of a time format.
module TimeFormat {
  import opened Common

  datatype Fractional = Millisecond | Microsecond | Nanosecond | NanosecondDefault

  // ----- Decimal numbers

  function Pow10(k: nat): (p: nat)
    ensures p >= 1
  {
    if k == 0 then 1 else 10 * Pow10(k - 1)
  }

  function DigitChar(d: nat): char
    requires d < 10
  {
    '0' + d as char
  }

  predicate IsDigit(c: char) {
    '0' <= c <= '9'
  }

  predicate AllDigits(s: string) {
    forall i | 0 <= i < |s| :: IsDigit(s[i])
  }

  // std::to_string of a number that is not negative
  function Decimal(n: nat): string {
    if n < 10 then [DigitChar(n)] else Decimal(n / 10) + [DigitChar(n % 10)]
  }

  // std::to_string
  function IntToString(n: int): string {
    if n >= 0 then Decimal(n) else "-" + Decimal(-n)
  }

  // The number that a string of digits stands for.
  function Parse(s: string): nat
    requires AllDigits(s)
  {
    if s == [] then 0 else 10 * Parse(s[..|s| - 1]) + (s[|s| - 1] - '0') as nat
  }

  function Zeros(k: nat): string {
    seq(k, i => '0')
  }

  lemma {:induction false} DecimalParses(n: nat)
    ensures AllDigits(Decimal(n)) && Parse(Decimal(n)) == n
  {
    var s := Decimal(n);
    if n >= 10 {
      DecimalParses(n / 10);
      assert s[..|s| - 1] == Decimal(n / 10);
    } else {
      assert s[..0] == [];
    }
  }

  lemma {:induction false} DecimalLength(n: nat, w: nat)
    requires w >= 1
    ensures |Decimal(n)| <= w <==> n < Pow10(w)
  {
    if w == 1 {
      assert Pow10(1) == 10 * Pow10(0);
    } else if n >= 10 {
      DecimalLength(n / 10, w - 1);
      TenthBelow(n, Pow10(w - 1));
    } else {
      assert Pow10(w) >= 10;
    }
  }

  lemma TenthBelow(n: nat, p: nat)
    ensures n / 10 < p <==> n < 10 * p
  {
  }

  lemma {:induction false} PaddingKeepsValue(k: nat, s: string)
    requires AllDigits(s)
    ensures AllDigits(Zeros(k) + s) && Parse(Zeros(k) + s) == Parse(s)
    decreases k + |s|
  {
    var t := Zeros(k) + s;
    if s != [] {
      assert t[..|t| - 1] == Zeros(k) + s[..|s| - 1];
      PaddingKeepsValue(k, s[..|s| - 1]);
    } else if k > 0 {
      assert t[..|t| - 1] == Zeros(k - 1) + s;
      PaddingKeepsValue(k - 1, s);
    }
  }

  // A string of digits is determined by its length and its value.
  lemma {:induction false} SameValueSameDigits(s: string, t: string)
    requires AllDigits(s) && AllDigits(t) && |s| == |t| && Parse(s) == Parse(t)
    ensures s == t
    decreases |s|
  {
    if s != [] {
      var n := |s| - 1;
      SameValueSameDigits(s[..n], t[..n]);
      assert s == s[..n] + [s[n]] && t == t[..n] + [t[n]];
    }
  }

  // Cutting off the last digit divides by ten, rounding down.
  lemma {:induction false} PrefixDivides(s: string, k: nat)
    requires AllDigits(s) && k <= |s|
    ensures Parse(s[..k]) == Parse(s) / Pow10(|s| - k)
    decreases |s| - k
  {
    if k == |s| {
      assert s[..k] == s;
    } else {
      var a := s[..k + 1];
      PrefixDivides(s, k + 1);
      assert a[..k] == s[..k];
      assert Parse(s[..k]) == Parse(a) / 10;
      DivideTwice(Parse(s), Pow10(|s| - k - 1), 10);
    }
  }

  lemma DivideTwice(n: nat, a: nat, b: nat)
    requires a >= 1 && b >= 1
    ensures n / a / b == n / (b * a)
  {
    var q, r := n / a, n % a;
    var q2, r2 := q / b, q % b;
    assert n == q * a + r && q == q2 * b + r2;
    TwoDigits(q2, b, r2, a, r);
    QuotientIs(n, b * a, q2, r2 * a + r);
  }

  lemma TwoDigits(q: nat, b: nat, s: nat, a: nat, r: nat)
    requires s < b && r < a
    ensures (q * b + s) * a + r == q * (b * a) + (s * a + r)
    ensures s * a + r < b * a
  {
    Distribute(q * b, s, a);
    Associate(q, b, a);
    assert (s + 1) * a <= b * a by {
      Monotone(s + 1, b, a);
    }
    Distribute(s, 1, a);
  }

  lemma Distribute(x: int, y: int, z: int)
    ensures (x + y) * z == x * z + y * z
  {
  }

  lemma Associate(x: int, y: int, z: int)
    ensures x * y * z == x * (y * z)
  {
  }

  lemma Monotone(x: nat, y: nat, z: nat)
    requires x <= y
    ensures x * z <= y * z
  {
    Distribute(x, y - x, z);
  }

  lemma QuotientIs(n: nat, d: nat, q: nat, r: nat)
    requires d > 0 && n == q * d + r && r < d
    ensures n / d == q
  {
    var q' := n / d;
    assert q' * d <= n < (q' + 1) * d;
    CancelFactor(q', q + 1, d);
    CancelFactor(q, q' + 1, d);
  }

  lemma CancelFactor(a: int, b: int, d: nat)
    requires a * d < b * d
    ensures a < b
  {
    assert (b - a) * d > 0;
  }

  // ----- to_string

  // Integer division in C++ rounds toward zero.
  function TruncDiv(a: int, b: int): int
    requires b > 0
  {
    if a >= 0 then a / b else -((-a) / b)
  }

  const SECOND := 1_000_000_000

  function Width(f: Fractional): nat {
    match f
    case Millisecond => 3
    case Microsecond => 6
    case _ => 9
  }

  function DigitsToCut(f: Fractional): nat {
    match f
    case Millisecond => 1_000_000
    case Microsecond => 1_000
    case _ => 1
  }

  // ts is the time since the epoch in nanoseconds. None: the value is longer than the width, the
  // length handed to the string of zeroes wraps around and std::length_error is thrown.
  function ToString(ts: int, f: Fractional): Option<string> {
    var ns := ts - TruncDiv(ts, SECOND) * SECOND;
    var value := IntToString(TruncDiv(ns, DigitsToCut(f)));
    if |value| > Width(f) then None else Some(Zeros(Width(f) - |value|) + value)
  }

  function Abs(n: int): nat {
    if n >= 0 then n else -n
  }

  // The part of a second that has passed, in the unit of f, as distance from the last full second
  // toward the epoch.
  function Count(ts: int, f: Fractional): nat {
    Abs(ts) % SECOND / DigitsToCut(f)
  }

  lemma CountIsPrinted(ts: int, f: Fractional)
    ensures TruncDiv(ts - TruncDiv(ts, SECOND) * SECOND, DigitsToCut(f)) ==
            if ts >= 0 then Count(ts, f) else -(Count(ts, f) as int)
  {
    var a := Abs(ts);
    assert a == a / SECOND * SECOND + a % SECOND;
  }

  lemma CountFits(ts: int, f: Fractional)
    ensures Count(ts, f) < Pow10(Width(f))
  {
    assert Pow10(3) == 1_000 by { TenToTheThird(); }
    assert Pow10(6) == 1_000_000 && Pow10(9) == SECOND by { TenToTheNinth(); }
  }

  lemma TenToTheThird()
    ensures Pow10(2) == 100 && Pow10(3) == 1_000
  {
    assert Pow10(1) == 10 * Pow10(0);
  }

  lemma TenToTheNinth()
    ensures Pow10(6) == 1_000_000 && Pow10(9) == SECOND && Pow10(5) == 100_000 && Pow10(8) == 100_000_000
  {
    TenToTheThird();
    assert Pow10(4) == 10 * Pow10(3) && Pow10(5) == 10 * Pow10(4);
    assert Pow10(6) == 10 * Pow10(5) && Pow10(7) == 10 * Pow10(6);
  }

  // Since the epoch every time has exactly the digits asked for, and they read back as the count.
  lemma FractionHasItsDigits(ts: int, f: Fractional)
    requires ts >= 0
    ensures var r := ToString(ts, f);
            r.Some? && |r.value| == Width(f) && AllDigits(r.value) && Parse(r.value) == Count(ts, f)
  {
    hide Count;
    CountIsPrinted(ts, f);
    CountFits(ts, f);
    var n := Count(ts, f);
    DecimalParses(n);
    DecimalLength(n, Width(f));
    PaddingKeepsValue(Width(f) - |Decimal(n)|, Decimal(n));
  }

  // Before the epoch a minus sign takes up a place: the call throws exactly when the sign does not
  // fit, and otherwise the sign stands inside the digits unless the count is zero.
  lemma FractionExactly(ts: int, f: Fractional)
    ensures ToString(ts, f).None? <==> ts < 0 && Count(ts, f) >= Pow10(Width(f) - 1)
    ensures ToString(ts, f).Some? ==>
              && |ToString(ts, f).value| == Width(f)
              && (AllDigits(ToString(ts, f).value) <==> ts >= 0 || Abs(ts) % SECOND < DigitsToCut(f))
  {
    if ts >= 0 {
      FractionHasItsDigits(ts, f);
    } else {
      CountIsPrinted(ts, f);
      assert Abs(ts) % SECOND < DigitsToCut(f) <==> Count(ts, f) == 0;
      FractionBefore(ts, f, Count(ts, f));
    }
  }

  lemma FractionBefore(ts: int, f: Fractional, n: nat)
    requires TruncDiv(ts - TruncDiv(ts, SECOND) * SECOND, DigitsToCut(f)) == -(n as int)
    ensures ToString(ts, f).None? <==> n >= Pow10(Width(f) - 1)
    ensures ToString(ts, f).Some? ==> |ToString(ts, f).value| == Width(f) && (AllDigits(ToString(ts, f).value) <==> n == 0)
  {
    hide TruncDiv;
    DecimalParses(n);
    DecimalLength(n, Width(f) - 1);
    if n == 0 {
      PaddingKeepsValue(Width(f) - 1, "0");
    } else if |Decimal(n)| < Width(f) {
      var at := Width(f) - |Decimal(n)| - 1;
      assert ToString(ts, f).value[at] == '-';
      assert !IsDigit('-');
    }
  }

  // Before the epoch a value that is not zero and fits is printed as zeroes, the sign, and the digits.
  lemma SignStandsInside(ts: int, f: Fractional) returns (k: nat, digits: string)
    requires ts < 0 && ToString(ts, f).Some? && Abs(ts) % SECOND >= DigitsToCut(f)
    ensures ToString(ts, f) == Some(Zeros(k) + "-" + digits) && k + 1 + |digits| == Width(f)
    ensures digits != [] && digits[0] != '0' && AllDigits(digits)
    ensures Parse(digits) == -ts % 1_000_000_000 / DigitsToCut(f)
  {
    hide TruncDiv;
    CountIsPrinted(ts, f);
    var n := Count(ts, f);
    digits := Decimal(n);
    DecimalParses(n);
    NoLeadingZero(n);
    k := Width(f) - |digits| - 1;
    assert Zeros(k) + ("-" + digits) == Zeros(k) + "-" + digits;
  }

  lemma {:induction false} NoLeadingZero(n: nat)
    requires n > 0
    ensures Decimal(n)[0] != '0'
  {
    if n >= 10 {
      NoLeadingZero(n / 10);
    }
  }

  // Coarser fractions are prefixes of finer ones.
  lemma CoarserIsPrefix(ts: int)
    requires ts >= 0
    ensures ToString(ts, Millisecond).Some? && ToString(ts, Microsecond).Some? && ToString(ts, Nanosecond).Some?
    ensures ToString(ts, Millisecond).value <= ToString(ts, Microsecond).value <= ToString(ts, Nanosecond).value
    ensures ToString(ts, NanosecondDefault) == ToString(ts, Nanosecond)
  {
    FractionHasItsDigits(ts, Millisecond);
    FractionHasItsDigits(ts, Microsecond);
    FractionHasItsDigits(ts, Nanosecond);
    var ms, us, ns := ToString(ts, Millisecond).value, ToString(ts, Microsecond).value, ToString(ts, Nanosecond).value;
    PrefixDivides(us, 3);
    PrefixDivides(ns, 6);
    TenToTheThird();
    DivideTwice(Abs(ts) % SECOND, 1_000, 1_000);
    SameValueSameDigits(ms, us[..3]);
    SameValueSameDigits(us, ns[..6]);
  }

  // ----- The %f markers

  predicate MarkerAt(s: string, pos: nat) {
    pos + 2 <= |s| && s[pos] == '%' && s[pos + 1] == 'f'
  }

  // getFractional
  function GetFractional(buffer: string, pos: nat): Fractional {
    var ch := if |buffer| > pos + 2 then buffer[pos + 2] else '\0';
    if ch == '3' then Millisecond
    else if ch == '6' then Microsecond
    else if ch == '9' then Nanosecond
    else NanosecondDefault
  }

  // std::string::find of the marker
  method Find(buffer: string, pos: nat) returns (r: Option<nat>)
    ensures r.Some? ==> pos <= r.value && MarkerAt(buffer, r.value) && forall i | pos <= i < r.value :: !MarkerAt(buffer, i)
    ensures r.None? ==> forall i | pos <= i :: !MarkerAt(buffer, i)
  {
    var i := pos;
    while i + 2 <= |buffer|
      invariant pos <= i
      invariant forall j | pos <= j < i :: !MarkerAt(buffer, j)
    {
      if buffer[i] == '%' && buffer[i + 1] == 'f' {
        return Some(i);
      }
      i := i + 1;
    }
    return None;
  }

  function MarkerLength(s: string, pos: nat): nat {
    if GetFractional(s, pos).NanosecondDefault? then 2 else 3
  }

  function Prefixed(a: string, b: Option<string>): Option<string> {
    if b.None? then None else Some(a + b.value)
  }

  // What the format means: read once from left to right, every marker becomes its digits and every
  // other character stays.
  function Rewrite(ts: int, s: string): Option<string> {
    if s == [] then Some([])
    else if MarkerAt(s, 0) then
      var v := ToString(ts, GetFractional(s, 0));
      if v.None? then None else Prefixed(v.value, Rewrite(ts, s[MarkerLength(s, 0)..]))
    else Prefixed(s[..1], Rewrite(ts, s[1..]))
  }

  lemma PrefixedTwice(a: string, b: string, c: Option<string>)
    ensures Prefixed(a, Prefixed(b, c)) == Prefixed(a + b, c)
    ensures Prefixed([], c) == c
  {
    if c.Some? {
      assert a + (b + c.value) == a + b + c.value && [] + c.value == c.value;
    }
  }

  lemma {:induction false} RewriteSkips(ts: int, s: string, n: nat)
    requires n <= |s| && forall i | 0 <= i < n :: !MarkerAt(s, i)
    ensures Rewrite(ts, s) == Prefixed(s[..n], Rewrite(ts, s[n..]))
    decreases n
  {
    hide ToString, GetFractional, MarkerLength, Prefixed;
    if n > 0 {
      assert !MarkerAt(s, 0);
      var t := s[1..];
      forall i | 0 <= i < n - 1 ensures !MarkerAt(t, i) {
        assert !MarkerAt(s, i + 1);
      }
      RewriteSkips(ts, t, n - 1);
      assert t[n - 1..] == s[n..] && s[..n] == s[..1] + t[..n - 1];
      PrefixedTwice(s[..1], t[..n - 1], Rewrite(ts, s[n..]));
    } else {
      assert s[0..] == s && s[..0] == [];
      PrefixedTwice([], [], Rewrite(ts, s));
    }
  }

  // The printed value never contains a letter or a percent sign.
  lemma ValueHasNoLetters(ts: int, f: Fractional)
    ensures var v := ToString(ts, f);
            v.Some? ==> |v.value| == Width(f) && forall i | 0 <= i < |v.value| :: v.value[i] != '%' && v.value[i] != 'f'
  {
    hide Decimal, TruncDiv, AllDigits;
    var n := TruncDiv(ts - TruncDiv(ts, SECOND) * SECOND, DigitsToCut(f));
    NumberHasNoLetters(n);
    assert forall i | 0 <= i < |Zeros(Width(f))| :: Zeros(Width(f))[i] == '0';
  }

  lemma NumberHasNoLetters(n: int)
    ensures forall i | 0 <= i < |IntToString(n)| :: IntToString(n)[i] != '%' && IntToString(n)[i] != 'f'
  {
    hide Decimal;
    DecimalParses(Abs(n));
    assert forall i | 0 <= i < |Decimal(Abs(n))| :: IsDigit(Decimal(Abs(n))[i]);
  }

  // localtime_formatted_fractions: the buffer grows while it is being searched, and each search
  // resumes inside the digits just written.
  method LocaltimeFormattedFractions(ts: int, format: string) returns (r: Option<string>)
    ensures r == Rewrite(ts, format)
  {
    hide ToString, Rewrite, Width;
    var buffer := format;
    var identifierExtraSize := 0;
    // the part of the format that no search has reached yet, and where it starts in the buffer
    ghost var unread, start := format, 0;
    var pos: nat := 0;
    var found := Find(buffer, pos);
    RewriteStart(ts, format);
    while found.Some?
      invariant 0 <= pos <= start && start + |unread| == |buffer| && buffer[start..] == unread
      invariant found.Some? ==> start <= found.value && MarkerAt(buffer, found.value)
      invariant forall i | start <= i < (if found.Some? then found.value else |buffer|) :: !MarkerAt(buffer, i)
      invariant Rewrite(ts, format) == Prefixed(buffer[..start], Rewrite(ts, unread))
      decreases |unread|, found.Some?
    {
      pos := found.value;
      var type_ := GetFractional(buffer, pos);
      var value := ToString(ts, type_);
      ghost var before := buffer;
      RewriteAt(ts, format, before, start, pos);
      if value.None? {
        return None;
      }
      var padding := 0;
      if type_ != NanosecondDefault {
        padding := 1;
      }
      buffer := buffer[..pos] + value.value + buffer[pos + 2 + padding..];
      unread, start := before[pos + 2 + padding..], pos + |value.value|;
      assert buffer[..start] == before[..pos] + value.value;
      pos := pos + 2 + identifierExtraSize;
      found := Find(buffer, pos);
      ValueIsPassedOver(ts, type_, buffer, pos - 2, value.value);
    }
    RewriteRest(ts, unread, buffer, start);
    return Some(buffer);
  }

  lemma RewriteStart(ts: int, format: string)
    ensures Rewrite(ts, format) == Prefixed(format[..0], Rewrite(ts, format))
    ensures format[0..] == format
  {
    hide Rewrite;
    assert format[..0] == [];
    PrefixedTwice([], [], Rewrite(ts, format));
  }

  // One turn of the loop, seen from the format.
  lemma RewriteAt(ts: int, format: string, buffer: string, start: nat, pos: nat)
    requires start <= pos && MarkerAt(buffer, pos) && forall i | start <= i < pos :: !MarkerAt(buffer, i)
    requires Rewrite(ts, format) == Prefixed(buffer[..start], Rewrite(ts, buffer[start..]))
    ensures var f := GetFractional(buffer, pos);
            var n := if f == NanosecondDefault then 2 else 3;
            var v := ToString(ts, f);
            && pos + n <= |buffer|
            && Rewrite(ts, format) ==
               if v.None? then None else Prefixed(buffer[..pos] + v.value, Rewrite(ts, buffer[pos + n..]))
  {
    hide ToString, Rewrite;
    var s := buffer[start..];
    var k := pos - start;
    forall i | 0 <= i < k ensures !MarkerAt(s, i) {
      assert !MarkerAt(buffer, start + i);
    }
    RewriteSkips(ts, s, k);
    var u := s[k..];
    assert u == buffer[pos..] && MarkerAt(u, 0) && GetFractional(u, 0) == GetFractional(buffer, pos);
    assert buffer[..start] + s[..k] == buffer[..pos];
    var n := MarkerLength(u, 0);
    assert u[n..] == buffer[pos + n..];
    RewriteMarker(ts, u);
    PrefixedTwice(buffer[..start], s[..k], Rewrite(ts, u));
    var v := ToString(ts, GetFractional(u, 0));
    if v.Some? {
      PrefixedTwice(buffer[..pos], v.value, Rewrite(ts, u[n..]));
    }
  }

  lemma RewriteMarker(ts: int, s: string)
    requires MarkerAt(s, 0)
    ensures var v := ToString(ts, GetFractional(s, 0));
            Rewrite(ts, s) == if v.None? then None else Prefixed(v.value, Rewrite(ts, s[MarkerLength(s, 0)..]))
  {
    hide ToString, GetFractional, Prefixed;
  }

  // A search that resumes inside the value finds nothing before the value's end.
  lemma ValueIsPassedOver(ts: int, f: Fractional, buffer: string, at: nat, value: string)
    requires ToString(ts, f) == Some(value) && at + |value| <= |buffer| && buffer[at..at + |value|] == value
    ensures |value| >= 3
    ensures forall i | at <= i < at + |value| :: !MarkerAt(buffer, i)
  {
    ValueHasNoLetters(ts, f);
    forall i | at <= i < at + |value| ensures !MarkerAt(buffer, i) {
      assert buffer[i] == value[i - at];
    }
  }

  lemma RewriteRest(ts: int, unread: string, buffer: string, start: nat)
    requires start + |unread| == |buffer| && buffer[start..] == unread
    requires forall i | start <= i < |buffer| :: !MarkerAt(buffer, i)
    ensures Prefixed(buffer[..start], Rewrite(ts, unread)) == Some(buffer)
  {
    forall i | 0 <= i < |unread| ensures !MarkerAt(unread, i) {
      assert !MarkerAt(buffer, start + i);
    }
    RewriteSkips(ts, unread, |unread|);
    assert unread[..|unread|] + [] == unread && unread[|unread|..] == [];
    assert buffer == buffer[..start] + unread;
  }

  // ----- What the rewriter promises

  predicate NoMarker(s: string) {
    forall i | 0 <= i < |s| :: !MarkerAt(s, i)
  }

  // No marker is left, not even one put together from a value and the text around it.
  lemma {:induction false} NoMarkerIsLeft(ts: int, s: string)
    ensures var r := Rewrite(ts, s);
            r.Some? ==>
              && NoMarker(r.value)
              && (r.value != [] && r.value[0] == 'f' ==> s != [] && s[0] == 'f')
    decreases |s|
  {
    hide ToString, Width;
    if s != [] && Rewrite(ts, s).Some? {
      var r := Rewrite(ts, s).value;
      if MarkerAt(s, 0) {
        var f := GetFractional(s, 0);
        var v, rest := ToString(ts, f).value, Rewrite(ts, s[MarkerLength(s, 0)..]).value;
        NoMarkerIsLeft(ts, s[MarkerLength(s, 0)..]);
        assert r == v + rest;
        ValueIsPassedOver(ts, f, r, 0, v);
        forall i | |v| <= i < |r| ensures !MarkerAt(r, i) {
          assert !MarkerAt(rest, i - |v|);
        }
        ValueHasNoLetters(ts, f);
      } else {
        var rest := Rewrite(ts, s[1..]).value;
        NoMarkerIsLeft(ts, s[1..]);
        assert r == s[..1] + rest;
        forall i | 1 <= i < |r| ensures !MarkerAt(r, i) {
          assert !MarkerAt(rest, i - 1);
        }
      }
    }
  }

  // A second application changes nothing, whatever its time.
  lemma RewriteIsIdempotent(ts: int, later: int, s: string)
    ensures Rewrite(ts, s).Some? ==> Rewrite(later, Rewrite(ts, s).value) == Rewrite(ts, s)
  {
    NoMarkerIsLeft(ts, s);
    if Rewrite(ts, s).Some? {
      var r := Rewrite(ts, s).value;
      RewriteSkips(later, r, |r|);
      assert r + [] == r && r[..|r|] == r && r[|r|..] == [];
    }
  }

  // A cut that does not fall inside a marker.
  predicate CleanCut(a: string, b: string) {
    || a == [] || b == []
    || (&& !(a[|a| - 1] == '%' && b[0] == 'f')
        && !(|a| >= 2 && MarkerAt(a, |a| - 2) && b[0] in "369"))
  }

  // Formats can be rewritten piece by piece: text and markers do not interfere with one another.
  lemma {:induction false} RewriteConcat(ts: int, a: string, b: string)
    requires CleanCut(a, b)
    ensures Rewrite(ts, a + b) ==
            if Rewrite(ts, a).None? then None else Prefixed(Rewrite(ts, a).value, Rewrite(ts, b))
    decreases |a|
  {
    hide ToString;
    var c := a + b;
    if a == [] {
      assert c == b;
      PrefixedTwice([], [], Rewrite(ts, b));
    } else {
      assert MarkerAt(c, 0) == MarkerAt(a, 0);
      var n := if MarkerAt(a, 0) then MarkerLength(a, 0) else 1;
      if MarkerAt(a, 0) {
        assert GetFractional(c, 0) == GetFractional(a, 0);
      }
      assert c[n..] == a[n..] + b && c[..1] == a[..1];
      assert CleanCut(a[n..], b);
      RewriteConcat(ts, a[n..], b);
      RewriteConcatTail(ts, a, b, n);
    }
  }

  lemma RewriteConcatTail(ts: int, a: string, b: string, n: nat)
    requires a != [] && n == (if MarkerAt(a, 0) then MarkerLength(a, 0) else 1) && n <= |a|
    requires MarkerAt(a + b, 0) == MarkerAt(a, 0) && (MarkerAt(a, 0) ==> GetFractional(a + b, 0) == GetFractional(a, 0))
    requires (a + b)[n..] == a[n..] + b && (a + b)[..1] == a[..1]
    requires Rewrite(ts, a[n..] + b) ==
             if Rewrite(ts, a[n..]).None? then None else Prefixed(Rewrite(ts, a[n..]).value, Rewrite(ts, b))
    ensures Rewrite(ts, a + b) ==
            if Rewrite(ts, a).None? then None else Prefixed(Rewrite(ts, a).value, Rewrite(ts, b))
  {
    hide ToString, GetFractional;
    if Rewrite(ts, a).Some? && Rewrite(ts, b).Some? {
      var head := if MarkerAt(a, 0) then ToString(ts, GetFractional(a, 0)).value else a[..1];
      var ra, rb := Rewrite(ts, a[n..]).value, Rewrite(ts, b).value;
      assert head + (ra + rb) == head + ra + rb;
    }
  }

  predicate HasMarker(s: string, f: Fractional) {
    exists i | 0 <= i < |s| :: MarkerAt(s, i) && GetFractional(s, i) == f
  }

  // Formatting throws exactly when some marker of the format asks for a value that does not fit; for
  // a time since the epoch there is no such marker.
  lemma {:induction false} ThrowsExactly(ts: int, s: string)
    ensures Rewrite(ts, s).None? <==> exists f | HasMarker(s, f) :: ToString(ts, f).None?
    ensures ts >= 0 ==> Rewrite(ts, s).Some?
    decreases |s|
  {
    hide ToString, Width;
    if s != [] {
      var n := if MarkerAt(s, 0) then MarkerLength(s, 0) else 1;
      ThrowsExactly(ts, s[n..]);
      forall f ensures HasMarker(s, f) <==> HasMarker(s[n..], f) || (MarkerAt(s, 0) && GetFractional(s, 0) == f) {
        HasMarkerTail(s, n, f);
      }
      if MarkerAt(s, 0) && ts >= 0 {
        FractionHasItsDigits(ts, GetFractional(s, 0));
      }
    }
  }

  lemma HasMarkerTail(s: string, n: nat, f: Fractional)
    requires s != [] && n == (if MarkerAt(s, 0) then MarkerLength(s, 0) else 1)
    ensures HasMarker(s, f) <==> HasMarker(s[n..], f) || (MarkerAt(s, 0) && GetFractional(s, 0) == f)
  {
    var t := s[n..];
    forall i | 0 <= i < |t| ensures MarkerAt(t, i) == MarkerAt(s, n + i) && GetFractional(t, i) == GetFractional(s, n + i) {
    }
    if HasMarker(s, f) {
      var i :| 0 <= i < |s| && MarkerAt(s, i) && GetFractional(s, i) == f;
      if i >= n {
        assert MarkerAt(t, i - n) && GetFractional(t, i - n) == f;
      }
    }
  }

  // ----- The markers of a format, from the text of the format to the digits

  const MARKER := "%f"

  lemma RewriteOne(ts: int, s: string)
    requires ts >= 0 && MarkerAt(s, 0) && MarkerLength(s, 0) == |s|
    ensures Rewrite(ts, s) == ToString(ts, GetFractional(s, 0))
  {
    hide ToString, GetFractional, MarkerLength;
    var v := ToString(ts, GetFractional(s, 0));
    RewriteMarker(ts, s);
    assert s[|s|..] == [];
    if v.Some? {
      assert v.value + [] == v.value;
    }
  }

  // Since the epoch the marker %f3 becomes three digits, %f6 six and %f9 nine, wherever it stands: the
  // milliseconds, microseconds or nanoseconds that have passed in the current second. The text around it
  // is rewritten on its own.
  lemma MarkerBecomesItsDigits(ts: int, a: string, d: char, b: string) returns (x: string, v: string, y: string)
    requires ts >= 0 && (d == '3' || d == '6' || d == '9')
    ensures Rewrite(ts, a) == Some(x) && Rewrite(ts, b) == Some(y)
    ensures Rewrite(ts, a + MARKER + [d] + b) == Some(x + v + y)
    ensures AllDigits(v) && |v| == (if d == '3' then 3 else if d == '6' then 6 else 9)
    ensures Parse(v) ==
            ts % 1_000_000_000 / (if d == '3' then 1_000_000 else if d == '6' then 1_000 else 1)
  {
    hide ToString, Rewrite, Parse, AllDigits;
    var s := MARKER + [d];
    var f := GetFractional(s, 0);
    x, v, y := Around(ts, a, s, b);
    FractionHasItsDigits(ts, f);
    assert a + MARKER + [d] + b == a + s + b;
  }

  // The bare marker, with no such digit behind it, becomes nine digits.
  lemma BareMarkerBecomesNineDigits(ts: int, a: string, b: string) returns (x: string, v: string, y: string)
    requires ts >= 0 && (b != [] ==> b[0] != '3' && b[0] != '6' && b[0] != '9')
    ensures Rewrite(ts, a) == Some(x) && Rewrite(ts, b) == Some(y)
    ensures Rewrite(ts, a + MARKER + b) == Some(x + v + y)
    ensures AllDigits(v) && |v| == 9 && Parse(v) == ts % 1_000_000_000
  {
    hide ToString, Rewrite, Parse, AllDigits;
    x, v, y := Around(ts, a, MARKER, b);
    FractionHasItsDigits(ts, GetFractional(MARKER, 0));
  }

  // A marker and the text on both sides of it.
  lemma Around(ts: int, a: string, s: string, b: string) returns (x: string, v: string, y: string)
    requires ts >= 0 && MarkerAt(s, 0) && MarkerLength(s, 0) == |s| && CleanCut(a, s) && CleanCut(a + s, b)
    ensures Rewrite(ts, a) == Some(x) && Rewrite(ts, b) == Some(y)
    ensures ToString(ts, GetFractional(s, 0)) == Some(v) && Rewrite(ts, a + s + b) == Some(x + v + y)
  {
    hide ToString, Rewrite, GetFractional, CleanCut;
    ThrowsExactly(ts, a);
    ThrowsExactly(ts, b);
    ThrowsExactly(ts, s);
    RewriteOne(ts, s);
    RewriteConcat(ts, a, s);
    RewriteConcat(ts, a + s, b);
    x, v, y := Rewrite(ts, a).value, Rewrite(ts, s).value, Rewrite(ts, b).value;
  }

  lemma DigitIsNamed(c: char)
    requires IsDigit(c)
    ensures c == "0123456789"[c as int - 48]
  {
  }

  // What reading back means: the i-th character is the decimal of its place.
  lemma DigitsAreDecimals(s: string, i: nat)
    requires AllDigits(s) && i < |s|
    ensures s[i] == "0123456789"[Parse(s) / Pow10(|s| - 1 - i) % 10]
  {
    hide AllDigits, Pow10, Parse;
    PrefixDivides(s, i + 1);
    PrefixDigits(s, i + 1);
    LastDigit(s[..i + 1]);
  }

  lemma LastDigit(t: string)
    requires t != [] && AllDigits(t)
    ensures t[|t| - 1] == "0123456789"[Parse(t) % 10]
  {
    hide AllDigits;
    var c := t[|t| - 1];
    assert AllDigits(t[..|t| - 1]) && IsDigit(c) by { DigitsSplit(t); }
    var q: nat := Parse(t[..|t| - 1]);
    assert Parse(t) == 10 * q + (c as int - 48);
    assert (10 * q + (c as int - 48)) % 10 == c as int - 48;
    DigitIsNamed(c);
  }

  lemma PrefixDigits(s: string, k: nat)
    requires k <= |s| && AllDigits(s)
    ensures AllDigits(s[..k])
  {
  }

  lemma DigitsSplit(t: string)
    requires t != [] && AllDigits(t)
    ensures AllDigits(t[..|t| - 1]) && IsDigit(t[|t| - 1])
  {
  }
}

/** The `path:start:end` argument through which the watchdog hands one log
    window to the health-check probe, and the probe's reading of it. */
module LogDescriptors {
  import opened Wrappers
  import opened LogWindows

  predicate IsDigit(ch: char) {
    '0' <= ch <= '9'
  }

  predicate AllDigits(s: string) {
    forall i | 0 <= i < |s| :: IsDigit(s[i])
  }

  function DigitChar(d: nat): (ch: char)
    requires d < 10
    ensures IsDigit(ch) && ch as int - '0' as int == d
  {
    ('0' as int + d) as char
  }

  function DigitValue(ch: char): (d: nat)
    requires IsDigit(ch)
    ensures d < 10
  {
    ch as int - '0' as int
  }

  /** A byte offset in decimal, as a template literal prints a non-negative
      integer: at least one digit and no leading zero. */
  function Decimal(n: nat): (s: string)
    ensures 1 <= |s| && AllDigits(s)
    ensures s[0] == '0' ==> n == 0
    decreases n
  {
    if n < 10 then [DigitChar(n)] else Decimal(n / 10) + [DigitChar(n % 10)]
  }

  /** The number a string of decimal digits spells (the empty string reads as 0). */
  function DecimalValue(s: string): nat
    requires AllDigits(s)
    decreases |s|
  {
    if s == [] then 0 else DecimalValue(s[..|s| - 1]) * 10 + DigitValue(s[|s| - 1])
  }

  /** Reading back the decimal rendering of an offset gives the offset. */
  lemma {:induction false} DecimalRoundTrip(n: nat)
    ensures DecimalValue(Decimal(n)) == n
    decreases n
  {
    var s := Decimal(n);
    if n < 10 {
      assert s[..|s| - 1] == [];
    } else {
      DecimalRoundTrip(n / 10);
      assert s[..|s| - 1] == Decimal(n / 10);
    }
  }

  /** Length of the run of decimal digits at the front of `s`. */
  function DigitRun(s: string): (k: nat)
    ensures k <= |s|
    ensures forall i | 0 <= i < k :: IsDigit(s[i])
    ensures k < |s| ==> !IsDigit(s[k])
    decreases |s|
  {
    if s == [] || !IsDigit(s[0]) then 0 else 1 + DigitRun(s[1..])
  }

  predicate IsHexDigit(ch: char) {
    IsDigit(ch) || 'a' <= ch <= 'f' || 'A' <= ch <= 'F'
  }

  predicate AllHexDigits(s: string) {
    forall i | 0 <= i < |s| :: IsHexDigit(s[i])
  }

  function HexDigitValue(ch: char): (d: nat)
    requires IsHexDigit(ch)
    ensures d < 16
    ensures IsDigit(ch) ==> d == DigitValue(ch)
  {
    if IsDigit(ch) then DigitValue(ch)
    else if 'a' <= ch <= 'f' then ch as int - 'a' as int + 10
    else ch as int - 'A' as int + 10
  }

  /** The number a string of hexadecimal digits spells. */
  function HexValue(s: string): nat
    requires AllHexDigits(s)
    decreases |s|
  {
    if s == [] then 0 else HexValue(s[..|s| - 1]) * 16 + HexDigitValue(s[|s| - 1])
  }

  /** Length of the run of hexadecimal digits at the front of `s`. */
  function HexRun(s: string): (k: nat)
    ensures k <= |s|
    ensures forall i | 0 <= i < k :: IsHexDigit(s[i])
    ensures k < |s| ==> !IsHexDigit(s[k])
    decreases |s|
  {
    if s == [] || !IsHexDigit(s[0]) then 0 else 1 + HexRun(s[1..])
  }

  /** `parseInt` without a radix switches to base 16 after a leading `0x`/`0X`. */
  predicate HexPrefixed(s: string) {
    |s| >= 2 && s[0] == '0' && (s[1] == 'x' || s[1] == 'X')
  }

  /** `parseInt` on an unsigned field: after a `0x`/`0X` prefix the number
      spelled by the hexadecimal digits that follow, otherwise the number
      spelled by the leading decimal digits; None (NaN) when no digit of
      the chosen base comes first. */
  function ParseInt(s: string): (r: Option<nat>)
    ensures HexPrefixed(s) ==> (r.Some? <==> |s| > 2 && IsHexDigit(s[2]))
    ensures !HexPrefixed(s) ==> (r.Some? <==> |s| > 0 && IsDigit(s[0]))
    ensures AllDigits(s) && s != [] ==> r == Some(DecimalValue(s))
    ensures HexPrefixed(s) && AllHexDigits(s[2..]) && |s| > 2 ==> r == Some(HexValue(s[2..]))
  {
    if HexPrefixed(s) then
      var t := s[2..];
      var k := HexRun(t);
      assert AllHexDigits(t[..k]) by {
        assert forall i | 0 <= i < k :: t[..k][i] == t[i];
      }
      if k == 0 then None
      else
        assert AllHexDigits(t) ==> k == |t| && t[..k] == t;
        Some(HexValue(t[..k]))
    else
      var k := DigitRun(s);
      assert AllDigits(s[..k]) by {
        assert forall i | 0 <= i < k :: s[..k][i] == s[i];
      }
      if k == 0 then None
      else
        assert AllDigits(s) ==> k == |s| && s[..k] == s;
        Some(DecimalValue(s[..k]))
  }

  /** The hexadecimal switch as `parseInt` makes it: `"0x1f"` reads as 31,
      `"0x"` as NaN, and a plain `"0"` still as 0. */
  lemma ParseIntExamples()
    ensures ParseInt("0x1f") == Some(31)
    ensures ParseInt("0X") == None
    ensures ParseInt("0") == Some(0)
    ensures ParseInt("12ab") == Some(12)
  {
    assert "0x1f"[2..] == "1f";
    assert HexRun("1f") == 2 by {
      assert "1f"[1..] == "f" && "f"[1..] == [];
    }
    assert "1f"[..2] == "1f" && "1f"[..1] == "1" && "1"[..0] == [];
    assert HexValue("1f") == 31;
    assert "12ab"[..2] == "12" && "12"[..1] == "1";
  }

  /** `String.prototype.split` with a one-character separator: the pieces
      between separators, in order; there is always at least one. */
  function Split(s: string, sep: char): (parts: seq<string>)
    ensures |parts| >= 1
    ensures Join(parts, sep) == s
    ensures forall i | 0 <= i < |parts| :: sep !in parts[i]
    decreases |s|
  {
    if s == [] then [[]]
    else
      var rest := Split(s[1..], sep);
      if s[0] == sep then
        assert ([[]] + rest)[1..] == rest;
        [[]] + rest
      else
        var parts := [[s[0]] + rest[0]] + rest[1..];
        assert parts[1..] == rest[1..];
        assert forall i | 1 <= i < |parts| :: parts[i] == rest[i];
        parts
  }

  /** The inverse of Split: the pieces glued back with the separator. */
  function Join(parts: seq<string>, sep: char): string
    requires |parts| >= 1
    decreases |parts|
  {
    if |parts| == 1 then parts[0] else parts[0] + [sep] + Join(parts[1..], sep)
  }

  lemma {:induction false} SplitNoSeparator(a: string, sep: char)
    requires sep !in a
    ensures Split(a, sep) == [a]
    decreases |a|
  {
    if a != [] {
      SplitNoSeparator(a[1..], sep);
      assert [a[0]] + a[1..] == a;
    }
  }

  lemma {:induction false} SplitAfterFirst(a: string, b: string, sep: char)
    requires sep !in a
    ensures Split(a + [sep] + b, sep) == [a] + Split(b, sep)
    decreases |a|
  {
    var s := a + [sep] + b;
    if a == [] {
      assert s[1..] == b;
    } else {
      assert s[1..] == a[1..] + [sep] + b;
      SplitAfterFirst(a[1..], b, sep);
      assert [a[0]] + a[1..] == a;
    }
  }

  /** The probe argument for one window: `path:start:end`. */
  function Descriptor(w: Window): (arg: string)
    ensures |arg| >= |w.path| + 4
    ensures arg[..|w.path|] == w.path && arg[|w.path|] == ':'
    ensures forall i :: |w.path| < i < |arg| ==> arg[i] == ':' || IsDigit(arg[i])
  {
    var a, b := Decimal(w.start), Decimal(w.end);
    var arg := w.path + [':'] + a + [':'] + b;
    assert forall i :: |w.path| < i < |arg| ==> arg[i] == ':' || IsDigit(arg[i]) by {
      forall i | |w.path| < i < |arg|
        ensures arg[i] == ':' || IsDigit(arg[i])
      {
        if i < |w.path| + 1 + |a| {
          assert arg[i] == a[i - |w.path| - 1];
        } else if i > |w.path| + 1 + |a| {
          assert arg[i] == b[i - |w.path| - 2 - |a|];
        }
      }
    }
    arg
  }

  /** How the example probe reads one argument: split at every ':' and take
      the first three pieces as path, start offset and end offset. A path
      read this way never contains ':'. */
  function ParseDescriptor(arg: string): (r: Option<Window>)
    ensures r.Some? ==> ':' !in r.value.path
  {
    var parts := Split(arg, ':');
    if |parts| < 3 then None
    else
      match (ParseInt(parts[1]), ParseInt(parts[2]))
      case (Some(start), Some(end)) => Some(Window(parts[0], start, end))
      case _ => None
  }

  lemma DigitsHaveNoColon(s: string)
    requires AllDigits(s)
    ensures ':' !in s
  {
  }

  /** For a path without ':', the probe reads back exactly the window the
      watchdog described. */
  lemma DescriptorRoundTrip(w: Window)
    requires ':' !in w.path
    ensures ParseDescriptor(Descriptor(w)) == Some(w)
  {
    var a, b := Decimal(w.start), Decimal(w.end);
    DigitsHaveNoColon(a);
    DigitsHaveNoColon(b);
    assert Descriptor(w) == w.path + [':'] + (a + [':'] + b);
    SplitAfterFirst(w.path, a + [':'] + b, ':');
    SplitAfterFirst(a, b, ':');
    SplitNoSeparator(b, ':');
    assert Split(Descriptor(w), ':') == [w.path, a, b];
    DecimalRoundTrip(w.start);
    DecimalRoundTrip(w.end);
  }

  /** A path that contains ':' (a drive-letter path such as `C:\logs\app-out.log`)
      is never read back: the first ':' inside the path ends the path piece. */
  lemma ColonPathNotRecovered(w: Window)
    requires ':' in w.path
    ensures ParseDescriptor(Descriptor(w)) != Some(w)
  {
  }

  /** Position of the last occurrence of `c` in `s`. */
  function LastIndexOf(s: string, c: char): (r: Option<nat>)
    ensures r.None? <==> c !in s
    ensures r.Some? ==> r.value < |s| && s[r.value] == c && c !in s[r.value + 1..]
    decreases |s|
  {
    if s == [] then None
    else if s[|s| - 1] == c then Some(|s| - 1)
    else
      var r := LastIndexOf(s[..|s| - 1], c);
      assert s == s[..|s| - 1] + [s[|s| - 1]];
      r
  }

  lemma LastIndexBeforeTail(a: string, b: string, c: char)
    requires c !in b
    ensures LastIndexOf(a + [c] + b, c) == Some(|a|)
  {
    var s := a + [c] + b;
    assert s[|a|] == c;
    assert s[|a| + 1..] == b;
  }

  /** Reading one argument from the right: the end offset follows the last
      ':', the start offset the ':' before it, and the path is everything
      before that, colons included. */
  function ParseDescriptorFromRight(arg: string): Option<Window> {
    match LastIndexOf(arg, ':')
    case None => None
    case Some(j) =>
      match LastIndexOf(arg[..j], ':')
      case None => None
      case Some(i) =>
        match (ParseInt(arg[i + 1..j]), ParseInt(arg[j + 1..]))
        case (Some(start), Some(end)) => Some(Window(arg[..i], start, end))
        case _ => None
  }

  /** Reading from the right recovers every window, whatever its path holds. */
  lemma DescriptorRoundTripFromRight(w: Window)
    ensures ParseDescriptorFromRight(Descriptor(w)) == Some(w)
  {
    var p, a, b := w.path, Decimal(w.start), Decimal(w.end);
    var s := Descriptor(w);
    DigitsHaveNoColon(a);
    DigitsHaveNoColon(b);
    LastIndexBeforeTail(p + [':'] + a, b, ':');
    var j := |p| + 1 + |a|;
    assert s[..j] == p + [':'] + a;
    LastIndexBeforeTail(p, a, ':');
    var i := |p|;
    assert s[..i] == p;
    assert s[i + 1..j] == a;
    assert s[j + 1..] == b;
    DecimalRoundTrip(w.start);
    DecimalRoundTrip(w.end);
    assert ParseInt(a) == Some(w.start);
    assert ParseInt(b) == Some(w.end);
    assert LastIndexOf(s, ':') == Some(j);
    assert LastIndexOf(s[..j], ':') == Some(i);
  }
}

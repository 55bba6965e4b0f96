/** Text handling shared by the parsers: decimal numbers, splitting and joining. */
module Text {
  import opened Wrappers

  function DigitChar(d: nat): (c: char)
    requires d < 10
    ensures '0' <= c <= '9' && c as int - '0' as int == d
  {
    '0' + d as char
  }

  /** The decimal form of a number. */
  function Digits(n: nat): (s: string)
    ensures s != [] && forall i :: 0 <= i < |s| ==> '0' <= s[i] <= '9'
  {
    if n < 10 then [DigitChar(n)] else Digits(n / 10) + [DigitChar(n % 10)]
  }

  /** The value of a nonempty run of digits. */
  function DigitsValue(s: string): (v: Option<nat>)
    ensures v.Some? ==> s != [] && forall i :: 0 <= i < |s| ==> '0' <= s[i] <= '9'
  {
    if s == [] then
      None
    else
      var last := s[|s| - 1];
      if !('0' <= last <= '9') then
        None
      else
        var d := last as int - '0' as int;
        if |s| == 1 then
          Some(d)
        else
          match DigitsValue(s[..|s| - 1])
          case None => None
          case Some(v) => Some(10 * v + d)
  }

  /** An unsigned number of at most `max`: digits after an optional plus sign. */
  function ParseUnsigned(s: string, max: nat): (v: Option<nat>)
    ensures v.Some? ==> v.value <= max && s != [] && '0' <= s[|s| - 1] <= '9'
  {
    var digits := if s != [] && s[0] == '+' then s[1..] else s;
    match DigitsValue(digits)
    case None => None
    case Some(v) => if v <= max then Some(v) else None
  }

  lemma {:induction false} DigitsRoundTrip(n: nat)
    ensures DigitsValue(Digits(n)) == Some(n)
  {
    if n >= 10 {
      DigitsRoundTrip(n / 10);
      var s := Digits(n);
      assert s[..|s| - 1] == Digits(n / 10);
    }
  }

  lemma {:induction false} UnsignedRoundTrip(n: nat, max: nat)
    requires n <= max
    ensures ParseUnsigned(Digits(n), max) == Some(n)
  {
    DigitsRoundTrip(n);
  }

  function Zeros(k: nat): string {
    seq(k, _ => '0')
  }

  /** A text has a value exactly if it is the decimal form of that number after any number of zeros. */
  lemma {:induction false} DigitsMean(s: string, n: nat)
    ensures DigitsValue(s) == Some(n) <==> exists k: nat :: s == Zeros(k) + Digits(n)
    decreases |s|
  {
    if DigitsValue(s) == Some(n) {
      var k := LeadingZeros(s, n);
    }
    forall k: nat | s == Zeros(k) + Digits(n) ensures DigitsValue(s) == Some(n) {
      ZerosBefore(k, n);
    }
  }

  lemma {:induction false} LeadingZeros(s: string, n: nat) returns (k: nat)
    requires DigitsValue(s) == Some(n)
    ensures s == Zeros(k) + Digits(n)
    decreases |s|
  {
    hide Digits, Zeros;
    var front, last := s[..|s| - 1], s[|s| - 1];
    assert s == front + [last];
    if front == [] {
      k := 0;
      OneDigit(n, last);
      NoZeros();
    } else {
      var v := DigitsValue(front).value;
      k := LeadingZeros(front, v);
      OneDigit(n - 10 * v, last);
      if v == 0 {
        OneMoreZero(k);
        k := k + 1;
      } else {
        OneMoreDigit(v, last);
        assert Zeros(k) + (Digits(v) + [last]) == s;
      }
    }
  }

  lemma {:induction false} OneDigit(d: nat, c: char)
    requires '0' <= c <= '9' && d == c as int - '0' as int
    ensures Digits(d) == [c]
  {
  }

  lemma {:induction false} OneMoreDigit(v: nat, c: char)
    requires v > 0 && '0' <= c <= '9'
    ensures Digits(10 * v + (c as int - '0' as int)) == Digits(v) + [c]
  {
  }

  lemma {:induction false} NoZeros()
    ensures Zeros(0) == ""
  {
  }

  lemma {:induction false} OneMoreZero(k: nat)
    ensures Zeros(k) + Digits(0) == Zeros(k + 1)
  {
    assert Digits(0) == "0";
  }

  lemma {:induction false} DigitAfter(s: string, v: nat, c: char)
    requires s != "" && DigitsValue(s) == Some(v) && '0' <= c <= '9'
    ensures DigitsValue(s + [c]) == Some(10 * v + (c as int - '0' as int))
  {
    assert (s + [c])[..|s|] == s;
  }

  lemma {:induction false} ZerosBefore(k: nat, n: nat)
    ensures DigitsValue(Zeros(k) + Digits(n)) == Some(n)
    decreases n
  {
    hide DigitsValue, Zeros;
    var c := DigitChar(n % 10);
    if n < 10 {
      if k == 0 {
        NoZeros();
        DigitsRoundTrip(n);
        assert "" + Digits(n) == Digits(n);
      } else {
        OnlyZeros(k);
        DigitAfter(Zeros(k), 0, c);
      }
    } else {
      ZerosBefore(k, n / 10);
      DigitAfter(Zeros(k) + Digits(n / 10), n / 10, c);
      assert Zeros(k) + (Digits(n / 10) + [c]) == (Zeros(k) + Digits(n / 10)) + [c];
    }
  }

  lemma {:induction false} OnlyZeros(k: nat)
    requires k > 0
    ensures DigitsValue(Zeros(k)) == Some(0) && Zeros(k) != ""
  {
    if k > 1 {
      OnlyZeros(k - 1);
      DigitAfter(Zeros(k - 1), 0, '0');
      assert Zeros(k) == Zeros(k - 1) + ['0'];
    } else {
      assert Zeros(k) == "0";
    }
  }

  /** A text is an unsigned number exactly if it is its decimal form, with a plus sign and zeros before it or not. */
  lemma {:induction false} UnsignedMeans(s: string, max: nat, n: nat)
    ensures ParseUnsigned(s, max) == Some(n) <==>
      n <= max && exists k: nat :: s == Zeros(k) + Digits(n) || s == ['+'] + (Zeros(k) + Digits(n))
  {
    hide DigitsValue, Zeros, Digits;
    var digits := if s != [] && s[0] == '+' then s[1..] else s;
    DigitsMean(digits, n);
    if ParseUnsigned(s, max) == Some(n) {
      var k: nat :| digits == Zeros(k) + Digits(n);
      assert s == digits || s == ['+'] + digits;
    }
    forall k: nat | s == Zeros(k) + Digits(n) || s == ['+'] + (Zeros(k) + Digits(n)) ensures digits == Zeros(k) + Digits(n) {
      NoPlus(k, n);
    }
  }

  lemma {:induction false} NoPlus(k: nat, n: nat)
    ensures (Zeros(k) + Digits(n))[0] != '+'
  {
  }

  // ---------- Searching ----------

  /** The position of the first occurrence of `c`, or the length of `s`. */
  function Find(s: string, c: char): (i: nat)
    ensures i <= |s| && c !in s[..i]
    ensures i < |s| ==> s[i] == c
  {
    if s == [] || s[0] == c then
      0
    else
      var i := Find(s[1..], c);
      assert s[..1 + i] == [s[0]] + s[1..][..i];
      1 + i
  }

  lemma {:induction false} FindAfter(before: string, c: char, after: string)
    requires c !in before
    ensures Find(before + [c] + after, c) == |before|
  {
    if before != "" {
      assert (before + [c] + after)[1..] == before[1..] + [c] + after;
      FindAfter(before[1..], c, after);
    }
  }

  // ---------- Splitting and joining ----------

  /** The pieces of `s` between the separators, empty pieces included. */
  function Split(s: string, sep: char): (parts: seq<string>)
    ensures parts != []
  {
    if s == [] then
      [[]]
    else
      var rest := Split(s[1..], sep);
      if s[0] == sep then [[]] + rest else [[s[0]] + rest[0]] + rest[1..]
  }

  function Join(parts: seq<string>, sep: string): string {
    if parts == [] then []
    else if |parts| == 1 then parts[0]
    else parts[0] + sep + Join(parts[1..], sep)
  }

  lemma {:induction false} SplitPart(part: string, sep: char)
    requires sep !in part
    ensures Split(part, sep) == [part]
  {
    if part != [] {
      SplitPart(part[1..], sep);
      assert part == [part[0]] + part[1..];
    }
  }

  lemma {:induction false} SplitAtSeparator(part: string, sep: char, rest: string)
    requires sep !in part
    ensures Split(part + [sep] + rest, sep) == [part] + Split(rest, sep)
  {
    var s := part + [sep] + rest;
    if part == [] {
      assert s[1..] == rest;
    } else {
      assert s[1..] == part[1..] + [sep] + rest;
      SplitAtSeparator(part[1..], sep, rest);
      assert part == [part[0]] + part[1..];
      assert ([part[1..]] + Split(rest, sep))[1..] == Split(rest, sep);
    }
  }

  lemma {:induction false} SplitJoin(parts: seq<string>, sep: char)
    requires parts != [] && forall i :: 0 <= i < |parts| ==> sep !in parts[i]
    ensures Split(Join(parts, [sep]), sep) == parts
  {
    if |parts| == 1 {
      SplitPart(parts[0], sep);
      assert parts == [parts[0]];
    } else {
      SplitJoin(parts[1..], sep);
      SplitAtSeparator(parts[0], sep, Join(parts[1..], [sep]));
      assert parts == [parts[0]] + parts[1..];
    }
  }

  /** The pieces hold no separator and make up the text. */
  lemma {:induction false} SplitMeans(s: string, sep: char)
    ensures Join(Split(s, sep), [sep]) == s
    ensures forall i :: 0 <= i < |Split(s, sep)| ==> sep !in Split(s, sep)[i]
  {
    if s != [] {
      SplitMeans(s[1..], sep);
      var rest := Split(s[1..], sep);
      assert s == [s[0]] + s[1..];
      if s[0] == sep {
        assert ([[]] + rest)[1..] == rest;
        assert [] + [sep] + Join(rest, [sep]) == s;
      } else {
        var first := [s[0]] + rest[0];
        assert Split(s, sep) == [first] + rest[1..] && ([first] + rest[1..])[1..] == rest[1..];
        if |rest| > 1 {
          assert [s[0]] + (rest[0] + [sep] + Join(rest[1..], [sep])) == first + [sep] + Join(rest[1..], [sep]);
        }
      }
    }
  }

  // ---------- Whitespace ----------

  /** The ASCII characters the program's standard library counts as whitespace. */
  predicate IsWhitespace(c: char) {
    c == ' ' || '\t' <= c <= '\r'
  }

  function TrimStart(s: string): string {
    if s != "" && IsWhitespace(s[0]) then TrimStart(s[1..]) else s
  }

  function TrimEnd(s: string): string {
    if s != "" && IsWhitespace(s[|s| - 1]) then TrimEnd(s[..|s| - 1]) else s
  }

  function Trim(s: string): string {
    TrimEnd(TrimStart(s))
  }
}

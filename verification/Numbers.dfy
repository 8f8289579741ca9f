/** How the code reads numbers: `parseInt`, `trim`, and clamping a configured prefix. */
module Numbers {
  import opened Text

  /** A JavaScript number: finite, or one of NaN and the infinities. */
  datatype Num = Finite(value: real) | NotFinite

  datatype Parsed = Int(value: int) | NaN

  predicate IsSpace(c: char) { c == ' ' || '\t' <= c <= '\r' }

  function SkipSpace(s: string): (r: string)
    ensures |r| <= |s|
  {
    if s != [] && IsSpace(s[0]) then SkipSpace(s[1..]) else s
  }

  function TrimEnd(s: string): string {
    if s != [] && IsSpace(s[|s| - 1]) then TrimEnd(s[..|s| - 1]) else s
  }

  function Trim(s: string): string { TrimEnd(SkipSpace(s)) }

  predicate IsHex(c: char) { IsDigit(c) || 'a' <= c <= 'f' || 'A' <= c <= 'F' }

  function HexValue(c: char): (v: nat)
    requires IsHex(c)
    ensures v < 16
  {
    if IsDigit(c) then (c - '0') as nat else if 'a' <= c then (c - 'a') as nat + 10 else (c - 'A') as nat + 10
  }

  predicate InBase(c: char, base: nat) { if base == 16 then IsHex(c) else IsDigit(c) }

  /** The longest prefix of digits. */
  function DigitRun(s: string, base: nat): (r: string)
    ensures |r| <= |s| && forall i :: 0 <= i < |r| ==> InBase(r[i], base)
  {
    if s == [] || !InBase(s[0], base) then [] else [s[0]] + DigitRun(s[1..], base)
  }

  function Value(s: string, base: nat): nat
    requires forall i :: 0 <= i < |s| ==> InBase(s[i], base)
  {
    if s == [] then 0
    else
      assert InBase(s[|s| - 1], base);
      Value(s[..|s| - 1], base) * base + HexValue(s[|s| - 1])
  }

  function DropHexMark(s: string, base: nat): string {
    if base == 16 && |s| >= 2 && s[0] == '0' && (s[1] == 'x' || s[1] == 'X') then s[2..] else s
  }

  function Unsigned(s: string, base: nat): Parsed {
    var run := DigitRun(DropHexMark(s, base), base);
    if run == [] then NaN else Int(Value(run, base))
  }

  /** `Number.parseInt`: leading space, a sign, then as many digits as there are. */
  function ParseInt(text: string, base: nat): Parsed {
    var s := SkipSpace(text);
    if s != [] && s[0] == '-' then
      var r := Unsigned(s[1..], base);
      if r.NaN? then NaN else Int(-r.value)
    else if s != [] && s[0] == '+' then Unsigned(s[1..], base)
    else Unsigned(s, base)
  }

  /** A plain digit string parses to its value. */
  lemma PlainDigits(s: string, base: nat)
    requires s != [] && forall i :: 0 <= i < |s| ==> InBase(s[i], base)
    ensures ParseInt(s, base) == Int(Value(s, base))
  {
    assert InBase(s[0], base);
    if |s| >= 2 { assert InBase(s[1], base); }
    FullRun(s, base);
    hide DigitRun, Value;
  }

  lemma {:induction false} FullRun(s: string, base: nat)
    requires forall i :: 0 <= i < |s| ==> InBase(s[i], base)
    ensures DigitRun(s, base) == s
  {
    if s != [] {
      FullRun(s[1..], base);
      assert s == [s[0]] + s[1..];
    }
  }

  /** A string with no outer space is left alone by `trim`. */
  lemma TrimNothing(s: string)
    requires s != [] && !IsSpace(s[0]) && !IsSpace(s[|s| - 1])
    ensures Trim(s) == s
  {
  }

  function ClampPrefix(prefix: Num, max: nat): (p: nat)
    ensures p <= max
  {
    if prefix.NotFinite? then max
    else if prefix.value < 0.0 then 0
    else if prefix.value > max as real then max
    else prefix.value.Floor
  }
}

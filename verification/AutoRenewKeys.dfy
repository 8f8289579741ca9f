/** Attempt keys: attempt accounting lives entirely in the text of idempotency keys. */
module AutoRenewKeys {
  import opened Text

  const IDEMPOTENCY_PREFIX := "auto-renew:"

  /** A subscription id as the database makes them: no colon. */
  predicate IsId(s: string) { ':' !in s }

  function PrintInt(n: int): (s: string)
    ensures ':' !in s
  {
    if n < 0 then "-" + ToDecimal(-n) else ToDecimal(n)
  }

  function Prefix(sub: string, expiresAt: int): string {
    IDEMPOTENCY_PREFIX + sub + ":" + PrintInt(expiresAt) + ":"
  }

  function AttemptKey(sub: string, expiresAt: int, attempt: nat): string {
    Prefix(sub, expiresAt) + "a" + ToDecimal(attempt)
  }

  /** Where the digits at the end of `s` start. */
  function TrailingDigits(s: string): (i: nat)
    ensures i <= |s| && AllDigits(s[i..]) && (i > 0 ==> !IsDigit(s[i - 1]))
  {
    if s == [] || !IsDigit(s[|s| - 1]) then |s|
    else
      var i := TrailingDigits(s[..|s| - 1]);
      assert s[i..] == s[..|s| - 1][i..] + [s[|s| - 1]];
      i
  }

  /** The number captured by `/:a(\d+)$/`. */
  function ParseAttempt(key: string): (r: int)
    ensures r >= -1
  {
    var i := TrailingDigits(key);
    if i < |key| && i >= 2 && key[i - 2..i] == ":a" then FromDecimal(key[i..]) else -1
  }

  lemma TrailingDigitsOf(head: string, tail: string)
    requires head != [] && !IsDigit(head[|head| - 1]) && AllDigits(tail)
    ensures TrailingDigits(head + tail) == |head|
  {
    var s := head + tail;
    var i := TrailingDigits(s);
    assert forall k :: i <= k < |s| ==> IsDigit(s[k]) by { assert forall k :: i <= k < |s| ==> s[k] == s[i..][k - i]; }
    assert forall k :: |head| <= k < |s| ==> IsDigit(s[k]);
    assert s[|head| - 1] == head[|head| - 1];
  }

  /** Printing an attempt number into a key and parsing it back gives the same number. */
  lemma AttemptRoundTrip(sub: string, expiresAt: int, attempt: nat)
    ensures ParseAttempt(AttemptKey(sub, expiresAt, attempt)) == attempt
  {
    var head := Prefix(sub, expiresAt) + "a";
    var tail := ToDecimal(attempt);
    var key := AttemptKey(sub, expiresAt, attempt);
    assert key == head + tail;
    TrailingDigitsOf(head, tail);
    assert key[|head| - 2..|head|] == ":a" && key[|head|..] == tail;
    DecimalRoundTrip(attempt);
  }

  lemma PrintIntInjective(a: int, b: int)
    requires PrintInt(a) == PrintInt(b)
    ensures a == b
  {
    if a < 0 && b < 0 { assert PrintInt(a)[1..] == ToDecimal(-a) && PrintInt(b)[1..] == ToDecimal(-b); }
    DecimalRoundTrip(if a < 0 then -a else a);
    DecimalRoundTrip(if b < 0 then -b else b);
    assert (PrintInt(a)[0] == '-' <==> a < 0) && (PrintInt(b)[0] == '-' <==> b < 0);
  }

  /** Two strings that agree up to their first colon have equal parts before it and agree after it. */
  lemma ColonCut(a: string, u: string, b: string, v: string)
    requires ':' !in a && ':' !in b
    requires u != [] && v != [] && u[0] == v[0] == ':'
    requires a + u <= b + v
    ensures a == b && u <= v
  {
    var s, t := a + u, b + v;
    assert s[|a|] == ':' == t[|b|] && t[|a|] == s[|a|];
    assert forall i :: 0 <= i < |a| ==> s[i] == a[i] != ':' && t[i] == s[i];
    assert forall i :: 0 <= i < |b| ==> t[i] == b[i] != ':';
    assert |a| == |b|;
    assert s[..|a|] == a && t[..|b|] == b && s[|a|..] == u && t[|b|..] == v;
    assert s == t[..|s|];
    assert t[..|s|][|a|..] == t[|a|..][..|u|];
  }

  function Rest(expiresAt: int): (r: string)
    ensures r != [] && r[0] == ':'
  {
    ":" + PrintInt(expiresAt) + ":"
  }

  lemma Nested(a: string, b: string, r: string, u: string, t: string)
    ensures a + (b + r) + u + t == a + (b + (r + u + t))
  {
    assert a + (b + r) == a + b + r;
    assert b + (r + u + t) == b + r + u + t;
  }

  lemma PrefixShape(sub: string, expiresAt: int, attempt: nat)
    ensures Prefix(sub, expiresAt) == IDEMPOTENCY_PREFIX + (sub + Rest(expiresAt))
    ensures AttemptKey(sub, expiresAt, attempt)
         == IDEMPOTENCY_PREFIX + (sub + (Rest(expiresAt) + "a" + ToDecimal(attempt)))
  {
    var number := ToDecimal(attempt);
    var at := PrintInt(expiresAt);
    hide PrintInt, ToDecimal;
    assert IDEMPOTENCY_PREFIX + (sub + ":") == IDEMPOTENCY_PREFIX + sub + ":";
    Nested(IDEMPOTENCY_PREFIX, sub, ":", at, ":");
    Nested(IDEMPOTENCY_PREFIX, sub, Rest(expiresAt), "a", number);
  }

  lemma DropCommon(c: string, x: string, y: string)
    requires c + x <= c + y
    ensures x <= y
  {
    assert (c + x)[|c|..] == x && (c + y)[|c|..] == y;
    assert c + x == (c + y)[..|c| + |x|];
    assert (c + y)[..|c| + |x|][|c|..] == y[..|x|];
  }

  /** A prefix read sees exactly the keys of its own subscription and expiry epoch. */
  lemma PrefixIsolation(sub: string, expiresAt: int, other: string, epoch: int, attempt: nat)
    requires IsId(sub) && IsId(other)
    ensures Prefix(sub, expiresAt) <= AttemptKey(other, epoch, attempt) <==> sub == other && expiresAt == epoch
  {
    PrefixShape(sub, expiresAt, attempt);
    PrefixShape(other, epoch, attempt);
    assert Prefix(sub, expiresAt) <= AttemptKey(sub, expiresAt, attempt);
    hide Prefix, AttemptKey, Rest, PrintInt, ToDecimal;
    if Prefix(sub, expiresAt) <= AttemptKey(other, epoch, attempt) {
      var number := ToDecimal(attempt);
      DropCommon(IDEMPOTENCY_PREFIX, sub + Rest(expiresAt), other + (Rest(epoch) + "a" + number));
      ColonCut(sub, Rest(expiresAt), other, Rest(epoch) + "a" + number);
      assert Rest(epoch) + "a" + number == Rest(epoch) + ("a" + number);
      EpochCut(expiresAt, epoch, "a" + number);
    }
  }

  lemma EpochCut(expiresAt: int, epoch: int, tail: string)
    requires Rest(expiresAt) <= Rest(epoch) + tail
    ensures expiresAt == epoch
  {
    var x, y := PrintInt(expiresAt), PrintInt(epoch);
    hide PrintInt;
    assert Rest(expiresAt) == ":" + (x + ":");
    assert Rest(epoch) + tail == ":" + (y + (":" + tail));
    DropCommon(":", x + ":", y + (":" + tail));
    ColonCut(x, ":", y, ":" + tail);
    PrintIntInjective(expiresAt, epoch);
  }
}

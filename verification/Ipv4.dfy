/** Grouping IPv4 addresses by network prefix. */
module Ipv4 {
  import opened Text
  import opened Bits
  import opened Numbers

  /** Four octets to one number, the way the code shifts them together. */
  function Pack(a: nat, b: nat, c: nat, d: nat): nat {
    Or(Or(Or(Shl(a, 24), Shl(b, 16)), Shl(c, 8)), d)
  }

  function Mask(p: nat): nat
  {
    if p == 0 then 0 else if p >= 32 then 0xffff_ffff else Shl(0xffff_ffff, 32 - p)
  }

  function ShowNetwork(net: nat, p: nat): string {
    Join([ToDecimal(And(Shr(net, 24), 0xff)), ToDecimal(And(Shr(net, 16), 0xff)), ToDecimal(And(Shr(net, 8), 0xff)),
          ToDecimal(And(net, 0xff)) + "/" + ToDecimal(p)], '.')
  }

  predicate IsOctet(v: Parsed) { v.Int? && 0 <= v.value <= 255 }

  /** `ipv4NetworkKey`: anything that is not four octets is its own key. */
  function NetworkKey(ip: string, prefix: Num): string {
    var octets := Split(Trim(ip), '.');
    if |octets| != 4 then ip
    else
      var nums := seq(4, i requires 0 <= i < 4 => ParseInt(octets[i], 10));
      if exists i :: 0 <= i < 4 && !IsOctet(nums[i]) then ip
      else
        var p := ClampPrefix(prefix, 32);
        ShowNetwork(And(Pack(nums[0].value, nums[1].value, nums[2].value, nums[3].value), Mask(p)), p)
  }

  // ---- what the shifts and masks compute ----

  lemma Powers()
    ensures Pow2(8) == 256 && Pow2(16) == 65536 && Pow2(24) == 16777216 && Pow2(32) == 0x1_0000_0000
  {
    assert Pow2(4) == 16;
    PowAdd(4, 4);
    PowAdd(8, 8);
    PowAdd(16, 8);
    PowAdd(16, 16);
  }

  predicate Octets(a: nat, b: nat, c: nat, d: nat) { a < 256 && b < 256 && c < 256 && d < 256 }

  lemma ShiftFits(n: nat, k: nat, m: nat)
    requires Pow2(k) == m && n * m < 0x1_0000_0000
    ensures Shl(n, k) == n * m
  {
    Powers();
    hide Pow2;
    var word := n * m;
    assert n * Pow2(k) == word;
    InWord(word);
  }

  lemma InWord(n: nat)
    requires n < 0x1_0000_0000
    ensures n % 0x1_0000_0000 == n
  {
  }

  lemma ShiftsFit(a: nat, b: nat, c: nat)
    requires Octets(a, b, c, 0)
    ensures Shl(a, 24) == a * 16777216 && Shl(b, 16) == b * 65536 && Shl(c, 8) == c * 256
  {
    Powers();
    hide Shl, Pow2;
    ShiftFits(a, 24, 16777216);
    ShiftFits(b, 16, 65536);
    ShiftFits(c, 8, 256);
  }

  lemma OrIsSum(x: nat, y: nat, k: nat, m: nat)
    requires Pow2(k) == m && y < m
    ensures Or(x * m, y) == x * m + y
  {
    hide Or, Pow2;
    OrDisjoint(x, y, k);
  }

  lemma PackIsSum(a: nat, b: nat, c: nat, d: nat)
    requires Octets(a, b, c, d)
    ensures Pack(a, b, c, d) == a * 16777216 + b * 65536 + c * 256 + d < 0x1_0000_0000
  {
    Powers();
    ShiftsFit(a, b, c);
    hide Shl, Pow2, Or;
    OrIsSum(a, b * 65536, 24, 16777216);
    var two := a * 256 + b;
    assert a * 16777216 + b * 65536 == two * 65536;
    OrIsSum(two, c * 256, 16, 65536);
    var three := two * 256 + c;
    assert two * 65536 + c * 256 == three * 256;
    OrIsSum(three, d, 8, 256);
  }

  lemma MaskIsHighBits(p: nat)
    requires p <= 32
    ensures Pow2(32 - p) <= Pow2(32) && Mask(p) == Pow2(32) - Pow2(32 - p)
  {
    Powers();
    var k: nat := 32 - p;
    PowMono(k, 32);
    if 0 < p < 32 { ShiftedOnes(k); }
    hide Pow2, Shl;
  }

  lemma ShiftedOnes(k: nat)
    requires Pow2(k) <= 0x1_0000_0000
    ensures Shl(0xffff_ffff, k) == 0x1_0000_0000 - Pow2(k)
  {
    Powers();
    TopBits(Pow2(k));
    hide Pow2;
  }

  /** Shifting the all-ones word left by less than its width. */
  lemma TopBits(m: nat)
    requires 0 < m <= 0x1_0000_0000
    ensures (0xffff_ffff * m) % 0x1_0000_0000 == 0x1_0000_0000 - m
  {
    DivModUnique(0xffff_ffff * m, 0x1_0000_0000, m - 1, 0x1_0000_0000 - m);
  }

  /** The shift-and-mask form refines dropping the remainder modulo 2^(32-p), for every p from 0 to 32. */
  lemma MaskRefinesModulo(n: nat, p: nat)
    requires p <= 32 && n < Pow2(32)
    ensures And(n, Mask(p)) == DropLow(n, Pow2(32 - p))
  {
    MaskIsHighBits(p);
    AndHigh(n, 32 - p, 32);
  }

  /** The printed bytes determine the network number. */
  function Bytes(net: nat): seq<nat> { [net / 16777216 % 256, net / 65536 % 256, net / 256 % 256, net % 256] }

  lemma ShowsBytes(net: nat, p: nat)
    ensures var b := Bytes(net);
      ShowNetwork(net, p) == Join(Parts(b, p), '.')
  {
    Powers();
    AndLow(Shr(net, 24), 8);
    AndLow(Shr(net, 16), 8);
    AndLow(Shr(net, 8), 8);
    AndLow(net, 8);
  }

  lemma BytesInjective(m: nat, n: nat)
    requires m < 0x1_0000_0000 && n < 0x1_0000_0000 && Bytes(m) == Bytes(n)
    ensures m == n
  {
    BytesCompose(m);
    BytesCompose(n);
  }

  lemma BytesCompose(n: nat)
    requires n < 0x1_0000_0000
    ensures var b := Bytes(n); n == b[0] * 16777216 + b[1] * 65536 + b[2] * 256 + b[3]
  {
    DivTwice(n, 256, 256);
    DivTwice(n, 65536, 256);
  }

  lemma NoDot(n: nat)
    ensures '.' !in ToDecimal(n)
  {
    var s := ToDecimal(n);
    assert forall i :: 0 <= i < |s| ==> IsDigit(s[i]);
  }

  function Parts(b: seq<nat>, p: nat): seq<string>
    requires |b| == 4
  {
    [ToDecimal(b[0]), ToDecimal(b[1]), ToDecimal(b[2]), ToDecimal(b[3]) + "/" + ToDecimal(p)]
  }

  lemma PartsSplit(b: seq<nat>, p: nat)
    requires |b| == 4
    ensures Split(Join(Parts(b, p), '.'), '.') == Parts(b, p)
  {
    NoDot(b[0]);
    NoDot(b[1]);
    NoDot(b[2]);
    NoDot(b[3]);
    NoDot(p);
    SplitJoin(Parts(b, p), '.');
  }

  lemma PartsInjective(a: seq<nat>, b: seq<nat>, p: nat)
    requires |a| == |b| == 4 && Parts(a, p) == Parts(b, p)
    ensures a == b
  {
    assert Parts(a, p)[3] == ToDecimal(a[3]) + ("/" + ToDecimal(p));
    assert Parts(b, p)[3] == ToDecimal(b[3]) + ("/" + ToDecimal(p));
    SameTail(ToDecimal(a[3]), ToDecimal(b[3]), "/" + ToDecimal(p));
    forall i | 0 <= i < 4 ensures a[i] == b[i] {
      assert i < 3 ==> Parts(a, p)[i] == Parts(b, p)[i];
      DecimalRoundTrip(a[i]);
      DecimalRoundTrip(b[i]);
    }
  }

  /** Two networks print alike only if they are the same network. */
  lemma ShowInjective(m: nat, n: nat, p: nat)
    requires m < 0x1_0000_0000 && n < 0x1_0000_0000 && ShowNetwork(m, p) == ShowNetwork(n, p)
    ensures m == n
  {
    ShowsBytes(m, p);
    ShowsBytes(n, p);
    hide ShowNetwork, Join, Split;
    PartsSplit(Bytes(m), p);
    PartsSplit(Bytes(n), p);
    PartsInjective(Bytes(m), Bytes(n), p);
    BytesInjective(m, n);
  }

  // ---- well-formed addresses ----

  /** Four digit strings, each at most 255; leading zeros are fine. */
  predicate Quad(octets: seq<string>) {
    |octets| == 4 && forall i :: 0 <= i < 4 ==> IsOctetText(octets[i])
  }

  predicate IsOctetText(s: string) { s != [] && (forall i :: 0 <= i < |s| ==> InBase(s[i], 10)) && Value(s, 10) <= 255 }

  function Address(octets: seq<string>): nat
    requires Quad(octets)
  {
    Value(octets[0], 10) * 16777216 + Value(octets[1], 10) * 65536 + Value(octets[2], 10) * 256 + Value(octets[3], 10)
  }

  lemma QuadSplits(octets: seq<string>)
    requires Quad(octets)
    ensures Split(Trim(Join(octets, '.')), '.') == octets
    ensures forall i :: 0 <= i < 4 ==> ParseInt(octets[i], 10) == Int(Value(octets[i], 10))
  {
    forall i | 0 <= i < 4
      ensures ParseInt(octets[i], 10) == Int(Value(octets[i], 10)) && '.' !in octets[i]
    {
      assert IsOctetText(octets[i]);
      PlainDigits(octets[i], 10);
    }
    var s := Join(octets, '.');
    JoinEnds(octets);
    TrimNothing(s);
    SplitJoin(octets, '.');
  }

  lemma {:induction false} JoinEnds(parts: seq<string>)
    requires parts != [] && parts[0] != [] && parts[|parts| - 1] != []
    ensures var s := Join(parts, '.');
      s != [] && s[0] == parts[0][0] && s[|s| - 1] == parts[|parts| - 1][|parts[|parts| - 1]| - 1]
  {
    if |parts| == 2 { assert Join(parts[1..], '.') == parts[1]; }
    if |parts| > 2 {
      JoinTail(parts);
    }
  }

  lemma {:induction false} JoinTail(parts: seq<string>)
    requires |parts| > 1 && parts[|parts| - 1] != []
    ensures var s := Join(parts, '.'); s != [] && s[|s| - 1] == parts[|parts| - 1][|parts[|parts| - 1]| - 1]
  {
    if |parts| > 2 { JoinTail(parts[1..]); } else { assert Join(parts[1..], '.') == parts[1]; }
  }

  lemma AddressIsPacked(octets: seq<string>)
    requires Quad(octets)
    ensures var v := seq(4, i requires 0 <= i < 4 => Value(octets[i], 10));
      Address(octets) == Pack(v[0], v[1], v[2], v[3]) < 0x1_0000_0000
  {
    assert forall i :: 0 <= i < 4 ==> IsOctetText(octets[i]);
    PackIsSum(Value(octets[0], 10), Value(octets[1], 10), Value(octets[2], 10), Value(octets[3], 10));
  }

  lemma KeyUnfolds(ip: string, v: seq<nat>, prefix: Num)
    requires |v| == 4 && Octets(v[0], v[1], v[2], v[3]) && |Split(Trim(ip), '.')| == 4
    requires forall i :: 0 <= i < 4 ==> ParseInt(Split(Trim(ip), '.')[i], 10) == Int(v[i])
    ensures var p := ClampPrefix(prefix, 32);
      NetworkKey(ip, prefix) == ShowNetwork(And(Pack(v[0], v[1], v[2], v[3]), Mask(p)), p)
  {
    hide Pack, Mask, And, ShowNetwork, ParseInt, Split, Trim, ClampPrefix;
  }

  lemma KeyOfQuad(octets: seq<string>, prefix: Num)
    requires Quad(octets)
    ensures Address(octets) < 0x1_0000_0000
    ensures var p := ClampPrefix(prefix, 32);
      NetworkKey(Join(octets, '.'), prefix) == ShowNetwork(DropLow(Address(octets), Pow2(32 - p)), p)
  {
    hide Pack, Mask, And, ShowNetwork, Value, ParseInt, Join;
    hide Split, Trim, Pow2, DropLow, Address, NetworkKey, ClampPrefix;
    assert forall i :: 0 <= i < 4 ==> IsOctetText(octets[i]);
    QuadSplits(octets);
    AddressIsPacked(octets);
    Powers();
    var v := seq(4, i requires 0 <= i < 4 => Value(octets[i], 10));
    KeyUnfolds(Join(octets, '.'), v, prefix);
    MaskRefinesModulo(Address(octets), ClampPrefix(prefix, 32));
  }

  /** Two dotted quads get the same key exactly when their top `p` bits agree, for every prefix. */
  lemma KeyIffTopBitsAgree(x: seq<string>, y: seq<string>, prefix: Num)
    requires Quad(x) && Quad(y)
    ensures var p := ClampPrefix(prefix, 32);
      NetworkKey(Join(x, '.'), prefix) == NetworkKey(Join(y, '.'), prefix)
      <==> Address(x) / Pow2(32 - p) == Address(y) / Pow2(32 - p)
  {
    hide *;
    var p := ClampPrefix(prefix, 32);
    KeyOfQuad(x, prefix);
    KeyOfQuad(y, prefix);
    var d := Pow2(32 - p);
    DropLowIsQuotient(Address(x), Address(y), d);
    var m, n := DropLow(Address(x), d), DropLow(Address(y), d);
    if ShowNetwork(m, p) == ShowNetwork(n, p) { ShowInjective(m, n, p); }
  }

  /** So a shorter prefix only merges networks. */
  lemma ShorterPrefixMerges(x: seq<string>, y: seq<string>, long: Num, short: Num)
    requires Quad(x) && Quad(y) && ClampPrefix(short, 32) <= ClampPrefix(long, 32)
    requires NetworkKey(Join(x, '.'), long) == NetworkKey(Join(y, '.'), long)
    ensures NetworkKey(Join(x, '.'), short) == NetworkKey(Join(y, '.'), short)
  {
    hide *;
    var p, q := ClampPrefix(long, 32), ClampPrefix(short, 32);
    KeyIffTopBitsAgree(x, y, long);
    KeyIffTopBitsAgree(x, y, short);
    PowAdd(32 - p, p - q);
    DivTwice(Address(x), Pow2(32 - p), Pow2(p - q));
    DivTwice(Address(y), Pow2(32 - p), Pow2(p - q));
  }
}

/** Expanding IPv6 text to its eight hextets, and grouping addresses by prefix. */
module Ipv6 {
  import opened Wrappers
  import opened Text
  import opened Numbers

  // ---- the code ----

  function BeforePercent(s: string): string { if '%' in s then s[..IndexOf(s, '%')] else s }

  function DropOpen(s: string): string { if s != [] && s[0] == '[' then s[1..] else s }

  function DropClose(s: string): string { if s != [] && s[|s| - 1] == ']' then s[..|s| - 1] else s }

  /** Trimmed, without brackets and without a zone. */
  function Clean(ip: string): string { BeforePercent(DropClose(DropOpen(Trim(ip)))) }

  /** `String.split("::")`: cut at each double colon, leftmost first. */
  function SplitDouble(s: string): (parts: seq<string>)
    ensures |parts| > 0
  {
    var i := DoubleAt(s);
    if i == |s| then [s] else [s[..i]] + SplitDouble(s[i + 2..])
  }

  /** Where the first double colon starts, or the length. */
  function DoubleAt(s: string): (i: nat)
    ensures i == |s| || i + 2 <= |s|
  {
    if s == [] then 0
    else if |s| >= 2 && s[0] == ':' && s[1] == ':' then 0
    else 1 + DoubleAt(s[1..])
  }

  function Pieces(s: string): seq<string> { if s == [] then [] else Split(s, ':') }

  function Zeros(n: nat): seq<string> { seq(n, _ => "0") }

  /** The groups the text spells, the compressed run filled with zeros. */
  function Groups(clean: string): (g: Option<seq<string>>)
    ensures g.Some? ==> |g.value| == 8
  {
    if clean == [] || ':' !in clean then None
    else
      var parts := SplitDouble(clean);
      if |parts| > 2 then None
      else
        var head := Pieces(parts[0]);
        var tail := if |parts| == 2 then Pieces(parts[1]) else [];
        if |parts| == 1 then if |head| == 8 then Some(head) else None
        else if |head| + |tail| > 8 then None
        else Some(head + Zeros(8 - |head| - |tail|) + tail)
  }

  function GroupValue(g: string): Parsed { ParseInt(if g == [] then "0" else g, 16) }

  predicate IsHextet(v: Parsed) { v.Int? && 0 <= v.value <= 0xffff }

  function HexDigit(d: nat): (c: char)
    requires d < 16
    ensures IsHex(c) && HexValue(c) == d
  {
    if d < 10 then '0' + d as char else 'a' + (d - 10) as char
  }

  /** `Number.toString(16)`. */
  function ToHex(n: nat): (s: string)
    ensures s != [] && forall i :: 0 <= i < |s| ==> IsHex(s[i])
  {
    if n < 16 then [HexDigit(n)] else ToHex(n / 16) + [HexDigit(n % 16)]
  }

  /** What `expandIpv6` returns. */
  function Expand(ip: string): (r: Option<seq<string>>)
    ensures r.Some? ==> |r.value| == 8
  {
    match Groups(Clean(ip))
    case None => None
    case Some(g) =>
      if forall i :: 0 <= i < 8 ==> IsHextet(GroupValue(g[i])) then
        Some(seq(8, i requires 0 <= i < 8 => ToHex(GroupValue(g[i]).value)))
      else None
  }

  method ExpandIpv6(ip: string) returns (r: Option<seq<string>>)
    ensures r == Expand(ip)
  {
    hide Groups, Clean, GroupValue, ToHex;
    var groups := Groups(Clean(ip));
    if groups.None? { return None; }
    var g := groups.value;
    var out: seq<string> := [];
    for k := 0 to |g|
      invariant |out| == k
      invariant forall i :: 0 <= i < k ==> IsHextet(GroupValue(g[i])) && out[i] == ToHex(GroupValue(g[i]).value)
    {
      var n := GroupValue(g[k]);
      if !IsHextet(n) { return None; }
      out := out + [ToHex(n.value)];
    }
    assert out == seq(8, i requires 0 <= i < 8 => ToHex(GroupValue(g[i]).value));
    return Some(out);
  }

  // ---- printed hextets ----

  predicate AllHex(s: string) { forall i :: 0 <= i < |s| ==> IsHex(s[i]) }

  lemma {:induction false} HexRoundTrip(n: nat)
    ensures AllHex(ToHex(n)) && Value(ToHex(n), 16) == n
  {
    var s := ToHex(n);
    if n >= 16 {
      HexRoundTrip(n / 16);
      assert s[..|s| - 1] == ToHex(n / 16);
    }
  }

  /** `g` spells the number `v`: any letter case, any leading zeros. */
  predicate Spells(g: string, v: nat) { g != [] && AllHex(g) && Value(g, 16) == v <= 0xffff }

  predicate AllSpell(gs: seq<string>, vs: seq<nat>) {
    |gs| == |vs| && forall i :: 0 <= i < |gs| ==> Spells(gs[i], vs[i])
  }

  lemma SpelledValue(g: string, v: nat)
    requires Spells(g, v)
    ensures GroupValue(g) == Int(v)
  {
    PlainDigits(g, 16);
  }

  lemma ZeroSpells()
    ensures Spells("0", 0)
  {
    assert "0"[..0] == "";
  }

  // ---- splitting what was joined ----

  /** Hex digits and colons only: nothing for the cleaning to remove. */
  predicate Plain(s: string) { forall i :: 0 <= i < |s| ==> IsHex(s[i]) || s[i] == ':' }

  lemma CleanPlain(s: string)
    requires Plain(s)
    ensures Clean(s) == s
  {
    if s != [] {
      assert IsHex(s[0]) || s[0] == ':';
      assert IsHex(s[|s| - 1]) || s[|s| - 1] == ':';
      TrimNothing(s);
    }
  }

  /** No double colon, and no colon at either end. */
  predicate Single(s: string) {
    && (s != [] ==> s[0] != ':' && s[|s| - 1] != ':')
    && forall i :: 0 <= i < |s| - 1 ==> !(s[i] == ':' && s[i + 1] == ':')
  }

  lemma {:induction false} NoDouble(s: string)
    requires forall i :: 0 <= i < |s| - 1 ==> !(s[i] == ':' && s[i + 1] == ':')
    ensures DoubleAt(s) == |s|
  {
    if s != [] {
      NoDouble(s[1..]);
    }
  }

  lemma {:induction false} DoubleAfter(a: string, b: string)
    requires a != [] ==> a[|a| - 1] != ':'
    requires forall i :: 0 <= i < |a| - 1 ==> !(a[i] == ':' && a[i + 1] == ':')
    ensures DoubleAt(a + "::" + b) == |a|
  {
    var s := a + "::" + b;
    if a == [] {
      assert s[0] == ':' && s[1] == ':';
    } else {
      assert s[1..] == a[1..] + "::" + b;
      DoubleAfter(a[1..], b);
    }
  }

  lemma {:induction false} JoinedHex(gs: seq<string>)
    requires forall i :: 0 <= i < |gs| ==> gs[i] != [] && AllHex(gs[i])
    ensures var s := Join(gs, ':');
      Plain(s) && Single(s) && Pieces(s) == gs && (|gs| > 1 ==> ':' in s)
  {
    JoinedPlain(gs);
    if gs != [] {
      forall p | p in gs ensures ':' !in p {
        var i :| 0 <= i < |gs| && p == gs[i];
        assert AllHex(gs[i]);
      }
      SplitJoin(gs, ':');
      if |gs| > 1 {
        assert Join(gs, ':')[|gs[0]|] == ':';
      }
    }
  }

  lemma {:induction false} JoinedPlain(gs: seq<string>)
    requires forall i :: 0 <= i < |gs| ==> gs[i] != [] && AllHex(gs[i])
    ensures var s := Join(gs, ':'); Plain(s) && Single(s) && (s == [] <==> gs == [])
  {
    if gs != [] {
      assert AllHex(gs[0]);
    }
    if |gs| > 1 {
      JoinedPlain(gs[1..]);
      var s, t := Join(gs, ':'), Join(gs[1..], ':');
      var m := |gs[0]|;
      assert s == gs[0] + [':'] + t && t != [];
      forall i | 0 <= i < |s| ensures IsHex(s[i]) || s[i] == ':' {
        if i > m { assert s[i] == t[i - m - 1]; }
      }
      forall i | 0 <= i < |s| - 1 ensures !(s[i] == ':' && s[i + 1] == ':') {
        assert i < m ==> IsHex(gs[0][i]);
        assert i > m ==> s[i] == t[i - m - 1] && s[i + 1] == t[i - m];
      }
    }
  }

  // ---- the round trip ----

  /** The two textual forms without an embedded IPv4 part (section 2.2 of RFC 4291). */
  datatype Form = Full(groups: seq<string>) | Compressed(head: seq<string>, tail: seq<string>)

  function Write(f: Form): string {
    match f
    case Full(gs) => Join(gs, ':')
    case Compressed(head, tail) => Join(head, ':') + "::" + Join(tail, ':')
  }

  /** The form spells exactly these eight 16-bit numbers. */
  predicate Denotes(f: Form, vs: seq<nat>) {
    |vs| == 8 &&
    match f
    case Full(gs) => AllSpell(gs, vs)
    case Compressed(head, tail) =>
      && |head| + |tail| <= 8
      && AllSpell(head, vs[..|head|])
      && (forall i :: |head| <= i < 8 - |tail| ==> vs[i] == 0)
      && AllSpell(tail, vs[8 - |tail|..])
  }

  function Filled(f: Form): seq<string>
    requires f.Compressed? ==> |f.head| + |f.tail| <= 8
  {
    match f
    case Full(gs) => gs
    case Compressed(head, tail) => head + Zeros(8 - |head| - |tail|) + tail
  }

  lemma FilledSpells(f: Form, vs: seq<nat>)
    requires Denotes(f, vs)
    ensures AllSpell(Filled(f), vs)
  {
    if f.Compressed? {
      var g, h := Filled(f), |f.head|;
      forall i | 0 <= i < 8 ensures Spells(g[i], vs[i]) {
        hide Spells;
        if i < h {
          assert Spells(f.head[i], vs[..h][i]);
        } else if i < 8 - |f.tail| {
          ZeroSpells();
        } else {
          var j := i - (8 - |f.tail|);
          assert Spells(f.tail[j], vs[8 - |f.tail|..][j]);
        }
      }
    }
  }

  lemma NonEmptyHex(gs: seq<string>, vs: seq<nat>)
    requires AllSpell(gs, vs)
    ensures forall i :: 0 <= i < |gs| ==> gs[i] != [] && AllHex(gs[i])
  {
    forall i | 0 <= i < |gs| ensures gs[i] != [] && AllHex(gs[i]) {
      assert Spells(gs[i], vs[i]);
    }
  }

  lemma FullGroups(gs: seq<string>, vs: seq<nat>)
    requires AllSpell(gs, vs) && |gs| == 8
    ensures Groups(Clean(Join(gs, ':'))) == Some(gs)
  {
    hide Clean, AllSpell, AllHex, Split, Join;
    NonEmptyHex(gs, vs);
    JoinedHex(gs);
    var s := Join(gs, ':');
    CleanPlain(s);
    NoDouble(s);
  }

  lemma CompressedParts(a: string, b: string)
    requires Single(a) && Single(b)
    ensures SplitDouble(a + "::" + b) == [a, b]
  {
    var s := a + "::" + b;
    DoubleAfter(a, b);
    assert s[..|a|] == a && s[|a| + 2..] == b;
    NoDouble(b);
    hide DoubleAt;
    assert SplitDouble(b) == [b];
  }

  lemma PlainTwo(a: string, b: string)
    requires Plain(a) && Plain(b)
    ensures Plain(a + "::" + b) && ':' in a + "::" + b
  {
    var s := a + "::" + b;
    assert s[|a|] == ':';
    forall i | 0 <= i < |s| ensures IsHex(s[i]) || s[i] == ':' {
      assert s[i] == if i < |a| then a[i] else if i < |a| + 2 then ':' else b[i - |a| - 2];
    }
  }

  lemma GroupsOfTwo(s: string, a: string, b: string)
    requires ':' in s && SplitDouble(s) == [a, b] && |Pieces(a)| + |Pieces(b)| <= 8
    ensures Groups(s) == Some(Pieces(a) + Zeros(8 - |Pieces(a)| - |Pieces(b)|) + Pieces(b))
  {
    hide SplitDouble, Pieces, Zeros;
  }

  lemma CompressedGroups(head: seq<string>, tail: seq<string>, h: seq<nat>, t: seq<nat>)
    requires AllSpell(head, h) && AllSpell(tail, t) && |head| + |tail| <= 8
    ensures Groups(Clean(Join(head, ':') + "::" + Join(tail, ':'))) == Some(head + Zeros(8 - |head| - |tail|) + tail)
  {
    hide *;
    NonEmptyHex(head, h);
    NonEmptyHex(tail, t);
    JoinedHex(head);
    JoinedHex(tail);
    var a, b := Join(head, ':'), Join(tail, ':');
    CompressedParts(a, b);
    PlainTwo(a, b);
    CleanPlain(a + "::" + b);
    GroupsOfTwo(a + "::" + b, a, b);
  }

  lemma FormGroups(f: Form, vs: seq<nat>)
    requires Denotes(f, vs)
    ensures Groups(Clean(Write(f))) == Some(Filled(f))
  {
    hide Groups, Clean, Join, Spells;
    match f
    case Full(gs) => FullGroups(gs, vs);
    case Compressed(head, tail) => CompressedGroups(head, tail, vs[..|head|], vs[8 - |tail|..]);
  }

  /** Each number in lower-case hex without leading zeros. */
  function Normal(vs: seq<nat>): (r: seq<string>) { seq(|vs|, i requires 0 <= i < |vs| => ToHex(vs[i])) }

  lemma GroupsExpand(ip: string, g: seq<string>, vs: seq<nat>)
    requires Groups(Clean(ip)) == Some(g) && AllSpell(g, vs)
    ensures Expand(ip) == Some(Normal(vs))
  {
    hide Groups, Clean, GroupValue, ToHex, Spells;
    forall i | 0 <= i < 8 ensures GroupValue(g[i]) == Int(vs[i]) && 0 <= vs[i] <= 0xffff {
      assert Spells(g[i], vs[i]);
      SpelledRange(g[i], vs[i]);
      SpelledValue(g[i], vs[i]);
    }
    assert Normal(vs) == seq(8, i requires 0 <= i < 8 => ToHex(GroupValue(g[i]).value));
  }

  /** However an address is written, expansion returns its eight numbers, normalised. */
  lemma ExpandReadsBack(f: Form, vs: seq<nat>)
    requires Denotes(f, vs)
    ensures Expand(Write(f)) == Some(Normal(vs))
  {
    FormGroups(f, vs);
    FilledSpells(f, vs);
    hide *;
    GroupsExpand(Write(f), Filled(f), vs);
  }

  lemma SpelledRange(g: string, v: nat)
    requires Spells(g, v)
    ensures v <= 0xffff
  {
  }

  /** So two addresses expand alike exactly when they are the same address. */
  lemma SameExpansionIffSameAddress(x: Form, y: Form, u: seq<nat>, v: seq<nat>)
    requires Denotes(x, u) && Denotes(y, v)
    ensures Expand(Write(x)) == Expand(Write(y)) <==> u == v
  {
    ExpandReadsBack(x, u);
    ExpandReadsBack(y, v);
    if Normal(u) == Normal(v) { NormalInjective(u, v); }
  }

  lemma NormalInjective(u: seq<nat>, v: seq<nat>)
    requires |u| == |v| && Normal(u) == Normal(v)
    ensures u == v
  {
    forall i | 0 <= i < |u| ensures u[i] == v[i] {
      assert Normal(u)[i] == ToHex(u[i]) && Normal(v)[i] == ToHex(v[i]);
      HexRoundTrip(u[i]);
      HexRoundTrip(v[i]);
    }
  }

  /** Any result at all, from any text, is eight normalised 16-bit groups. */
  lemma ExpandShape(ip: string)
    requires Expand(ip).Some?
    ensures exists vs: seq<nat> {:trigger Normal(vs)} ::
      |vs| == 8 && Expand(ip).value == Normal(vs) && forall i :: 0 <= i < 8 ==> vs[i] <= 0xffff
  {
    hide Groups, Clean, GroupValue, ToHex;
    var g := Groups(Clean(ip)).value;
    var vs: seq<nat> :=
      seq(8, i requires 0 <= i < 8 => if IsHextet(GroupValue(g[i])) then GroupValue(g[i]).value else 0);
    assert forall i :: 0 <= i < 8 ==> IsHextet(GroupValue(g[i]));
    assert Expand(ip).value == Normal(vs);
  }

  lemma NormalSpells(vs: seq<nat>)
    requires forall i :: 0 <= i < |vs| ==> vs[i] <= 0xffff
    ensures AllSpell(Normal(vs), vs)
  {
    forall i | 0 <= i < |vs| ensures Spells(Normal(vs)[i], vs[i]) { HexRoundTrip(vs[i]); }
  }

  /** Expanding an expansion changes nothing. */
  lemma ExpandIsStable(ip: string)
    requires Expand(ip).Some?
    ensures Expand(Join(Expand(ip).value, ':')) == Expand(ip)
  {
    ExpandShape(ip);
    var vs: seq<nat> :| |vs| == 8 && Expand(ip).value == Normal(vs) && forall i :: 0 <= i < 8 ==> vs[i] <= 0xffff;
    NormalSpells(vs);
    hide Expand;
    ExpandReadsBack(Full(Normal(vs)), vs);
  }

  // ---- grouping by prefix ----

  /** `min(8, max(1, ceil(p / 16)))`. */
  function Leading(p: nat): (k: nat)
    requires p <= 128
    ensures 1 <= k <= 8 && 16 * k >= p && (k > 1 ==> 16 * (k - 1) < p)
  {
    if p == 0 then 1 else (p + 15) / 16
  }

  function NetworkKey(ip: string, prefix: Num): string {
    var p := ClampPrefix(prefix, 128);
    match Expand(ip)
    case None => ip
    case Some(r) => Join(r[..Leading(p)], ':') + "::/" + ToDecimal(p)
  }

  lemma KeyOfForm(f: Form, vs: seq<nat>, prefix: Num)
    requires Denotes(f, vs)
    ensures var p := ClampPrefix(prefix, 128);
      NetworkKey(Write(f), prefix) == Join(Normal(vs[..Leading(p)]), ':') + ("::/" + ToDecimal(p))
  {
    ExpandReadsBack(f, vs);
    var k := Leading(ClampPrefix(prefix, 128));
    assert |vs| == 8;
    NormalPrefix(vs, k);
    hide *;
    KeyOfExpansion(Write(f), Normal(vs), prefix);
  }

  lemma KeyOfExpansion(ip: string, r: seq<string>, prefix: Num)
    requires |r| == 8 && Expand(ip) == Some(r)
    ensures var p := ClampPrefix(prefix, 128);
      NetworkKey(ip, prefix) == Join(r[..Leading(p)], ':') + ("::/" + ToDecimal(p))
  {
    hide Expand, ClampPrefix, ToDecimal, Join, Leading;
  }

  lemma NormalPrefix(vs: seq<nat>, k: nat)
    requires k <= |vs|
    ensures |Normal(vs)| == |vs| && Normal(vs)[..k] == Normal(vs[..k])
  {
    hide ToHex;
  }

  /** Two addresses share a key exactly when their leading hextets agree, the prefix rounded up to whole hextets. */
  lemma KeyIffLeadingHextetsAgree(x: Form, y: Form, u: seq<nat>, v: seq<nat>, prefix: Num)
    requires Denotes(x, u) && Denotes(y, v)
    ensures |u| == |v| == 8
    ensures var k := Leading(ClampPrefix(prefix, 128));
      NetworkKey(Write(x), prefix) == NetworkKey(Write(y), prefix) <==> u[..k] == v[..k]
  {
    assert |u| == |v| == 8;
    KeyOfForm(x, u, prefix);
    KeyOfForm(y, v, prefix);
    hide *;
    var p := ClampPrefix(prefix, 128);
    var a, b := u[..Leading(p)], v[..Leading(p)];
    if NetworkKey(Write(x), prefix) == NetworkKey(Write(y), prefix) {
      SameTail(Join(Normal(a), ':'), Join(Normal(b), ':'), "::/" + ToDecimal(p));
      NormalPieces(a);
      NormalPieces(b);
      NormalInjective(a, b);
    }
  }

  lemma NormalPieces(vs: seq<nat>)
    ensures Pieces(Join(Normal(vs), ':')) == Normal(vs)
  {
    forall i | 0 <= i < |vs| ensures Normal(vs)[i] != [] && AllHex(Normal(vs)[i]) { HexRoundTrip(vs[i]); }
    JoinedHex(Normal(vs));
  }

  lemma LeadingGrows(p: nat, q: nat)
    requires p <= q <= 128
    ensures Leading(p) <= Leading(q)
  {
  }

  /** A shorter prefix only merges networks. */
  lemma ShorterPrefixMerges(x: Form, y: Form, u: seq<nat>, v: seq<nat>, long: Num, short: Num)
    requires Denotes(x, u) && Denotes(y, v) && ClampPrefix(short, 128) <= ClampPrefix(long, 128)
    requires NetworkKey(Write(x), long) == NetworkKey(Write(y), long)
    ensures NetworkKey(Write(x), short) == NetworkKey(Write(y), short)
  {
    hide *;
    KeyIffLeadingHextetsAgree(x, y, u, v, long);
    KeyIffLeadingHextetsAgree(x, y, u, v, short);
    LeadingGrows(ClampPrefix(short, 128), ClampPrefix(long, 128));
    var k, j := Leading(ClampPrefix(long, 128)), Leading(ClampPrefix(short, 128));
    assert u[..j] == u[..k][..j] && v[..j] == v[..k][..j];
  }

  lemma WrittenIsPlain(f: Form, vs: seq<nat>)
    requires Denotes(f, vs)
    ensures Plain(Write(f)) && ':' in Write(f)
  {
    match f
    case Full(gs) =>
      NonEmptyHex(gs, vs);
      JoinedHex(gs);
    case Compressed(head, tail) =>
      NonEmptyHex(head, vs[..|head|]);
      NonEmptyHex(tail, vs[8 - |tail|..]);
      JoinedHex(head);
      JoinedHex(tail);
      assert Write(f)[|Join(head, ':')|] == ':';
  }

  lemma Unbracketed(s: string)
    ensures DropClose(DropOpen(Trim("[" + s + "]"))) == s
  {
    var t := "[" + s + "]";
    TrimNothing(t);
    hide Trim;
    assert DropOpen(t) == s + "]";
  }

  lemma BeforeZone(s: string, rest: string)
    requires Plain(s) && (rest == "" || rest[0] == '%')
    ensures BeforePercent(s + rest) == s
  {
    assert '%' !in s;
    if rest == "" {
      assert s + rest == s;
    } else {
      IndexOfFirst(s, '%', rest[1..]);
      assert s + rest == s + ['%'] + rest[1..];
    }
  }

  lemma CleanBracketed(s: string)
    requires Plain(s)
    ensures Clean("[" + s + "]") == s
  {
    Unbracketed(s);
    BeforeZone(s, "");
    assert s + "" == s;
    hide Trim, DropOpen, DropClose, BeforePercent, Plain;
  }

  lemma CleanZone(s: string, zone: string)
    requires Plain(s)
    ensures Clean("[" + s + ("%" + zone) + "]") == s
  {
    var mark := "%" + zone;
    BeforeZone(s, mark);
    hide Trim, DropOpen, DropClose, BeforePercent, Plain;
    Unbracketed(s + mark);
    Regroup("[", s, mark);
  }

  lemma CleanDecides(x: string, y: string)
    requires Clean(x) == Clean(y)
    ensures Expand(x) == Expand(y)
  {
    hide Clean, Groups, GroupValue, ToHex;
  }

  /** Brackets and a zone id change nothing. */
  lemma BracketsAndZoneDropOut(f: Form, vs: seq<nat>, zone: string)
    requires Denotes(f, vs)
    ensures Expand("[" + Write(f) + "]") == Expand(Write(f)) == Expand("[" + Write(f) + ("%" + zone) + "]")
  {
    WrittenIsPlain(f, vs);
    hide *;
    var s := Write(f);
    CleanPlain(s);
    CleanBracketed(s);
    CleanZone(s, zone);
    CleanDecides("[" + s + "]", s);
    CleanDecides("[" + s + ("%" + zone) + "]", s);
  }
}

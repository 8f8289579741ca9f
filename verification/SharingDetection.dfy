/** Counting the networks behind a set of addresses, and what the count says about devices. */
module SharingDetection {
  import opened Wrappers
  import opened Text
  import opened Numbers
  import Ipv4
  import Ipv6

  // ---- the code ----

  datatype Options = Options(grouping: bool, v4Prefix: Num, v6Prefix: Num)

  predicate IsV6(ip: string) { ':' in ip }

  function Network(ip: string, o: Options): string {
    if IsV6(ip) then Ipv6.NetworkKey(ip, o.v6Prefix) else Ipv4.NetworkKey(ip, o.v4Prefix)
  }

  function Networks(ips: seq<string>, o: Options, v6: bool): set<string> {
    set ip | ip in ips && ip != "" && IsV6(ip) == v6 :: Network(ip, o)
  }

  /** What `countDistinctNetworks` answers. */
  function Count(ips: seq<string>, o: Options): nat {
    if !o.grouping then |set ip | ip in ips|
    else
      var v4, v6 := |Networks(ips, o, false)|, |Networks(ips, o, true)|;
      if v4 < v6 then v6 else v4
  }

  method CountDistinctNetworks(ips: seq<string>, o: Options) returns (n: nat)
    ensures n == Count(ips, o)
  {
    hide Network;
    if !o.grouping { return |set ip | ip in ips|; }
    var v4Networks, v6Networks: set<string> := {}, {};
    for k := 0 to |ips|
      invariant v4Networks == Networks(ips[..k], o, false)
      invariant v6Networks == Networks(ips[..k], o, true)
    {
      var ip := ips[k];
      assert ips[..k + 1] == ips[..k] + [ip];
      if ip != "" {
        if IsV6(ip) {
          v6Networks := v6Networks + {Network(ip, o)};
        } else {
          v4Networks := v4Networks + {Network(ip, o)};
        }
      }
    }
    assert ips[..|ips|] == ips;
    return if |v4Networks| < |v6Networks| then |v6Networks| else |v4Networks|;
  }

  predicate IsNetworkSharingOffender(distinctNetworks: int, deviceLimit: int, margin: int) {
    deviceLimit > 0 && distinctNetworks > deviceLimit + (if margin > 0 then margin else 0)
  }

  // ---- the fewest devices that explain the addresses ----

  /**
   * `device` gives each address to one of `m` devices, no device being on two
   * networks of one family.
   */
  predicate Explains(ips: seq<string>, o: Options, m: nat, device: map<string, nat>) {
    && (forall ip :: ip in ips && ip != "" ==> ip in device && device[ip] < m)
    && (forall x, y :: x in ips && y in ips && x != "" && y != "" ==> Compatible(o, device, x, y))
  }

  predicate Compatible(o: Options, device: map<string, nat>, x: string, y: string) {
    x in device && y in device && IsV6(x) == IsV6(y) && device[x] == device[y] ==> Network(x, o) == Network(y, o)
  }

  /** The pigeonhole principle. */
  lemma {:induction false} Pigeonhole(keys: set<string>, f: map<string, nat>, m: nat)
    requires keys <= f.Keys && forall k :: k in keys ==> f[k] < m
    requires forall x, y :: x in keys && y in keys && f[x] == f[y] ==> x == y
    ensures |keys| <= m
  {
    if m == 0 {
      assert forall k :: k !in keys;
    } else if top :| top in keys && f[top] == m - 1 {
      Pigeonhole(keys - {top}, f, m - 1);
    } else {
      Pigeonhole(keys, f, m - 1);
    }
  }

  /** An address with the given network. */
  function Sample(ips: seq<string>, o: Options, v6: bool, key: string): (ip: string)
    requires key in Networks(ips, o, v6)
    ensures ip in ips && ip != "" && IsV6(ip) == v6 && Network(ip, o) == key
  {
    hide Network;
    if ips[0] != "" && IsV6(ips[0]) == v6 && Network(ips[0], o) == key then ips[0] else Sample(ips[1..], o, v6, key)
  }

  lemma FamilyNeedsDevices(ips: seq<string>, o: Options, v6: bool, m: nat, device: map<string, nat>)
    requires Explains(ips, o, m, device)
    ensures |Networks(ips, o, v6)| <= m
  {
    var keys := Networks(ips, o, v6);
    var f := map k | k in keys :: device[Sample(ips, o, v6, k)];
    forall x, y | x in keys && y in keys && f[x] == f[y] ensures x == y {
      assert Compatible(o, device, Sample(ips, o, v6, x), Sample(ips, o, v6, y));
    }
    Pigeonhole(keys, f, m);
  }

  lemma {:induction false} Enumerate(keys: set<string>) returns (f: map<string, nat>)
    ensures f.Keys == keys && forall k :: k in keys ==> f[k] < |keys|
    ensures forall x, y :: x in keys && y in keys && f[x] == f[y] ==> x == y
  {
    if keys == {} {
      f := map[];
    } else {
      var k :| k in keys;
      var g := Enumerate(keys - {k});
      f := g[k := |keys| - 1];
    }
  }

  /** `f` numbers the networks of one family, each once, below `m`. */
  predicate Numbering(ips: seq<string>, o: Options, v6: bool, f: map<string, nat>, m: nat) {
    && f.Keys == Networks(ips, o, v6) && (forall k :: k in f ==> f[k] < m)
    && forall x, y :: x in f && y in f && f[x] == f[y] ==> x == y
  }

  lemma NumberOf(ips: seq<string>, o: Options, f: map<string, nat>, m: nat, ip: string)
    requires ip in ips && ip != "" && Numbering(ips, o, IsV6(ip), f, m)
    ensures Network(ip, o) in f && f[Network(ip, o)] < m
  {
    hide Network;
    assert Network(ip, o) in Networks(ips, o, IsV6(ip));
  }

  function DeviceOf(o: Options, f: map<string, nat>, g: map<string, nat>, ip: string): nat {
    var n := Network(ip, o);
    if IsV6(ip) then if n in g then g[n] else 0 else if n in f then f[n] else 0
  }

  lemma DevicesCompatible(ips: seq<string>, o: Options, f: map<string, nat>, g: map<string, nat>, m: nat, x: string,
                          y: string)
    requires Numbering(ips, o, false, f, m) && Numbering(ips, o, true, g, m)
    requires x in ips && x != "" && y in ips && y != "" && IsV6(x) == IsV6(y)
    requires DeviceOf(o, f, g, x) == DeviceOf(o, f, g, y)
    ensures Network(x, o) == Network(y, o)
  {
    NumberOf(ips, o, if IsV6(x) then g else f, m, x);
    NumberOf(ips, o, if IsV6(y) then g else f, m, y);
    hide Network, Networks, IsV6;
  }

  lemma DeviceBelow(ips: seq<string>, o: Options, f: map<string, nat>, g: map<string, nat>, m: nat, ip: string)
    requires Numbering(ips, o, false, f, m) && Numbering(ips, o, true, g, m) && ip in ips && ip != ""
    ensures DeviceOf(o, f, g, ip) < m
  {
    NumberOf(ips, o, if IsV6(ip) then g else f, m, ip);
    hide Network, Networks, IsV6;
  }

  lemma NumbersExplain(ips: seq<string>, o: Options, f: map<string, nat>, g: map<string, nat>, m: nat,
                       device: map<string, nat>)
    requires Numbering(ips, o, false, f, m) && Numbering(ips, o, true, g, m)
    requires forall ip :: ip in ips && ip != "" ==> ip in device && device[ip] == DeviceOf(o, f, g, ip)
    ensures Explains(ips, o, m, device)
  {
    hide Network, Networks, IsV6, Numbering, DeviceOf, Compatible;
    forall ip | ip in ips && ip != "" ensures device[ip] < m { DeviceBelow(ips, o, f, g, m, ip); }
    forall x, y | x in ips && y in ips && x != "" && y != "" ensures Compatible(o, device, x, y) {
      SameDevice(ips, o, f, g, m, device, x, y);
    }
  }

  lemma SameDevice(ips: seq<string>, o: Options, f: map<string, nat>, g: map<string, nat>, m: nat,
                   device: map<string, nat>, x: string, y: string)
    requires Numbering(ips, o, false, f, m) && Numbering(ips, o, true, g, m)
    requires x in ips && x != "" && x in device && device[x] == DeviceOf(o, f, g, x)
    requires y in ips && y != "" && y in device && device[y] == DeviceOf(o, f, g, y)
    ensures Compatible(o, device, x, y)
  {
    hide Network, Networks, IsV6, Numbering, DeviceOf;
    if IsV6(x) == IsV6(y) && device[x] == device[y] { DevicesCompatible(ips, o, f, g, m, x, y); }
  }

  lemma EnoughDevices(ips: seq<string>, o: Options, m: nat) returns (device: map<string, nat>)
    requires o.grouping && Count(ips, o) <= m
    ensures Explains(ips, o, m, device)
  {
    var f := Enumerate(Networks(ips, o, false));
    var g := Enumerate(Networks(ips, o, true));
    assert Numbering(ips, o, false, f, m) && Numbering(ips, o, true, g, m);
    hide *;
    device := map ip | ip in ips && ip != "" :: DeviceOf(o, f, g, ip);
    NumbersExplain(ips, o, f, g, m, device);
  }

  /** With grouping on, the count is the least number of devices that can explain the addresses. */
  lemma CountIsFewestDevices(ips: seq<string>, o: Options, m: nat)
    requires o.grouping
    ensures (exists device :: Explains(ips, o, m, device)) <==> Count(ips, o) <= m
  {
    hide Explains, Networks;
    if Count(ips, o) <= m { var device := EnoughDevices(ips, o, m); }
    if device :| Explains(ips, o, m, device) {
      FamilyNeedsDevices(ips, o, false, m, device);
      FamilyNeedsDevices(ips, o, true, m, device);
    }
  }

  /** An accusation is made exactly when the tolerated number of devices cannot explain the addresses. */
  lemma OffenderIffUnexplained(ips: seq<string>, o: Options, deviceLimit: int, margin: int)
    requires o.grouping && deviceLimit > 0
    ensures var tolerated := deviceLimit + if margin > 0 then margin else 0;
      IsNetworkSharingOffender(Count(ips, o), deviceLimit, margin)
      <==> !exists device :: Explains(ips, o, tolerated, device)
  {
    hide Explains, Count;
    CountIsFewestDevices(ips, o, deviceLimit + if margin > 0 then margin else 0);
  }

  // ---- fewer or coarser observations never count more ----

  /** Seeing more addresses never lowers the count. */
  lemma CountMonotone(xs: seq<string>, ys: seq<string>, o: Options)
    requires forall ip :: ip in xs ==> ip in ys
    ensures Count(xs, o) <= Count(ys, o)
  {
    hide Network;
    SubsetSize(set ip | ip in xs, set ip | ip in ys);
    SubsetSize(Networks(xs, o, false), Networks(ys, o, false));
    SubsetSize(Networks(xs, o, true), Networks(ys, o, true));
  }

  ghost predicate WellFormedV4(ip: string) { exists q :: Ipv4.Quad(q) && ip == Join(q, '.') }

  ghost predicate WellFormedV6(ip: string) { exists f, vs :: Ipv6.Denotes(f, vs) && ip == Ipv6.Write(f) }

  /** Shortening either prefix never raises the count of well-formed addresses. */
  lemma ShorterPrefixesNeverRaise(ips: seq<string>, long: Options, short: Options)
    requires long.grouping && short.grouping
    requires ClampPrefix(short.v4Prefix, 32) <= ClampPrefix(long.v4Prefix, 32)
    requires ClampPrefix(short.v6Prefix, 128) <= ClampPrefix(long.v6Prefix, 128)
    requires forall ip :: ip in ips ==> if IsV6(ip) then WellFormedV6(ip) else WellFormedV4(ip)
    ensures Count(ips, short) <= Count(ips, long)
  {
    hide Count, WellFormedV6, WellFormedV4, ClampPrefix, Network;
    var m := Count(ips, long);
    var device := EnoughDevices(ips, long, m);
    forall x, y | x in ips && y in ips && IsV6(x) == IsV6(y) && Network(x, long) == Network(y, long)
      ensures Network(x, short) == Network(y, short)
    {
      ShorterMerges(x, y, long, short);
    }
    forall x, y | x in ips && y in ips && x != "" && y != "" ensures Compatible(short, device, x, y) {
      assert Compatible(long, device, x, y);
    }
    assert Explains(ips, short, m, device);
    hide Explains;
    CountIsFewestDevices(ips, short, m);
  }

  lemma ShorterMerges(x: string, y: string, long: Options, short: Options)
    requires IsV6(x) == IsV6(y) && Network(x, long) == Network(y, long)
    requires if IsV6(x) then WellFormedV6(x) && WellFormedV6(y) else WellFormedV4(x) && WellFormedV4(y)
    requires ClampPrefix(short.v4Prefix, 32) <= ClampPrefix(long.v4Prefix, 32)
    requires ClampPrefix(short.v6Prefix, 128) <= ClampPrefix(long.v6Prefix, 128)
    ensures Network(x, short) == Network(y, short)
  {
    hide ClampPrefix, Ipv4.NetworkKey, Ipv6.NetworkKey, Ipv4.Quad, Ipv6.Denotes, Ipv6.Write, Join;
    if IsV6(x) {
      var f, u :| Ipv6.Denotes(f, u) && x == Ipv6.Write(f);
      var g, v :| Ipv6.Denotes(g, v) && y == Ipv6.Write(g);
      Ipv6.ShorterPrefixMerges(f, g, u, v, long.v6Prefix, short.v6Prefix);
    } else {
      var p :| Ipv4.Quad(p) && x == Join(p, '.');
      var q :| Ipv4.Quad(q) && y == Join(q, '.');
      Ipv4.ShorterPrefixMerges(p, q, long.v4Prefix, short.v4Prefix);
    }
  }

  // ---- samples in use at the same moment ----

  datatype Sighting = Sighting(ip: string, lastSeen: Num)

  /** The latest finite sighting. */
  function Newest(samples: seq<Sighting>): (t: Num)
    ensures t.Finite? <==> exists s :: s in samples && s.lastSeen.Finite?
    ensures t.Finite? ==> exists s :: s in samples && s.lastSeen == t
    ensures forall s :: s in samples && s.lastSeen.Finite? ==> s.lastSeen.value <= t.value
  {
    if samples == [] then NotFinite
    else
      var last, t := samples[|samples| - 1], Newest(samples[..|samples| - 1]);
      if last.lastSeen.Finite? && (t.NotFinite? || last.lastSeen.value > t.value) then last.lastSeen else t
  }

  function Since(samples: seq<Sighting>, cutoff: real): (r: seq<Sighting>)
    ensures forall s :: s in r <==> s in samples && s.lastSeen.Finite? && s.lastSeen.value >= cutoff
  {
    if samples == [] then []
    else
      var rest := Since(samples[1..], cutoff);
      if samples[0].lastSeen.Finite? && samples[0].lastSeen.value >= cutoff then [samples[0]] + rest else rest
  }

  /** The window that counts: one that is not finite, or negative, is none. */
  function Effective(window: Num): real { if window.Finite? && window.value > 0.0 then window.value else 0.0 }

  function Cutoff(newest: real, now: Num, window: Num): real {
    var anchor := if now.Finite? && now.value < newest then now.value else newest;
    anchor - Effective(window)
  }

  function Select(samples: seq<Sighting>, now: Num, window: Num): seq<Sighting> {
    var newest := Newest(samples);
    if newest.NotFinite? then [] else Since(samples, Cutoff(newest.value, now, window))
  }

  method SelectConcurrentSamples(samples: seq<Sighting>, now: Num, window: Num) returns (r: seq<Sighting>)
    ensures r == Select(samples, now, window)
  {
    if |samples| == 0 { return []; }
    var newest := NotFinite;
    for k := 0 to |samples|
      invariant newest == Newest(samples[..k])
    {
      var seen := samples[k].lastSeen;
      assert samples[..k + 1][..k] == samples[..k];
      if seen.Finite? && (newest.NotFinite? || seen.value > newest.value) { newest := seen; }
    }
    assert samples[..|samples|] == samples;
    if newest.NotFinite? { return []; }
    r := Since(samples, Cutoff(newest.value, now, window));
  }

  function Addresses(samples: seq<Sighting>): seq<string> {
    seq(|samples|, i requires 0 <= i < |samples| => samples[i].ip)
  }

  lemma WideningNeverLowersCount(samples: seq<Sighting>, now: Num, narrow: Num, wide: Num, o: Options)
    requires Effective(narrow) <= Effective(wide)
    ensures Count(Addresses(Select(samples, now, narrow)), o) <= Count(Addresses(Select(samples, now, wide)), o)
  {
    hide Count, Newest;
    var xs, ys := Select(samples, now, narrow), Select(samples, now, wide);
    assert forall s :: s in xs ==> s in ys;
    forall ip | ip in Addresses(xs) ensures ip in Addresses(ys) {
      var i :| 0 <= i < |xs| && ip == Addresses(xs)[i];
      assert xs[i] in ys;
      var j :| 0 <= j < |ys| && ys[j] == xs[i];
      assert Addresses(ys)[j] == ip;
    }
    CountMonotone(Addresses(xs), Addresses(ys), o);
  }

  /** Two sightings one narrow window apart: seen together through it, and apart through any that reaches less far. */
  function Pair(now: Num, apart: real): seq<Sighting> {
    var t := if now.Finite? then now.value else 0.0;
    [Sighting("x", Finite(t)), Sighting("y", Finite(t - apart))]
  }

  lemma PairSelected(now: Num, apart: real, window: Num)
    requires apart >= 0.0
    ensures var p := Pair(now, apart);
      Select(p, now, window) == if Effective(window) >= apart then p else p[..1]
  {
    var p := Pair(now, apart);
    var t := p[0].lastSeen.value;
    assert Newest(p) == Finite(t) by { assert p[0] in p && p[1] in p; }
    var cutoff := Cutoff(t, now, window);
    assert cutoff == t - Effective(window);
    assert p[1..][1..] == [];
    assert Since(p[1..], cutoff) == if Effective(window) >= apart then p[1..] else [];
    assert p == [p[0]] + p[1..] && p[..1] == [p[0]];
  }

  /** Text without a dot is its own network. */
  lemma NotAQuad(ip: string, prefix: Num)
    requires ip != "" && '.' !in ip && !IsSpace(ip[0]) && !IsSpace(ip[|ip| - 1])
    ensures Ipv4.NetworkKey(ip, prefix) == ip
  {
    TrimNothing(ip);
    assert Split(ip, '.') == [ip];
    hide Trim, Split;
  }

  /** Such texts count as often as they differ. */
  lemma OwnNetworks(ips: seq<string>, o: Options)
    requires forall ip :: ip in ips ==> ip != "" && !IsV6(ip) && Network(ip, o) == ip
    ensures Count(ips, o) == |set ip | ip in ips|
  {
    hide Network, IsV6;
    assert Networks(ips, o, false) == set ip | ip in ips;
    assert Networks(ips, o, true) == {};
  }

  lemma TwoNames(o: Options)
    ensures Count(["x", "y"], o) == 2 && Count(["x"], o) == 1
  {
    NotAQuad("x", o.v4Prefix);
    NotAQuad("y", o.v4Prefix);
    hide Ipv4.NetworkKey, Ipv6.NetworkKey, Count;
    OwnNetworks(["x", "y"], o);
    OwnNetworks(["x"], o);
    assert (set ip | ip in ["x", "y"]) == {"x", "y"} && (set ip | ip in ["x"]) == {"x"};
  }

  /**
   * One window never counts more than another, whatever was sighted, if and only if it reaches no further;
   * so a window that is not finite, which reaches nowhere, is the narrowest and not the widest.
   */
  lemma NeverCountsMoreIff(now: Num, narrow: Num, wide: Num, o: Options)
    ensures Effective(narrow) <= Effective(wide) <==>
      forall samples ::
        Count(Addresses(Select(samples, now, narrow)), o) <= Count(Addresses(Select(samples, now, wide)), o)
  {
    if Effective(narrow) <= Effective(wide) {
      forall samples
        ensures Count(Addresses(Select(samples, now, narrow)), o) <= Count(Addresses(Select(samples, now, wide)), o) {
        WideningNeverLowersCount(samples, now, narrow, wide, o);
      }
    } else {
      var p := Pair(now, Effective(narrow));
      PairSelected(now, Effective(narrow), narrow);
      PairSelected(now, Effective(narrow), wide);
      assert Addresses(p) == ["x", "y"] && Addresses(p[..1]) == ["x"];
      TwoNames(o);
      hide Count, Select;
      assert Count(Addresses(Select(p, now, narrow)), o) > Count(Addresses(Select(p, now, wide)), o);
    }
  }

  /** A sighting from a clock running ahead cannot push out what was seen within the window of now. */
  lemma FastClockHidesNothing(samples: seq<Sighting>, now: Num, window: Num, s: Sighting)
    requires s in samples && s.lastSeen.Finite? && now.Finite? && window.Finite? && window.value >= 0.0
    requires s.lastSeen.value >= now.value - window.value
    ensures s in Select(samples, now, window)
  {
  }
}

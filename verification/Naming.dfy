/** Panel profile names: generating them, clamping them to the panel's limits, and telling them apart. */
module Naming {
  import opened Wrappers
  import opened Text

  // ---- slugs ----

  predicate Allowed(c: char) { IsDigit(c) || IsLower(c) || IsUpper(c) || c == '_' || c == '-' }

  predicate IsSeparator(c: char) { c == '_' || c == '-' }

  /** Each run of disallowed characters becomes one underscore. */
  function ReplaceRuns(s: string): string {
    if s == [] then []
    else if Allowed(s[0]) then [s[0]] + ReplaceRuns(s[1..])
    else if |s| > 1 && !Allowed(s[1]) then ReplaceRuns(s[1..])
    else "_" + ReplaceRuns(s[1..])
  }

  /** Each run of underscores becomes one. */
  function Squeeze(s: string): string {
    if s == [] then [] else if |s| > 1 && s[0] == s[1] == '_' then Squeeze(s[1..]) else [s[0]] + Squeeze(s[1..])
  }

  function StripFront(s: string): string { if s != [] && IsSeparator(s[0]) then StripFront(s[1..]) else s }

  function StripBack(s: string): string { if s != [] && IsSeparator(s[|s| - 1]) then StripBack(s[..|s| - 1]) else s }

  /** `sanitizePanelIdentifier`, on ASCII. */
  function Sanitize(s: string): string { StripBack(StripFront(Squeeze(ReplaceRuns(s)))) }

  predicate AllAllowed(s: string) { forall i :: 0 <= i < |s| ==> Allowed(s[i]) }

  predicate NoDoubles(s: string) { forall i :: 0 <= i < |s| - 1 ==> !(s[i] == '_' && s[i + 1] == '_') }

  predicate IsSlug(s: string) {
    AllAllowed(s) && NoDoubles(s) && (s != [] ==> !IsSeparator(s[0]) && !IsSeparator(s[|s| - 1]))
  }

  lemma {:induction false} ReplacedAllowed(s: string)
    ensures AllAllowed(ReplaceRuns(s))
  {
    if s != [] { ReplacedAllowed(s[1..]); }
  }

  lemma {:induction false} SqueezedOk(s: string)
    requires AllAllowed(s)
    ensures AllAllowed(Squeeze(s)) && NoDoubles(Squeeze(s))
    ensures (s == [] <==> Squeeze(s) == []) && (s != [] ==> Squeeze(s)[0] == s[0])
  {
    if s != [] { SqueezedOk(s[1..]); }
  }

  lemma {:induction false} FrontStripped(s: string)
    requires AllAllowed(s) && NoDoubles(s)
    ensures var r := StripFront(s); AllAllowed(r) && NoDoubles(r) && (r != [] ==> !IsSeparator(r[0]))
  {
    if s != [] && IsSeparator(s[0]) { FrontStripped(s[1..]); }
  }

  lemma {:induction false} BackStripped(s: string)
    requires AllAllowed(s) && NoDoubles(s) && (s != [] ==> !IsSeparator(s[0]))
    ensures IsSlug(StripBack(s))
  {
    if s != [] && IsSeparator(s[|s| - 1]) { BackStripped(s[..|s| - 1]); }
  }

  /** Whatever goes in, a slug comes out, */
  lemma SanitizeGivesSlug(s: string)
    ensures IsSlug(Sanitize(s))
  {
    ReplacedAllowed(s);
    SqueezedOk(ReplaceRuns(s));
    FrontStripped(Squeeze(ReplaceRuns(s)));
    BackStripped(StripFront(Squeeze(ReplaceRuns(s))));
  }

  /** and a slug is left alone, so sanitising is idempotent. */
  lemma SanitizeKeepsSlug(s: string)
    requires IsSlug(s)
    ensures Sanitize(s) == s
  {
    NothingToReplace(s);
    NothingToSqueeze(s);
  }

  lemma {:induction false} NothingToReplace(s: string)
    requires AllAllowed(s)
    ensures ReplaceRuns(s) == s
  {
    if s != [] {
      NothingToReplace(s[1..]);
      assert s == [s[0]] + s[1..];
    }
  }

  lemma {:induction false} NothingToSqueeze(s: string)
    requires NoDoubles(s)
    ensures Squeeze(s) == s
  {
    if s != [] {
      NothingToSqueeze(s[1..]);
      assert s == [s[0]] + s[1..];
    }
  }

  // ---- generated names ----

  /** Every part is non-empty: the loader replaces an empty setting by the default. */
  datatype Config = Config(prefix: string, separator: string, suffixBase: string) {
    predicate Loaded() { prefix != "" && separator != "" && suffixBase != "" }
  }

  const DEFAULT_CONFIG := Config("rz", "_", "sub")

  datatype User = User(id: string, login: Option<string>, username: Option<string>, telegramId: Option<nat>,
                       name: Option<string>)

  function Shorten(id: string): string { if |id| <= 8 then id else id[..8] }

  /** The identity part of the name: login, then username, then Telegram id, then the account id. */
  function Identifier(u: User): (r: string)
    ensures u.id != "" ==> r != ""
  {
    var raw := if u.login.Some? then u.login.value
      else if u.username.Some? then u.username.value
      else if u.telegramId.Some? then ToDecimal(u.telegramId.value)
      else Shorten(u.id);
    var slug := Sanitize(raw);
    if slug != "" then slug else Shorten(u.id)
  }

  function Suffix(c: Config, ordinal: nat): string {
    if ordinal == 0 then c.suffixBase else c.suffixBase + c.separator + ToDecimal(ordinal)
  }

  function GenerateName(c: Config, u: User, ordinal: nat): string {
    c.prefix + c.separator + Identifier(u) + c.separator + Suffix(c, ordinal)
  }

  /** Position of a subscription in the user's list, oldest first; past the end when it is not there. */
  function Ordinal(subs: seq<string>, id: string): (n: nat)
    ensures n <= |subs| && (n < |subs| ==> subs[n] == id)
    ensures n == |subs| <==> id !in subs
  {
    if subs == [] then 0 else if subs[0] == id then 0 else 1 + Ordinal(subs[1..], id)
  }

  /** A newer subscription goes to the end of the list and renames nothing. */
  lemma {:induction false} NewerSubscriptionRenamesNothing(subs: seq<string>, newer: string, id: string)
    requires id in subs
    ensures Ordinal(subs + [newer], id) == Ordinal(subs, id)
  {
    if subs[0] != id {
      NewerSubscriptionRenamesNothing(subs[1..], newer, id);
      assert (subs + [newer])[1..] == subs[1..] + [newer];
    }
  }

  lemma SuffixesDiffer(c: Config, m: nat, n: nat)
    requires c.Loaded() && m != n
    ensures Suffix(c, m) != Suffix(c, n)
  {
    var base := c.suffixBase + c.separator;
    if m > 0 && n > 0 && base + ToDecimal(m) == base + ToDecimal(n) {
      SameHead(base, ToDecimal(m), ToDecimal(n));
      DecimalRoundTrip(m);
      DecimalRoundTrip(n);
    }
  }

  lemma SameHead(h: string, x: string, y: string)
    requires h + x == h + y
    ensures x == y
  {
    assert (h + x)[|h|..] == x && (h + y)[|h|..] == y;
  }

  lemma NamesDiffer(c: Config, u: User, m: nat, n: nat)
    requires c.Loaded() && m != n
    ensures GenerateName(c, u, m) != GenerateName(c, u, n)
  {
    hide Identifier, Suffix;
    SuffixesDiffer(c, m, n);
    var head := c.prefix + c.separator + Identifier(u) + c.separator;
    if GenerateName(c, u, m) == GenerateName(c, u, n) { SameHead(head, Suffix(c, m), Suffix(c, n)); }
  }

  // ---- clamping ----

  const MIN_LENGTH := 3
  const MAX_LENGTH := 36
  const DIGEST_LENGTH := 10

  predicate IsLowerHex(c: char) { IsDigit(c) || 'a' <= c <= 'f' }

  /** What the first ten hex characters of a SHA-256 digest look like. */
  type Digest = s: string | |s| == 10 && forall i :: 0 <= i < |s| ==> IsLowerHex(s[i]) witness "0000000000"

  predicate Fits(s: string) { MIN_LENGTH <= |s| <= MAX_LENGTH }

  function PadEnd(s: string): string {
    if |s| >= MIN_LENGTH then s else s + seq(MIN_LENGTH - |s|, _ => '_')
  }

  function Clamp(name: string, digest: string -> Digest): string {
    if Fits(name) then name
    else if |name| < MIN_LENGTH then PadEnd(name)
    else name[..MAX_LENGTH - DIGEST_LENGTH - 1] + "_" + digest(name)
  }

  /** A clamped name always fits, is the name itself when that fits, keeps to the alphabet, and is stable. */
  lemma ClampSettles(name: string, digest: string -> Digest)
    ensures var r := Clamp(name, digest);
      && Fits(r)
      && (Fits(name) <==> r == name)
      && Clamp(r, digest) == r
      && (AllAllowed(name) ==> AllAllowed(r))
  {
    var d: string := digest(name);
    if |name| > MAX_LENGTH && AllAllowed(name) {
      var r := Clamp(name, digest);
      forall i | 0 <= i < |r| ensures Allowed(r[i]) {
        assert i < 25 ==> r[i] == name[i];
        assert i > 25 ==> r[i] == d[i - 26] && IsLowerHex(d[i - 26]);
      }
    }
  }

  /** The last ten characters of a cut name are its digest. */
  lemma CutTail(name: string, digest: string -> Digest)
    requires |name| > MAX_LENGTH
    ensures var r := Clamp(name, digest); |r| == MAX_LENGTH && r[MAX_LENGTH - DIGEST_LENGTH..] == digest(name)
  {
  }

  /** Some character among the last ten is not a lower-case hex digit. */
  predicate TailShows(s: string) {
    exists i {:trigger s[i]} :: 0 <= i < |s| && |s| - DIGEST_LENGTH <= i && !IsLowerHex(s[i])
  }

  /** A separator ending outside the hex digits, and a suffix short enough to leave one in sight. */
  predicate Telling(c: Config) {
    c.Loaded() && !IsLowerHex(c.separator[|c.separator| - 1]) && |c.suffixBase| < DIGEST_LENGTH
  }

  lemma DefaultIsTelling()
    ensures Telling(DEFAULT_CONFIG)
  {
  }

  lemma GeneratedTailShows(c: Config, u: User, ordinal: nat)
    requires Telling(c) && ordinal < Pow10(9)
    ensures TailShows(GenerateName(c, u, ordinal))
  {
    hide Identifier;
    var s := GenerateName(c, u, ordinal);
    var last := c.separator[|c.separator| - 1];
    if ordinal == 0 {
      var i := |s| - |c.suffixBase| - 1;
      assert s[i] == last;
    } else {
      DecimalLength(ordinal, 9);
      var i := |s| - |ToDecimal(ordinal)| - 1;
      assert s[i] == last;
    }
  }

  lemma GeneratedIsLongEnough(c: Config, u: User, ordinal: nat)
    requires c.Loaded()
    ensures |GenerateName(c, u, ordinal)| >= MIN_LENGTH
  {
    assert |Suffix(c, ordinal)| > 0;
  }

  /**
   * Two subscriptions of one user get different panel names: exactly unless both
   * names are over-long, cut to one head, and collide in the 40-bit digest.
   */
  lemma DistinctPanelNames(c: Config, u: User, m: nat, n: nat, digest: string -> Digest)
    requires Telling(c) && m != n && m < Pow10(9) && n < Pow10(9)
    ensures var a, b := GenerateName(c, u, m), GenerateName(c, u, n);
      Clamp(a, digest) == Clamp(b, digest) <==>
      |a| > MAX_LENGTH && |b| > MAX_LENGTH && a[..25] == b[..25] && digest(a) == digest(b)
  {
    NamesDiffer(c, u, m, n);
    GeneratedIsLongEnough(c, u, m);
    GeneratedIsLongEnough(c, u, n);
    GeneratedTailShows(c, u, m);
    GeneratedTailShows(c, u, n);
    ClampedAlike(GenerateName(c, u, m), GenerateName(c, u, n), digest);
  }

  lemma ClampedAlike(a: string, b: string, digest: string -> Digest)
    requires a != b && |a| >= MIN_LENGTH && |b| >= MIN_LENGTH && TailShows(a) && TailShows(b)
    ensures Clamp(a, digest) == Clamp(b, digest) <==>
      |a| > MAX_LENGTH && |b| > MAX_LENGTH && a[..25] == b[..25] && digest(a) == digest(b)
  {
    if |a| > MAX_LENGTH && |b| > MAX_LENGTH {
      assert Clamp(a, digest)[..25] == a[..25] && Clamp(b, digest)[..25] == b[..25];
      CutTail(a, digest);
      CutTail(b, digest);
    } else if |a| > MAX_LENGTH {
      FittingIsNotCut(b, a, digest);
    } else if |b| > MAX_LENGTH {
      FittingIsNotCut(a, b, digest);
    }
  }

  lemma FittingIsNotCut(short: string, long: string, digest: string -> Digest)
    requires TailShows(short) && |long| > MAX_LENGTH
    ensures short != Clamp(long, digest)
  {
    CutTail(long, digest);
  }
}

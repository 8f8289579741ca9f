/** The owner marker in panel descriptions: printing it and reading it back. */
module OwnerMarker {
  import opened Wrappers
  import opened Text
  import opened Numbers
  import opened Naming

  const MARKER := "reiwa_id:"

  // ---- printing ----

  /** A field that is missing or empty prints no line. */
  function Line(tag: string, field: Option<string>): seq<string> {
    if field.Some? && field.value != "" then [tag + field.value] else []
  }

  function DescriptionLines(u: User): seq<string> {
    Line("name: ", u.name) + Line("login: ", u.login) + Line("username: ", u.username) + ["reiwa_id: " + u.id]
  }

  function Description(u: User): string { Join(DescriptionLines(u), '\n') }

  /** What a caller gets: a text that reads back as the user's own, exactly when the fields are legible. */
  method GenerateDescription(u: User) returns (description: string)
    ensures description == Description(u)
    ensures IsId(u.id) ==> (ReadOwner(description) == Some(u.id) <==> Legible(u))
    ensures IsId(u.id) && Legible(u) ==> forall user :: MayLink(Some(description), user) <==> user == u.id
  {
    var lines: seq<string> := [];
    if u.name.Some? && u.name.value != "" { lines := lines + ["name: " + u.name.value]; }
    if u.login.Some? && u.login.value != "" { lines := lines + ["login: " + u.login.value]; }
    if u.username.Some? && u.username.value != "" { lines := lines + ["username: " + u.username.value]; }
    lines := lines + ["reiwa_id: " + u.id];
    assert lines == DescriptionLines(u);
    description := Join(lines, '\n');
    if IsId(u.id) {
      OwnerReadsBackIff(u);
      OnlyItsUserMayLink(u);
    }
  }

  // ---- reading ----

  /** The longest prefix of id characters. */
  function IdRun(s: string): string { if s == [] || !Allowed(s[0]) then [] else [s[0]] + IdRun(s[1..]) }

  /** The capture of the marker pattern at the front of `s`; empty when it does not match there. */
  function Capture(s: string): string { if At(MARKER, s, 0) then IdRun(SkipSpace(s[|MARKER|..])) else [] }

  /** `readPanelOwnerId`: the leftmost match. */
  function ReadOwner(s: string): Option<string> {
    if s == [] then None else if Capture(s) != [] then Some(Capture(s)) else ReadOwner(s[1..])
  }

  /** `assertPanelProfileOwnership`: only a proven mismatch refuses the link. */
  predicate MayLink(description: Option<string>, user: string) {
    description.None? || ReadOwner(description.value).None? || ReadOwner(description.value).value == user
  }

  // ---- the round trip ----

  predicate FreeOfMarker(field: Option<string>) { field.Some? ==> !Contains(field.value, MARKER) }

  predicate IsId(id: string) { id != "" && AllAllowed(id) }

  lemma {:induction false} ReadSkips(a: string, b: string)
    requires forall i: nat :: i < |a| ==> !At(MARKER, a + b, i)
    ensures ReadOwner(a + b) == ReadOwner(b)
  {
    if a == [] {
      assert a + b == b;
    } else {
      var s := a + b;
      assert !At(MARKER, s, 0);
      assert s[1..] == a[1..] + b;
      forall i: nat | i < |a| - 1 ensures !At(MARKER, a[1..] + b, i) {
        assert !At(MARKER, s, i + 1);
        assert i + 10 <= |s| ==> s[1..][i..i + 9] == s[i + 1..i + 10];
      }
      ReadSkips(a[1..], b);
    }
  }

  lemma MarkerHas(s: string, i: nat, k: nat)
    requires At(MARKER, s, i) && i <= k < i + |MARKER|
    ensures s[k] != '\n' && s[k] != ' '
  {
    assert s[k] == s[i..i + |MARKER|][k - i];
  }

  lemma LineSkipped(line: string, rest: string)
    requires !Contains(line, MARKER)
    ensures ReadOwner(line + ['\n'] + rest) == ReadOwner(rest)
  {
    var a := line + ['\n'];
    forall i: nat | i < |a| ensures !At(MARKER, a + rest, i) {
      if At(MARKER, a + rest, i) {
        if i + |MARKER| <= |line| {
          assert line[i..i + |MARKER|] == (a + rest)[i..i + |MARKER|];
          assert At(MARKER, line, i);
        } else {
          MarkerHas(a + rest, i, |line|);
        }
      }
    }
    ReadSkips(a, rest);
  }

  lemma LabelledIsFree(tag: string, field: string)
    requires tag in {"name: ", "login: ", "username: "} && !Contains(field, MARKER)
    ensures !Contains(tag + field, MARKER)
  {
    var s := tag + field;
    if i: nat :| i <= |s| && At(MARKER, s, i) {
      assert s[0] == tag[0] != 'r' && s[|tag| - 1] == tag[|tag| - 1] == ' ';
      assert s[i] == s[i..i + |MARKER|][0] == MARKER[0] == 'r';
      if i < |tag| {
        assert i > 0;
        MarkerHas(s, i, |tag| - 1);
      } else {
        assert s[|tag|..] == field;
        assert s[i..i + |MARKER|] == field[i - |tag|..i - |tag| + |MARKER|];
        assert At(MARKER, field, i - |tag|);
      }
    }
  }

  lemma {:induction false} LinesSkipped(lines: seq<string>, last: string)
    requires forall l :: l in lines ==> !Contains(l, MARKER)
    ensures ReadOwner(Join(lines + [last], '\n')) == ReadOwner(last)
  {
    if lines == [] {
      assert lines + [last] == [last];
    } else {
      LinesSkipped(lines[1..], last);
      assert (lines + [last])[1..] == lines[1..] + [last];
      LineSkipped(lines[0], Join(lines[1..] + [last], '\n'));
    }
  }

  lemma {:induction false} WholeRun(id: string, rest: string)
    requires AllAllowed(id) && (rest != "" ==> !Allowed(rest[0]))
    ensures IdRun(id + rest) == id
  {
    if id == [] {
      assert id + rest == rest;
    } else {
      WholeRun(id[1..], rest);
      assert (id + rest)[1..] == id[1..] + rest;
    }
  }

  lemma MarkedId(id: string, rest: string)
    requires IsId(id) && (rest != "" ==> !Allowed(rest[0]))
    ensures ReadOwner("reiwa_id: " + id + rest) == Some(id)
  {
    var s, t := "reiwa_id: " + id + rest, id + rest;
    assert s[9..] == " " + t && (" " + t)[1..] == t;
    assert SkipSpace(" " + t) == SkipSpace(t) == t;
    assert s[0..9] == MARKER;
    WholeRun(id, rest);
  }

  lemma LineIsFree(tag: string, field: Option<string>)
    requires tag in {"name: ", "login: ", "username: "} && FreeOfMarker(field)
    ensures forall l :: l in Line(tag, field) ==> !Contains(l, MARKER)
  {
    if field.Some? { LabelledIsFree(tag, field.value); }
  }

  /** Reading a generated description gives back the id it was printed with. */
  lemma MarkerRoundTrip(u: User)
    requires IsId(u.id) && FreeOfMarker(u.name) && FreeOfMarker(u.login) && FreeOfMarker(u.username)
    ensures ReadOwner(Description(u)) == Some(u.id)
  {
    LineIsFree("name: ", u.name);
    LineIsFree("login: ", u.login);
    LineIsFree("username: ", u.username);
    hide Line, Contains, FreeOfMarker, ReadOwner;
    var fields := Line("name: ", u.name) + Line("login: ", u.login) + Line("username: ", u.username);
    LinesSkipped(fields, "reiwa_id: " + u.id);
    MarkedId(u.id, "");
    assert "reiwa_id: " + u.id + "" == "reiwa_id: " + u.id;
  }

  // ---- exactly when ----

  /** The word a line opens with, up to its colon. */
  function Word(line: string): string { if ':' in line then line[..IndexOf(line, ':')] else line }

  /** Every line opens with a word of id characters and a colon. */
  predicate Worded(lines: seq<string>) { forall i :: 0 <= i < |lines| ==> ':' in lines[i] && IsId(Word(lines[i])) }

  /**
   * What the lines before the last already read as: each line on its own, followed only
   * by the opening word of the next, because a marker at its very end captures that word.
   */
  function Spoofed(lines: seq<string>): Option<string> {
    if |lines| <= 1 then None
    else
      var here := ReadOwner(lines[0] + ['\n'] + Word(lines[1]));
      if here.Some? then here else Spoofed(lines[1..])
  }

  /** Where the next character that is no space stands, or the length. */
  function PastSpace(line: string, from: nat): (j: nat)
    requires from <= |line|
    ensures from <= j <= |line| && (j < |line| ==> !IsSpace(line[j]))
    ensures forall k :: from <= k < j ==> IsSpace(line[k])
    decreases |line| - from
  {
    if from < |line| && IsSpace(line[from]) then PastSpace(line, from + 1) else from
  }

  /** `v` is all there is of id characters at `j`; at the end of the line it is the next line's word. */
  predicate NamedAt(line: string, next: string, j: nat, v: string)
    requires j <= |line|
  {
    if j == |line| then v == next
    else IsId(v) && v <= line[j..] && (j + |v| < |line| ==> !Allowed(line[j + |v|]))
  }

  /** A marker stands at `i` of the line, and past the space after it `v` is named. */
  predicate Marks(line: string, next: string, i: nat, v: string) {
    At(MARKER, line, i) && NamedAt(line, next, PastSpace(line, i + |MARKER|), v)
  }

  ghost predicate Unmarked(line: string, next: string) { forall i: nat, v: string :: !Marks(line, next, i, v) }

  /** From `from` on, the first marker that names anything stands at `i` and names `v`. */
  ghost predicate FirstIn(line: string, next: string, from: nat, i: nat, v: string) {
    from <= i && Marks(line, next, i, v) && forall k: nat, w: string :: from <= k < i ==> !Marks(line, next, k, w)
  }

  /** The same over the lines before the last. */
  ghost predicate FirstMark(lines: seq<string>, f: nat, i: nat, v: string) {
    && f + 1 < |lines| && FirstIn(lines[f], Word(lines[f + 1]), 0, i, v)
    && forall g :: 0 <= g < f ==> Unmarked(lines[g], Word(lines[g + 1]))
  }

  /** The first marker in the fields that names anyone, if there is one, names the user. */
  ghost predicate Legible(u: User) {
    forall f: nat, i: nat, v: string :: FirstMark(DescriptionLines(u), f, i, v) ==> v == u.id
  }

  lemma {:induction false} LongestRun(s: string, v: string)
    ensures IdRun(s) == v <==> v <= s && AllAllowed(v) && (|v| < |s| ==> !Allowed(s[|v|]))
  {
    if v <= s && AllAllowed(v) && (|v| < |s| ==> !Allowed(s[|v|])) {
      assert s == v + s[|v|..];
      WholeRun(v, s[|v|..]);
    }
    RunIsLongest(s);
  }

  lemma {:induction false} RunIsLongest(s: string)
    ensures var v := IdRun(s); v <= s && AllAllowed(v) && (|v| < |s| ==> !Allowed(s[|v|]))
  {
    if s != [] && Allowed(s[0]) { RunIsLongest(s[1..]); }
  }

  lemma {:induction false} SkipsPast(line: string, rest: string, from: nat)
    requires from <= |line|
    ensures var j := PastSpace(line, from);
      SkipSpace(line[from..] + rest) == if j < |line| then line[j..] + rest else SkipSpace(rest)
    decreases |line| - from
  {
    var s := line[from..] + rest;
    if from < |line| {
      assert s[0] == line[from] && s[1..] == line[from + 1..] + rest;
      if IsSpace(line[from]) { SkipsPast(line, rest, from + 1); }
    } else {
      assert s == rest;
    }
  }

  /** The run of id characters ends with the line. */
  lemma RunInLine(line: string, rest: string, j: nat, v: string)
    requires j < |line| && v != "" && rest != "" && !Allowed(rest[0])
    ensures IdRun(line[j..] + rest) == v
      <==> IsId(v) && v <= line[j..] && (j + |v| < |line| ==> !Allowed(line[j + |v|]))
  {
    var own, s := line[j..], line[j..] + rest;
    LongestRun(s, v);
    hide IdRun;
    if v <= s && AllAllowed(v) {
      assert s[|own|] == rest[0];
      assert v == s[..|v|] == own[..|v|];
    }
    assert v <= own ==> v == own[..|v|] == s[..|v|];
    assert |v| < |own| ==> s[|v|] == own[|v|] == line[j + |v|];
    assert |v| == |own| ==> s[|v|] == rest[0];
  }

  /** What is captured after a marker, if anything, is what the text names. */
  lemma NamedIsRead(line: string, next: string, from: nat, v: string)
    requires from <= |line| && IsId(next) && v != ""
    ensures IdRun(SkipSpace(line[from..] + (['\n'] + next))) == v
      <==> NamedAt(line, next, PastSpace(line, from), v)
  {
    var rest, j := ['\n'] + next, PastSpace(line, from);
    SkipsPast(line, rest, from);
    hide IdRun, PastSpace;
    if j < |line| {
      RunInLine(line, rest, j, v);
    } else {
      assert rest[1..] == next && SkipSpace(rest) == SkipSpace(next) == next;
      LongestRun(next, next);
    }
  }

  lemma MarkerInLine(line: string, next: string, i: nat)
    requires i <= |line| && ':' !in next
    ensures At(MARKER, (line + (['\n'] + next))[i..], 0) <==> At(MARKER, line, i)
  {
    var s := line + (['\n'] + next);
    var t := s[i..];
    if i + |MARKER| <= |line| {
      assert t[0..|MARKER|] == line[i..i + |MARKER|];
    } else if At(MARKER, t, 0) {
      MarkerHas(t, 0, |line| - i);
    }
  }

  lemma CaptureMarks(line: string, next: string, i: nat, v: string)
    requires i <= |line| && IsId(next) && ':' !in next && v != ""
    ensures Capture((line + (['\n'] + next))[i..]) == v <==> Marks(line, next, i, v)
  {
    var s := line + (['\n'] + next);
    MarkerInLine(line, next, i);
    if At(MARKER, line, i) {
      var from := i + |MARKER|;
      NamedIsRead(line, next, from, v);
      assert s[i..][|MARKER|..] == line[from..] + (['\n'] + next);
    }
    hide NamedAt, PastSpace, At, IdRun, SkipSpace;
  }

  lemma NothingMarked(line: string, next: string, i: nat, v: string)
    requires IsId(next) && Marks(line, next, i, v)
    ensures i < |line| && v != ""
  {
  }

  lemma MarksOne(line: string, next: string, i: nat, v: string, w: string)
    requires IsId(next) && ':' !in next && Marks(line, next, i, v) && Marks(line, next, i, w)
    ensures v == w
  {
    NothingMarked(line, next, i, v);
    NothingMarked(line, next, i, w);
    CaptureMarks(line, next, i, v);
    CaptureMarks(line, next, i, w);
    hide Marks, Capture;
  }

  lemma MarkedHere(line: string, next: string, i: nat)
    requires i <= |line| && IsId(next) && ':' !in next
    ensures var c := Capture((line + (['\n'] + next))[i..]);
      if c != "" then Marks(line, next, i, c) else forall w :: !Marks(line, next, i, w)
  {
    var c := Capture((line + (['\n'] + next))[i..]);
    if c != "" { CaptureMarks(line, next, i, c); }
    hide Capture, Marks;
    forall w | Marks(line, next, i, w) ensures c == w != "" {
      NothingMarked(line, next, i, w);
      CaptureMarks(line, next, i, w);
    }
  }

  lemma ReadOneOn(line: string, next: string, from: nat)
    requires from <= |line|
    ensures var s := line + (['\n'] + next);
      var here := Capture(s[from..]);
      ReadOwner(s[from..]) == if here != "" then Some(here)
                              else if from == |line| then ReadOwner(next) else ReadOwner(s[from + 1..])
  {
    var s := line + (['\n'] + next);
    assert s[from..][1..] == s[from + 1..];
    assert s[|line| + 1..] == next;
    hide Capture;
  }

  /** Reading from position `from` on finds the first marker there that names anything. */
  lemma {:induction false} ReadFrom(line: string, next: string, from: nat) returns (i: nat)
    requires from <= |line| && IsId(next) && ':' !in next
    ensures var read := ReadOwner((line + (['\n'] + next))[from..]);
      if read.Some? then FirstIn(line, next, from, i, read.value)
      else forall k: nat, w: string :: from <= k ==> !Marks(line, next, k, w)
    decreases |line| - from
  {
    i := from;
    hide Marks, Capture;
    MarkedHere(line, next, from);
    ReadOneOn(line, next, from);
    if from == |line| {
      NoColonNoOwner(next);
      forall k: nat, w: string | Marks(line, next, k, w) ensures k < |line| { NothingMarked(line, next, k, w); }
    } else if Capture((line + (['\n'] + next))[from..]) == "" {
      i := ReadFrom(line, next, from + 1);
    }
  }

  lemma MarkerHasColon(s: string)
    requires At(MARKER, s, 0)
    ensures ':' in s
  {
    assert s[8] == s[0..9][8];
  }

  lemma {:induction false} NoColonNoOwner(s: string)
    requires ':' !in s
    ensures ReadOwner(s) == None
  {
    if s != [] {
      if At(MARKER, s, 0) { MarkerHasColon(s); }
      NoColonNoOwner(s[1..]);
    }
  }

  lemma {:induction false} RunStops(y: string, r: string, q: string)
    ensures IdRun(y + ['\n'] + r) == IdRun(y + ['\n'] + q)
  {
    if y != [] {
      RunStops(y[1..], r, q);
      assert (y + ['\n'] + r)[1..] == y[1..] + ['\n'] + r && (y + ['\n'] + q)[1..] == y[1..] + ['\n'] + q;
    }
  }

  lemma {:induction false} RunAgrees(y: string, word: string, tail: string)
    requires IsId(word) && (tail != "" ==> !Allowed(tail[0]))
    ensures IdRun(SkipSpace(y + ['\n'] + (word + tail))) == IdRun(SkipSpace(y + ['\n'] + word))
  {
    var a, b := y + ['\n'] + word, y + ['\n'] + (word + tail);
    if y == [] {
      assert a[1..] == word && b[1..] == word + tail && word[0] == (word + tail)[0];
      assert SkipSpace(b) == SkipSpace(word + tail) == word + tail && SkipSpace(a) == SkipSpace(word) == word;
      WholeRun(word, tail);
      WholeRun(word, "");
      assert word + "" == word;
    } else if IsSpace(y[0]) {
      RunAgrees(y[1..], word, tail);
      assert a[1..] == y[1..] + ['\n'] + word && b[1..] == y[1..] + ['\n'] + (word + tail);
    } else {
      RunStops(y, word, word + tail);
    }
  }

  lemma CaptureAgrees(x: string, word: string, tail: string)
    requires IsId(word) && (tail != "" ==> !Allowed(tail[0]))
    ensures Capture(x + ['\n'] + (word + tail)) == Capture(x + ['\n'] + word)
  {
    var a, b := x + ['\n'] + word, x + ['\n'] + (word + tail);
    if |x| < |MARKER| {
      if At(MARKER, a, 0) { MarkerHas(a, 0, |x|); }
      if At(MARKER, b, 0) { MarkerHas(b, 0, |x|); }
    } else {
      assert a[0..9] == x[0..9] == b[0..9];
      var y := x[9..];
      assert a[9..] == y + ['\n'] + word && b[9..] == y + ['\n'] + (word + tail);
      RunAgrees(y, word, tail);
    }
  }

  lemma {:induction false} LineReads(x: string, word: string, tail: string)
    requires IsId(word) && ':' !in word && (tail != "" ==> !Allowed(tail[0]))
    ensures var here := ReadOwner(x + ['\n'] + word);
      ReadOwner(x + ['\n'] + (word + tail)) == if here.Some? then here else ReadOwner(word + tail)
  {
    var a, b := x + ['\n'] + word, x + ['\n'] + (word + tail);
    CaptureAgrees(x, word, tail);
    if x == [] {
      assert a[1..] == word && b[1..] == word + tail;
      assert !At(MARKER, a, 0) by { if At(MARKER, a, 0) { MarkerHas(a, 0, 0); } }
      NoColonNoOwner(word);
    } else {
      assert a[1..] == x[1..] + ['\n'] + word && b[1..] == x[1..] + ['\n'] + (word + tail);
      LineReads(x[1..], word, tail);
    }
  }

  lemma {:induction false} JoinReads(lines: seq<string>)
    requires lines != [] && Worded(lines)
    ensures ReadOwner(Join(lines, '\n'))
         == if Spoofed(lines).Some? then Spoofed(lines) else ReadOwner(lines[|lines| - 1])
  {
    if |lines| > 1 {
      var rest, word := Join(lines[1..], '\n'), Word(lines[1]);
      assert lines[1] <= rest;
      assert rest[..|word|] == lines[1][..|word|] == word && rest[|word|] == lines[1][|word|] == ':';
      assert rest == word + rest[|word|..];
      LineReads(lines[0], word, rest[|word|..]);
      JoinReads(lines[1..]);
    }
  }

  lemma WordOf(word: string, rest: string)
    requires ':' !in word
    ensures ':' in word + [':'] + rest && Word(word + [':'] + rest) == word
  {
    IndexOfFirst(word, ':', rest);
    assert (word + [':'] + rest)[..|word|] == word;
  }

  lemma LineWorded(word: string, tag: string, field: Option<string>)
    requires IsId(word) && ':' !in word && tag == word + ": "
    ensures Worded(Line(tag, field))
  {
    if field.Some? {
      WordOf(word, " " + field.value);
      assert tag + field.value == word + [':'] + (" " + field.value);
    }
  }

  lemma WordedConcat(a: seq<string>, b: seq<string>)
    requires Worded(a) && Worded(b)
    ensures Worded(a + b)
  {
  }

  lemma LinesAreWorded(u: User)
    ensures Worded(DescriptionLines(u))
  {
    var own := ["reiwa_id: " + u.id];
    WordOf("reiwa_id", " " + u.id);
    assert own[0] == "reiwa_id" + [':'] + (" " + u.id);
    assert Worded(own);
    LineWorded("name", "name: ", u.name);
    LineWorded("login", "login: ", u.login);
    LineWorded("username", "username: ", u.username);
    var name, login, username := Line("name: ", u.name), Line("login: ", u.login), Line("username: ", u.username);
    hide Worded, Line;
    WordedConcat(name, login);
    WordedConcat(name + login, username);
    WordedConcat(name + login + username, own);
  }

  lemma ReadLine(line: string, next: string) returns (i: nat)
    requires IsId(next) && ':' !in next
    ensures var read := ReadOwner(line + ['\n'] + next);
      if read.Some? then FirstIn(line, next, 0, i, read.value) else Unmarked(line, next)
  {
    hide Marks, ReadOwner;
    Regroup(line, ['\n'], next);
    i := ReadFrom(line, next, 0);
    var s := line + (['\n'] + next);
    assert s[0..] == s;
  }

  lemma FirstIsRead(line: string, next: string, i: nat, v: string)
    requires IsId(next) && ':' !in next && FirstIn(line, next, 0, i, v)
    ensures ReadOwner(line + ['\n'] + next) == Some(v)
  {
    hide Marks, ReadOwner;
    var k := ReadLine(line, next);
    assert k == i;
    MarksOne(line, next, i, v, ReadOwner(line + ['\n'] + next).value);
  }

  lemma {:induction false} MarkIsSpoofed(lines: seq<string>, f: nat, i: nat, v: string)
    requires Worded(lines) && FirstMark(lines, f, i, v)
    ensures Spoofed(lines) == Some(v)
  {
    hide Marks, ReadOwner, Word;
    WordsAreIds(lines);
    if f == 0 {
      FirstIsRead(lines[0], Word(lines[1]), i, v);
    } else {
      var k := ReadLine(lines[0], Word(lines[1]));
      assert Unmarked(lines[0], Word(lines[1]));
      LaterMark(lines, f, i, v);
      MarkIsSpoofed(lines[1..], f - 1, i, v);
    }
  }

  lemma WordsAreIds(lines: seq<string>)
    requires Worded(lines)
    ensures forall g :: 0 <= g < |lines| ==> IsId(Word(lines[g])) && ':' !in Word(lines[g])
    ensures |lines| > 0 ==> Worded(lines[1..])
  {
    hide IsId;
  }

  lemma LaterMark(lines: seq<string>, f: nat, i: nat, v: string)
    requires f > 0 && |lines| > 1
    ensures FirstMark(lines, f, i, v) <==> Unmarked(lines[0], Word(lines[1])) && FirstMark(lines[1..], f - 1, i, v)
  {
    hide Unmarked, FirstIn, Word;
    var rest := lines[1..];
    assert forall g :: 0 <= g < |rest| ==> rest[g] == lines[g + 1];
    if FirstMark(lines, f, i, v) {
      forall g | 0 <= g < f - 1 ensures Unmarked(rest[g], Word(rest[g + 1])) {
        assert Unmarked(lines[g + 1], Word(lines[g + 2]));
      }
    } else if Unmarked(lines[0], Word(lines[1])) && FirstMark(rest, f - 1, i, v) {
      forall g | 0 <= g < f ensures Unmarked(lines[g], Word(lines[g + 1])) {
        if g > 0 { assert Unmarked(rest[g - 1], Word(rest[g])); }
      }
    }
  }

  lemma {:induction false} SpoofedIsMark(lines: seq<string>) returns (f: nat, i: nat)
    requires Worded(lines) && Spoofed(lines).Some?
    ensures FirstMark(lines, f, i, Spoofed(lines).value)
  {
    hide Marks, ReadOwner, Word;
    WordsAreIds(lines);
    f := 0;
    i := ReadLine(lines[0], Word(lines[1]));
    if ReadOwner(lines[0] + ['\n'] + Word(lines[1])).None? {
      f, i := SpoofedIsMark(lines[1..]);
      f := f + 1;
      LaterMark(lines, f, i, Spoofed(lines).value);
    }
  }

  lemma LegibleIff(u: User)
    ensures var read := Spoofed(DescriptionLines(u)); Legible(u) <==> read.None? || read == Some(u.id)
  {
    LinesAreWorded(u);
    var lines := DescriptionLines(u);
    hide DescriptionLines, Spoofed, FirstMark, Worded;
    forall f: nat, i: nat, v: string | FirstMark(lines, f, i, v) ensures Spoofed(lines) == Some(v) {
      MarkIsSpoofed(lines, f, i, v);
    }
    if Spoofed(lines).Some? { var f, i := SpoofedIsMark(lines); }
  }

  /** It reads back as its own user's if and only if the first marker in the fields, if any, names that user. */
  lemma OwnerReadsBackIff(u: User)
    requires IsId(u.id)
    ensures ReadOwner(Description(u)) == Some(u.id) <==> Legible(u)
  {
    LinesAreWorded(u);
    LegibleIff(u);
    MarkedId(u.id, "");
    hide Legible, Spoofed, ReadOwner, Worded, Line;
    JoinReads(DescriptionLines(u));
    assert "reiwa_id: " + u.id + "" == "reiwa_id: " + u.id;
  }

  /** Fields free of the marker are legible, */
  lemma FreeIsLegible(u: User)
    requires IsId(u.id) && FreeOfMarker(u.name) && FreeOfMarker(u.login) && FreeOfMarker(u.username)
    ensures Legible(u)
  {
    MarkerRoundTrip(u);
    OwnerReadsBackIff(u);
  }

  /** and a profile found by name is adopted exactly by the user it was made for, if and only if they are. */
  lemma OnlyItsUserMayLink(u: User)
    requires IsId(u.id)
    ensures Legible(u) <==> forall user :: MayLink(Some(Description(u)), user) <==> user == u.id
  {
    OwnerReadsBackIff(u);
    hide ReadOwner, Description, Legible, AllAllowed;
    var description, other := Some(Description(u)), if u.id == "a" then "b" else "a";
    if forall user :: MayLink(description, user) <==> user == u.id {
      assert MayLink(description, u.id) && !MayLink(description, other);
    }
  }

  /** A field that is not legible: a display name that spells a marker is read instead of the real one. */
  lemma MarkerInNameIsReadInstead(u: User, other: string)
    requires IsId(other) && u.name == Some("reiwa_id: " + other)
    ensures ReadOwner(Description(u)) == Some(other)
    ensures MayLink(Some(Description(u)), u.id) <==> u.id == other
  {
    var lines, line := DescriptionLines(u), "name: " + ("reiwa_id: " + other);
    assert lines[0] == line && |lines| > 1;
    var rest := ['\n'] + Join(lines[1..], '\n');
    var marked := "reiwa_id: " + other + rest;
    assert Description(u) == "name: " + marked;
    MarkedId(other, rest);
    forall i: nat | i < 6 ensures !At(MARKER, "name: " + marked, i) {
      if At(MARKER, "name: " + marked, i) { MarkerHas("name: " + marked, i, 5); }
    }
    ReadSkips("name: ", marked);
  }

  /** Two users can be given one name, since sanitising merges; the marker is what tells their profiles apart. */
  lemma TwoUsersMayShareAName()
    ensures var a := User("u1", Some("a.b"), None, None, None);
            var b := User("u2", Some("a_b"), None, None, None);
      && GenerateName(DEFAULT_CONFIG, a, 0) == GenerateName(DEFAULT_CONFIG, b, 0)
      && !MayLink(Some(Description(a)), b.id)
  {
    DotBecomesUnderscore();
    SanitizeKeepsSlug("a_b");
    hide Sanitize, ReadOwner, Description, Legible, Contains;
    MarksItsOwnUser("u1", "a.b");
  }

  lemma MarksItsOwnUser(id: string, login: string)
    requires IsId(id) && !Contains(login, MARKER)
    ensures forall user :: MayLink(Some(Description(User(id, Some(login), None, None, None))), user) <==> user == id
  {
    var u := User(id, Some(login), None, None, None);
    FreeIsLegible(u);
    OnlyItsUserMayLink(u);
  }

  lemma DotBecomesUnderscore()
    ensures Sanitize("a.b") == "a_b"
  {
    assert "a.b"[1..] == ".b" && ".b"[1..] == "b" && "b"[1..] == "";
    assert ReplaceRuns("a.b") == "a_b";
    NothingToReplace("a_b");
    SanitizeKeepsSlug("a_b");
  }
}

/** The error archive's per-process write cap. */
module RateCap {

  const WINDOW := 60000

  /** When the counting window opened, and how many writes it has let through. */
  datatype Window = Window(start: int, count: nat)

  datatype Decision = Decision(next: Window, admitted: bool)

  function Decide(w: Window, now: int, max: int): Decision {
    var open := if now - w.start > WINDOW then Window(now, 0) else w;
    if open.count >= max then Decision(open, false) else Decision(Window(open.start, open.count + 1), true)
  }

  // ---- whole runs ----

  /** Callers may ask for different caps. */
  datatype Call = Call(now: int, max: int)

  function After(w: Window, calls: seq<Call>): Window {
    if calls == [] then w
    else
      var last := calls[|calls| - 1];
      Decide(After(w, calls[..|calls| - 1]), last.now, last.max).next
  }

  predicate Admits(w: Window, calls: seq<Call>)
    requires calls != []
  {
    var last := calls[|calls| - 1];
    Decide(After(w, calls[..|calls| - 1]), last.now, last.max).admitted
  }

  /** Writes let through at times from `lo` to `hi`. */
  function AdmittedBetween(w: Window, calls: seq<Call>, lo: int, hi: int): nat {
    if calls == [] then 0
    else
      var last := calls[|calls| - 1];
      AdmittedBetween(w, calls[..|calls| - 1], lo, hi)
      + if Admits(w, calls) && lo <= last.now <= hi then 1 else 0
  }

  /** Writes let through by the window that opened at `start`. */
  function AdmittedByWindow(w: Window, calls: seq<Call>, start: int): nat {
    if calls == [] then if w.start == start then w.count else 0
    else
      AdmittedByWindow(w, calls[..|calls| - 1], start)
      + if Admits(w, calls) && After(w, calls).start == start then 1 else 0
  }

  /** The clock does not go back and no caller asks for more than `cap`. */
  predicate Orderly(w: Window, calls: seq<Call>, cap: nat) {
    && w.count <= cap
    && (forall i :: 0 <= i < |calls| ==> calls[i].max <= cap && w.start <= calls[i].now)
    && forall i, j :: 0 <= i < j < |calls| ==> calls[i].now <= calls[j].now
  }

  lemma {:induction false} WindowOpensInThePast(w: Window, calls: seq<Call>, cap: nat)
    requires Orderly(w, calls, cap)
    ensures w.start <= After(w, calls).start && After(w, calls).count <= cap
    ensures calls != [] ==> After(w, calls).start <= calls[|calls| - 1].now
  {
    if calls != [] { WindowOpensInThePast(w, calls[..|calls| - 1], cap); }
  }

  /** Every window lets through at most the cap; the counter is the current window's tally. */
  lemma {:induction false} WindowAdmitsAtMostCap(w: Window, calls: seq<Call>, cap: nat, start: int)
    requires Orderly(w, calls, cap)
    ensures AdmittedByWindow(w, calls, start) <= cap
    ensures AdmittedByWindow(w, calls, After(w, calls).start) == After(w, calls).count
    ensures start > After(w, calls).start ==> AdmittedByWindow(w, calls, start) == 0
  {
    if calls != [] {
      var before := calls[..|calls| - 1];
      WindowAdmitsAtMostCap(w, before, cap, start);
      WindowAdmitsAtMostCap(w, before, cap, After(w, calls).start);
      WindowOpensInThePast(w, calls, cap);
    }
  }

  /** At most one window opens within 60 seconds, so any such interval meets at most two. */
  lemma {:induction false} IntervalMeetsTwoWindows(w: Window, calls: seq<Call>, cap: nat, lo: int)
    requires Orderly(w, calls, cap)
    ensures var n, now := AdmittedBetween(w, calls, lo, lo + WINDOW), After(w, calls);
      && (calls != [] && calls[|calls| - 1].now < lo ==> n == 0)
      && (now.start < lo ==> n <= now.count)
      && (lo <= now.start <= lo + WINDOW ==> n <= cap + now.count)
      && n <= 2 * cap
  {
    if calls != [] {
      var before := calls[..|calls| - 1];
      IntervalMeetsTwoWindows(w, before, cap, lo);
      WindowOpensInThePast(w, before, cap);
      WindowOpensInThePast(w, calls, cap);
    }
  }

  /** Any closed interval of 60 seconds lets through at most twice the cap. */
  lemma AnyMinuteAdmitsAtMostTwiceCap(w: Window, calls: seq<Call>, cap: nat, lo: int, hi: int)
    requires Orderly(w, calls, cap) && hi <= lo + WINDOW
    ensures AdmittedBetween(w, calls, lo, hi) <= 2 * cap
  {
    IntervalMeetsTwoWindows(w, calls, cap, lo);
    Narrower(w, calls, lo, hi, lo + WINDOW);
  }

  lemma {:induction false} Narrower(w: Window, calls: seq<Call>, lo: int, hi: int, wider: int)
    requires hi <= wider
    ensures AdmittedBetween(w, calls, lo, hi) <= AdmittedBetween(w, calls, lo, wider)
  {
    if calls != [] { Narrower(w, calls[..|calls| - 1], lo, hi, wider); }
  }

  // ---- the bound is reached ----

  function Burst(now: int, n: nat, cap: nat): seq<Call> { seq(n, _ => Call(now, cap)) }

  lemma OneMore(w: Window, calls: seq<Call>, c: Call, lo: int, hi: int)
    ensures var d := Decide(After(w, calls), c.now, c.max);
      && After(w, calls + [c]) == d.next
      && AdmittedBetween(w, calls + [c], lo, hi)
         == AdmittedBetween(w, calls, lo, hi) + if d.admitted && lo <= c.now <= hi then 1 else 0
  {
    assert (calls + [c])[..|calls|] == calls;
  }

  function Opened(w: Window, now: int): Window { if now - w.start > WINDOW then Window(now, 0) else w }

  lemma {:induction false} BurstFills(w: Window, calls: seq<Call>, now: int, n: nat, cap: nat, lo: int, hi: int)
    requires n <= cap && lo <= now <= hi && Opened(After(w, calls), now).count == 0
    ensures var all := calls + Burst(now, n, cap);
      && AdmittedBetween(w, all, lo, hi) == AdmittedBetween(w, calls, lo, hi) + n
      && Opened(After(w, all), now) == Window(Opened(After(w, calls), now).start, n)
  {
    hide AdmittedBetween, After;
    if n == 0 {
      assert calls + Burst(now, n, cap) == calls;
    } else {
      BurstFills(w, calls, now, n - 1, cap, lo, hi);
      var before, c := calls + Burst(now, n - 1, cap), Call(now, cap);
      OneMore(w, before, c, lo, hi);
      assert before + [c] == calls + Burst(now, n, cap);
    }
  }

  /** All callers ask for the same cap. */
  predicate Uniform(calls: seq<Call>, cap: nat) { forall i :: 0 <= i < |calls| ==> calls[i].max == cap }

  lemma ThenBurst(w: Window, calls: seq<Call>, now: int, n: nat, cap: nat)
    requires Orderly(w, calls, cap) && w.start <= now
    requires forall i :: 0 <= i < |calls| ==> calls[i].now <= now
    ensures Orderly(w, calls + Burst(now, n, cap), cap)
    ensures Uniform(calls, cap) ==> Uniform(calls + Burst(now, n, cap), cap)
  {
    var all := calls + Burst(now, n, cap);
    assert forall i :: 0 <= i < |calls| ==> all[i] == calls[i];
    assert forall i :: |calls| <= i < |all| ==> all[i] == Call(now, cap);
  }

  lemma BurstsAreOrderly(cap: nat)
    ensures Orderly(Window(0, 0), Burst(WINDOW, cap, cap) + Burst(WINDOW + 1, cap, cap), cap)
  {
    ThenBurst(Window(0, 0), Burst(WINDOW, cap, cap), WINDOW + 1, cap, cap);
  }

  lemma TwoBursts(cap: nat)
    ensures var calls := Burst(WINDOW, cap, cap) + Burst(WINDOW + 1, cap, cap);
      AdmittedBetween(Window(0, 0), calls, WINDOW, WINDOW + 1) == 2 * cap
  {
    var w, first := Window(0, 0), Burst(WINDOW, cap, cap);
    assert [] + first == first && After(w, []) == w && AdmittedBetween(w, [], WINDOW, WINDOW + 1) == 0;
    hide AdmittedBetween, After, Burst;
    BurstFills(w, [], WINDOW, cap, cap, WINDOW, WINDOW + 1);
    FirstWindowIsOver(After(w, first), cap);
    BurstFills(w, first, WINDOW + 1, cap, cap, WINDOW, WINDOW + 1);
  }

  /** For every cap, twice the cap can go through within one millisecond: the cap is not one per rolling minute. */
  lemma TwiceCapInOneMillisecond(cap: nat)
    ensures exists calls ::
      Orderly(Window(0, 0), calls, cap) && AdmittedBetween(Window(0, 0), calls, WINDOW, WINDOW + 1) == 2 * cap
  {
    hide *;
    BurstsAreOrderly(cap);
    TwoBursts(cap);
  }

  lemma FirstWindowIsOver(w: Window, n: nat)
    requires Opened(w, WINDOW) == Window(0, n)
    ensures Opened(w, WINDOW + 1).count == 0
  {
  }

  // ---- exactly when a minute keeps the cap ----

  /**
   * No call in the minute [lo, hi] can meet two windows that both let something through there: the
   * open window lasts past `hi`, or is full or over before `lo` and the next one lasts past `hi`.
   */
  predicate KeepsCap(w: Window, cap: nat, lo: int, hi: int) {
    || cap == 0 || lo == hi || hi <= w.start + WINDOW
    || (lo <= w.start + WINDOW && w.count == cap)
    || (lo > w.start + WINDOW && hi <= w.start + 2 * WINDOW + 1)
  }

  /** While no window opens in (lo, hi], one window lets through all that passes there. */
  lemma {:induction false} OneWindowKeepsCap(w: Window, calls: seq<Call>, cap: nat, lo: int, hi: int)
    requires Orderly(w, calls, cap)
    requires forall k :: 0 <= k <= |calls| ==> !(lo < After(w, calls[..k]).start <= hi)
    ensures var n, now := AdmittedBetween(w, calls, lo, hi), After(w, calls);
      n <= cap && (now.start <= lo ==> n <= now.count) && (calls != [] && calls[|calls| - 1].now < lo ==> n == 0)
  {
    if calls != [] {
      var before := calls[..|calls| - 1];
      assert calls[..|calls|] == calls;
      assert forall k :: 0 <= k <= |before| ==> before[..k] == calls[..k];
      OneWindowKeepsCap(w, before, cap, lo, hi);
      WindowOpensInThePast(w, before, cap);
      WindowOpensInThePast(w, calls, cap);
    }
  }

  /** The open window outlasts the minute. */
  lemma {:induction false} FirstWindowOutlasts(w: Window, calls: seq<Call>, cap: nat, lo: int, hi: int)
    requires Orderly(w, calls, cap) && hi <= w.start + WINDOW
    ensures var n, now := AdmittedBetween(w, calls, lo, hi), After(w, calls);
      n <= cap && (now.start == w.start ==> n <= now.count) && (now.start > w.start ==> now.start > hi)
  {
    if calls != [] {
      var before := calls[..|calls| - 1];
      FirstWindowOutlasts(w, before, cap, lo, hi);
      WindowOpensInThePast(w, before, cap);
      WindowOpensInThePast(w, calls, cap);
    }
  }

  /** The open window lets nothing through in the minute, and the next one outlasts it. */
  lemma {:induction false} SecondWindowOutlasts(w: Window, calls: seq<Call>, cap: nat, lo: int, hi: int)
    requires Orderly(w, calls, cap) && hi <= w.start + 2 * WINDOW + 1
    requires w.count == cap || lo > w.start + WINDOW
    ensures var n, now := AdmittedBetween(w, calls, lo, hi), After(w, calls);
      && n <= cap && now.count <= cap && (now.start == w.start ==> n == 0 && w.count <= now.count)
      && (w.start < now.start <= hi ==> n <= now.count)
      && (w.start < now.start ==> now.start > w.start + WINDOW)
  {
    if calls != [] {
      var before := calls[..|calls| - 1];
      SecondWindowOutlasts(w, before, cap, lo, hi);
      WindowOpensInThePast(w, before, cap);
      WindowOpensInThePast(w, calls, cap);
    }
  }

  lemma KeptCap(w: Window, calls: seq<Call>, cap: nat, lo: int, hi: int)
    requires Orderly(w, calls, cap) && lo <= hi <= lo + WINDOW && KeepsCap(w, cap, lo, hi)
    ensures AdmittedBetween(w, calls, lo, hi) <= cap
  {
    if cap == 0 {
      AnyMinuteAdmitsAtMostTwiceCap(w, calls, cap, lo, hi);
    } else if lo == hi {
      OneWindowKeepsCap(w, calls, cap, lo, lo);
    } else if hi <= w.start + WINDOW {
      FirstWindowOutlasts(w, calls, cap, lo, hi);
    } else {
      SecondWindowOutlasts(w, calls, cap, lo, hi);
    }
  }

  /** The open window has room at `lo`, and the next one opens at `hi`. */
  lemma RoomNowAndLater(w: Window, cap: nat, lo: int, hi: int) returns (calls: seq<Call>)
    requires w.count < cap && w.start <= lo <= w.start + WINDOW < hi
    ensures Orderly(w, calls, cap) && Uniform(calls, cap) && AdmittedBetween(w, calls, lo, hi) == cap + 1
  {
    var first := [Call(lo, cap)];
    calls := first + Burst(hi, cap, cap);
    ThenBurst(w, first, hi, cap, cap);
    OneMore(w, [], Call(lo, cap), lo, hi);
    assert [] + first == first && After(w, []) == w && AdmittedBetween(w, [], lo, hi) == 0;
    hide AdmittedBetween, After, Orderly, Uniform, Burst;
    BurstFills(w, first, hi, cap, cap, lo, hi);
  }

  /** What the opening call and the one at `lo` make of the counter. */
  lemma OpenThenOne(w: Window, max: nat, cap: nat, lo: int, hi: int)
    requires max <= cap && (max == 0 < cap || cap >= 2) && lo < hi <= lo + WINDOW
    requires lo > w.start + WINDOW && hi > w.start + 2 * WINDOW + 1
    ensures var two := [Call(hi - WINDOW - 1, max), Call(lo, cap)];
      && After(w, two).start == hi - WINDOW - 1
      && AdmittedBetween(w, two, lo, hi) == 1
  {
    var opening, second := Call(hi - WINDOW - 1, max), Call(lo, cap);
    OneMore(w, [], opening, lo, hi);
    assert [] + [opening] == [opening] && After(w, []) == w && AdmittedBetween(w, [], lo, hi) == 0;
    OneMore(w, [opening], second, lo, hi);
    assert [opening] + [second] == [opening, second];
    hide AdmittedBetween, After;
  }

  /** A call before `lo` opens a window that still has room at `lo` and is over at `hi`. */
  lemma OpenedForBoth(w: Window, max: nat, cap: nat, lo: int, hi: int) returns (calls: seq<Call>)
    requires max <= cap && (max == 0 < cap || cap >= 2) && w.count <= cap && lo < hi <= lo + WINDOW
    requires lo > w.start + WINDOW && hi > w.start + 2 * WINDOW + 1
    ensures Orderly(w, calls, cap) && AdmittedBetween(w, calls, lo, hi) == cap + 1
    ensures max == cap ==> Uniform(calls, cap)
  {
    var two := [Call(hi - WINDOW - 1, max), Call(lo, cap)];
    calls := two + Burst(hi, cap, cap);
    ThenBurst(w, two, hi, cap, cap);
    OpenThenOne(w, max, cap, lo, hi);
    hide AdmittedBetween, After, Orderly, Burst;
    BurstFills(w, two, hi, cap, cap, lo, hi);
  }

  /** A minute lets through at most the cap, whatever calls come, exactly when the counter's state rules out a split. */
  lemma MinuteKeepsCapIff(w: Window, cap: nat, lo: int, hi: int)
    requires w.count <= cap && lo <= hi <= lo + WINDOW
    ensures KeepsCap(w, cap, lo, hi)
      <==> forall calls :: Orderly(w, calls, cap) ==> AdmittedBetween(w, calls, lo, hi) <= cap
  {
    if KeepsCap(w, cap, lo, hi) {
      forall calls | Orderly(w, calls, cap) ensures AdmittedBetween(w, calls, lo, hi) <= cap {
        KeptCap(w, calls, cap, lo, hi);
      }
    } else if lo <= w.start + WINDOW {
      var calls := RoomNowAndLater(w, cap, lo, hi);
    } else {
      var calls := OpenedForBoth(w, 0, cap, lo, hi);
    }
  }

  // ---- one cap for all callers ----

  /** With a single slot the opening call takes it, so a later window shows one write and no more. */
  predicate OneCapKeeps(w: Window, cap: nat, lo: int, hi: int) {
    KeepsCap(w, cap, lo, hi) || (cap == 1 && lo > w.start + WINDOW)
  }

  /** Every write after the open window is an opening, and openings lie more than a window apart. */
  lemma {:induction false} SingleSlot(w: Window, calls: seq<Call>, lo: int, hi: int)
    requires Orderly(w, calls, 1) && Uniform(calls, 1) && w.start + WINDOW < lo && hi <= lo + WINDOW
    ensures var n, now := AdmittedBetween(w, calls, lo, hi), After(w, calls);
      && n <= 1 && (n == 1 ==> now.start >= lo)
      && (now.start == w.start ==> n == 0) && (now.start > w.start ==> now.count == 1)
  {
    if calls != [] {
      var before := calls[..|calls| - 1];
      SingleSlot(w, before, lo, hi);
      WindowOpensInThePast(w, before, 1);
    }
  }

  /** The same when all calls ask for the same cap. */
  lemma OneCapKeepsMinuteIff(w: Window, cap: nat, lo: int, hi: int)
    requires w.count <= cap && lo <= hi <= lo + WINDOW
    ensures OneCapKeeps(w, cap, lo, hi)
      <==> forall calls :: Orderly(w, calls, cap) && Uniform(calls, cap) ==> AdmittedBetween(w, calls, lo, hi) <= cap
  {
    if OneCapKeeps(w, cap, lo, hi) {
      forall calls | Orderly(w, calls, cap) && Uniform(calls, cap) ensures AdmittedBetween(w, calls, lo, hi) <= cap {
        if KeepsCap(w, cap, lo, hi) { KeptCap(w, calls, cap, lo, hi); } else { SingleSlot(w, calls, lo, hi); }
      }
    } else if lo <= w.start + WINDOW {
      var calls := RoomNowAndLater(w, cap, lo, hi);
    } else {
      var calls := OpenedForBoth(w, cap, cap, lo, hi);
    }
    hide Orderly, Uniform, AdmittedBetween;
  }

  // ---- the counter itself ----

  lemma EveryMinuteBounded(w: Window, calls: seq<Call>)
    ensures forall cap: nat, lo: int, hi: int :: Orderly(w, calls, cap) && hi <= lo + WINDOW ==>
      AdmittedBetween(w, calls, lo, hi) <= 2 * cap
  {
    forall cap: nat, lo: int, hi: int | Orderly(w, calls, cap) && hi <= lo + WINDOW
      ensures AdmittedBetween(w, calls, lo, hi) <= 2 * cap { AnyMinuteAdmitsAtMostTwiceCap(w, calls, cap, lo, hi); }
  }

  /** The module-level counter; `origin` and `calls` record its whole history. */
  class ErrorArchive {
    var windowStart: int
    var windowCount: nat
    ghost var origin: Window
    ghost var calls: seq<Call>

    /** The counter is where its history leads. */
    ghost predicate Valid()
      reads this
    {
      Window(windowStart, windowCount) == After(origin, calls)
    }

    constructor (now: int)
      ensures Valid() && origin == Window(now, 0) && calls == []
    {
      windowStart, windowCount := now, 0;
      origin, calls := Window(now, 0), [];
    }

    /**
     * Lets the call through or not, and records it. Whatever the calls have been, if the clock never
     * went back and none asked for more than `cap`, no minute of the history holds more than twice that.
     */
    method WriteErrorReport(now: int, maxPerMinute: int) returns (written: bool)
      requires Valid()
      modifies this
      ensures Valid() && origin == old(origin) && calls == old(calls) + [Call(now, maxPerMinute)]
      ensures written <==> Admits(origin, calls)
      ensures forall cap: nat, lo: int, hi: int :: Orderly(origin, calls, cap) && hi <= lo + WINDOW ==>
        AdmittedBetween(origin, calls, lo, hi) <= 2 * cap
    {
      ghost var call := Call(now, maxPerMinute);
      OneMore(origin, calls, call, now, now);
      ghost var before := calls;
      calls := calls + [call];
      assert calls[..|calls| - 1] == before;
      if now - windowStart > WINDOW {
        windowStart := now;
        windowCount := 0;
      }
      written := windowCount < maxPerMinute;
      if written { windowCount := windowCount + 1; }
      EveryMinuteBounded(origin, calls);
    }
  }
}

/**
 * Overlapping auto-renew cycles charging saved methods. A runner reads the attempt
 * state of one expiry epoch and charges later, when the state may have moved on.
 * Clients renew too, under idempotency keys of their own choosing, and a payment
 * given up for lost may still succeed.
 */
module AutoRenewCharging {
  import opened Text
  import opened AutoRenewKeys
  import opened Wrappers

  const MAX_AUTOPAY_ATTEMPTS: nat := 3

  datatype TxStatus = Pending | Completed | Failed | Canceled | Refunded

  /** Idempotency keys are unique per user. */
  datatype Key = Key(user: string, text: string)

  /** Money is held or may still arrive. */
  predicate Live(st: TxStatus) { st.Pending? || st.Completed? }

  /** The renewal transactions. */
  type Ledger = map<Key, TxStatus>

  /** The rows the prefix query of `readAttemptState` matches: by text alone. */
  function Matching(txs: Ledger, sub: string, expiresAt: int): set<Key> {
    set k | k in txs && Prefix(sub, expiresAt) <= k.text
  }

  datatype AttemptState = AttemptState(used: nat, pending: bool, completed: bool)

  /** What one row contributes to `usedAttempts`. */
  function AttemptOf(text: string): nat {
    var n := ParseAttempt(text);
    if n < 0 then 1 else n
  }

  /** The aggregation over the rows the query returned. */
  ghost predicate Reads(txs: Ledger, rows: set<Key>, state: AttemptState) {
    && rows <= txs.Keys
    && (forall k :: k in rows ==> AttemptOf(k.text) <= state.used)
    && (state.used > 0 ==> exists k :: k in rows && AttemptOf(k.text) == state.used)
    && (state.pending <==> exists k :: k in rows && txs[k].Pending?)
    && (state.completed <==> exists k :: k in rows && txs[k].Completed?)
  }

  /** At most five rows come back, and only a longer list is cut. */
  predicate QueryResult(txs: Ledger, sub: string, expiresAt: int, rows: set<Key>) {
    var all := Matching(txs, sub, expiresAt);
    rows <= all && |rows| == if |all| <= MAX_AUTOPAY_ATTEMPTS + 2 then |all| else MAX_AUTOPAY_ATTEMPTS + 2
  }

  /** A runner between its read and its charge. */
  datatype Runner = Runner(sub: string, expiresAt: int, attempt: nat)

  /** `owners` says whose each subscription is. */
  datatype State = State(owners: map<string, string>, txs: Ledger, runners: map<nat, Runner>)

  /**
   * `Settle` is any status write of the webhook reconciliation, the pending sweep or a refund; a
   * late SUCCESS turns even a FAILED or CANCELED transaction COMPLETED.
   */
  datatype Step =
    | Look(r: nat, sub: string, expiresAt: int, rows: set<Key>, seen: AttemptState)
    | Charge(r: nat, recorded: bool)
    | Drop(r: nat)
    | Settle(key: Key, status: TxStatus)
    | ClientRenewal(user: string, text: string)

  ghost predicate Enabled(s: State, step: Step) {
    match step
    case Look(r, sub, e, rows, seen) =>
      && r !in s.runners && IsId(sub) && sub in s.owners
      && QueryResult(s.txs, sub, e, rows) && Reads(s.txs, rows, seen)
    case Charge(r, _) => r in s.runners && s.runners[r].sub in s.owners
    case Drop(r) => r in s.runners
    case Settle(k, _) => k in s.txs
    case ClientRenewal(user, text) => Key(user, text) !in s.txs
  }

  /** The key of attempt `n`: the subscription's owner pays. */
  function Attempt(owner: string, sub: string, e: int, n: nat): Key { Key(owner, AttemptKey(sub, e, n)) }

  ghost function Apply(s: State, step: Step): State
    requires Enabled(s, step)
  {
    match step
    case Look(r, sub, e, _, seen) =>
      if seen.completed || seen.pending || seen.used >= MAX_AUTOPAY_ATTEMPTS then s
      else s.(runners := s.runners[r := Runner(sub, e, seen.used + 1)])
    case Charge(r, recorded) =>
      // `renewalCheckout` replays or refuses an existing key; otherwise it may leave a PENDING row under it, or none
      var me := s.runners[r];
      var key := Attempt(s.owners[me.sub], me.sub, me.expiresAt, me.attempt);
      s.(txs := if key in s.txs || !recorded then s.txs else s.txs[key := Pending], runners := s.runners - {r})
    case Drop(r) => s.(runners := s.runners - {r})
    case Settle(k, st) => s.(txs := s.txs[k := st])
    case ClientRenewal(user, text) => s.(txs := s.txs[Key(user, text) := Pending])
  }

  ghost predicate Run(s: State, steps: seq<Step>, t: State)
    decreases |steps|
  {
    if steps == [] then s == t else Enabled(s, steps[0]) && Run(Apply(s, steps[0]), steps[1..], t)
  }

  ghost predicate Init(s: State) { s.txs == map[] && s.runners == map[] }

  // ---- the rows of one epoch ----

  /** How many attempts are on record, counted from the first. */
  function Made(txs: Ledger, owner: string, sub: string, e: int): (k: nat)
    ensures k <= MAX_AUTOPAY_ATTEMPTS
  {
    if Attempt(owner, sub, e, 1) !in txs then 0
    else if Attempt(owner, sub, e, 2) !in txs then 1
    else if Attempt(owner, sub, e, 3) !in txs then 2
    else 3
  }

  /** The query finds exactly a1..ak, k at most three. */
  predicate RowsExact(txs: Ledger, owner: string, sub: string, e: int) {
    Matching(txs, sub, e) == set n | 1 <= n <= Made(txs, owner, sub, e) :: Attempt(owner, sub, e, n)
  }

  /** At most one row of the epoch holds or awaits money. */
  predicate OneLive(txs: Ledger, sub: string, e: int) {
    forall x, y ::
      x in Matching(txs, sub, e) && y in Matching(txs, sub, e) && Live(txs[x]) && Live(txs[y]) ==> x == y
  }

  /** No row of the epoch holds or awaits money. */
  predicate AllSpent(txs: Ledger, sub: string, e: int) {
    forall x :: x in Matching(txs, sub, e) ==> !Live(txs[x])
  }

  lemma AttemptsDiffer(sub: string, e: int, m: nat, n: nat)
    requires AttemptKey(sub, e, m) == AttemptKey(sub, e, n)
    ensures m == n
  {
    AttemptRoundTrip(sub, e, m);
    AttemptRoundTrip(sub, e, n);
  }

  lemma AttemptMatches(txs: Ledger, owner: string, sub: string, e: int, n: nat)
    ensures Attempt(owner, sub, e, n) in txs <==> Attempt(owner, sub, e, n) in Matching(txs, sub, e)
  {
    assert Prefix(sub, e) <= AttemptKey(sub, e, n);
  }

  /** In an exact epoch the attempts on record are the first `Made`, and nothing else matches. */
  lemma RecordedIffMade(txs: Ledger, owner: string, sub: string, e: int, n: nat)
    requires RowsExact(txs, owner, sub, e)
    ensures Attempt(owner, sub, e, n) in txs <==> 1 <= n <= Made(txs, owner, sub, e)
  {
    AttemptMatches(txs, owner, sub, e, n);
    if Attempt(owner, sub, e, n) in txs {
      var m: nat :| 1 <= m <= Made(txs, owner, sub, e) && Attempt(owner, sub, e, m) == Attempt(owner, sub, e, n);
      AttemptsDiffer(sub, e, m, n);
    }
  }

  lemma AtMostThree(txs: Ledger, owner: string, sub: string, e: int)
    requires RowsExact(txs, owner, sub, e)
    ensures |Matching(txs, sub, e)| <= MAX_AUTOPAY_ATTEMPTS
  {
    var most := {Attempt(owner, sub, e, 1), Attempt(owner, sub, e, 2), Attempt(owner, sub, e, 3)};
    SubsetSize(Matching(txs, sub, e), most);
  }

  /** The five-row read loses nothing: it reports the number of attempts made and whether any is live. */
  lemma ReadIsComplete(txs: Ledger, owner: string, sub: string, e: int, rows: set<Key>, seen: AttemptState)
    requires RowsExact(txs, owner, sub, e) && QueryResult(txs, sub, e, rows) && Reads(txs, rows, seen)
    ensures rows == Matching(txs, sub, e) && seen.used == Made(txs, owner, sub, e)
    ensures !seen.pending && !seen.completed <==> AllSpent(txs, sub, e)
  {
    AtMostThree(txs, owner, sub, e);
    SubsetSize(rows, Matching(txs, sub, e));
    HighestIsMade(txs, owner, sub, e, rows, seen.used);
    hide AttemptOf, Matching, QueryResult, AttemptKey, Prefix, RowsExact, Made;
  }

  lemma AttemptNumber(owner: string, sub: string, e: int, n: nat)
    ensures AttemptOf(Attempt(owner, sub, e, n).text) == n
  {
    AttemptRoundTrip(sub, e, n);
  }

  lemma HighestIsMade(txs: Ledger, owner: string, sub: string, e: int, rows: set<Key>, used: nat)
    requires RowsExact(txs, owner, sub, e) && rows == Matching(txs, sub, e)
    requires forall k :: k in rows ==> AttemptOf(k.text) <= used
    requires used > 0 ==> exists k :: k in rows && AttemptOf(k.text) == used
    ensures used == Made(txs, owner, sub, e)
  {
    var last := Made(txs, owner, sub, e);
    AttemptNumber(owner, sub, e, last);
    hide AttemptOf, Matching, Attempt, Made;
    if last > 0 { assert Attempt(owner, sub, e, last) in rows; }
    if used > 0 {
      var k :| k in rows && AttemptOf(k.text) == used;
      var n: nat :| 1 <= n <= last && k == Attempt(owner, sub, e, n);
      AttemptNumber(owner, sub, e, n);
    }
  }

  // ---- what a step adds to the epoch ----

  /** Runners of the epoch were let past by a read: they number the next attempt or an earlier one. */
  predicate RunnerOk(txs: Ledger, owner: string, sub: string, e: int, me: Runner) {
    && IsId(me.sub)
    && (me.sub == sub && me.expiresAt == e ==>
        1 <= me.attempt <= MAX_AUTOPAY_ATTEMPTS && me.attempt <= Made(txs, owner, sub, e) + 1)
  }

  ghost predicate Inv(s: State, sub: string, e: int) {
    && IsId(sub) && sub in s.owners && RowsExact(s.txs, s.owners[sub], sub, e)
    && (forall r :: r in s.runners ==> RunnerOk(s.txs, s.owners[sub], sub, e, s.runners[r]))
  }

  /** A client's key that the epoch's query would find. */
  predicate Intrudes(step: Step, sub: string, e: int) { step.ClientRenewal? && Prefix(sub, e) <= step.text }

  /** This charge would put a new attempt of the epoch on record. */
  predicate Records(s: State, step: Step, sub: string, e: int)
    requires sub in s.owners
  {
    && step.Charge? && step.recorded && step.r in s.runners
    && var me := s.runners[step.r];
       me.sub == sub && me.expiresAt == e && Attempt(s.owners[sub], sub, e, me.attempt) !in s.txs
  }

  lemma SameRows(a: Ledger, b: Ledger, owner: string, sub: string, e: int)
    requires Matching(a, sub, e) == Matching(b, sub, e)
    ensures Made(a, owner, sub, e) == Made(b, owner, sub, e)
    ensures RowsExact(a, owner, sub, e) <==> RowsExact(b, owner, sub, e)
  {
    AttemptMatches(a, owner, sub, e, 1);
    AttemptMatches(a, owner, sub, e, 2);
    AttemptMatches(a, owner, sub, e, 3);
    AttemptMatches(b, owner, sub, e, 1);
    AttemptMatches(b, owner, sub, e, 2);
    AttemptMatches(b, owner, sub, e, 3);
    hide Matching, Attempt;
  }

  /** A row more keeps the epoch exact if and only if it is the next attempt, and there is one left. */
  lemma OneRowMore(txs: Ledger, owner: string, sub: string, e: int, x: Key)
    requires RowsExact(txs, owner, sub, e) && x !in txs && Prefix(sub, e) <= x.text
    ensures var k, after := Made(txs, owner, sub, e), txs[x := Pending];
      && (RowsExact(after, owner, sub, e) <==> k < MAX_AUTOPAY_ATTEMPTS && x == Attempt(owner, sub, e, k + 1))
      && (RowsExact(after, owner, sub, e) ==> Made(after, owner, sub, e) == k + 1)
  {
    var k, after := Made(txs, owner, sub, e), txs[x := Pending];
    forall n: nat ensures Attempt(owner, sub, e, n) in txs <==> 1 <= n <= k { RecordedIffMade(txs, owner, sub, e, n); }
    assert Matching(after, sub, e) == Matching(txs, sub, e) + {x};
    forall m: nat, n: nat | Attempt(owner, sub, e, m) == Attempt(owner, sub, e, n) ensures m == n {
      AttemptsDiffer(sub, e, m, n);
    }
    hide AttemptKey, Prefix;
    if k < MAX_AUTOPAY_ATTEMPTS && x == Attempt(owner, sub, e, k + 1) {
      NextIsExact(txs, owner, sub, e);
    } else if RowsExact(after, owner, sub, e) {
      ExactAddsNext(txs, owner, sub, e, x);
    }
  }

  lemma FirstAttempts(owner: string, sub: string, e: int, k: nat)
    ensures (set n | 1 <= n <= k + 1 :: Attempt(owner, sub, e, n))
      == (set n | 1 <= n <= k :: Attempt(owner, sub, e, n)) + {Attempt(owner, sub, e, k + 1)}
  {
    hide Attempt;
  }

  lemma NextIsExact(txs: Ledger, owner: string, sub: string, e: int)
    requires RowsExact(txs, owner, sub, e) && Made(txs, owner, sub, e) < MAX_AUTOPAY_ATTEMPTS
    ensures var k := Made(txs, owner, sub, e);
      var after := txs[Attempt(owner, sub, e, k + 1) := Pending];
      RowsExact(after, owner, sub, e) && Made(after, owner, sub, e) == k + 1
  {
    var k := Made(txs, owner, sub, e);
    var x := Attempt(owner, sub, e, k + 1);
    var after := txs[x := Pending];
    assert Prefix(sub, e) <= x.text;
    assert Matching(after, sub, e) == Matching(txs, sub, e) + {x};
    forall n: nat ensures Attempt(owner, sub, e, n) in after <==> 1 <= n <= k + 1 {
      RecordedIffMade(txs, owner, sub, e, n);
      if Attempt(owner, sub, e, n) == x { AttemptsDiffer(sub, e, n, k + 1); }
    }
    FirstAttempts(owner, sub, e, k);
    hide Matching, Attempt;
  }

  lemma ExactAddsNext(txs: Ledger, owner: string, sub: string, e: int, x: Key)
    requires RowsExact(txs, owner, sub, e) && x !in txs && Prefix(sub, e) <= x.text
    requires RowsExact(txs[x := Pending], owner, sub, e)
    ensures var k := Made(txs, owner, sub, e); k < MAX_AUTOPAY_ATTEMPTS && x == Attempt(owner, sub, e, k + 1)
  {
    var k, after := Made(txs, owner, sub, e), txs[x := Pending];
    var last := Made(after, owner, sub, e);
    assert x in Matching(after, sub, e);
    var j: nat :| 1 <= j <= last && x == Attempt(owner, sub, e, j);
    RecordedIffMade(txs, owner, sub, e, j);
    RecordedIffMade(txs, owner, sub, e, k + 1);
    RecordedIffMade(after, owner, sub, e, k + 1);
    if Attempt(owner, sub, e, k + 1) == x { AttemptsDiffer(sub, e, k + 1, j); }
    hide AttemptKey, Prefix, RowsExact, Made;
  }

  /** The only rows a step adds to the epoch are a client's under such a key, and a charge's. */
  lemma RowsAdded(s: State, step: Step, sub: string, e: int)
    requires Inv(s, sub, e) && Enabled(s, step)
    ensures Apply(s, step).owners == s.owners
    ensures var t := Apply(s, step);
      if Intrudes(step, sub, e) then t.txs == s.txs[Key(step.user, step.text) := Pending]
      else if Records(s, step, sub, e)
      then t.txs == s.txs[Attempt(s.owners[sub], sub, e, s.runners[step.r].attempt) := Pending]
      else Matching(t.txs, sub, e) == Matching(s.txs, sub, e)
  {
    if step.Charge? {
      var me := s.runners[step.r];
      assert RunnerOk(s.txs, s.owners[sub], sub, e, me);
      PrefixIsolation(sub, e, me.sub, me.expiresAt, me.attempt);
    }
    hide AttemptKey, Prefix, RowsExact, Made;
  }

  /** A client's key, if it intrudes at all, is the owner's own for the next attempt. */
  predicate NextKey(s: State, step: Step, sub: string, e: int)
    requires sub in s.owners
  {
    Intrudes(step, sub, e) ==>
      var owner := s.owners[sub];
      var k := Made(s.txs, owner, sub, e);
      k < MAX_AUTOPAY_ATTEMPTS && Key(step.user, step.text) == Attempt(owner, sub, e, k + 1)
  }

  /** A charge that records something records the next attempt. */
  lemma ChargeIsNext(s: State, step: Step, sub: string, e: int)
    requires Inv(s, sub, e) && Records(s, step, sub, e)
    ensures Made(s.txs, s.owners[sub], sub, e) < MAX_AUTOPAY_ATTEMPTS
    ensures s.runners[step.r].attempt == Made(s.txs, s.owners[sub], sub, e) + 1
  {
    assert RunnerOk(s.txs, s.owners[sub], sub, e, s.runners[step.r]);
    RecordedIffMade(s.txs, s.owners[sub], sub, e, s.runners[step.r].attempt);
    hide Attempt, RowsExact, Made;
  }

  lemma RowsStep(s: State, step: Step, sub: string, e: int)
    requires Inv(s, sub, e) && Enabled(s, step)
    ensures Apply(s, step).owners == s.owners
    ensures RowsExact(Apply(s, step).txs, s.owners[sub], sub, e) <==> NextKey(s, step, sub, e)
    ensures NextKey(s, step, sub, e) ==>
      Made(Apply(s, step).txs, s.owners[sub], sub, e)
      == Made(s.txs, s.owners[sub], sub, e) + if Intrudes(step, sub, e) || Records(s, step, sub, e) then 1 else 0
  {
    var owner, t := s.owners[sub], Apply(s, step);
    RowsAdded(s, step, sub, e);
    if Intrudes(step, sub, e) {
      OneRowMore(s.txs, owner, sub, e, Key(step.user, step.text));
    } else if Records(s, step, sub, e) {
      ChargeIsNext(s, step, sub, e);
      NextIsExact(s.txs, owner, sub, e);
    } else {
      SameRows(s.txs, t.txs, owner, sub, e);
    }
    hide Apply, Enabled, Matching, RowsExact, Made, Attempt;
  }

  lemma InvStep(s: State, step: Step, sub: string, e: int)
    requires Inv(s, sub, e) && Enabled(s, step) && NextKey(s, step, sub, e)
    ensures Inv(Apply(s, step), sub, e) && Apply(s, step).owners == s.owners
  {
    var owner, t := s.owners[sub], Apply(s, step);
    RowsStep(s, step, sub, e);
    forall r | r in t.runners ensures RunnerOk(t.txs, owner, sub, e, t.runners[r]) {
      if r in s.runners {
        assert RunnerOk(s.txs, owner, sub, e, s.runners[r]);
      } else if step.sub == sub && step.expiresAt == e {
        ReadIsComplete(s.txs, owner, sub, e, step.rows, step.seen);
      }
    }
    hide Matching, RowsExact, Made, Attempt, QueryResult, Reads, NextKey;
  }

  // ---- what a step does to the money ----

  /** A given-up attempt comes back to life. */
  predicate Revives(s: State, step: Step, sub: string, e: int) {
    step.Settle? && step.key in Matching(s.txs, sub, e) && !Live(s.txs[step.key]) && Live(step.status)
  }

  /** A runner of the epoch is past its read and would still put the next attempt on record. */
  ghost predicate Waiting(s: State, sub: string, e: int)
    requires sub in s.owners
  {
    exists r :: r in s.runners && s.runners[r] == Runner(sub, e, Made(s.txs, s.owners[sub], sub, e) + 1)
  }

  /** A new row of the epoch leaves at most one live row if and only if the others were spent. */
  lemma NewRowLive(txs: Ledger, sub: string, e: int, x: Key)
    requires x !in txs && Prefix(sub, e) <= x.text
    ensures var after := txs[x := Pending];
      && (OneLive(after, sub, e) <==> AllSpent(txs, sub, e))
      && !AllSpent(after, sub, e)
  {
    var after := txs[x := Pending];
    assert Matching(after, sub, e) == Matching(txs, sub, e) + {x};
    if !AllSpent(txs, sub, e) {
      var y :| y in Matching(txs, sub, e) && Live(txs[y]);
      assert y != x && y in Matching(after, sub, e) && Live(after[y]);
    }
  }

  /** A status write brings a second live row about only by a revival. */
  lemma SettledLive(txs: Ledger, sub: string, e: int, x: Key, st: TxStatus)
    requires x in txs && OneLive(txs, sub, e)
    ensures var after, revived := txs[x := st], x in Matching(txs, sub, e) && !Live(txs[x]) && Live(st);
      && Matching(after, sub, e) == Matching(txs, sub, e)
      && (OneLive(after, sub, e) <==> (revived ==> AllSpent(txs, sub, e)))
      && (revived ==> !AllSpent(after, sub, e))
      && (!revived && AllSpent(txs, sub, e) ==> AllSpent(after, sub, e))
  {
    var after := txs[x := st];
    assert Matching(after, sub, e) == Matching(txs, sub, e);
    if x in Matching(txs, sub, e) && !Live(txs[x]) && Live(st) && !AllSpent(txs, sub, e) {
      var y :| y in Matching(txs, sub, e) && Live(txs[y]);
      assert y != x && Live(after[y]) && Live(after[x]);
    }
  }

  lemma SameLive(a: Ledger, b: Ledger, sub: string, e: int)
    requires Matching(a, sub, e) == Matching(b, sub, e)
    requires forall x :: x in Matching(a, sub, e) ==> b[x] == a[x]
    ensures OneLive(a, sub, e) <==> OneLive(b, sub, e)
    ensures AllSpent(a, sub, e) <==> AllSpent(b, sub, e)
  {
  }

  /** What a step does to the live rows, whatever it does to the keys. */
  lemma LiveStep(s: State, step: Step, sub: string, e: int)
    requires Inv(s, sub, e) && OneLive(s.txs, sub, e) && Enabled(s, step)
    ensures var t := Apply(s, step);
      && (OneLive(t.txs, sub, e) <==>
          (Intrudes(step, sub, e) || Records(s, step, sub, e) || Revives(s, step, sub, e) ==> AllSpent(s.txs, sub, e)))
      && (Revives(s, step, sub, e) ==> !AllSpent(t.txs, sub, e))
      && (AllSpent(s.txs, sub, e) && !Intrudes(step, sub, e) && !Records(s, step, sub, e) && !Revives(s, step, sub, e)
          ==> AllSpent(t.txs, sub, e))
  {
    var t := Apply(s, step);
    RowsAdded(s, step, sub, e);
    if Intrudes(step, sub, e) {
      NewRowLive(s.txs, sub, e, Key(step.user, step.text));
    } else if Records(s, step, sub, e) {
      var n := s.runners[step.r].attempt;
      assert Prefix(sub, e) <= AttemptKey(sub, e, n);
      NewRowLive(s.txs, sub, e, Attempt(s.owners[sub], sub, e, n));
    } else if step.Settle? {
      SettledLive(s.txs, sub, e, step.key, step.status);
    } else {
      SameLive(s.txs, t.txs, sub, e);
    }
    hide AllSpent, OneLive, Made, RowsExact, AttemptKey, Prefix, Live;
  }

  /**
   * At most one live row, now and whatever the cycles go on to do: a runner past its read finds
   * nothing live.
   */
  ghost predicate Calm(s: State, sub: string, e: int)
    requires sub in s.owners
  {
    OneLive(s.txs, sub, e) && (Waiting(s, sub, e) ==> AllSpent(s.txs, sub, e))
  }

  /** The step that leaves a calm epoch calm. */
  ghost predicate Safe(s: State, step: Step, sub: string, e: int)
    requires sub in s.owners
  {
    && NextKey(s, step, sub, e)
    && (Intrudes(step, sub, e) ==> AllSpent(s.txs, sub, e))
    && (Revives(s, step, sub, e) ==> AllSpent(s.txs, sub, e) && !Waiting(s, sub, e))
  }

  /** After a new row no runner waits: all of them number that attempt or an earlier one. */
  lemma NoneWaits(s: State, step: Step, sub: string, e: int)
    requires Inv(s, sub, e) && Enabled(s, step) && NextKey(s, step, sub, e)
    requires Intrudes(step, sub, e) || Records(s, step, sub, e)
    ensures Apply(s, step).owners == s.owners && !Waiting(Apply(s, step), sub, e)
  {
    RowsStep(s, step, sub, e);
    var t := Apply(s, step);
    forall r | r in t.runners ensures t.runners[r] != Runner(sub, e, Made(t.txs, s.owners[sub], sub, e) + 1) {
      assert r in s.runners && RunnerOk(s.txs, s.owners[sub], sub, e, s.runners[r]);
    }
    hide Made, RowsExact, Attempt, AttemptKey, Prefix;
  }

  /** A step that adds no row makes a runner wait only by a read that found nothing live. */
  lemma WaitsAfterReading(s: State, step: Step, sub: string, e: int)
    requires Inv(s, sub, e) && Enabled(s, step) && Waiting(Apply(s, step), sub, e)
    requires !Intrudes(step, sub, e) && !Records(s, step, sub, e)
    ensures Waiting(s, sub, e) || (step.Look? && AllSpent(s.txs, sub, e))
    ensures step.Settle? ==> Waiting(s, sub, e)
  {
    RowsStep(s, step, sub, e);
    var t := Apply(s, step);
    var r :| r in t.runners && t.runners[r] == Runner(sub, e, Made(t.txs, s.owners[sub], sub, e) + 1);
    if r !in s.runners {
      ReadIsComplete(s.txs, s.owners[sub], sub, e, step.rows, step.seen);
    }
    hide Made, RowsExact, Attempt, AttemptKey, Prefix, AllSpent, QueryResult, Reads;
  }

  lemma CalmStep(s: State, step: Step, sub: string, e: int)
    requires Inv(s, sub, e) && Calm(s, sub, e) && Enabled(s, step) && NextKey(s, step, sub, e)
    ensures Apply(s, step).owners == s.owners
    ensures Calm(Apply(s, step), sub, e) <==> Safe(s, step, sub, e)
  {
    var t := Apply(s, step);
    RowsStep(s, step, sub, e);
    LiveStep(s, step, sub, e);
    if Records(s, step, sub, e) { ChargeIsNext(s, step, sub, e); }
    if Intrudes(step, sub, e) || Records(s, step, sub, e) {
      NoneWaits(s, step, sub, e);
    } else {
      if Waiting(t, sub, e) { WaitsAfterReading(s, step, sub, e); }
      if Revives(s, step, sub, e) && Waiting(s, sub, e) {
        var r :| r in s.runners && s.runners[r] == Runner(sub, e, Made(s.txs, s.owners[sub], sub, e) + 1);
        assert r in t.runners;
      }
    }
    hide Made, RowsExact, AllSpent, OneLive, Attempt, AttemptKey, Prefix, Matching, Live, NextKey;
  }

  // ---- whole runs ----

  /** What may be claimed of every state of a run. */
  datatype Claim = Exact | Single | Secure

  ghost predicate Holds(c: Claim, s: State, sub: string, e: int) {
    && sub in s.owners && RowsExact(s.txs, s.owners[sub], sub, e)
    && match c
       case Exact => true
       case Single => OneLive(s.txs, sub, e)
       case Secure => Calm(s, sub, e)
  }

  /** The step it takes, decided before the step is made. */
  ghost predicate Meets(c: Claim, s: State, step: Step, sub: string, e: int) {
    && sub in s.owners
    && match c
       case Exact => NextKey(s, step, sub, e)
       case Single =>
         && NextKey(s, step, sub, e)
         && (Intrudes(step, sub, e) || Records(s, step, sub, e) || Revives(s, step, sub, e) ==> AllSpent(s.txs, sub, e))
       case Secure => Safe(s, step, sub, e)
  }

  ghost predicate Always(c: Claim, s: State, steps: seq<Step>, sub: string, e: int)
    decreases |steps|
  {
    && Holds(c, s, sub, e)
    && (steps == [] || (Enabled(s, steps[0]) && Always(c, Apply(s, steps[0]), steps[1..], sub, e)))
  }

  ghost predicate EveryStep(c: Claim, s: State, steps: seq<Step>, sub: string, e: int)
    decreases |steps|
  {
    steps == []
    || (Enabled(s, steps[0]) && Meets(c, s, steps[0], sub, e) && EveryStep(c, Apply(s, steps[0]), steps[1..], sub, e))
  }

  lemma ClaimStep(c: Claim, s: State, step: Step, sub: string, e: int)
    requires Inv(s, sub, e) && Holds(c, s, sub, e) && Enabled(s, step)
    ensures Holds(c, Apply(s, step), sub, e) <==> Meets(c, s, step, sub, e)
    ensures Meets(c, s, step, sub, e) ==> Inv(Apply(s, step), sub, e)
  {
    RowsStep(s, step, sub, e);
    if NextKey(s, step, sub, e) {
      InvStep(s, step, sub, e);
      match c
      case Exact =>
      case Single => LiveStep(s, step, sub, e);
      case Secure => CalmStep(s, step, sub, e);
    }
    hide Apply, Enabled, RowsExact, NextKey, OneLive, AllSpent, Calm, Intrudes, Records, Revives, Inv;
  }

  lemma {:induction false} AlwaysIffEveryStep(c: Claim, s: State, steps: seq<Step>, t: State, sub: string, e: int)
    requires Inv(s, sub, e) && Holds(c, s, sub, e) && Run(s, steps, t)
    ensures Always(c, s, steps, sub, e) <==> EveryStep(c, s, steps, sub, e)
    decreases |steps|
  {
    if steps != [] {
      ClaimStep(c, s, steps[0], sub, e);
      if Meets(c, s, steps[0], sub, e) {
        AlwaysIffEveryStep(c, Apply(s, steps[0]), steps[1..], t, sub, e);
      }
      hide Apply, Enabled, Holds, Meets, Inv;
    }
  }

  lemma InitHolds(c: Claim, s: State, sub: string, e: int)
    requires Init(s) && IsId(sub) && sub in s.owners
    ensures Inv(s, sub, e) && Holds(c, s, sub, e)
  {
    assert Matching(s.txs, sub, e) == {};
  }

  /**
   * Whatever cycles, reads, settlements and clients do, an epoch shows nothing but a1..ak with k at most
   * three, so that no read is ever cut: if and only if clients keep to the owner's own next attempt key.
   */
  lemma ExactIffNextKeys(s: State, steps: seq<Step>, t: State, sub: string, e: int)
    requires Init(s) && Run(s, steps, t) && IsId(sub) && sub in s.owners
    ensures Always(Exact, s, steps, sub, e) <==> EveryStep(Exact, s, steps, sub, e)
  {
    InitHolds(Exact, s, sub, e);
    AlwaysIffEveryStep(Exact, s, steps, t, sub, e);
  }

  /**
   * At most one attempt of the epoch holds or awaits money throughout the run, if and only if whatever
   * brings one to life (a client under the next key, a charge put on record, a late success of a given-up
   * attempt) finds all others spent.
   */
  lemma NoDoubleCharge(s: State, steps: seq<Step>, t: State, sub: string, e: int)
    requires Init(s) && Run(s, steps, t) && IsId(sub) && sub in s.owners
    ensures Always(Single, s, steps, sub, e) <==> EveryStep(Single, s, steps, sub, e)
  {
    InitHolds(Single, s, sub, e);
    AlwaysIffEveryStep(Single, s, steps, t, sub, e);
  }

  /** Nothing the cycles do needs watching: the epoch stays calm if and only if clients and late successes are safe. */
  lemma CalmIffSafe(s: State, steps: seq<Step>, t: State, sub: string, e: int)
    requires Init(s) && Run(s, steps, t) && IsId(sub) && sub in s.owners
    ensures Always(Secure, s, steps, sub, e) <==> EveryStep(Secure, s, steps, sub, e)
  {
    InitHolds(Secure, s, sub, e);
    AlwaysIffEveryStep(Secure, s, steps, t, sub, e);
  }

  // ---- what the cycles can still do ----

  /** A run in which no client meets the epoch and no given-up attempt comes back. */
  ghost predicate PlainRun(s: State, steps: seq<Step>, t: State, sub: string, e: int)
    decreases |steps|
  {
    if steps == [] then s == t
    else
      && Enabled(s, steps[0]) && !Intrudes(steps[0], sub, e) && !Revives(s, steps[0], sub, e)
      && PlainRun(Apply(s, steps[0]), steps[1..], t, sub, e)
  }

  lemma {:induction false} PlainRunStaysCalm(s: State, steps: seq<Step>, t: State, sub: string, e: int)
    requires Inv(s, sub, e) && Calm(s, sub, e) && PlainRun(s, steps, t, sub, e)
    ensures Inv(t, sub, e) && Calm(t, sub, e)
    decreases |steps|
  {
    if steps != [] {
      InvStep(s, steps[0], sub, e);
      CalmStep(s, steps[0], sub, e);
      PlainRunStaysCalm(Apply(s, steps[0]), steps[1..], t, sub, e);
      hide Apply, Enabled, Inv, Calm, Intrudes, Revives;
    }
  }

  /** Two are live, or the runner that waits charges and then two are. */
  lemma NotCalmDoubles(s: State, sub: string, e: int)
    requires Inv(s, sub, e) && !Calm(s, sub, e)
    ensures exists steps, t :: PlainRun(s, steps, t, sub, e) && !OneLive(t.txs, sub, e)
  {
    if OneLive(s.txs, sub, e) {
      var n := Made(s.txs, s.owners[sub], sub, e) + 1;
      var r :| r in s.runners && s.runners[r] == Runner(sub, e, n);
      var charge := Charge(r, true);
      RecordedIffMade(s.txs, s.owners[sub], sub, e, n);
      LiveStep(s, charge, sub, e);
      var t := Apply(s, charge);
      assert [charge][1..] == [];
      assert PlainRun(t, [], t, sub, e);
      assert PlainRun(s, [charge], t, sub, e);
    } else {
      assert PlainRun(s, [], s, sub, e);
    }
    hide Made, RowsExact, AllSpent, OneLive, Attempt, AttemptKey, Prefix, Matching, Live;
  }

  /** Calm is exactly what keeps the cycles, left to themselves, from a second charge. */
  lemma CalmIff(s: State, sub: string, e: int)
    requires Inv(s, sub, e)
    ensures Calm(s, sub, e) <==> forall steps, t :: PlainRun(s, steps, t, sub, e) ==> OneLive(t.txs, sub, e)
  {
    if Calm(s, sub, e) {
      forall steps, t | PlainRun(s, steps, t, sub, e) ensures OneLive(t.txs, sub, e) {
        PlainRunStaysCalm(s, steps, t, sub, e);
      }
    } else {
      NotCalmDoubles(s, sub, e);
    }
    hide Inv, OneLive, AllSpent, Waiting;
  }

  /** Without such clients and late successes an epoch is never charged twice. */
  lemma CyclesAloneChargeOnce(s: State, steps: seq<Step>, t: State, sub: string, e: int)
    requires Init(s) && IsId(sub) && sub in s.owners && PlainRun(s, steps, t, sub, e)
    ensures sub in t.owners && RowsExact(t.txs, t.owners[sub], sub, e) && OneLive(t.txs, sub, e)
  {
    InitHolds(Secure, s, sub, e);
    PlainRunStaysCalm(s, steps, t, sub, e);
  }

  /**
   * A late success is harmless, whatever the cycles go on to do, if and only if no other attempt holds
   * or awaits money and no runner already past its read can still record one.
   */
  lemma RevivalSafeIff(s: State, step: Step, sub: string, e: int)
    requires Inv(s, sub, e) && Calm(s, sub, e) && Enabled(s, step) && Revives(s, step, sub, e)
    ensures (forall steps, t :: PlainRun(Apply(s, step), steps, t, sub, e) ==> OneLive(t.txs, sub, e))
      <==> AllSpent(s.txs, sub, e) && !Waiting(s, sub, e)
  {
    InvStep(s, step, sub, e);
    CalmStep(s, step, sub, e);
    CalmIff(Apply(s, step), sub, e);
    hide Apply, Enabled, Inv, Calm, OneLive, AllSpent, Waiting, PlainRun;
  }

  // ---- runs that charge an epoch twice ----

  lemma SettleThen(s: State, k: Key, st: TxStatus, steps: seq<Step>, t: State)
    requires k in s.txs && Run(s.(txs := s.txs[k := st]), steps, t)
    ensures Run(s, [Settle(k, st)] + steps, t)
  {
    assert ([Settle(k, st)] + steps)[1..] == steps;
  }

  lemma RenewalThen(s: State, k: Key, steps: seq<Step>, t: State)
    requires k !in s.txs && Run(s.(txs := s.txs[k := Pending]), steps, t)
    ensures Run(s, [ClientRenewal(k.user, k.text)] + steps, t)
  {
    assert ([ClientRenewal(k.user, k.text)] + steps)[1..] == steps;
  }

  /** The one runner puts its attempt on record. */
  lemma ChargeThen(s: State, owner: string, me: Runner, steps: seq<Step>, t: State)
    requires s.runners == map[0 := me] && me.sub in s.owners && s.owners[me.sub] == owner
    requires var key := Attempt(owner, me.sub, me.expiresAt, me.attempt);
      key !in s.txs && Run(s.(txs := s.txs[key := Pending], runners := map[]), steps, t)
    ensures Run(s, [Charge(0, true)] + steps, t)
  {
    assert ([Charge(0, true)] + steps)[1..] == steps;
    assert s.runners - {0} == map[];
    hide Attempt;
  }

  lemma LookThen(s: State, sub: string, e: int, rows: set<Key>, n: nat, steps: seq<Step>, t: State)
    requires s.runners == map[] && IsId(sub) && sub in s.owners && n < MAX_AUTOPAY_ATTEMPTS
    requires QueryResult(s.txs, sub, e, rows) && Reads(s.txs, rows, AttemptState(n, false, false))
    requires Run(s.(runners := map[0 := Runner(sub, e, n + 1)]), steps, t)
    ensures Run(s, [Look(0, sub, e, rows, AttemptState(n, false, false))] + steps, t)
  {
    hide QueryResult, Reads;
    var look := Look(0, sub, e, rows, AttemptState(n, false, false));
    assert s.runners[0 := Runner(sub, e, n + 1)] == map[0 := Runner(sub, e, n + 1)];
    assert ([look] + steps)[1..] == steps;
  }

  lemma NothingRead(sub: string, e: int)
    ensures QueryResult(map[], sub, e, {}) && Reads(map[], {}, AttemptState(0, false, false))
  {
    assert Matching(map[], sub, e) == {};
  }

  lemma GivenUpRead(owner: string, sub: string, e: int)
    requires IsId(sub)
    ensures var a1 := Attempt(owner, sub, e, 1);
      && QueryResult(map[a1 := Canceled], sub, e, {a1})
      && Reads(map[a1 := Canceled], {a1}, AttemptState(1, false, false))
  {
    var a1 := Attempt(owner, sub, e, 1);
    AttemptRoundTrip(sub, e, 1);
    assert AttemptOf(a1.text) == 1 && Prefix(sub, e) <= a1.text;
    hide AttemptKey, Prefix, AttemptOf, Attempt;
    assert Matching(map[a1 := Canceled], sub, e) == {a1};
    assert a1 in {a1};
  }

  /** The second attempt is paid, then the one given up succeeds after all. */
  lemma PaidTwice(owners: map<string, string>, owner: string, sub: string, e: int) returns (steps: seq<Step>, t: State)
    requires IsId(sub) && sub in owners && owners[sub] == owner
    ensures var a1, a2 := Attempt(owner, sub, e, 1), Attempt(owner, sub, e, 2);
      && Run(State(owners, map[a1 := Canceled], map[]), steps, t)
      && t.txs == map[a1 := Canceled][a2 := Pending][a2 := Completed][a1 := Completed]
    ensures forall step :: step in steps ==> !step.ClientRenewal?
  {
    var a1, a2 := Attempt(owner, sub, e, 1), Attempt(owner, sub, e, 2);
    if a1 == a2 { AttemptsDiffer(sub, e, 1, 2); }
    GivenUpRead(owner, sub, e);
    hide Attempt, Enabled, Apply, QueryResult, Reads;
    var txs := map[a1 := Canceled];
    t := State(owners, txs[a2 := Pending][a2 := Completed][a1 := Completed], map[]);
    SettleThen(State(owners, txs[a2 := Pending][a2 := Completed], map[]), a1, Completed, [], t);
    steps := [Settle(a1, Completed)] + [];
    SettleThen(State(owners, txs[a2 := Pending], map[]), a2, Completed, steps, t);
    steps := [Settle(a2, Completed)] + steps;
    ChargeThen(State(owners, txs, map[0 := Runner(sub, e, 2)]), owner, Runner(sub, e, 2), steps, t);
    steps := [Charge(0, true)] + steps;
    LookThen(State(owners, txs, map[]), sub, e, {a1}, 1, steps, t);
    steps := [Look(0, sub, e, {a1}, AttemptState(1, false, false))] + steps;
  }

  lemma BothPaid(txs: Ledger, owner: string, sub: string, e: int)
    requires var a1, a2 := Attempt(owner, sub, e, 1), Attempt(owner, sub, e, 2);
      txs == map[a1 := Canceled][a2 := Pending][a2 := Completed][a1 := Completed]
    ensures var a1, a2 := Attempt(owner, sub, e, 1), Attempt(owner, sub, e, 2);
      a1 != a2 && txs == map[a1 := Completed, a2 := Completed] && Matching(txs, sub, e) == {a1, a2}
  {
    var a1, a2 := Attempt(owner, sub, e, 1), Attempt(owner, sub, e, 2);
    if a1 == a2 { AttemptsDiffer(sub, e, 1, 2); }
    assert Prefix(sub, e) <= a1.text && Prefix(sub, e) <= a2.text;
    hide Attempt, AttemptKey, Prefix;
  }

  /** No client interferes: the first attempt is given up, the second is paid, then the first succeeds after all. */
  lemma LateSuccessDoublesTheEpoch(owners: map<string, string>, owner: string, sub: string, e: int)
    returns (steps: seq<Step>, t: State)
    requires IsId(sub) && sub in owners && owners[sub] == owner
    ensures Run(State(owners, map[], map[]), steps, t)
    ensures forall step :: step in steps ==> !step.ClientRenewal?
    ensures var a1, a2 := Attempt(owner, sub, e, 1), Attempt(owner, sub, e, 2);
      a1 != a2 && t.txs == map[a1 := Completed, a2 := Completed] && Matching(t.txs, sub, e) == {a1, a2}
  {
    var a1 := Attempt(owner, sub, e, 1);
    steps, t := PaidTwice(owners, owner, sub, e);
    BothPaid(t.txs, owner, sub, e);
    NothingRead(sub, e);
    hide Attempt, Enabled, Apply, QueryResult, Reads, Matching, Run;
    var txs := map[a1 := Pending];
    assert txs[a1 := Canceled] == map[a1 := Canceled];
    SettleThen(State(owners, txs, map[]), a1, Canceled, steps, t);
    steps := [Settle(a1, Canceled)] + steps;
    ChargeThen(State(owners, map[], map[0 := Runner(sub, e, 1)]), owner, Runner(sub, e, 1), steps, t);
    steps := [Charge(0, true)] + steps;
    LookThen(State(owners, map[], map[]), sub, e, {}, 0, steps, t);
    steps := [Look(0, sub, e, {}, AttemptState(0, false, false))] + steps;
  }

  /** A client renews under a key of the epoch other than a1 while a cycle is past its read. */
  lemma ClientKeyDoublesTheEpoch(owner: string, sub: string, e: int, user: string, n: nat)
    returns (s: State, steps: seq<Step>, t: State)
    requires IsId(sub) && Attempt(user, sub, e, n) != Attempt(owner, sub, e, 1)
    ensures Init(s) && s.owners == map[sub := owner] && Run(s, steps, t)
    ensures Matching(t.txs, sub, e) == {Attempt(user, sub, e, n), Attempt(owner, sub, e, 1)}
    ensures forall x :: x in Matching(t.txs, sub, e) ==> t.txs[x] == Pending
  {
    var owners, mine, theirs := map[sub := owner], Attempt(owner, sub, e, 1), Attempt(user, sub, e, n);
    assert Prefix(sub, e) <= mine.text && Prefix(sub, e) <= theirs.text;
    hide AttemptKey, Prefix, AttemptOf, Enabled, Apply;
    s, t := State(owners, map[], map[]), State(owners, map[theirs := Pending, mine := Pending], map[]);
    steps := [];
    var renewed := State(owners, map[theirs := Pending], map[0 := Runner(sub, e, 1)]);
    ChargeThen(renewed, owner, Runner(sub, e, 1), steps, t);
    steps := [Charge(0, true)] + steps;
    RenewalThen(renewed.(txs := map[]), theirs, steps, t);
    steps := [ClientRenewal(user, theirs.text)] + steps;
    NothingRead(sub, e);
    LookThen(s, sub, e, {}, 0, steps, t);
    steps := [Look(0, sub, e, {}, AttemptState(0, false, false))] + steps;
  }
}

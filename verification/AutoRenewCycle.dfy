/** One auto-renew cycle on its tables: reading attempts, charging, expiring. */
module AutoRenewCycle {
  import opened AutoRenewKeys
  import opened AutoRenewCharging

  // ---- readAttemptState ----

  datatype Row = Row(key: string, status: TxStatus)

  /** The accumulation over the rows a prefix query returned, all of which start with `prefix`. */
  method ReadAttemptState(rows: seq<Row>) returns (state: AttemptState)
    ensures forall i :: 0 <= i < |rows| ==> AttemptOf(rows[i].key) <= state.used
    ensures state.used > 0 ==> exists i :: 0 <= i < |rows| && AttemptOf(rows[i].key) == state.used
    ensures state.pending <==> exists i :: 0 <= i < |rows| && rows[i].status.Pending?
    ensures state.completed <==> exists i :: 0 <= i < |rows| && rows[i].status.Completed?
  {
    hide ParseAttempt;
    var used, pending, completed := 0, false, false;
    for i := 0 to |rows|
      invariant forall k :: 0 <= k < i ==> AttemptOf(rows[k].key) <= used
      invariant used > 0 ==> exists k :: 0 <= k < i && AttemptOf(rows[k].key) == used
      invariant pending <==> exists k :: 0 <= k < i && rows[k].status.Pending?
      invariant completed <==> exists k :: 0 <= k < i && rows[k].status.Completed?
    {
      var n := ParseAttempt(rows[i].key);
      if n >= 0 {
        if n > used { used := n; }
      } else if used < 1 {
        used := 1;
      }
      if rows[i].status.Completed? { completed := true; }
      if rows[i].status.Pending? { pending := true; }
    }
    state := AttemptState(used, pending, completed);
  }

  /** The attempts of one epoch, a1 first. */
  type Attempts = seq<TxStatus>

  predicate AnyLive(a: Attempts) { exists i :: 0 <= i < |a| && Live(a[i]) }

  function EpochRows(sub: string, expiresAt: int, a: Attempts): seq<Row> {
    seq(|a|, i requires 0 <= i < |a| => Row(AttemptKey(sub, expiresAt, i + 1), a[i]))
  }

  /** What `ReadAttemptState` promises of the rows of one epoch is the number of attempts and their statuses. */
  lemma EpochState(sub: string, expiresAt: int, a: Attempts, state: AttemptState)
    requires var rows := EpochRows(sub, expiresAt, a);
      && (forall i :: 0 <= i < |rows| ==> AttemptOf(rows[i].key) <= state.used)
      && (state.used > 0 ==> exists i :: 0 <= i < |rows| && AttemptOf(rows[i].key) == state.used)
      && (state.pending <==> exists i :: 0 <= i < |rows| && rows[i].status.Pending?)
      && (state.completed <==> exists i :: 0 <= i < |rows| && rows[i].status.Completed?)
    ensures state.used == |a| && (state.pending || state.completed <==> AnyLive(a))
  {
    var rows := EpochRows(sub, expiresAt, a);
    forall i | 0 <= i < |rows| ensures AttemptOf(rows[i].key) == i + 1 { AttemptRoundTrip(sub, expiresAt, i + 1); }
    hide AttemptOf, AttemptKey, Prefix;
    assert |a| > 0 ==> AttemptOf(rows[|a| - 1].key) == |a|;
    assert forall i :: 0 <= i < |a| ==> rows[i].status == a[i];
  }

  // ---- what a pass over the due rows charges ----

  datatype Due = Due(id: string, user: string, noExpiry: bool)

  /**
   * One call of `renewalCheckout`: the row it leaves under the key, what it returns (`[]` if it
   * throws), and whether the provider withdrew the user's permission.
   */
  datatype Checkout = Checkout(recorded: Attempts, returned: Attempts, revokes: bool)

  predicate CheckoutOk(c: Checkout) {
    |c.recorded| <= 1 && |c.returned| <= 1 && (c.recorded != [] && c.returned != [] ==> c.recorded == c.returned)
  }

  predicate Exhausted(a: Attempts) { |a| >= MAX_AUTOPAY_ATTEMPTS }

  /** The rows a query returned, the tables as it found them, and how each possible charge would go. */
  datatype Batch = Batch(rows: seq<Due>, attempts: map<string, Attempts>, chargeable: set<string>,
                         outcomes: map<string, Checkout>) {
    /** Distinct rows, each with its recorded attempts. */
    predicate Valid() {
      && (forall i, k :: 0 <= i < k < |rows| ==> rows[i].id != rows[k].id)
      && forall i :: 0 <= i < |rows| ==>
           rows[i].id in attempts && rows[i].id in outcomes && CheckoutOk(outcomes[rows[i].id])
    }
  }

  /** Row `i` is charged: an attempt is left, none is open or paid, and the user still has a method. */
  predicate ChargedAt(b: Batch, i: nat)
    requires b.Valid() && i < |b.rows|
    decreases i, 1
  {
    var d := b.rows[i];
    !d.noExpiry && !AnyLive(b.attempts[d.id]) && !Exhausted(b.attempts[d.id]) && d.user in MethodsBefore(b, i)
  }

  /** The users with a chargeable method when the pass reaches row `i`. */
  function MethodsBefore(b: Batch, i: nat): set<string>
    requires b.Valid() && i <= |b.rows|
    decreases i, 0
  {
    if i == 0 then b.chargeable
    else
      var d, before := b.rows[i - 1], MethodsBefore(b, i - 1);
      if ChargedAt(b, i - 1) && b.outcomes[d.id].revokes then before - {d.user} else before
  }

  /** The users with a chargeable method after the pass. */
  function MethodsAfter(b: Batch): set<string>
    requires b.Valid()
  {
    MethodsBefore(b, |b.rows|)
  }

  /** The attempts of row `i` after the pass. */
  function AttemptsAt(b: Batch, i: nat): Attempts
    requires b.Valid() && i < |b.rows|
  {
    b.attempts[b.rows[i].id] + if ChargedAt(b, i) then b.outcomes[b.rows[i].id].recorded else []
  }

  /** The attempts table after the first `n` rows: theirs as charged, all others as they were. */
  predicate LedgerUpTo(b: Batch, n: nat, attempts: map<string, Attempts>)
    requires b.Valid() && n <= |b.rows|
  {
    && attempts.Keys == b.attempts.Keys
    && (forall i :: 0 <= i < n ==> attempts[b.rows[i].id] == AttemptsAt(b, i))
    && forall id :: id in attempts && (forall i :: 0 <= i < n ==> b.rows[i].id != id) ==> attempts[id] == b.attempts[id]
  }

  /** How a row's turn ends: not charged, or by what the checkout returned. */
  datatype Ending = Untouched | Paid | Open | Declined

  function EndingOf(c: Checkout): Ending {
    if c.returned == [Completed] then Paid else if c.returned == [Pending] then Open else Declined
  }

  function EndingAt(b: Batch, i: nat): Ending
    requires b.Valid() && i < |b.rows|
  {
    if ChargedAt(b, i) then EndingOf(b.outcomes[b.rows[i].id]) else Untouched
  }

  /** The rows before `n` that ended so. */
  function Ended(b: Batch, n: nat, ending: Ending): set<nat>
    requires b.Valid() && n <= |b.rows|
  {
    set i: nat | i < n && EndingAt(b, i) == ending
  }

  datatype Tally = Tally(attempted: nat, succeeded: nat, failed: nat, skipped: nat)

  predicate TallyOf(b: Batch, n: nat, t: Tally)
    requires b.Valid() && n <= |b.rows|
  {
    && t.succeeded == |Ended(b, n, Paid)| && t.failed == |Ended(b, n, Declined)|
    && t.attempted == t.succeeded + t.failed + |Ended(b, n, Open)|
    && t.skipped == |Ended(b, n, Untouched)| + |Ended(b, n, Open)|
  }

  lemma EndedGrows(b: Batch, n: nat)
    requires b.Valid() && n < |b.rows|
    ensures forall e :: |Ended(b, n + 1, e)| == |Ended(b, n, e)| + if EndingAt(b, n) == e then 1 else 0
  {
    hide EndingAt;
    forall e ensures Ended(b, n + 1, e) == Ended(b, n, e) + if EndingAt(b, n) == e then {n} else {} {}
  }

  // ---- what expires ----

  /** Row `i` is expired: no attempt open or paid, and three used or nothing to charge when its turn came. */
  predicate ExpiresAt(b: Batch, i: nat)
    requires b.Valid() && i < |b.rows|
  {
    b.rows[i].noExpiry
    || (!AnyLive(AttemptsAt(b, i)) && (Exhausted(AttemptsAt(b, i)) || b.rows[i].user !in MethodsBefore(b, i)))
  }

  /** Row `i` can be expired before anything is charged. */
  predicate HopelessAt(b: Batch, i: nat)
    requires b.Valid() && i < |b.rows|
  {
    var a := b.attempts[b.rows[i].id];
    b.rows[i].noExpiry || (!AnyLive(a) && (Exhausted(a) || b.rows[i].user !in b.chargeable))
  }

  lemma {:induction false} MethodsShrink(b: Batch, i: nat, k: nat)
    requires b.Valid() && i <= k <= |b.rows|
    ensures MethodsBefore(b, k) <= MethodsBefore(b, i)
  {
    if i < k { MethodsShrink(b, i, k - 1); }
  }

  /** Whatever the first pass gives up is expired in the end. */
  lemma HopelessExpires(b: Batch, i: nat)
    requires b.Valid() && i < |b.rows| && HopelessAt(b, i)
    ensures ExpiresAt(b, i) && !ChargedAt(b, i)
  {
    MethodsShrink(b, 0, i);
    assert b.attempts[b.rows[i].id] + [] == b.attempts[b.rows[i].id];
  }

  /** The rows that the first pass gives up, and no others. */
  predicate GivenUp(b: Batch, ids: set<string>)
    requires b.Valid()
  {
    && (forall i :: 0 <= i < |b.rows| ==> (b.rows[i].id in ids <==> HopelessAt(b, i)))
    && forall id :: id in ids ==> exists i :: 0 <= i < |b.rows| && b.rows[i].id == id
  }

  /** Both passes are over: the tables are charged, and `ids` are exactly the rows that expire. */
  predicate Judged(b: Batch, attempts: map<string, Attempts>, chargeable: set<string>, ids: set<string>)
    requires b.Valid()
  {
    && LedgerUpTo(b, |b.rows|, attempts) && chargeable == MethodsAfter(b)
    && (forall i :: 0 <= i < |b.rows| ==> (b.rows[i].id in ids <==> ExpiresAt(b, i)))
    && forall id :: id in ids ==> exists i :: 0 <= i < |b.rows| && b.rows[i].id == id
  }

  class AutoRenewTables {
    var attempts: map<string, Attempts>
    var active: set<string>
    var chargeable: set<string>

    function AsBatch(rows: seq<Due>, outcomes: map<string, Checkout>): Batch
      reads this
    {
      Batch(rows, attempts, chargeable, outcomes)
    }

    /** Both passes over the batch of ACTIVE past-due rows, and the bulk update, with no outside writer. */
    method MarkExpired(rows: seq<Due>, outcomes: map<string, Checkout>) returns (count: nat)
      requires AsBatch(rows, outcomes).Valid() && forall d :: d in rows ==> d.id in active
      modifies this
      ensures var b := old(AsBatch(rows, outcomes));
        && LedgerUpTo(b, |rows|, attempts) && chargeable == MethodsAfter(b)
        && (forall i :: 0 <= i < |rows| ==> (rows[i].id !in active <==> ExpiresAt(b, i)))
      ensures forall id :: id in old(active) && (forall d :: d in rows ==> d.id != id) ==> id in active
      ensures active <= old(active) && count == |old(active)| - |active|
    {
      var ids := FirstPass(rows, outcomes);
      ids := RetryPass(rows, outcomes, ids);
      active := active - ids;
      CountRemoved(old(active), ids);
      count := |ids|;
    }

    /** Rows that can expire without another charge. */
    method FirstPass(rows: seq<Due>, ghost outcomes: map<string, Checkout>) returns (ids: set<string>)
      requires AsBatch(rows, outcomes).Valid()
      ensures GivenUp(AsBatch(rows, outcomes), ids)
    {
      ids := {};
      for i := 0 to |rows|
        invariant forall id :: id in ids ==> exists k :: 0 <= k < i && rows[k].id == id
        invariant forall k :: 0 <= k < i ==> (rows[k].id in ids <==> HopelessAt(AsBatch(rows, outcomes), k))
      {
        var d := rows[i];
        if d.noExpiry {
          ids := ids + {d.id};
        } else if AnyLive(attempts[d.id]) {
        } else if d.user in chargeable && |attempts[d.id]| < MAX_AUTOPAY_ATTEMPTS {
        } else {
          ids := ids + {d.id};
        }
      }
    }

    /** The past-due retries: one charge for every row that still has an attempt and a method. */
    method RetryPass(rows: seq<Due>, outcomes: map<string, Checkout>, first: set<string>) returns (ids: set<string>)
      requires AsBatch(rows, outcomes).Valid() && GivenUp(AsBatch(rows, outcomes), first)
      modifies this`attempts, this`chargeable
      ensures Judged(old(AsBatch(rows, outcomes)), attempts, chargeable, ids)
    {
      ids := first;
      ghost var b := AsBatch(rows, outcomes);
      RetryStarts(b, ids);
      for i := 0 to |rows|
        invariant Retried(b, i, attempts, chargeable, ids)
      {
        ids := RetryNext(rows, i, b, outcomes, ids);
      }
      RetryEnds(b, attempts, chargeable, ids);
    }

    /** The turn of row `i` in the retry pass. */
    method RetryNext(rows: seq<Due>, i: nat, ghost b: Batch, outcomes: map<string, Checkout>, before: set<string>)
      returns (ids: set<string>)
      requires b.Valid() && b.rows == rows && b.outcomes == outcomes && i < |rows|
      requires Retried(b, i, attempts, chargeable, before)
      modifies this`attempts, this`chargeable
      ensures Retried(b, i + 1, attempts, chargeable, ids)
    {
      hide LedgerUpTo, MethodsBefore, AttemptsAt, ExpiresAt, AnyLive, Exhausted;
      ids := before;
      var d := rows[i];
      UntouchedYet(b, i, attempts);
      if d.noExpiry || d.id in ids {
        SkipRow(b, i, attempts, ids);
      } else {
        var expire, charged := RetryOne(d, outcomes[d.id]);
        TurnTaken(b, i, old(attempts), attempts, old(chargeable), chargeable, charged, expire, before);
        if expire { ids := ids + {d.id}; }
      }
    }

    /**
     * The pre-expiry pass over the T-5m window: exactly the rows with no open or paid attempt, an
     * attempt left and a method at their turn are charged, and counted by how the charge ended.
     */
    method ProcessAutopayCharges(rows: seq<Due>, outcomes: map<string, Checkout>) returns (tally: Tally)
      requires AsBatch(rows, outcomes).Valid()
      modifies this`attempts, this`chargeable
      ensures var b := old(AsBatch(rows, outcomes));
        LedgerUpTo(b, |rows|, attempts) && chargeable == MethodsAfter(b) && TallyOf(b, |rows|, tally)
    {
      tally := Tally(0, 0, 0, 0);
      ghost var b := AsBatch(rows, outcomes);
      ChargingStarts(b);
      for i := 0 to |rows|
        invariant Counted(b, i, attempts, chargeable, tally)
      {
        tally := ChargeNext(rows, i, b, outcomes, tally);
      }
    }

    /** The turn of row `i`: charge it if it can be, and count how that ended. */
    method ChargeNext(rows: seq<Due>, i: nat, ghost b: Batch, outcomes: map<string, Checkout>, soFar: Tally)
      returns (tally: Tally)
      requires b.Valid() && b.rows == rows && b.outcomes == outcomes && i < |rows|
      requires Counted(b, i, attempts, chargeable, soFar)
      modifies this`attempts, this`chargeable
      ensures Counted(b, i + 1, attempts, chargeable, tally)
    {
      hide LedgerUpTo, MethodsBefore, AttemptsAt, TallyOf, AnyLive, Exhausted, EndingAt, ChargedAt;
      var d := rows[i];
      UntouchedYet(b, i, attempts);
      var charged := false;
      var expire := false;
      if !d.noExpiry { expire, charged := RetryOne(d, outcomes[d.id]); }
      LedgerTurn(b, i, old(attempts), attempts, old(chargeable), chargeable, charged);
      tally := soFar;
      if !charged {
        tally := tally.(skipped := tally.skipped + 1);
      } else {
        tally := tally.(attempted := tally.attempted + 1);
        var returned := outcomes[d.id].returned;
        if returned == [Completed] { tally := tally.(succeeded := tally.succeeded + 1); }
        else if returned == [Pending] { tally := tally.(skipped := tally.skipped + 1); }
        else { tally := tally.(failed := tally.failed + 1); }
      }
      TallyTurn(b, i, charged, soFar, tally);
    }

    /**
     * Three cycles over the rows then due, each on those still ACTIVE: when every charge leaves a row,
     * every one of them ends expired, or with an attempt paid or open.
     */
    method ThreeCycles(due: seq<Due>, outcomes: seq<map<string, Checkout>>)
      requires Distinct(due) && forall d :: d in due ==> d.id in attempts
      requires |outcomes| == 3 && forall k :: 0 <= k < 3 ==> AlwaysRecorded(due, outcomes[k])
      modifies this
      ensures forall d :: d in due ==> d.id in attempts && (d.id !in active || AnyLive(attempts[d.id]))
    {
      for k := 0 to 3
        invariant SettledOrUsed(due, k, attempts, active)
      {
        Cycle(due, outcomes[k], k);
      }
    }

    method Cycle(due: seq<Due>, outcomes: map<string, Checkout>, ghost k: nat)
      requires Distinct(due) && AlwaysRecorded(due, outcomes) && SettledOrUsed(due, k, attempts, active)
      modifies this
      ensures SettledOrUsed(due, k + 1, attempts, active)
    {
      var rows := StillActive(due, active);
      ghost var b := AsBatch(rows, outcomes);
      assert b.Valid();
      var _ := MarkExpired(rows, outcomes);
      CycleSettles(due, k, b, old(active), attempts, active);
    }

    method RetryOne(d: Due, c: Checkout) returns (expire: bool, charged: bool)
      requires d.id in attempts && !d.noExpiry && CheckoutOk(c)
      modifies this`attempts, this`chargeable
      ensures charged <==> !AnyLive(old(attempts)[d.id]) && !Exhausted(old(attempts)[d.id]) && d.user in old(chargeable)
      ensures attempts == if charged then old(attempts)[d.id := old(attempts)[d.id] + c.recorded] else old(attempts)
      ensures chargeable == if charged && c.revokes then old(chargeable) - {d.user} else old(chargeable)
      ensures expire <==>
        !AnyLive(attempts[d.id]) && (Exhausted(attempts[d.id]) || d.user !in old(chargeable))
    {
      var a := attempts[d.id];
      charged, expire := false, false;
      if AnyLive(a) { return; }
      if |a| >= MAX_AUTOPAY_ATTEMPTS || d.user !in chargeable { return true, false; }
      charged := true;
      attempts := attempts[d.id := a + c.recorded];
      if c.revokes { chargeable := chargeable - {d.user}; }
      AppendLive(a, c.recorded);
      if c.returned != [] && Live(c.returned[0]) { return; }
      expire := !AnyLive(attempts[d.id]) && |attempts[d.id]| >= MAX_AUTOPAY_ATTEMPTS;
    }
  }

  /** What the retry pass has done when it reaches row `i`. */
  predicate Retried(b: Batch, i: nat, attempts: map<string, Attempts>, chargeable: set<string>, ids: set<string>)
    requires b.Valid() && i <= |b.rows|
  {
    && LedgerUpTo(b, i, attempts) && chargeable == MethodsBefore(b, i) && Verdicts(b, i, ids)
    && forall id :: id in ids ==> exists k :: 0 <= k < |b.rows| && b.rows[k].id == id
  }

  lemma RetryStarts(b: Batch, first: set<string>)
    requires b.Valid() && GivenUp(b, first)
    ensures Retried(b, 0, b.attempts, b.chargeable, first)
  {
    hide HopelessAt, ExpiresAt;
  }

  lemma RetryEnds(b: Batch, attempts: map<string, Attempts>, chargeable: set<string>, ids: set<string>)
    requires b.Valid() && Retried(b, |b.rows|, attempts, chargeable, ids)
    ensures Judged(b, attempts, chargeable, ids)
  {
    VerdictsDone(b, ids);
    hide HopelessAt, ExpiresAt, LedgerUpTo, MethodsBefore;
  }

  /** What the charging pass has done when it reaches row `i`. */
  predicate Counted(b: Batch, i: nat, attempts: map<string, Attempts>, chargeable: set<string>, t: Tally)
    requires b.Valid() && i <= |b.rows|
  {
    LedgerUpTo(b, i, attempts) && chargeable == MethodsBefore(b, i) && TallyOf(b, i, t)
  }

  lemma ChargingStarts(b: Batch)
    requires b.Valid()
    ensures Counted(b, 0, b.attempts, b.chargeable, Tally(0, 0, 0, 0))
  {
    assert forall e :: Ended(b, 0, e) == {};
  }

  lemma TallyTurn(b: Batch, i: nat, charged: bool, t: Tally, after: Tally)
    requires b.Valid() && i < |b.rows| && TallyOf(b, i, t) && charged == ChargedAt(b, i)
    requires after == match if charged then EndingOf(b.outcomes[b.rows[i].id]) else Untouched
                      case Untouched => t.(skipped := t.skipped + 1)
                      case Paid => t.(attempted := t.attempted + 1, succeeded := t.succeeded + 1)
                      case Open => t.(attempted := t.attempted + 1, skipped := t.skipped + 1)
                      case Declined => t.(attempted := t.attempted + 1, failed := t.failed + 1)
    ensures TallyOf(b, i + 1, after)
  {
    EndedGrows(b, i);
    hide ChargedAt, Ended;
  }

  /** Before row `i` the verdict is in; from there on only the first pass has spoken. */
  predicate Verdicts(b: Batch, i: nat, ids: set<string>)
    requires b.Valid() && i <= |b.rows|
  {
    forall k :: 0 <= k < |b.rows| ==> (b.rows[k].id in ids <==> (k < i && ExpiresAt(b, k)) || HopelessAt(b, k))
  }

  lemma UntouchedYet(b: Batch, i: nat, attempts: map<string, Attempts>)
    requires b.Valid() && i < |b.rows| && LedgerUpTo(b, i, attempts)
    ensures b.rows[i].id in attempts && attempts[b.rows[i].id] == b.attempts[b.rows[i].id]
  {
    hide AttemptsAt;
  }

  lemma LedgerTurn(b: Batch, i: nat, a: map<string, Attempts>, after: map<string, Attempts>, c: set<string>,
                   fewer: set<string>, charged: bool)
    requires b.Valid() && i < |b.rows| && LedgerUpTo(b, i, a) && c == MethodsBefore(b, i)
    requires var d := b.rows[i];
      && (charged <==> !d.noExpiry && !AnyLive(b.attempts[d.id]) && !Exhausted(b.attempts[d.id]) && d.user in c)
      && after == (if charged then a[d.id := b.attempts[d.id] + b.outcomes[d.id].recorded] else a)
      && fewer == (if charged && b.outcomes[d.id].revokes then c - {d.user} else c)
    ensures charged == ChargedAt(b, i) && LedgerUpTo(b, i + 1, after) && fewer == MethodsBefore(b, i + 1)
  {
    UntouchedYet(b, i, a);
    hide AnyLive, Exhausted, MethodsBefore;
    if !charged { assert b.attempts[b.rows[i].id] + [] == b.attempts[b.rows[i].id]; }
    assert forall k :: 0 <= k < i ==> b.rows[k].id != b.rows[i].id;
  }

  lemma LeaveRow(b: Batch, i: nat, attempts: map<string, Attempts>)
    requires b.Valid() && i < |b.rows| && LedgerUpTo(b, i, attempts) && !ChargedAt(b, i)
    ensures LedgerUpTo(b, i + 1, attempts) && MethodsBefore(b, i + 1) == MethodsBefore(b, i)
  {
    UntouchedYet(b, i, attempts);
    assert b.attempts[b.rows[i].id] + [] == b.attempts[b.rows[i].id];
    hide AnyLive, Exhausted;
  }

  lemma VerdictOn(b: Batch, i: nat, before: set<string>, expire: bool)
    requires b.Valid() && i < |b.rows| && Verdicts(b, i, before) && !HopelessAt(b, i) && (expire <==> ExpiresAt(b, i))
    ensures Verdicts(b, i + 1, if expire then before + {b.rows[i].id} else before)
  {
    hide ExpiresAt, HopelessAt;
    forall k | 0 <= k < |b.rows| && b.rows[k].id == b.rows[i].id ensures k == i {}
  }

  /** The first pass had the last word on this row. */
  lemma SkipRow(b: Batch, i: nat, attempts: map<string, Attempts>, ids: set<string>)
    requires b.Valid() && i < |b.rows| && LedgerUpTo(b, i, attempts) && Verdicts(b, i, ids) && HopelessAt(b, i)
    ensures LedgerUpTo(b, i + 1, attempts) && MethodsBefore(b, i + 1) == MethodsBefore(b, i) && Verdicts(b, i + 1, ids)
  {
    HopelessExpires(b, i);
    LeaveRow(b, i, attempts);
    hide ExpiresAt, HopelessAt, LedgerUpTo;
  }

  lemma TurnTaken(b: Batch, i: nat, a: map<string, Attempts>, after: map<string, Attempts>, c: set<string>,
                  fewer: set<string>, charged: bool, expire: bool, before: set<string>)
    requires b.Valid() && i < |b.rows| && LedgerUpTo(b, i, a) && c == MethodsBefore(b, i)
    requires Verdicts(b, i, before) && b.rows[i].id !in before && !b.rows[i].noExpiry
    requires var d := b.rows[i];
      && (charged <==> !AnyLive(b.attempts[d.id]) && !Exhausted(b.attempts[d.id]) && d.user in c)
      && after == (if charged then a[d.id := b.attempts[d.id] + b.outcomes[d.id].recorded] else a)
      && fewer == (if charged && b.outcomes[d.id].revokes then c - {d.user} else c)
      && d.id in after && (expire <==> !AnyLive(after[d.id]) && (Exhausted(after[d.id]) || d.user !in c))
    ensures LedgerUpTo(b, i + 1, after) && fewer == MethodsBefore(b, i + 1)
    ensures Verdicts(b, i + 1, if expire then before + {b.rows[i].id} else before)
  {
    LedgerTurn(b, i, a, after, c, fewer, charged);
    assert after[b.rows[i].id] == AttemptsAt(b, i);
    hide AnyLive, Exhausted, MethodsBefore, AttemptsAt;
    VerdictOn(b, i, before, expire);
  }

  lemma VerdictsDone(b: Batch, ids: set<string>)
    requires b.Valid() && Verdicts(b, |b.rows|, ids)
    ensures forall i :: 0 <= i < |b.rows| ==> (b.rows[i].id in ids <==> ExpiresAt(b, i))
  {
    forall i | 0 <= i < |b.rows| && HopelessAt(b, i) ensures ExpiresAt(b, i) { HopelessExpires(b, i); }
    hide ExpiresAt, HopelessAt;
  }

  lemma AppendLive(a: Attempts, more: Attempts)
    requires |more| <= 1
    ensures AnyLive(a + more) <==> AnyLive(a) || (more != [] && Live(more[0]))
  {
    if more != [] { assert (a + more)[|a|] == more[0]; }
    assert forall i :: 0 <= i < |a| ==> (a + more)[i] == a[i];
  }

  lemma CountRemoved(s: set<string>, gone: set<string>)
    requires gone <= s
    ensures |s - gone| == |s| - |gone|
  {
  }

  // ---- what the verdict amounts to ----

  /** The promise, on the tables as the call leaves them: nothing open or paid, and no method or three attempts. */
  predicate PromisedAt(b: Batch, i: nat)
    requires b.Valid() && i < |b.rows|
  {
    b.rows[i].noExpiry
    || (!AnyLive(AttemptsAt(b, i)) && (Exhausted(AttemptsAt(b, i)) || b.rows[i].user !in MethodsAfter(b)))
  }

  /** A charge from row `i` on, before row `n`, costs row `i`'s user the method. */
  predicate Withdrawn(b: Batch, i: nat, n: nat)
    requires b.Valid() && i < |b.rows| && n <= |b.rows|
  {
    exists k :: i <= k < n && ChargedAt(b, k) && b.rows[k].user == b.rows[i].user && b.outcomes[b.rows[k].id].revokes
  }

  lemma {:induction false} LostIffWithdrawn(b: Batch, i: nat, n: nat)
    requires b.Valid() && i < |b.rows| && i <= n <= |b.rows| && b.rows[i].user in MethodsBefore(b, i)
    ensures b.rows[i].user !in MethodsBefore(b, n) <==> Withdrawn(b, i, n)
  {
    if i < n {
      LostIffWithdrawn(b, i, n - 1);
      hide AnyLive, Exhausted;
    }
  }

  /** The row is charged in vain with attempts to spare, and then or later in the call its user loses the method. */
  predicate ChargedInVain(b: Batch, i: nat)
    requires b.Valid() && i < |b.rows|
  {
    var c := b.outcomes[b.rows[i].id];
    && ChargedAt(b, i) && |b.attempts[b.rows[i].id]| + |c.recorded| < MAX_AUTOPAY_ATTEMPTS
    && !AnyLive(c.recorded) && Withdrawn(b, i, |b.rows|)
  }

  /** The two passes expire exactly the rows that the promise names, if and only if there is no such row. */
  lemma PromiseKeptIff(b: Batch, i: nat)
    requires b.Valid() && i < |b.rows|
    ensures (ExpiresAt(b, i) <==> PromisedAt(b, i)) <==> !ChargedInVain(b, i)
  {
    var d := b.rows[i];
    var c := b.outcomes[d.id];
    MethodsShrink(b, i, |b.rows|);
    if d.user in MethodsBefore(b, i) { LostIffWithdrawn(b, i, |b.rows|); }
    AppendLive(b.attempts[d.id], if ChargedAt(b, i) then c.recorded else []);
    assert c.recorded != [] ==> (AnyLive(c.recorded) <==> Live(c.recorded[0]));
    hide MethodsBefore, Withdrawn;
  }

  /** Such a row: the first charge is declined with the permission revoked, and the row stays ACTIVE this time. */
  method RevokedRowStaysActive() returns (stillActive: bool)
    ensures stillActive
  {
    var t := new AutoRenewTables;
    t.attempts, t.active, t.chargeable := map["s" := []], {"s"}, {"u"};
    var rows, outcomes := [Due("s", "u", false)], map["s" := Checkout([Canceled], [Canceled], true)];
    ghost var b := t.AsBatch(rows, outcomes);
    assert b.Valid();
    assert ChargedAt(b, 0);
    assert AttemptsAt(b, 0) == [Canceled];
    var count := t.MarkExpired(rows, outcomes);
    assert rows[0].id == "s";
    stillActive := "s" in t.active;
  }

  // ---- settlement ----

  function StillActive(due: seq<Due>, active: set<string>): (r: seq<Due>)
    ensures forall d :: d in r <==> d in due && d.id in active
    ensures Distinct(due) ==> Distinct(r)
  {
    if due == [] then []
    else if due[0].id in active then [due[0]] + StillActive(due[1..], active)
    else StillActive(due[1..], active)
  }

  predicate Distinct(due: seq<Due>) { forall i, k :: 0 <= i < k < |due| ==> due[i].id != due[k].id }

  /** Every charge leaves a row under its key. */
  predicate AlwaysRecorded(due: seq<Due>, outcomes: map<string, Checkout>) {
    forall d :: d in due ==> d.id in outcomes && CheckoutOk(outcomes[d.id]) && |outcomes[d.id].recorded| == 1
  }

  /** An epoch that is neither expired nor paid nor open has just been charged, with attempts to spare. */
  lemma UnsettledWasCharged(b: Batch, i: nat)
    requires b.Valid() && i < |b.rows| && |b.outcomes[b.rows[i].id].recorded| == 1
    requires !ExpiresAt(b, i) && !AnyLive(AttemptsAt(b, i))
    ensures |AttemptsAt(b, i)| == |b.attempts[b.rows[i].id]| + 1 < MAX_AUTOPAY_ATTEMPTS
    ensures !AnyLive(b.attempts[b.rows[i].id])
  {
    AppendLive(b.attempts[b.rows[i].id], if ChargedAt(b, i) then b.outcomes[b.rows[i].id].recorded else []);
    hide MethodsBefore, AnyLive;
  }

  /** After `k` cycles an unsettled row has used at least `k` attempts and fewer than three. */
  predicate SettledOrUsed(due: seq<Due>, k: nat, attempts: map<string, Attempts>, active: set<string>) {
    forall d :: d in due ==>
      && d.id in attempts
      && (d.id in active && !AnyLive(attempts[d.id]) && k > 0 ==> k <= |attempts[d.id]| < MAX_AUTOPAY_ATTEMPTS)
  }

  lemma CycleSettles(due: seq<Due>, k: nat, b: Batch, before: set<string>, attempts: map<string, Attempts>,
                     active: set<string>)
    requires b.Valid() && AlwaysRecorded(due, b.outcomes) && SettledOrUsed(due, k, b.attempts, before)
    requires b.rows == StillActive(due, before) && LedgerUpTo(b, |b.rows|, attempts) && active <= before
    requires forall i :: 0 <= i < |b.rows| ==> (b.rows[i].id !in active <==> ExpiresAt(b, i))
    ensures SettledOrUsed(due, k + 1, attempts, active)
  {
    forall d | d in due
      ensures d.id in attempts
      ensures d.id in active && !AnyLive(attempts[d.id]) ==> k + 1 <= |attempts[d.id]| < MAX_AUTOPAY_ATTEMPTS
    {
      assert d.id in b.attempts;
      if d.id in active && !AnyLive(attempts[d.id]) {
        assert d in b.rows;
        var i: nat :| i < |b.rows| && b.rows[i] == d;
        assert |b.outcomes[d.id].recorded| == 1;
        UnsettledWasCharged(b, i);
      }
    }
  }
}

/** Exactly when the gap-filler steps (internal/store/recovery.go), the HTTP waiter and
    erasure (internal/store/retention.go) take effect, given the schema's constraints. */
module Guards {
  import opened PaymentStates
  import opened Ledger
  import opened Steps
  import opened Preservation
  import opened Admission
  import opened Protocol
  import opened Theorems
  import opened Commits

  // ------------------------------------------------------------- gap fillers

  /** A filler may be recorded exactly on a row that holds no signature: a committed
      call with a new signature keeps the payment's history if and only if the row it
      found was still the unsigned one. */
  lemma PreparedExactly(db: Db, t: TxRef, h: Signed, now: Time, p: Owner)
    requires Hit(db, t, {TxDropped}) && Sound(db.payments[t.owner], p)
    requires Fits(h, RowAt(db, t), p) && RowAt(db, t).rawHash != Some(h)
    requires MarkGapFillerPrepared(db, t, h, now).1 == Ok
    ensures var P, Q := db.payments[t.owner], MarkGapFillerPrepared(db, t, h, now).0.payments[t.owner];
      (Sound(Q, p) && Kept(P, Q)) <==> RowAt(db, t).rawHash.None?
  {
    var P := db.payments[t.owner];
    if RowAt(db, t).rawHash.None? {
      PreparedKeeps(P, p, t.index, h, now);
    } else {
      var Q := Put(P, t.index, FillerRow(RowAt(db, t), h, now));
      assert !RowKept(P.rows[t.index], Q.rows[t.index]);
    }
  }

  /** Escalation commits exactly for the live filler of an expired payment. A mined
      signature that was already superseded is refused by the unique index, because its
      row turns active before its sibling is dropped; a failed payment is never moved. */
  lemma EscalationExactly(c: Config, db: Db, t: TxRef, block: Block, gas: Gas, actor: Actor, now: Time)
    requires AllSound(c, db) && WatchedFiller(db, t) && actor != HttpWait
    ensures var (after, reply) := MarkGapFillerSucceeded(db, t, block, gas, actor, now);
      && (reply == Ok <==> RowAt(db, t).status == TxBroadcast && db.payments[t.owner].state == Expired)
      && (reply == Constraint <==> RowAt(db, t).status == TxReplaced)
      && (reply != Ok ==> after == db)
      && (reply == Ok ==> Escalated(after.payments[t.owner]))
  {
    hide AllSound, Sound, HashFree, NoOtherActive, HasBytes;
    SoundAt(c, db, t.owner);
    FillerIsAlone(db.payments[t.owner], Owner(t.owner, c.cap), t.index);
    HashIsFree(c, db, t);
    assert HashFree(db.payments, t, ConfirmingRow(RowAt(db, t), block, now).(gas := Some(gas)).txHash);
    if MarkGapFillerSucceeded(db, t, block, gas, actor, now).1 == Ok {
      EscalatedBytes(db, t, block, gas, actor, now);
    }
  }

  lemma EscalatedBytes(db: Db, t: TxRef, block: Block, gas: Gas, actor: Actor, now: Time)
    requires t.owner < |db.payments| && HasBytes(db.payments[t.owner].rows)
    requires MarkGapFillerSucceeded(db, t, block, gas, actor, now).1 == Ok
    ensures HasBytes(MarkGapFillerSucceeded(db, t, block, gas, actor, now).0.payments[t.owner].rows)
  {
    hide Admissible;
  }

  /** Of a retired payment's fillers only the live one has no active sibling. */
  lemma FillerIsAlone(P: Payment, p: Owner, i: nat)
    requires Sound(P, p) && Retired(P) && i < |P.rows| && P.rows[i].status in {TxBroadcast, TxReplaced}
    ensures NoOtherActive(P.rows, i) <==> P.rows[i].status == TxBroadcast
    ensures HasBytes(P.rows)
  {
    FillersOnly(P, p, i);
    var a :| LiveAt(P.rows, a, TxBroadcast, {TxReplaced});
    assert Active(P.rows[a]);
  }

  // ---------------------------------------------------------- the HTTP waiter

  /** The HTTP waiter writes under an actor type the schema's CHECK refuses, so it can
      only ever replay an outcome that is already recorded. */
  lemma HttpWaiterOnlyReplays(db: Db, t: TxRef, block: Block, gas: Gas, now: Time)
    ensures MarkTxConfirmed(db, t, block, gas, HttpWait, now).0 == db
    ensures MarkTxReverted(db, t, gas, HttpWait, now).0 == db
    ensures MarkTxConfirmed(db, t, block, gas, HttpWait, now).1 == Ok <==>
              Hit(db, t, {TxConfirmed}) && db.payments[t.owner].state == Confirmed
    ensures MarkTxReverted(db, t, gas, HttpWait, now).1 == Ok <==>
              Hit(db, t, {TxReverted}) && db.payments[t.owner].state == Reverted
  {
  }

  // ----------------------------------------------------- recovery's blind spot

  /** The states recovery leases payments in. */
  const RECOVERED: set<State> := {ManualReview, Broadcast, Replaced}

  /** Recovery, with the cutoff `since`, leases the payment, selects row `t` and commits a
      replacement signed with `salt`. */
  predicate Replaces(c: Config, db: Db, t: TxRef, baseFee: int, since: Time, salt: nat) {
    && t.owner < |db.payments| && db.payments[t.owner].state in RECOVERED
    && var a := Replace(0, t, since, baseFee, salt, Worker, 0);
       Signature(c, db, a).Some? && Store(db, a, Signature(c, db, a).value).1 == Ok
  }

  /** Some cutoff and some signature get the row replaced. */
  ghost predicate Replaceable(c: Config, db: Db, t: TxRef, baseFee: int) {
    exists since: Time, salt: nat :: Replaces(c, db, t, baseFee, since, salt)
  }

  /** In every reachable state, a broadcast row whose fees leave room for a bump can be
      replaced if and only if its payment is broadcast or replaced and the row records an
      attempt. The rows of pending payments that record none are exactly the first rows a
      re-signature took over from, which landed after all and were then reorganized out. */
  lemma BumpedExactly(c: Config, states: seq<World>, events: seq<Event>, n: nat, t: TxRef, baseFee: int)
    requires GapRun(c, states, events) && n < |states| && Hit(states[n].db, t, {TxBroadcast})
    requires Bumped(c, RowAt(states[n].db, t), t.owner, baseFee, 0).Some?
    ensures Replaceable(c, states[n].db, t, baseFee) <==>
      states[n].db.payments[t.owner].state in {Broadcast, Replaced} && RowAt(states[n].db, t).attemptedAt.Some?
    ensures states[n].db.payments[t.owner].state in PENDING ==>
      (RowAt(states[n].db, t).attemptedAt.None? <==> t.index == 0 && ReSigned(states[n].db.payments[t.owner].rows))
    ensures RowAt(states[n].db, t).attemptedAt.None? ==> RowAt(states[n].db, t).firstSeenAt.Some?
  {
    hide GapRun, Kept, Sound, AllSound, Bumped, Replaceable;
    EveryPayment(c, states, events, n, n, t.owner);
    AttemptsAreStamped(states[n].db.payments[t.owner], Owner(t.owner, c.cap), t.index);
    EverySound(c, states, events, n);
    if RowAt(states[n].db, t).attemptedAt.Some? && states[n].db.payments[t.owner].state in {Broadcast, Replaced} {
      Replacing(c, states[n].db, t, baseFee);
    } else {
      NotReplaced(c, states[n].db, t, baseFee);
    }
  }

  lemma AttemptsAreStamped(P: Payment, p: Owner, i: nat)
    requires Sound(P, p) && i < |P.rows| && P.rows[i].status == TxBroadcast
    ensures P.rows[i].attemptedAt.None? <==> i == 0 && ReSigned(P.rows)
    ensures P.rows[i].attemptedAt.None? ==> P.rows[i].firstSeenAt.Some?
  {
    hide Correlated, DropsJustified, RecordSound, Audited;
    assert RowSound(P.rows[i], p);
  }

  lemma EverySound(c: Config, states: seq<World>, events: seq<Event>, n: nat)
    requires GapRun(c, states, events) && n < |states|
    ensures AllSound(c, states[n].db)
  {
    hide GapRun, Sound, Kept;
    forall p | 0 <= p < |states[n].db.payments| ensures Sound(states[n].db.payments[p], Owner(p, c.cap)) {
      EveryPayment(c, states, events, n, n, p);
    }
  }

  lemma NotReplaced(c: Config, db: Db, t: TxRef, baseFee: int)
    requires Hit(db, t, {TxBroadcast})
    requires db.payments[t.owner].state !in {Broadcast, Replaced} || RowAt(db, t).attemptedAt.None?
    ensures !Replaceable(c, db, t, baseFee)
  {
    hide Bumped, CanSupersede;
  }

  /** A salt no row of the payment was signed with. */
  function UnusedSalt(rows: seq<Row>): (salt: nat)
    ensures forall i | 0 <= i < |rows| && rows[i].rawHash.Some? :: rows[i].rawHash.value.salt < salt
  {
    if rows == [] then 0
    else
      var rest := UnusedSalt(rows[1..]);
      assert forall i | 0 < i < |rows| :: rows[i] == rows[1..][i - 1];
      if rows[0].rawHash.Some? && rows[0].rawHash.value.salt >= rest then rows[0].rawHash.value.salt + 1 else rest
  }

  /** Neither index stands in the way of a signature that is new to the payment. */
  lemma Replacing(c: Config, db: Db, t: TxRef, baseFee: int)
    requires AllSound(c, db) && Hit(db, t, {TxBroadcast}) && Bumped(c, RowAt(db, t), t.owner, baseFee, 0).Some?
    requires db.payments[t.owner].state in {Broadcast, Replaced} && RowAt(db, t).attemptedAt.Some?
    ensures Replaceable(c, db, t, baseFee)
  {
    hide AllSound, MarkTxReplaced, UnusedSalt;
    var r, salt := RowAt(db, t), UnusedSalt(db.payments[t.owner].rows);
    var since, h := r.attemptedAt.value + 1, Bumped(c, r, t.owner, baseFee, salt).value;
    ReplacingCommits(c, db, t, h, Worker, 0);
    assert Signature(c, db, Replace(0, t, since, baseFee, salt, Worker, 0)) == Some(h);
    assert Replaces(c, db, t, baseFee, since, salt);
  }

  // ---------------------------------------------------------------- erasure

  /** Nothing but the rows stands in the way of erasing a retired payment. */
  predicate Overdue(P: Payment, cutoff: Time) {
    P.redactedAt.None? && P.validBefore.Some? && P.validBefore.value < cutoff && P.updatedAt < cutoff
  }

  /** In every reachable state, an overdue retired payment may be erased if and only if it
      never had a transaction or its only one is reverted: an unfilled gap, a pending filler
      and a gap that took more than one filler all keep it. */
  lemma ErasableExactly(c: Config, states: seq<World>, events: seq<Event>, n: nat, p: PaymentId, cutoff: Time)
    requires GapRun(c, states, events) && n < |states| && p < |states[n].db.payments|
    requires Retired(states[n].db.payments[p]) && Overdue(states[n].db.payments[p], cutoff)
    ensures var P := states[n].db.payments[p];
      Redactable(P, cutoff) <==> P.rows == [] || (|P.rows| == 1 && P.rows[0].status == TxReverted)
  {
    hide GapRun, Kept, Sound;
    EveryPayment(c, states, events, n, n, p);
    ErasableRows(states[n].db.payments[p], Owner(p, c.cap), cutoff);
  }

  lemma ErasableRows(P: Payment, p: Owner, cutoff: Time)
    requires Sound(P, p) && Retired(P) && Overdue(P, cutoff)
    ensures Redactable(P, cutoff) <==> P.rows == [] || (|P.rows| == 1 && P.rows[0].status == TxReverted)
  {
    hide RowsSound, DropsJustified, Audited;
    if |P.rows| > 1 { ManyRowsUnerasable(P, p, cutoff); }
  }

  /** And a retired payment that took two fillers is kept in every later state as well. */
  lemma ManyFillersBlockErasure(c: Config, states: seq<World>, events: seq<Event>, n: nat, m: nat, p: PaymentId,
                                cutoff: Time)
    requires GapRun(c, states, events) && n <= m < |states| && p < |states[n].db.payments|
    requires |states[n].db.payments[p].rows| > 1 && Retired(states[n].db.payments[p])
    ensures p < |states[m].db.payments| && !Redactable(states[m].db.payments[p], cutoff)
  {
    hide GapRun, Sound, RowKept;
    EveryPayment(c, states, events, n, m, p);
    ManyRowsUnerasable(states[m].db.payments[p], Owner(p, c.cap), cutoff);
  }

  lemma ManyRowsUnerasable(P: Payment, p: Owner, cutoff: Time)
    requires Sound(P, p) && |P.rows| > 1 && (Retired(P) || Escalated(P))
    ensures !Redactable(P, cutoff)
  {
    hide RowsSound, DropsJustified, Audited;
    if OneLive(P.rows, TxReverted, {TxDropped}) {
      var a :| LiveAt(P.rows, a, TxReverted, {TxDropped});
      var k := if a == 0 then 1 else 0;
      assert Spent(P.rows[k], {TxDropped});
    } else if OneLive(P.rows, TxBroadcast, {TxReplaced}) {
      var a :| LiveAt(P.rows, a, TxBroadcast, {TxReplaced});
      assert P.rows[a].status == TxBroadcast;
    }
  }
}

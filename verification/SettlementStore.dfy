/** The settlement store as the program writes it (internal/store): statements that
    change rows in place inside a transaction, and a rollback to where the transaction
    began. Each method is proved to be the step that Steps or Admission defines, so
    everything the protocol modules prove of the steps holds of these bodies. */
module SettlementStore {
  import opened PaymentStates
  import opened Ledger
  import opened Steps
  import opened Admission

  class Store {
    var payments: seq<Payment>
    var nextNonce: map<Address, nat>
    var activeMerchants: set<MerchantId>
    var attempts: seq<Attempt>

    constructor ()
      ensures Model() == Db([], map[], {}, [])
    {
      payments, nextNonce, activeMerchants, attempts := [], map[], {}, [];
    }

    function Model(): Db
      reads this
    {
      Db(payments, nextNonce, activeMerchants, attempts)
    }

    // ------------------------------------------------------ single statements

    /** UPDATE one transaction row; the unique indexes are checked as it is written. */
    method UpdateRow(t: TxRef, r: Row) returns (done: bool)
      requires t.owner < |payments| && t.index < |payments[t.owner].rows|
      modifies this`payments
      ensures done == Admissible(old(payments), t, r)
      ensures payments == if done then old(payments)[t.owner := Put(old(payments)[t.owner], t.index, r)]
        else old(payments)
    {
      done := Admissible(payments, t, r);
      if done {
        payments := payments[t.owner := Put(payments[t.owner], t.index, r)];
      }
    }

    /** INSERT a transaction row. */
    method InsertRow(p: PaymentId, r: Row) returns (done: bool)
      requires p < |payments|
      modifies this`payments
      ensures done == Admissible(old(payments), TxRef(p, |old(payments)[p].rows|), r)
      ensures payments == if done then old(payments)[p := old(payments)[p].(rows := old(payments)[p].rows + [r])]
        else old(payments)
    {
      done := Admissible(payments, TxRef(p, |payments[p].rows|), r);
      if done {
        payments := payments[p := payments[p].(rows := payments[p].rows + [r])];
      }
    }

    /** INSERT INTO payment_transitions; the CHECK on actor_type knows no http-wait. */
    method RecordTransition(p: PaymentId, from: State, to: State, actor: Actor) returns (done: bool)
      requires p < |payments|
      modifies this`payments
      ensures done == (actor != HttpWait)
      ensures payments == if done then
        old(payments)[p := old(payments)[p].(log := old(payments)[p].log + [Edge(from, to, actor)])] else old(payments)
    {
      done := actor != HttpWait;
      if done {
        payments := payments[p := payments[p].(log := payments[p].log + [Edge(from, to, actor)])];
      }
    }

    // ------------------------------------------------------------- transitions

    /** The edge is validated before anything is written. */
    method TransitionPayment(p: PaymentId, from: State, to: State, actor: Actor, now: Time) returns (reply: Reply)
      requires p < |payments|
      modifies this`payments
      ensures reply == if !CanTransition(from, to) then InvalidEdge
                       else if old(payments)[p].state != from then Race
                       else if actor == HttpWait then Constraint else Ok
      ensures reply == Ok ==> payments == old(payments)[p := Move(old(payments)[p], to, actor, now)]
      ensures reply in {InvalidEdge, Race} ==> payments == old(payments)
      ensures |payments| == |old(payments)|
    {
      if !CanTransition(from, to) { return InvalidEdge; }
      if payments[p].state != from { return Race; }
      payments := payments[p := payments[p].(state := to, updatedAt := now)];
      var done := RecordTransition(p, from, to, actor);
      return if done then Ok else Constraint;
    }

    /** The same from any of several states; every edge is validated before any write. */
    method TransitionPaymentIn(p: PaymentId, from: seq<State>, to: State, actor: Actor, confirmed: bool, now: Time)
        returns (reply: Reply)
      requires p < |payments|
      modifies this`payments
      ensures (exists s | s in from :: !CanTransition(s, to)) ==> reply == InvalidEdge && payments == old(payments)
      ensures (forall s | s in from :: CanTransition(s, to)) ==>
        reply == if old(payments)[p].state !in from then Race else if actor == HttpWait then Constraint else Ok
      ensures reply == Ok ==>
        var moved := Move(old(payments)[p], to, actor, now);
        payments == old(payments)[p := if confirmed then moved.(confirmedAt := Some(now)) else moved]
      ensures |payments| == |old(payments)|
    {
      for i := 0 to |from|
        invariant payments == old(payments)
        invariant forall k | 0 <= k < i :: CanTransition(from[k], to)
      {
        if !CanTransition(from[i], to) { return InvalidEdge; }
      }
      if payments[p].state !in from { return Race; }
      var previous := payments[p].state;
      payments := payments[p := payments[p].(state := to, updatedAt := now)];
      if confirmed { payments := payments[p := payments[p].(confirmedAt := Some(now))]; }
      var done := RecordTransition(p, previous, to, actor);
      return if done then Ok else Constraint;
    }

    // --------------------------------------------------------- broadcast steps

    method MarkTxSigned(t: TxRef, h: Signed, now: Time) returns (reply: Reply)
      modifies this`payments
      ensures (Model(), reply) == Steps.MarkTxSigned(old(Model()), t, h, now)
    {
      if !Hit(Model(), t, {TxIntent}) { return Race; }
      var done := UpdateRow(t, SignedRow(payments[t.owner].rows[t.index], h, now));
      return if done then Ok else Constraint;
    }

    /** The shape most steps share: one guarded row update, one payment transition, and
        a rollback if the second fails. */
    method AdvanceRow(t: TxRef, from: set<Status>, r: Row, source: State, to: State, actor: Actor, now: Time)
        returns (reply: Reply)
      requires CanTransition(source, to)
      modifies this`payments
      ensures (Model(), reply) == Advance(old(Model()), t, from, r, {source}, to, actor, now)
    {
      var saved := payments;
      if !Hit(Model(), t, from) { return Race; }
      var done := UpdateRow(t, r);
      if !done { return Constraint; }
      reply := TransitionPayment(t.owner, source, to, actor, now);
      if reply != Ok { payments := saved; } else { assert payments == saved[t.owner := payments[t.owner]]; }
    }

    method MarkTxBroadcast(t: TxRef, h: Signed, actor: Actor, now: Time) returns (reply: Reply)
      modifies this`payments
      ensures (Model(), reply) == Steps.MarkTxBroadcast(old(Model()), t, h, actor, now)
    {
      if !Hit(Model(), t, {TxBroadcasting}) { return Race; }
      reply := AdvanceRow(t, {TxBroadcasting}, BroadcastRow(payments[t.owner].rows[t.index], h, now), Broadcasting,
                          Broadcast, actor, now);
    }

    method MarkTxAmbiguous(t: TxRef, actor: Actor, now: Time) returns (reply: Reply)
      modifies this`payments
      ensures (Model(), reply) == Steps.MarkTxAmbiguous(old(Model()), t, actor, now)
    {
      if !Hit(Model(), t, {TxBroadcasting}) { return Race; }
      reply := AdvanceRow(t, {TxBroadcasting}, StatusRow(payments[t.owner].rows[t.index], TxAmbiguous, now),
                          Broadcasting, ManualReview, actor, now);
    }

    method MarkIntentExpired(t: TxRef, actor: Actor, now: Time) returns (reply: Reply)
      modifies this`payments
      ensures (Model(), reply) == RetireIntent(old(Model()), t, Expired, actor, now)
    {
      if !Hit(Model(), t, {TxIntent}) { return Race; }
      reply := AdvanceRow(t, {TxIntent}, StatusRow(payments[t.owner].rows[t.index], TxDropped, now), Broadcasting,
                          Expired, actor, now);
    }

    method MarkIntentUnsettleable(t: TxRef, actor: Actor, now: Time) returns (reply: Reply)
      modifies this`payments
      ensures (Model(), reply) == RetireIntent(old(Model()), t, Failed, actor, now)
    {
      if !Hit(Model(), t, {TxIntent}) { return Race; }
      reply := AdvanceRow(t, {TxIntent}, StatusRow(payments[t.owner].rows[t.index], TxDropped, now), Broadcasting,
                          Failed, actor, now);
    }

    // ------------------------------------------------------ confirmation steps

    /** The number of rows the first update touched is not looked at. */
    method MarkTxConfirming(t: TxRef, block: Block, actor: Actor, now: Time) returns (reply: Reply)
      modifies this`payments
      ensures (Model(), reply) == Steps.MarkTxConfirming(old(Model()), t, block, actor, now)
    {
      var saved := payments;
      if t.owner >= |payments| { return Ok; }
      if Hit(Model(), t, {TxBroadcast, TxConfirming}) {
        var done := UpdateRow(t, ConfirmingRow(payments[t.owner].rows[t.index], block, now));
        if !done { return Constraint; }
      }
      var previous := payments[t.owner].state;
      if previous !in {Broadcast, Replaced} {
        assert payments == saved[t.owner := payments[t.owner]];
        return Ok;
      }
      payments := payments[t.owner := payments[t.owner].(state := Confirming, updatedAt := now)];
      var recorded := RecordTransition(t.owner, previous, Confirming, actor);
      if !recorded { payments := saved; return Constraint; }
      assert payments == saved[t.owner := payments[t.owner]];
      return Ok;
    }

    method MarkTxConfirmed(t: TxRef, block: Block, gas: Gas, actor: Actor, now: Time) returns (reply: Reply)
      modifies this`payments
      ensures (Model(), reply) == Steps.MarkTxConfirmed(old(Model()), t, block, gas, actor, now)
    {
      var saved := payments;
      if !Hit(Model(), t, {TxBroadcast, TxConfirming}) {
        return if Hit(Model(), t, {TxConfirmed}) && payments[t.owner].state == Confirmed then Ok else Race;
      }
      var done := UpdateRow(t, ConfirmedRow(payments[t.owner].rows[t.index], block, gas, now));
      if !done { return Constraint; }
      reply := TransitionPaymentIn(t.owner, [Broadcast, Confirming, Replaced], Confirmed, actor, true, now);
      if reply != Ok { payments := saved; } else { assert payments == saved[t.owner := payments[t.owner]]; }
    }

    method MarkTxReverted(t: TxRef, gas: Gas, actor: Actor, now: Time) returns (reply: Reply)
      modifies this`payments
      ensures (Model(), reply) == Steps.MarkTxReverted(old(Model()), t, gas, actor, now)
    {
      var saved := payments;
      if !Hit(Model(), t, {TxBroadcast, TxConfirming}) {
        return if Hit(Model(), t, {TxReverted}) && payments[t.owner].state == Reverted then Ok else Race;
      }
      var done := UpdateRow(t, RevertedRow(payments[t.owner].rows[t.index], gas, now));
      if !done { return Constraint; }
      reply := TransitionPaymentIn(t.owner, [Broadcast, Confirming, Replaced], Reverted, actor, false, now);
      if reply != Ok { payments := saved; } else { assert payments == saved[t.owner := payments[t.owner]]; }
    }

    method MarkTxReorgedOut(t: TxRef, actor: Actor, now: Time) returns (reply: Reply)
      modifies this`payments
      ensures (Model(), reply) == Steps.MarkTxReorgedOut(old(Model()), t, actor, now)
    {
      if !Hit(Model(), t, {TxConfirming}) { return Race; }
      reply := AdvanceRow(t, {TxConfirming}, ReorgedRow(payments[t.owner].rows[t.index], now), Confirming, Broadcast,
                          actor, now);
    }

    // ---------------------------------------------------------- recovery steps

    method MarkTxRecoveredBroadcast(t: TxRef, h: Signed, actor: Actor, now: Time) returns (reply: Reply)
      modifies this`payments
      ensures (Model(), reply) == Steps.MarkTxRecoveredBroadcast(old(Model()), t, h, actor, now)
    {
      if !Hit(Model(), t, {TxAmbiguous}) { return Race; }
      reply := AdvanceRow(t, {TxAmbiguous}, BroadcastRow(payments[t.owner].rows[t.index], h, now), ManualReview,
                          Broadcast, actor, now);
    }

    /** The old row leaves the active set, the new one is inserted, and the two are linked. */
    method SupersedeRow(t: TxRef, gone: Row, heir: Row) returns (done: bool)
      requires t.owner < |payments| && t.index < |payments[t.owner].rows|
      modifies this`payments
      ensures done == CanSupersede(old(Model()), t, gone, heir)
      ensures done ==> payments == old(payments)[t.owner := Supersede(old(payments)[t.owner], t.index, gone, heir)]
      ensures |payments| == |old(payments)|
    {
      var saved := payments;
      done := UpdateRow(t, gone);
      if !done { return; }
      var id := |payments[t.owner].rows|;
      done := InsertRow(t.owner, heir);
      if !done { return; }
      var rows := payments[t.owner].rows;
      rows := rows[t.index := rows[t.index].(replacedBy := Some(id))];
      payments := payments[t.owner := payments[t.owner].(rows := rows)];
      assert payments[t.owner].rows == Supersede(saved[t.owner], t.index, gone, heir).rows;
      assert payments == saved[t.owner := payments[t.owner]];
    }

    method MarkTxAmbiguousReplaced(t: TxRef, h: Signed, actor: Actor, now: Time) returns (reply: Reply)
      modifies this`payments
      ensures (Model(), reply) == Steps.MarkTxAmbiguousReplaced(old(Model()), t, h, actor, now)
    {
      var saved := payments;
      if !Hit(Model(), t, {TxAmbiguous}) { return Race; }
      var r := payments[t.owner].rows[t.index];
      var done := SupersedeRow(t, r.(status := TxReplaced, txHash := r.rawHash, updatedAt := now),
                               Heir(r, h, r.sighash, None, now));
      if !done { payments := saved; return Constraint; }
      reply := TransitionPayment(t.owner, ManualReview, Replaced, actor, now);
      if reply != Ok { payments := saved; } else { assert payments == saved[t.owner := payments[t.owner]]; }
    }

    /** Only the first replacement of a payment is audited. */
    method MarkTxReplaced(t: TxRef, h: Signed, actor: Actor, now: Time) returns (reply: Reply)
      modifies this`payments
      ensures (Model(), reply) == Steps.MarkTxReplaced(old(Model()), t, h, actor, now)
    {
      var saved := payments;
      if !Hit(Model(), t, {TxBroadcast}) { return Race; }
      var r := payments[t.owner].rows[t.index];
      var done := SupersedeRow(t, StatusRow(r, TxReplaced, now), Heir(r, h, None, None, now));
      if !done { payments := saved; return Constraint; }
      var previous := payments[t.owner].state;
      if previous !in {Broadcast, Replaced} { payments := saved; return Race; }
      payments := payments[t.owner := payments[t.owner].(state := Replaced, updatedAt := now)];
      if previous == Broadcast {
        done := RecordTransition(t.owner, Broadcast, Replaced, actor);
        if !done { payments := saved; return Constraint; }
      }
      assert payments == saved[t.owner := payments[t.owner]];
      return Ok;
    }

    /** UPDATE ... SET status = 'dropped' on every active row, with the affected count. */
    method DropActiveRows(p: PaymentId, now: Time) returns (count: nat)
      requires p < |payments|
      modifies this`payments
      ensures payments == old(payments)[p := old(payments)[p].(rows := DropActive(old(payments)[p].rows, now))]
      ensures count == 1 <==> ExactlyOneActive(old(payments)[p].rows)
    {
      ghost var saved, rows, a := payments, payments[p].rows, 0;
      count := 0;
      for i := 0 to |payments[p].rows|
        invariant |payments| == |saved| && payments == saved[p := saved[p].(rows := payments[p].rows)]
        invariant |payments[p].rows| == |rows|
        invariant forall k | 0 <= k < i :: payments[p].rows[k] == DropActive(rows, now)[k]
        invariant forall k | i <= k < |rows| :: payments[p].rows[k] == rows[k]
        invariant count == 0 ==> forall k | 0 <= k < i :: !Active(rows[k])
        invariant count == 1 ==> 0 <= a < i && Active(rows[a]) && forall k | 0 <= k < i && k != a :: !Active(rows[k])
        invariant count > 1 ==> exists j, k | 0 <= j < k < i :: Active(rows[j]) && Active(rows[k])
      {
        if Active(payments[p].rows[i]) {
          assert count == 1 ==> Active(rows[a]) && Active(rows[i]);
          var dropped := StatusRow(payments[p].rows[i], TxDropped, now);
          payments := payments[p := payments[p].(rows := payments[p].rows[i := dropped])];
          if count == 0 { a := i; }
          count := count + 1;
        }
      }
      assert payments[p].rows == DropActive(rows, now);
      assert count == 1 ==> Active(rows[a]) && NoOtherActive(rows, a);
    }

    /** Where a landed original takes its payment. A success is no news to a confirming one. */
    method TransitionLanded(p: PaymentId, succeeded: bool, actor: Actor, now: Time) returns (reply: Reply)
      requires p < |payments|
      modifies this`payments
      ensures reply == if old(payments)[p].state !in LandedFrom(succeeded) then Race
        else if actor == HttpWait then Constraint else Ok
      ensures reply == Ok ==>
        payments == old(payments)[p := Move(old(payments)[p], if succeeded then Confirming else Reverted, actor, now)]
      ensures |payments| == |old(payments)|
    {
      var from := [Replaced, Broadcast, Confirming];
      if succeeded { from := from[..2]; }
      assert from == if succeeded then [Replaced, Broadcast] else [Replaced, Broadcast, Confirming];
      reply := TransitionPaymentIn(p, from, if succeeded then Confirming else Reverted, actor, false, now);
    }

    method MarkReplacementLanded(t: TxRef, succeeded: bool, block: Block, gas: Gas, actor: Actor, now: Time)
        returns (reply: Reply)
      modifies this`payments
      ensures (Model(), reply) == Steps.MarkReplacementLanded(old(Model()), t, succeeded, block, gas, actor, now)
    {
      var saved := payments;
      if t.owner >= |payments| { return Race; }
      var count := DropActiveRows(t.owner, now);
      if count != 1 || !Hit(Model(), t, {TxReplaced}) { payments := saved; return Race; }
      var r := LandedRow(payments[t.owner].rows[t.index], succeeded, block, gas, now);
      payments := payments[t.owner := Put(payments[t.owner], t.index, r)];
      assert payments[t.owner].rows == DropActive(saved[t.owner].rows, now)[t.index := r];
      assert r == LandedRow(saved[t.owner].rows[t.index], succeeded, block, gas, now);
      reply := TransitionLanded(t.owner, succeeded, actor, now);
      if reply != Ok { payments := saved; } else { assert payments == saved[t.owner := payments[t.owner]]; }
    }

    // -------------------------------------------------------- nonce-gap fillers

    method MarkGapFillerPrepared(t: TxRef, h: Signed, now: Time) returns (reply: Reply)
      modifies this`payments
      ensures (Model(), reply) == Steps.MarkGapFillerPrepared(old(Model()), t, h, now)
    {
      if !Hit(Model(), t, {TxDropped}) { return Race; }
      var done := UpdateRow(t, FillerRow(payments[t.owner].rows[t.index], h, now));
      return if done then Ok else Constraint;
    }

    method MarkGapFillerReplaced(t: TxRef, h: Signed, now: Time) returns (reply: Reply)
      modifies this`payments
      ensures (Model(), reply) == Steps.MarkGapFillerReplaced(old(Model()), t, h, now)
    {
      var saved := payments;
      if !Hit(Model(), t, {TxBroadcast}) || payments[t.owner].rows[t.index].bytes.None? { return Race; }
      var r := payments[t.owner].rows[t.index];
      var done := SupersedeRow(t, StatusRow(r, TxReplaced, now), Heir(r, h, None, Some(h), now));
      if !done { payments := saved; return Constraint; }
      return Ok;
    }

    /** UPDATE ... SET status = 'dropped' on every other signature of the nonce. */
    method DropSiblingRows(p: PaymentId, k: nat, now: Time)
      requires p < |payments|
      modifies this`payments
      ensures payments == old(payments)[p := old(payments)[p].(rows := DropSiblings(old(payments)[p].rows, k, now))]
    {
      ghost var saved, rows := payments, payments[p].rows;
      for i := 0 to |payments[p].rows|
        invariant |payments| == |saved| && payments == saved[p := saved[p].(rows := payments[p].rows)]
        invariant |payments[p].rows| == |rows|
        invariant forall j | 0 <= j < i :: payments[p].rows[j] == DropSiblings(rows, k, now)[j]
        invariant forall j | i <= j < |rows| :: payments[p].rows[j] == rows[j]
      {
        if i != k && payments[p].rows[i].status in {TxBroadcast, TxReplaced} {
          var dropped := StatusRow(payments[p].rows[i], TxDropped, now);
          payments := payments[p := payments[p].(rows := payments[p].rows[i := dropped])];
        }
      }
      assert payments[p].rows == DropSiblings(rows, k, now);
    }

    method MarkGapFillerResolved(t: TxRef, gas: Gas, now: Time) returns (reply: Reply)
      modifies this`payments
      ensures (Model(), reply) == Steps.MarkGapFillerResolved(old(Model()), t, gas, now)
    {
      ghost var saved := payments;
      if !Hit(Model(), t, {TxBroadcast, TxReplaced}) { return Race; }
      var done := UpdateRow(t, RevertedRow(payments[t.owner].rows[t.index], gas, now));
      if !done { return Constraint; }
      DropSiblingRows(t.owner, t.index, now);
      assert payments == saved[t.owner := payments[t.owner]];
      return Ok;
    }

    /** The mined row turns active before its sibling is dropped. */
    method MarkGapFillerSucceeded(t: TxRef, block: Block, gas: Gas, actor: Actor, now: Time) returns (reply: Reply)
      modifies this`payments
      ensures (Model(), reply) == Steps.MarkGapFillerSucceeded(old(Model()), t, block, gas, actor, now)
    {
      var saved := payments;
      if !Hit(Model(), t, {TxBroadcast, TxReplaced}) { return Race; }
      var done := UpdateRow(t, ConfirmingRow(payments[t.owner].rows[t.index], block, now).(gas := Some(gas)));
      if !done { return Constraint; }
      DropSiblingRows(t.owner, t.index, now);
      reply := TransitionPayment(t.owner, Expired, ManualReview, actor, now);
      if reply != Ok { payments := saved; } else { assert payments == saved[t.owner := payments[t.owner]]; }
    }

    // ------------------------------------------------------------ watch queries

    /** Every transaction row that `wanted` selects, once each. */
    method Scan(wanted: TxRef -> bool) returns (found: seq<TxRef>)
      ensures forall t :: t in found <==> t.owner < |payments| && t.index < |payments[t.owner].rows| && wanted(t)
      ensures forall i, j | 0 <= i < j < |found| :: found[i] != found[j]
    {
      found := [];
      for p := 0 to |payments|
        invariant forall t :: t in found <==> t.owner < p && t.index < |payments[t.owner].rows| && wanted(t)
        invariant forall i, j | 0 <= i < j < |found| :: found[i] != found[j]
      {
        for k := 0 to |payments[p].rows|
          invariant forall t :: t in found <==>
            wanted(t) && ((t.owner < p && t.index < |payments[t.owner].rows|) || (t.owner == p && t.index < k))
          invariant forall i, j | 0 <= i < j < |found| :: found[i] != found[j]
        {
          if wanted(TxRef(p, k)) { found := found + [TxRef(p, k)]; }
        }
      }
    }

    method ListReplacedPending() returns (found: seq<TxRef>)
      ensures forall t :: t in found <==> WatchedReplacement(Model(), t)
      ensures forall i, j | 0 <= i < j < |found| :: found[i] != found[j]
    {
      var db := Model();
      found := Scan(t => WatchedReplacement(db, t));
    }

    method ListDroppedBlockingGaps(signer: Address, expiredBefore: Time) returns (found: seq<TxRef>)
      ensures forall t :: t in found <==> BlockingGap(Model(), signer, expiredBefore, t)
      ensures forall i, j | 0 <= i < j < |found| :: found[i] != found[j]
    {
      var db := Model();
      found := Scan(t => BlockingGap(db, signer, expiredBefore, t));
    }

    method ListGapFillers() returns (found: seq<TxRef>)
      ensures forall t :: t in found <==> WatchedFiller(Model(), t)
      ensures forall i, j | 0 <= i < j < |found| :: found[i] != found[j]
    {
      var db := Model();
      found := Scan(t => WatchedFiller(db, t));
    }

    method ListStuckGapFillers(signer: Address, since: Time) returns (found: seq<TxRef>)
      ensures forall t :: t in found <==> StuckFiller(Model(), signer, since, t)
      ensures forall i, j | 0 <= i < j < |found| :: found[i] != found[j]
    {
      var db := Model();
      found := Scan(t => StuckFiller(db, signer, since, t));
    }

    // ------------------------------------------------------------------ leases

    method ClaimPayment(p: PaymentId, worker: nat, duration: int, at: Time, now: Time) returns (reply: Reply)
      modifies this`payments
      ensures (Model(), reply) == Steps.ClaimPayment(old(Model()), p, worker, duration, at, now)
    {
      if duration <= 0 || p >= |payments| || !Claimable(payments[p], at) { return Race; }
      if payments[p].redactedAt.Some? { return Constraint; }
      payments := payments[p := payments[p].(claim := Some(Claim(worker, at + duration)), updatedAt := now)];
      return Ok;
    }

    method RenewLease(p: PaymentId, worker: nat, duration: int, at: Time) returns (reply: Reply)
      modifies this`payments
      ensures (Model(), reply) == Steps.RenewLease(old(Model()), p, worker, duration, at)
    {
      if duration <= 0 || p >= |payments| { return Race; }
      var claim := payments[p].claim;
      if claim.None? || claim.value.holder != worker || claim.value.until <= at { return Race; }
      payments := payments[p := payments[p].(claim := Some(Claim(worker, at + duration)))];
      return Ok;
    }

    method ReleaseLease(p: PaymentId, worker: nat, now: Time) returns (reply: Reply)
      modifies this`payments
      ensures (Model(), reply) == Steps.ReleaseLease(old(Model()), p, worker, now)
    {
      if p >= |payments| || payments[p].claim.None? || payments[p].claim.value.holder != worker { return Race; }
      payments := payments[p := payments[p].(claim := None, updatedAt := now)];
      return Ok;
    }

    /** Up to `limit` payments in one of `states` whose lease is free, longest idle first. */
    method ClaimPayments(worker: nat, states: set<State>, duration: int, limit: int, at: Time, now: Time)
        returns (reply: Reply, leases: seq<PaymentId>)
      modifies this`payments
      ensures reply != Ok ==> leases == []
      ensures reply == Race <==> states == {} || duration <= 0 || limit <= 0
      ensures reply == Ok ==> limit > 0 && Oldest(leases, ClaimQueue(old(payments), states, at), limit)
      ensures |payments| == |old(payments)|
      ensures forall p | 0 <= p < |payments| ::
        payments[p] == if p in leases then Steps.ClaimPayment(old(Model()), p, worker, duration, at, now).0.payments[p]
          else old(payments)[p]
    {
      if states == {} || duration <= 0 || limit <= 0 { return Race, []; }
      leases := TakeOldest(ClaimQueue(payments, states, at), limit);
      for i := 0 to |leases|
        invariant forall k | 0 <= k < i :: payments[leases[k]].redactedAt.None?
        invariant payments == old(payments)
      {
        if payments[leases[i]].redactedAt.Some? { return Constraint, []; }
      }
      for i := 0 to |leases|
        invariant |payments| == |old(payments)|
        invariant forall p | 0 <= p < |payments| ::
          payments[p] == if p in leases[..i] then
            Steps.ClaimPayment(old(Model()), p, worker, duration, at, now).0.payments[p] else old(payments)[p]
      {
        var claim := Some(Claim(worker, at + duration));
        payments := payments[leases[i] := payments[leases[i]].(claim := claim, updatedAt := now)];
      }
      assert leases[..|leases|] == leases;
      return Ok, leases;
    }

    // --------------------------------------------------------------- retention

    method ExpireBatch(now: Time, limit: nat) returns (batch: seq<PaymentId>)
      modifies this`payments
      ensures Oldest(batch, StaleQueue(old(payments), now), limit)
      ensures |payments| == |old(payments)|
      ensures forall p | 0 <= p < |payments| ::
        payments[p] == if p in batch then Expire(old(payments)[p], now) else old(payments)[p]
    {
      batch := TakeOldest(StaleQueue(payments, now), limit);
      for i := 0 to |batch|
        invariant |payments| == |old(payments)|
        invariant forall p | 0 <= p < |payments| ::
          payments[p] == if p in batch[..i] then Expire(old(payments)[p], now) else old(payments)[p]
      {
        payments := payments[batch[i] := Expire(payments[batch[i]], now)];
      }
      assert batch[..|batch|] == batch;
    }

    method RedactBatch(cutoff: Time, now: Time, limit: nat) returns (batch: seq<PaymentId>)
      modifies this`payments
      ensures Oldest(batch, RedactQueue(old(payments), cutoff), limit)
      ensures |payments| == |old(payments)|
      ensures forall p | 0 <= p < |payments| ::
        payments[p] == if p in batch then Redact(old(payments)[p], now) else old(payments)[p]
    {
      batch := TakeOldest(RedactQueue(payments, cutoff), limit);
      for i := 0 to |batch|
        invariant |payments| == |old(payments)|
        invariant forall p | 0 <= p < |payments| ::
          payments[p] == if p in batch[..i] then Redact(old(payments)[p], now) else old(payments)[p]
      {
        payments := payments[batch[i] := Redact(payments[batch[i]], now)];
      }
      assert batch[..|batch|] == batch;
    }

    /** ApplyRetention, as far as payments go: expire, then erase, each in one batch. What
        was just expired is too recent to be erased in the same pass. */
    method ApplyRetention(now: Time, paymentAfter: int, batchSize: int)
        returns (reply: Reply, expired: seq<PaymentId>, redacted: seq<PaymentId>)
      modifies this`payments
      ensures reply == Ok <==> paymentAfter > 0 && 1 <= batchSize <= 10_000
      ensures reply != Ok ==> expired == [] && redacted == []
      ensures |payments| == |old(payments)|
      ensures reply == Ok ==> Oldest(expired, StaleQueue(old(payments), now), batchSize)
      ensures reply == Ok ==> Oldest(redacted, RedactQueue(Expiring(old(payments), expired, now), now - paymentAfter),
                                     batchSize)
      ensures forall p | 0 <= p < |payments| ::
        var mid := Expiring(old(payments), expired, now)[p];
        payments[p] == if p in redacted then Redact(mid, now) else mid
      ensures (forall p | 0 <= p < |payments| :: old(payments)[p].state == Verified ==>
               old(payments)[p].confirmedAt.None?) ==>
        forall i | 0 <= i < |redacted| :: redacted[i] !in expired
    {
      if paymentAfter <= 0 || batchSize < 1 || batchSize > 10_000 { return Race, [], []; }
      expired := ExpireBatch(now, batchSize);
      assert payments == Expiring(old(payments), expired, now);
      redacted := RedactBatch(now - paymentAfter, now, batchSize);
      return Ok, expired, redacted;
    }

    // ------------------------------------------------------ signer and admission

    method SeedSignerAccount(signer: Address, chainNonce: nat)
      modifies this`nextNonce
      ensures Model() == Steps.SeedSignerAccount(old(Model()), signer, chainNonce)
    {
      if signer !in nextNonce || nextNonce[signer] < chainNonce {
        nextNonce := nextNonce[signer := chainNonce];
      } else {
        nextNonce := nextNonce[signer := nextNonce[signer]];
      }
    }

    /** The counter moves before its old value is parsed; a failed parse rolls back. */
    method AllocateNonce(signer: Address) returns (nonce: Option<nat>)
      modifies this`nextNonce
      ensures nonce.Some? <==> signer in old(nextNonce) && old(nextNonce)[signer] < NONCE_LIMIT
      ensures nonce.Some? ==>
        nonce.value == old(nextNonce)[signer] && nextNonce == old(nextNonce)[signer := nonce.value + 1]
    {
      if signer !in nextNonce { return None; }
      nextNonce := nextNonce[signer := nextNonce[signer] + 1];
      if nextNonce[signer] - 1 >= NONCE_LIMIT { return None; }
      return Some(nextNonce[signer] - 1);
    }

    method FindPayment(identity: nat) returns (p: Option<PaymentId>)
      ensures p == Lookup(payments, identity)
    {
      for i := 0 to |payments|
        invariant forall k | 0 <= k < i :: payments[k].identity != identity
      {
        if payments[i].identity == identity { return Some(i); }
      }
      return None;
    }

    /** SELECT count(*) of the intents stamped after `since`, of one merchant or of all. */
    method CountRequested(merchant: Option<MerchantId>, since: Time) returns (n: nat)
      ensures n == if merchant.Some? then |RequestedFor(payments, merchant.value, since)|
        else |Requested(payments, since)|
    {
      n := 0;
      ghost var counted: set<PaymentId> := {};
      for i := 0 to |payments|
        invariant n == |counted|
        invariant forall p :: p in counted <==>
          0 <= p < i && p in Requested(payments, since) && (merchant.Some? ==> payments[p].merchant == merchant)
      {
        if payments[i].requestedAt.Some? && payments[i].requestedAt.value > since &&
          (merchant.None? || payments[i].merchant == merchant) {
          n := n + 1;
          counted := counted + {i};
        }
      }
      assert counted == if merchant.Some? then RequestedFor(payments, merchant.value, since)
        else Requested(payments, since);
    }

    /** The admission checks in the order they are made, each on its own count. */
    method CheckAdmission(p: PaymentId, q: IntentRequest) returns (refusal: Option<Reason>)
      requires p < |payments|
      ensures refusal == Refusal(Model(), payments[p], q)
    {
      var P := payments[p];
      if !CanTransition(P.state, Broadcasting) { return Some(PaymentNotVerified); }
      if P.merchant.None? || P.merchant.value !in activeMerchants { return Some(RecipientNotMerchant); }
      if P.validBefore.None? || P.validBefore.value <= q.at + q.margin { return Some(AuthorizationExpiring); }
      var settled := CountRequested(P.merchant, q.now - q.window);
      if settled >= q.quota { return Some(MerchantQuotaExceeded); }
      var settledOverall := CountRequested(None, q.now - q.window);
      if settledOverall >= q.globalQuota { return Some(GlobalQuotaExceeded); }
      return None;
    }

    method RecordAttempt(p: Option<PaymentId>, result: AttemptResult)
      modifies this`attempts
      ensures Model() == Record(old(Model()), p, result)
    {
      attempts := attempts + [Attempt(p, result)];
    }

    /** The nonce is taken only after every check, and everything commits together. */
    method CreateSettlementIntent(q: IntentRequest) returns (reply: IntentReply)
      modifies this
      ensures (Model(), reply) == CreateIntent(old(Model()), q)
    {
      hide Refusal, Signable, Admitted;
      if !ValidRequest(q) { return Fault; }
      var found := FindPayment(q.identity);
      if found.None? {
        RecordAttempt(None, Rejected(PaymentNotFound));
        return Refuse(PaymentNotFound);
      }
      var p, P := found.value, payments[found.value];
      var terminal := Terminal(P);
      if terminal.Some? {
        RecordAttempt(Some(p), Duplicate);
        var r := P.rows[terminal.value];
        return Existing(TxRef(p, terminal.value), r.nonce, r.txHash, P.state == Confirmed, P.state == Reverted);
      }
      var active := FirstActive(P.rows);
      if active.Some? {
        RecordAttempt(Some(p), Duplicate);
        return Existing(TxRef(p, active.value), P.rows[active.value].nonce, P.rows[active.value].txHash, false, false);
      }
      var refusal := CheckAdmission(p, q);
      if refusal.Some? {
        RecordAttempt(Some(p), Rejected(refusal.value));
        return Refuse(refusal.value);
      }
      reply := CommitIntent(p, q);
    }

    method CommitIntent(p: PaymentId, q: IntentRequest) returns (reply: IntentReply)
      requires p < |payments|
      modifies this
      ensures !Signable(old(Model()), old(payments)[p], q) ==> reply == Fault && Model() == old(Model())
      ensures Signable(old(Model()), old(payments)[p], q) ==>
        var nonce := old(nextNonce)[q.signer];
        && reply == Accept(TxRef(p, |old(payments)[p].rows|), nonce)
        && Model() == Record(Commit(old(Model()), p,
                                    Admitted(old(payments)[p], q,
                                             nonce)).(nextNonce := old(nextNonce)[q.signer := nonce + 1]),
                             Some(p), Accepted)
    {
      var saved, savedNonces, P := payments, nextNonce, payments[p];
      if P.signature.Some? && P.signature.value != q.signature { return Fault; }
      var nonce := AllocateNonce(q.signer);
      if nonce.None? { nextNonce := savedNonces; return Fault; }
      payments := payments[p :=
                           P.(state := Broadcasting, requestedAt := Some(q.now), signature := Some(q.signature),
                              updatedAt := q.now)];
      payments := payments[p := payments[p].(log := payments[p].log + [Edge(P.state, Broadcasting, Http)])];
      payments := payments[p := payments[p].(rows := payments[p].rows + [IntentRow(q.signer, nonce.value, q.now)])];
      assert payments == saved[p := Admitted(P, q, nonce.value)];
      RecordAttempt(Some(p), Accepted);
      return Accept(TxRef(p, |P.rows|), nonce.value);
    }
  }

  // ------------------------------------------------------------ bounded batches

  /** Whether a payment qualifies for a batch, and what the batch is ordered by. */
  datatype Candidate = Candidate(eligible: bool, key: int)

  function ClaimQueue(payments: seq<Payment>, states: set<State>, at: Time): seq<Candidate> {
    seq(|payments|, p requires 0 <= p < |payments| =>
      Candidate(payments[p].state in states && Claimable(payments[p], at), payments[p].updatedAt))
  }

  function StaleQueue(payments: seq<Payment>, now: Time): seq<Candidate> {
    seq(|payments|, p requires 0 <= p < |payments| =>
      Candidate(Stale(payments[p], now), if payments[p].validBefore.Some? then payments[p].validBefore.value else 0))
  }

  function RedactQueue(payments: seq<Payment>, cutoff: Time): seq<Candidate> {
    seq(|payments|, p requires 0 <= p < |payments| =>
      Candidate(Redactable(payments[p], cutoff),
                if payments[p].confirmedAt.Some? then payments[p].confirmedAt.value else payments[p].updatedAt))
  }

  function Expiring(payments: seq<Payment>, batch: seq<nat>, now: Time): (after: seq<Payment>)
    ensures |after| == |payments|
  {
    seq(|payments|, p requires 0 <= p < |payments| => if p in batch then Expire(payments[p], now) else payments[p])
  }

  /** A batch takes eligible candidates only, no more than the limit, none twice, and
      leaves one behind only if it is full of candidates at least as old. */
  ghost predicate Oldest(batch: seq<nat>, queue: seq<Candidate>, limit: nat)
  {
    && |batch| <= limit
    && (forall i, j | 0 <= i < j < |batch| :: batch[i] != batch[j])
    && (forall i | 0 <= i < |batch| :: batch[i] < |queue| && queue[batch[i]].eligible)
    && (forall q | 0 <= q < |queue| && queue[q].eligible && q !in batch ::
          |batch| == limit && forall i | 0 <= i < |batch| :: queue[batch[i]].key <= queue[q].key)
  }

  /** What that means for a batch of leases: free payments in the given states, the longest
      untouched first. */
  lemma LeasedOldest(payments: seq<Payment>, states: set<State>, at: Time, batch: seq<nat>, limit: nat)
    requires Oldest(batch, ClaimQueue(payments, states, at), limit)
    ensures forall p | p in batch ::
      && p < |payments| && payments[p].state in states
      && (payments[p].claim.Some? ==> payments[p].claim.value.until <= at)
    ensures forall p, q | p in batch && 0 <= q < |payments| && q !in batch && payments[q].state in states
                          && (payments[q].claim.Some? ==> payments[q].claim.value.until <= at) ::
      p < |payments| && payments[p].updatedAt <= payments[q].updatedAt
  {
  }

  /** For a batch of expiries: verified payments whose authorization ran out, the earliest first. */
  lemma ExpiredOldest(payments: seq<Payment>, now: Time, batch: seq<nat>, limit: nat)
    requires Oldest(batch, StaleQueue(payments, now), limit)
    ensures forall p | p in batch ::
      && p < |payments| && payments[p].state == Verified
      && payments[p].validBefore.Some? && payments[p].validBefore.value < now
    ensures forall p, q | p in batch && 0 <= q < |payments| && q !in batch && payments[q].state == Verified
                          && payments[q].validBefore.Some? && payments[q].validBefore.value < now ::
      && p < |payments| && payments[p].validBefore.Some?
      && payments[p].validBefore.value <= payments[q].validBefore.value
  {
  }

  /** When a payment came to rest. */
  function RestedSince(P: Payment): Time { if P.confirmedAt.Some? then P.confirmedAt.value else P.updatedAt }

  /** For a batch of erasures: eligible payments, the longest at rest first. */
  lemma ErasedOldest(payments: seq<Payment>, cutoff: Time, batch: seq<nat>, limit: nat)
    requires Oldest(batch, RedactQueue(payments, cutoff), limit)
    ensures forall p | p in batch :: p < |payments| && Redactable(payments[p], cutoff)
    ensures forall p, q | p in batch && 0 <= q < |payments| && q !in batch && Redactable(payments[q], cutoff) ::
      p < |payments| && RestedSince(payments[p]) <= RestedSince(payments[q])
  {
    hide Redactable;
  }

  method TakeOldest(queue: seq<Candidate>, limit: nat) returns (batch: seq<nat>)
    ensures Oldest(batch, queue, limit)
  {
    batch := [];
    while |batch| < limit
      invariant |batch| <= limit
      invariant forall i, j | 0 <= i < j < |batch| :: batch[i] != batch[j]
      invariant forall i | 0 <= i < |batch| :: batch[i] < |queue| && queue[batch[i]].eligible
      invariant forall i, q | 0 <= i < |batch| && 0 <= q < |queue| && queue[q].eligible && q !in batch ::
        queue[batch[i]].key <= queue[q].key
    {
      var best := NextOldest(queue, batch);
      if best.None? { return; }
      batch := batch + [best.value];
    }
  }

  method NextOldest(queue: seq<Candidate>, batch: seq<nat>) returns (best: Option<nat>)
    ensures best.None? ==> forall q | 0 <= q < |queue| && queue[q].eligible :: q in batch
    ensures best.Some? ==> best.value < |queue| && queue[best.value].eligible && best.value !in batch
    ensures best.Some? ==> forall q | 0 <= q < |queue| && queue[q].eligible && q !in batch ::
      queue[best.value].key <= queue[q].key
  {
    best := None;
    for i := 0 to |queue|
      invariant best.None? ==> forall q | 0 <= q < i && queue[q].eligible :: q in batch
      invariant best.Some? ==> best.value < i && queue[best.value].eligible && best.value !in batch
      invariant best.Some? ==> forall q | 0 <= q < i && queue[q].eligible && q !in batch ::
        queue[best.value].key <= queue[q].key
    {
      if queue[i].eligible && i !in batch && (best.None? || queue[i].key < queue[best.value].key) { best := Some(i); }
    }
  }
}

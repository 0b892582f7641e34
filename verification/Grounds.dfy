/** What a settled payment rests on: an outcome the chain of an honest provider holds at
    full depth (internal/settlement/service.go, recovery.go). */
module Grounds {
  import opened PaymentStates
  import opened Ledger
  import opened Steps
  import opened Protocol
  import opened Runs
  import opened Timeline
  import opened Outcomes
  import V = Finality

  /** The hash the actor read from row `t`. */
  predicate ReadHash(seen: Db, t: TxRef, h: Signed) {
    t.owner < |seen.payments| && t.index < |seen.payments[t.owner].rows| && RowAt(seen, t).txHash == Some(h)
  }

  /** The observation of `h` behind an act that settles a payment: what Confirmation asks
      before MarkTxConfirmed and MarkTxReverted, and observeReplacements before it records
      a reverted original. */
  ghost predicate Observed(a: Act, e: V.Evidence, h: Signed, confirming: bool, confirmations: nat)
  {
    match a
    case Finalize(_, block, gas, _, _) =>
      V.Honest(e, h) && V.Confirmation(confirming, e.got, confirmations) == V.FinalSuccess(block, gas)
    case Fail(_, gas, _, _) =>
      V.Honest(e, h) && V.Confirmation(confirming, e.got, confirmations) == V.FinalRevert(gas)
    case Land(_, succeeded, block, gas, _, _) =>
      !succeeded ==>
        V.SaysReverted(e, h, V.Receipt(false, block, gas), confirmations) && V.Unmoved(e.third, block)
    case _ => true
  }

  predicate Outcoming(a: Act) { a.Finalize? || a.Fail? || (a.Land? && !a.succeeded) }

  /** The act rests on an observation of the hash its actor read. */
  ghost predicate Supports(seen: Db, a: Act, e: V.Evidence, h: Signed, confirmations: nat)
    requires Outcoming(a)
  {
    ReadHash(seen, a.t, h) && Observed(a, e, h, RowAt(seen, a.t).status == TxConfirming, confirmations)
  }

  ghost predicate Backed(seen: Db, a: Act, e: V.Evidence, confirmations: nat) {
    Outcoming(a) ==> exists h: Signed :: Supports(seen, a, e, h, confirmations)
  }

  /** The chain of the honest provider of `e` holds `h` at full depth, with this result. */
  ghost predicate Final(e: V.Evidence, h: Signed, succeeded: bool, confirmations: nat) {
    exists r: V.Receipt :: r.succeeded == succeeded && V.FinalIn(e.third, h, r, confirmations)
  }

  lemma ObservedIsFinal(a: Act, e: V.Evidence, h: Signed, confirming: bool, confirmations: nat)
    requires Outcoming(a) && Observed(a, e, h, confirming, confirmations)
    ensures Final(e, h, a.Finalize?, confirmations)
  {
    hide V.Honest, V.FinalIn;
    if a.Land? {
      V.RevertedOriginalExactly(e, h, V.Receipt(false, a.block, a.gas), confirmations);
    } else {
      V.WorkerFinalWithOneHonestProvider(confirming, e, h, confirmations);
    }
  }

  lemma SupportedIsFinal(seen: Db, a: Act, e: V.Evidence, h: Signed, confirmations: nat)
    requires Outcoming(a) && Supports(seen, a, e, h, confirmations)
    ensures ReadHash(seen, a.t, h) && Final(e, h, a.Finalize?, confirmations)
  {
    hide Final, Observed;
    ObservedIsFinal(a, e, h, RowAt(seen, a.t).status == TxConfirming, confirmations);
  }

  // ------------------------------------------------------------ the settling step

  /** Row `t` is the one that carries the payment's outcome. */
  predicate Carries(db: Db, t: TxRef, h: Signed, s: Status) {
    ReadHash(db, t, h) && RowAt(db, t).status == s
  }

  lemma FinalizeCarries(db: Db, a: Act, p: PaymentId)
    requires a.Finalize? && p < |db.payments| && db.payments[p].confirmedAt.None?
    requires var after := MarkTxConfirmed(db, a.t, a.block, a.gas, a.actor, a.now).0;
      p < |after.payments| && after.payments[p].confirmedAt.Some?
    ensures var after := MarkTxConfirmed(db, a.t, a.block, a.gas, a.actor, a.now).0;
      && a.t.owner == p && a.t.index < |after.payments[p].rows| && RowAt(after, a.t).status == TxConfirmed
  {
  }

  lemma FailCarries(db: Db, a: Act, p: PaymentId)
    requires a.Fail? && p < |db.payments| && db.payments[p].state != Reverted
    requires var after := MarkTxReverted(db, a.t, a.gas, a.actor, a.now).0;
      p < |after.payments| && after.payments[p].state == Reverted
    ensures var after := MarkTxReverted(db, a.t, a.gas, a.actor, a.now).0;
      && a.t.owner == p && a.t.index < |after.payments[p].rows| && RowAt(after, a.t).status == TxReverted
  {
  }

  lemma LandCarries(db: Db, a: Act, p: PaymentId)
    requires a.Land? && !a.succeeded && p < |db.payments| && db.payments[p].state != Reverted
    requires var after := MarkReplacementLanded(db, a.t, false, a.block, a.gas, a.actor, a.now).0;
      p < |after.payments| && after.payments[p].state == Reverted
    ensures var after := MarkReplacementLanded(db, a.t, false, a.block, a.gas, a.actor, a.now).0;
      && a.t.owner == p && a.t.index < |after.payments[p].rows| && RowAt(after, a.t).status == TxReverted
  {
  }

  /** What it means that a payment's outcome was final when it was recorded, by event `k`. */
  ghost predicate Rests(db: Db, p: PaymentId, e: V.Evidence, confirmations: nat)
    requires p < |db.payments|
  {
    && (db.payments[p].state == Confirmed ==>
          exists i: nat, h: Signed :: Carries(db, TxRef(p, i), h, TxConfirmed) && Final(e, h, true, confirmations))
    && (db.payments[p].state == Reverted ==>
          exists i: nat, h: Signed :: Carries(db, TxRef(p, i), h, TxReverted) && Final(e, h, false, confirmations))
  }

  ghost predicate Settled(P: Payment) { P.state in {Confirmed, Reverted} }

  /** The step that settles a payment leaves the observed hash on the settled row. */
  lemma SettlingStep(c: Config, seen: Db, w: World, a: Act, p: PaymentId, e: V.Evidence, confirmations: nat)
    requires Good(c, w) && AllSound(c, seen) && Extends(seen, w.db) && Enabled(c, seen, w, a) && GapCurrent(w.db, a)
    requires p < |Apply(c, seen, w, a).db.payments| && Settled(Apply(c, seen, w, a).db.payments[p])
    requires p < |w.db.payments| ==> !Settled(w.db.payments[p])
    requires Backed(seen, a, e, confirmations)
    ensures Rests(Apply(c, seen, w, a).db, p, e, confirmations)
  {
    hide Final, Supports, ReadHash, Carries, Apply, Good, AllSound, Extends, Enabled, GapCurrent;
    var after := Apply(c, seen, w, a).db;
    SettlesBy(c, seen, w, a, p);
    OneStep(c, seen, w, a);
    var h: Signed :| Supports(seen, a, e, h, confirmations);
    SupportedIsFinal(seen, a, e, h, confirmations);
    HashStillThere(seen, w.db, after, a.t, h);
    assert a.t == TxRef(p, a.t.index);
    assert Carries(after, TxRef(p, a.t.index), h, if a.Finalize? then TxConfirmed else TxReverted) by {
      CarriesIt(after, a.t, h);
    }
  }

  lemma CarriesIt(db: Db, t: TxRef, h: Signed)
    requires ReadHash(db, t, h)
    ensures t.owner < |db.payments| && t.index < |db.payments[t.owner].rows| && Carries(db, t, h, RowAt(db, t).status)
  {
  }

  lemma HashStillThere(seen: Db, db: Db, after: Db, t: TxRef, h: Signed)
    requires Extends(seen, db) && Extends(db, after) && ReadHash(seen, t, h)
    ensures ReadHash(after, t, h)
  {
    assert Kept(seen.payments[t.owner], db.payments[t.owner]) && Kept(db.payments[t.owner], after.payments[t.owner]);
    assert RowKept(RowAt(seen, t), RowAt(db, t)) && RowKept(RowAt(db, t), RowAt(after, t));
  }

  /** Row `t` settled its payment, one way or the other. */
  predicate SettledAt(db: Db, t: TxRef, succeeded: bool) {
    && t.owner < |db.payments| && t.index < |db.payments[t.owner].rows|
    && (db.payments[t.owner].state == Confirmed <==> succeeded)
    && RowAt(db, t).status == if succeeded then TxConfirmed else TxReverted
  }

  /** Only Finalize confirms a payment; only Fail and a reverted landing revert one. */
  lemma SettlesBy(c: Config, seen: Db, w: World, a: Act, p: PaymentId)
    requires Good(c, w) && AllSound(c, seen) && Extends(seen, w.db) && Enabled(c, seen, w, a) && GapCurrent(w.db, a)
    requires p < |Apply(c, seen, w, a).db.payments| && Settled(Apply(c, seen, w, a).db.payments[p])
    requires p < |w.db.payments| ==> !Settled(w.db.payments[p])
    ensures Outcoming(a) && a.t.owner == p && SettledAt(Apply(c, seen, w, a).db, a.t, a.Finalize?)
  {
    hide Sound, Kept, Store, Signature, Redactable;
    StepDated(c, seen, w, a);
    OneStep(c, seen, w, a);
    var after := Apply(c, seen, w, a).db;
    assert p < |w.db.payments|;
    assert Dated(w.db.payments[p], after.payments[p], a);
    StampedWhenConfirmed(c, w.db, p);
    StampedWhenConfirmed(c, after, p);
    if a.Finalize? { if after.payments[p].confirmedAt.Some? { FinalizeCarries(w.db, a, p); } }
    else if a.Fail? { FailCarries(w.db, a, p); }
    else if a.Land? && !a.succeeded { LandCarries(w.db, a, p); }
  }

  lemma StampedWhenConfirmed(c: Config, db: Db, p: PaymentId)
    requires AllSound(c, db) && p < |db.payments|
    ensures db.payments[p].confirmedAt.Some? <==> db.payments[p].state == Confirmed
  {
    assert Sound(db.payments[p], Owner(p, c.cap));
  }

  // ----------------------------------------------------------------- whole runs

  lemma OutcomeStays(c: Config, db: Db, after: Db, p: PaymentId, e: V.Evidence, confirmations: nat)
    requires Extends(db, after) && p < |db.payments| && Settled(db.payments[p]) && Rests(db, p, e, confirmations)
    ensures Rests(after, p, e, confirmations)
  {
    hide Final;
    var P, Q := db.payments[p], after.payments[p];
    assert Kept(P, Q);
    var s, ok := if P.state == Confirmed then TxConfirmed else TxReverted, P.state == Confirmed;
    var i: nat, h: Signed :| Carries(db, TxRef(p, i), h, s) && Final(e, h, ok, confirmations);
    assert RowKept(P.rows[i], Q.rows[i]);
    assert Carries(after, TxRef(p, i), h, s);
  }

  /** Every event that settles a payment rests on an observation with an honest provider. */
  ghost predicate AllBacked(states: seq<World>, events: seq<Event>, proof: seq<V.Evidence>, confirmations: nat)
  {
    && |states| == |events| + 1 && |proof| == |events|
    && (forall k | 0 <= k < |events| :: events[k].read <= k)
    && forall k | 0 <= k < |events| :: Backed(states[events[k].read].db, events[k].act, proof[k], confirmations)
  }

  /** The outcome of a settled payment is final: whenever a payment is confirmed or reverted,
      the transaction its settled row records was, when it was marked, mined with that result
      on the canonical chain of an honest provider, at least `confirmations` deep. */
  lemma {:induction false} SettledIsFinal(c: Config, states: seq<World>, events: seq<Event>, proof: seq<V.Evidence>,
                                          confirmations: nat, n: nat, p: PaymentId)
    requires GapRun(c, states, events) && AllBacked(states, events, proof, confirmations)
    requires n < |states| && p < |states[n].db.payments| && Settled(states[n].db.payments[p])
    ensures exists k | 0 <= k < n :: Rests(states[n].db, p, proof[k], confirmations)
    decreases n
  {
    hide GapRun, Backed, Rests, Apply, Good, Enabled, AllSound, Extends, GapCurrent;
    if n == 0 {
      StartsEmpty(c, states, events);
    } else {
      RunStep(c, states, events, n - 1);
      if p < |states[n - 1].db.payments| && Settled(states[n - 1].db.payments[p]) {
        SettledIsFinal(c, states, events, proof, confirmations, n - 1, p);
        var k :| 0 <= k < n - 1 && Rests(states[n - 1].db, p, proof[k], confirmations);
        OutcomeStays(c, states[n - 1].db, states[n].db, p, proof[k], confirmations);
        assert Rests(states[n].db, p, proof[k], confirmations);
      } else {
        var e := events[n - 1];
        SettlingStep(c, states[e.read].db, states[n - 1], e.act, p, proof[n - 1], confirmations);
        assert Rests(states[n].db, p, proof[n - 1], confirmations);
      }
    }
  }

  lemma StartsEmpty(c: Config, states: seq<World>, events: seq<Event>)
    requires GapRun(c, states, events)
    ensures |states| > 0 && states[0].db.payments == []
  {
    hide Apply, Enabled;
  }
}

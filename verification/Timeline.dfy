/** What each step may do to the columns the quotas, erasure and leases look at. */
module Timeline {
  import opened PaymentStates
  import opened Ledger
  import opened Steps
  import opened Admission
  import opened Protocol
  import opened Runs
  import opened Theorems

  function Now(a: Act): Option<Time> {
    if a.Admit? then Some(a.q.now)
    else if a.Renew? || a.Seed? || a.SetMerchants? || OnNetwork(a) then None
    else Some(a.now)
  }

  /** What one step may do to the dates, the merchant, the authorization and the lease of a
      payment. */
  ghost predicate Dated(P: Payment, Q: Payment, a: Act)
  {
    && ((Q.merchant == P.merchant && Q.validBefore == P.validBefore) || Q.redactedAt.Some?)
    && (Q.updatedAt == P.updatedAt || Some(Q.updatedAt) == Now(a))
    && (Q.confirmedAt == P.confirmedAt || (a.Finalize? && Q.confirmedAt == Some(a.now)))
    && (Q.state == Reverted ==> P.state == Reverted || a.Fail? || (a.Land? && !a.succeeded))
    && (Q.requestedAt == P.requestedAt
        || (a.Admit? && Q.requestedAt == Some(a.q.now) && Q.updatedAt == a.q.now && Q.confirmedAt.None? &&
            Q.redactedAt.None?))
    && (Q.redactedAt == P.redactedAt || (a.Erase? && Redactable(P, a.cutoff) && Q.redactedAt == Some(a.now)))
    && (Q.claim == P.claim || a.Claim? || a.Renew? || a.Release? || (Q.redactedAt.Some? && Q.claim.None?))
  }

  ghost predicate AllDated(db: Db, after: Db, a: Act) {
    && |db.payments| <= |after.payments|
    && (forall p | 0 <= p < |db.payments| :: Dated(db.payments[p], after.payments[p], a))
    && (forall p | |db.payments| <= p < |after.payments| ::
      && after.payments[p].requestedAt.None? && after.payments[p].claim.None?
      && after.payments[p].state == Verified)
  }

  lemma OneDated(db: Db, p: PaymentId, Q: Payment, a: Act)
    requires p < |db.payments| && Dated(db.payments[p], Q, a)
    ensures AllDated(db, Commit(db, p, Q), a)
  {
  }

  lemma StoreDated(db: Db, a: Act, h: Signed)
    requires Signs(a)
    ensures AllDated(db, Store(db, a, h).0, a)
  {
    var after := Store(db, a, h).0;
    if after != db { OneDated(db, a.t.owner, after.payments[a.t.owner], a); }
  }

  lemma AdvanceDated(db: Db, t: TxRef, from: set<Status>, r: Row, states: set<State>, to: State, actor: Actor,
                     now: Time, a: Act)
    requires Now(a) == Some(now) && (to == Reverted ==> a.Fail?)
    ensures AllDated(db, Advance(db, t, from, r, states, to, actor, now).0, a)
  {
    var after := Advance(db, t, from, r, states, to, actor, now).0;
    if after != db { OneDated(db, t.owner, after.payments[t.owner], a); }
  }

  lemma AdvancesDated(seen: Db, db: Db, a: Act)
    requires Advances(a) && (a.Retire? ==> a.to in {Expired, State.Failed})
    ensures AllDated(db, Write(seen, db, a), a)
  {
    hide Dated, AllDated, Advance;
    NothingDated(db, a);
    match a {
      case RecordBroadcast(held, actor, now) =>
        if Hit(db, held.t, {TxBroadcasting}) {
          AdvanceDated(db, held.t, {TxBroadcasting}, BroadcastRow(RowAt(db, held.t), held.h, now), {Broadcasting},
                       Broadcast, actor, now, a);
        }
      case RecordAmbiguous(t, actor, now) =>
        if Hit(db, t, {TxBroadcasting}) {
          AdvanceDated(db, t, {TxBroadcasting}, StatusRow(RowAt(db, t), TxAmbiguous, now), {Broadcasting}, ManualReview,
                       actor, now, a);
        }
      case Retire(t, to, actor, now) =>
        if Hit(db, t, {TxIntent}) {
          AdvanceDated(db, t, {TxIntent}, StatusRow(RowAt(db, t), TxDropped, now), {Broadcasting}, to, actor, now, a);
        }
      case Finalize(t, block, gas, actor, now) => ConfirmDated(db, t, block, gas, actor, now, a);
      case Fail(t, gas, actor, now) =>
        if Hit(db, t, {TxBroadcast, TxConfirming}) {
          AdvanceDated(db, t, {TxBroadcast, TxConfirming}, RevertedRow(RowAt(db, t), gas, now), PENDING, Reverted,
                       actor, now, a);
        }
      case ReorgOut(t, actor, now) =>
        if Hit(db, t, {TxConfirming}) {
          AdvanceDated(db, t, {TxConfirming}, ReorgedRow(RowAt(db, t), now), {Confirming}, Broadcast, actor, now, a);
        }
      case Recover(t, actor, now) =>
        if Hit(db, t, {TxAmbiguous}) && Hit(seen, t, {TxAmbiguous}) && RowAt(seen, t).rawHash.Some? {
          AdvanceDated(db, t, {TxAmbiguous}, BroadcastRow(RowAt(db, t), RowAt(seen, t).rawHash.value, now),
                       {ManualReview}, Broadcast, actor, now, a);
        }
    }
  }

  lemma ConfirmDated(db: Db, t: TxRef, block: Block, gas: Gas, actor: Actor, now: Time, a: Act)
    requires a.Finalize? && a.now == now
    ensures AllDated(db, MarkTxConfirmed(db, t, block, gas, actor, now).0, a)
  {
    var after := MarkTxConfirmed(db, t, block, gas, actor, now).0;
    if after != db { OneDated(db, t.owner, after.payments[t.owner], a); }
  }

  lemma RecoveryDated(seen: Db, db: Db, a: Act)
    requires a.Sight? || a.Land? || a.Resolve? || a.Escalate?
    ensures AllDated(db, Write(seen, db, a), a)
  {
    hide AllDated, Dated, MarkTxConfirming, MarkReplacementLanded, MarkGapFillerResolved, MarkGapFillerSucceeded;
    if a.Sight? { SightDated(db, a); }
    else if a.Land? { LandDated(db, a); }
    else if a.Resolve? { ResolveDated(db, a); }
    else { EscalateDated(db, a); }
  }

  lemma SightDated(db: Db, a: Act)
    requires a.Sight?
    ensures AllDated(db, MarkTxConfirming(db, a.t, a.block, a.actor, a.now).0, a)
  {
    var after := MarkTxConfirming(db, a.t, a.block, a.actor, a.now).0;
    if after != db { OneDated(db, a.t.owner, after.payments[a.t.owner], a); }
  }

  lemma LandDated(db: Db, a: Act)
    requires a.Land?
    ensures AllDated(db, MarkReplacementLanded(db, a.t, a.succeeded, a.block, a.gas, a.actor, a.now).0, a)
  {
    var after := MarkReplacementLanded(db, a.t, a.succeeded, a.block, a.gas, a.actor, a.now).0;
    if after != db { OneDated(db, a.t.owner, after.payments[a.t.owner], a); }
  }

  lemma ResolveDated(db: Db, a: Act)
    requires a.Resolve?
    ensures AllDated(db, MarkGapFillerResolved(db, a.t, a.gas, a.now).0, a)
  {
    var after := MarkGapFillerResolved(db, a.t, a.gas, a.now).0;
    if after != db { OneDated(db, a.t.owner, after.payments[a.t.owner], a); }
  }

  lemma EscalateDated(db: Db, a: Act)
    requires a.Escalate?
    ensures AllDated(db, MarkGapFillerSucceeded(db, a.t, a.block, a.gas, a.actor, a.now).0, a)
  {
    var after := MarkGapFillerSucceeded(db, a.t, a.block, a.gas, a.actor, a.now).0;
    if after != db { OneDated(db, a.t.owner, after.payments[a.t.owner], a); }
  }

  lemma LeaseDated(seen: Db, db: Db, a: Act)
    requires a.Claim? || a.Renew? || a.Release?
    ensures AllDated(db, Write(seen, db, a), a)
  {
    var after := Write(seen, db, a);
    if after != db { OneDated(db, a.p, after.payments[a.p], a); }
  }

  lemma UpkeepDated(seen: Db, db: Db, a: Act)
    requires a.ExpireStale? || a.Erase? || a.Verify? || a.Seed? || a.SetMerchants?
    ensures AllDated(db, Write(seen, db, a), a)
  {
    var after := Write(seen, db, a);
    if after != db && (a.ExpireStale? || a.Erase?) { OneDated(db, a.p, after.payments[a.p], a); }
  }

  lemma AdmitDated(c: Config, db: Db, q: IntentRequest)
    requires AllSound(c, db)
    ensures AllDated(db, CreateIntent(db, q).0, Admit(q))
  {
    var (after, reply) := CreateIntent(db, q);
    if reply.Accept? {
      AcceptedIntentIsDurable(db, q, c.cap);
      var p := reply.intent.owner;
      assert Sound(db.payments[p], Owner(p, c.cap));
      OneDated(db, p, after.payments[p], Admit(q));
    }
  }

  lemma StepDated(c: Config, seen: Db, w: World, a: Act)
    requires AllSound(c, w.db) && Enabled(c, seen, w, a)
    ensures AllDated(w.db, Apply(c, seen, w, a).db, a)
  {
    hide AllSound, AllDated, Dated, Store, Write, Signature, CreateIntent;
    if Signs(a) {
      if Signature(c, seen, a).Some? { StoreDated(w.db, a, Signature(c, seen, a).value); }
      else { NothingDated(w.db, a); }
    } else if OnNetwork(a) {
      NothingDated(w.db, a);
    } else if a.Admit? {
      WriteAdmits(c, seen, w, a.q);
      AdmitDated(c, w.db, a.q);
    } else if Advances(a) {
      AdvancesDated(seen, w.db, a);
    } else if a.Sight? || a.Land? || a.Resolve? || a.Escalate? {
      RecoveryDated(seen, w.db, a);
    } else if a.Claim? || a.Renew? || a.Release? {
      LeaseDated(seen, w.db, a);
    } else {
      UpkeepDated(seen, w.db, a);
    }
  }

  lemma NothingDated(db: Db, a: Act)
    ensures AllDated(db, db, a)
  {
  }

  lemma OneDatedStep(c: Config, states: seq<World>, events: seq<Event>, n: nat, p: PaymentId)
    requires GapRun(c, states, events) && n < |events| && p < |states[n].db.payments|
    ensures p < |states[n + 1].db.payments| && Kept(states[n].db.payments[p], states[n + 1].db.payments[p])
    ensures Dated(states[n].db.payments[p], states[n + 1].db.payments[p], events[n].act)
  {
    hide Apply, Enabled, Good, Sound, Kept, Dated;
    RunsStayGood(c, states, events, n + 1);
    StepDated(c, states[events[n].read].db, states[n], events[n].act);
  }
}

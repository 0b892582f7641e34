/** Exactly when a sighting may be recorded: MarkTxConfirming ignores how many rows it
    updated (internal/store/settlementwork.go), so a stale row id moves the payment alone. */
module Sightings {
  import opened PaymentStates
  import opened Ledger
  import opened Steps
  import opened Preservation
  import opened Admission
  import opened Protocol
  import opened StepProofs
  import opened Theorems

  ghost predicate SeenRow(state: State, rows: seq<Row>) {
    state == Confirming ==> exists i | 0 <= i < |rows| :: rows[i].status == TxConfirming
  }

  ghost predicate AllSeen(db: Db) {
    forall p | 0 <= p < |db.payments| :: SeenRow(db.payments[p].state, db.payments[p].rows)
  }

  lemma SeenRowIsSighted(state: State, rows: seq<Row>)
    requires Correlated(state, rows)
    ensures Sighted(state, rows) <==> SeenRow(state, rows)
  {
    if Sighted(state, rows) && state == Confirming {
      var a :| LiveAt(rows, a, TxConfirming, SUPERSEDED);
      assert rows[a].status == TxConfirming;
    }
  }

  /** The payment did not newly become confirming, and its confirming rows stayed. */
  ghost predicate Undisturbed(P: Payment, Q: Payment) {
    Q.state == Confirming ==>
      && P.state == Confirming
      && |P.rows| <= |Q.rows|
      && forall i | 0 <= i < |P.rows| && P.rows[i].status == TxConfirming :: Q.rows[i].status == TxConfirming
  }

  ghost predicate AllUndisturbed(db: Db, after: Db) {
    && |db.payments| <= |after.payments|
    && (forall p | 0 <= p < |db.payments| :: Undisturbed(db.payments[p], after.payments[p]))
    && (forall p | |db.payments| <= p < |after.payments| :: after.payments[p].state != Confirming)
  }

  lemma UndisturbedStaySeen(db: Db, after: Db)
    requires AllUndisturbed(db, after) && AllSeen(db)
    ensures AllSeen(after)
  {
    forall p | 0 <= p < |after.payments| ensures SeenRow(after.payments[p].state, after.payments[p].rows) {
      if after.payments[p].state == Confirming {
        var P, Q := db.payments[p], after.payments[p];
        assert Undisturbed(P, Q) && SeenRow(P.state, P.rows);
        var i :| 0 <= i < |P.rows| && P.rows[i].status == TxConfirming;
        assert Q.rows[i].status == TxConfirming;
      }
    }
  }

  lemma OneUndisturbed(db: Db, p: PaymentId, Q: Payment)
    requires p < |db.payments| && Undisturbed(db.payments[p], Q)
    ensures AllUndisturbed(db, Commit(db, p, Q))
  {
  }

  lemma StoreUndisturbed(db: Db, a: Act, h: Signed)
    requires Signs(a)
    ensures AllUndisturbed(db, Store(db, a, h).0)
  {
    var after := Store(db, a, h).0;
    if after != db { OneUndisturbed(db, a.t.owner, after.payments[a.t.owner]); }
  }

  lemma AdvanceUndisturbed(seen: Db, db: Db, a: Act)
    requires Advances(a) && (a.Retire? ==> a.to in {Expired, State.Failed})
    ensures AllUndisturbed(db, Write(seen, db, a))
  {
    var after, p := Write(seen, db, a), if a.RecordBroadcast? then a.held.t.owner else a.t.owner;
    if after != db { OneUndisturbed(db, p, after.payments[p]); }
  }

  lemma WriteUndisturbed(seen: Db, db: Db, a: Act)
    requires !Signs(a) && !OnNetwork(a) && !Advances(a) && !a.Sight? && !(a.Land? && a.succeeded)
    ensures AllUndisturbed(db, Write(seen, db, a))
  {
    if a.Land? || a.Resolve? || a.Escalate? {
      RecoveryUndisturbed(seen, db, a);
    } else if a.Claim? || a.Renew? || a.Release? || a.ExpireStale? || a.Erase? {
      UpkeepUndisturbed(seen, db, a);
    } else if a.Admit? && CreateIntent(db, a.q).1.Accept? {
      var p := CreateIntent(db, a.q).1.intent.owner;
      OneUndisturbed(db, p, Write(seen, db, a).payments[p]);
    }
  }

  lemma RecoveryUndisturbed(seen: Db, db: Db, a: Act)
    requires (a.Land? && !a.succeeded) || a.Resolve? || a.Escalate?
    ensures AllUndisturbed(db, Write(seen, db, a))
  {
    var after := Write(seen, db, a);
    if after != db { OneUndisturbed(db, a.t.owner, after.payments[a.t.owner]); }
  }

  lemma UpkeepUndisturbed(seen: Db, db: Db, a: Act)
    requires a.Claim? || a.Renew? || a.Release? || a.ExpireStale? || a.Erase?
    ensures AllUndisturbed(db, Write(seen, db, a))
  {
    var after := Write(seen, db, a);
    if after != db { OneUndisturbed(db, a.p, after.payments[a.p]); }
  }

  lemma LandSeen(db: Db, t: TxRef, block: Block, gas: Gas, actor: Actor, now: Time)
    requires AllSeen(db)
    ensures AllSeen(MarkReplacementLanded(db, t, true, block, gas, actor, now).0)
  {
    var (after, reply) := MarkReplacementLanded(db, t, true, block, gas, actor, now);
    if reply == Ok { assert after.payments[t.owner].rows[t.index].status == TxConfirming; }
  }

  /** With the observed row still live, the payment and its row move together. */
  lemma CurrentSightSeen(db: Db, a: Act)
    requires AllSeen(db) && a.Sight? && SightCurrent(db, a)
    ensures AllSeen(MarkTxConfirming(db, a.t, a.block, a.actor, a.now).0)
  {
    var after := MarkTxConfirming(db, a.t, a.block, a.actor, a.now).0;
    if after != db {
      var P, Q := db.payments[a.t.owner], after.payments[a.t.owner];
      if Hit(db, a.t, {TxBroadcast, TxConfirming}) {
        assert Q.rows[a.t.index].status == TxConfirming;
      } else {
        assert Q.rows == P.rows;
      }
    }
  }

  lemma SeenStep(c: Config, seen: Db, w: World, a: Act)
    requires AllSeen(w.db) && SightCurrent(w.db, a) && Enabled(c, seen, w, a)
    ensures AllSeen(Apply(c, seen, w, a).db)
  {
    hide AllSeen, AllUndisturbed, Store, Signature;
    var after := Apply(c, seen, w, a).db;
    if Signs(a) {
      if Signature(c, seen, a).Some? {
        StoreUndisturbed(w.db, a, Signature(c, seen, a).value);
        UndisturbedStaySeen(w.db, after);
      }
    } else if OnNetwork(a) {
    } else if a.Sight? {
      CurrentSightSeen(w.db, a);
    } else if a.Land? && a.succeeded {
      LandSeen(w.db, a.t, a.block, a.gas, a.actor, a.now);
    } else {
      if Advances(a) { AdvanceUndisturbed(seen, w.db, a); } else { WriteUndisturbed(seen, w.db, a); }
      UndisturbedStaySeen(w.db, after);
    }
  }

  lemma {:induction false} SeenAlways(c: Config, states: seq<World>, events: seq<Event>, n: nat)
    requires GapRun(c, states, events) && n < |states|
    requires forall k | 0 <= k < |events| :: SightCurrent(states[k].db, events[k].act)
    ensures AllSeen(states[n].db)
  {
    if n > 0 {
      SeenAlways(c, states, events, n - 1);
      SeenStep(c, states[events[n - 1].read].db, states[n - 1], events[n - 1].act);
    }
  }

  /** In a run whose sightings name the live row, a confirming payment always has exactly
      one confirming row and otherwise only superseded ones. */
  lemma SightedRuns(c: Config, states: seq<World>, events: seq<Event>, n: nat, p: PaymentId)
    requires GapRun(c, states, events) && n < |states| && p < |states[n].db.payments|
    requires forall k | 0 <= k < |events| :: SightCurrent(states[k].db, events[k].act)
    ensures Sighted(states[n].db.payments[p].state, states[n].db.payments[p].rows)
  {
    hide GapRun, RowsSound, RecordSound, DropsJustified, Audited, Correlated;
    SeenAlways(c, states, events, n);
    EveryPayment(c, states, events, n, n, p);
    SeenRowIsSighted(states[n].db.payments[p].state, states[n].db.payments[p].rows);
  }

  /** The condition is exact: a committed sighting leaves the payment's row and state in
      step if and only if the row it named was still the live one. */
  lemma SightingExactly(db: Db, a: Act, p: Owner)
    requires a.Sight? && a.t.owner < |db.payments| && Sound(db.payments[a.t.owner], p)
    requires Sighted(db.payments[a.t.owner].state, db.payments[a.t.owner].rows) && !Retired(db.payments[a.t.owner])
    requires MarkTxConfirming(db, a.t, a.block, a.actor, a.now).1 == Ok
    ensures var Q := MarkTxConfirming(db, a.t, a.block, a.actor, a.now).0.payments[a.t.owner];
      Sighted(Q.state, Q.rows) <==> SightCurrent(db, a)
  {
    hide RowsSound, DropsJustified, RecordSound, Audited, Kept;
    var P := db.payments[a.t.owner];
    if Hit(db, a.t, {TxBroadcast, TxConfirming}) {
      if P.state in {Broadcast, Replaced} {
        SightedKeeps(P, p, a.t.index, a.block, a.actor, a.now);
      } else {
        ObservedElsewhere(P, a.t.index);
        SightedAgainKeeps(P, p, a.t.index, a.block, a.now);
      }
    } else if P.state in {Broadcast, Replaced} {
      BlindSightKeeps(P, p, a.actor, a.now);
    }
  }

  /** What a blind sighting leads to: until the live row itself is observed, no outcome
      of any other signature of the payment can be recorded as a success, none can be
      finalized, and no further replacement is possible. */
  lemma BlindSightingWedges(db: Db, t: TxRef, p: Owner, h: Signed, block: Block, gas: Gas, actor: Actor, now: Time)
    requires t.owner < |db.payments| && t.index < |db.payments[t.owner].rows| && Sound(db.payments[t.owner], p)
    requires db.payments[t.owner].state == Confirming && !Sighted(Confirming, db.payments[t.owner].rows)
    ensures MarkReplacementLanded(db, t, true, block, gas, actor, now) == (db, Race)
    ensures MarkTxReorgedOut(db, t, actor, now) == (db, Race)
    ensures RowAt(db, t).status != TxBroadcast ==>
      && MarkTxConfirmed(db, t, block, gas, actor, now) == (db, Race)
      && MarkTxReverted(db, t, gas, actor, now) == (db, Race)
    ensures MarkTxReplaced(db, t, h, actor, now).1 != Ok
  {
    hide RowsSound, DropsJustified, RecordSound, Audited, CanSupersede, Admissible;
    var rows := db.payments[t.owner].rows;
    SeenRowIsSighted(Confirming, rows);
    var a :| LiveAt(rows, a, TxBroadcast, SUPERSEDED);
    assert t.index != a ==> Spent(rows[t.index], SUPERSEDED);
  }
}

/** Every step of the protocol, on however stale a reading, keeps all payments sound
    and extends history. */
module StepProofs {
  import opened PaymentStates
  import opened Ledger
  import opened Steps
  import opened Preservation
  import opened Admission
  import opened Protocol

  // ------------------------------------------------------ signing steps

  /** What an actor read about a row still describes it: nonce and signer never
      change, and a signature built from the reading fits the row of today. */
  lemma SignatureFits(c: Config, seen: Db, db: Db, a: Act)
    requires AllSound(c, seen) && AllSound(c, db) && Extends(seen, db)
    requires Signs(a) && Signature(c, seen, a).Some?
    ensures a.t.owner < |db.payments| && a.t.index < |db.payments[a.t.owner].rows|
    ensures Fits(Signature(c, seen, a).value, RowAt(db, a.t), Owner(a.t.owner, c.cap))
  {
    hide Sound, Kept, RowsSound;
    SignatureReads(c, seen, a);
    RowStays(c, seen, db, a.t);
  }

  /** What a signature is made of: the row its actor read. */
  lemma SignatureReads(c: Config, seen: Db, a: Act)
    requires AllSound(c, seen) && Signs(a) && Signature(c, seen, a).Some?
    ensures a.t.owner < |seen.payments| && a.t.index < |seen.payments[a.t.owner].rows|
    ensures Fits(Signature(c, seen, a).value, RowAt(seen, a.t), Owner(a.t.owner, c.cap))
  {
    hide Sound, LaterInFlight;
    assert Sound(seen.payments[a.t.owner], Owner(a.t.owner, c.cap));
    RowOf(seen.payments[a.t.owner], Owner(a.t.owner, c.cap), a.t.index);
  }

  lemma RowStays(c: Config, seen: Db, db: Db, t: TxRef)
    requires Extends(seen, db) && t.owner < |seen.payments| && t.index < |seen.payments[t.owner].rows|
    ensures t.owner < |db.payments| && t.index < |db.payments[t.owner].rows| && RowKept(RowAt(seen, t), RowAt(db, t))
  {
    assert Kept(seen.payments[t.owner], db.payments[t.owner]);
  }

  /** A re-signature still matches the stored sighash: an ambiguous row keeps the
      signature it was read with. */
  lemma ResignedStillIdentical(c: Config, seen: Db, db: Db, a: Act)
    requires AllSound(c, seen) && AllSound(c, db) && Extends(seen, db)
    requires a.Resign? && Signature(c, seen, a).Some? && Hit(db, a.t, {TxAmbiguous})
    ensures RowAt(db, a.t).sighash == Some(Sighash(Signature(c, seen, a).value))
  {
    var P, Q := seen.payments[a.t.owner], db.payments[a.t.owner];
    assert Kept(P, Q) && RowKept(P.rows[a.t.index], Q.rows[a.t.index]);
    assert Sound(P, Owner(a.t.owner, c.cap)) && Sound(Q, Owner(a.t.owner, c.cap));
    assert RowSound(P.rows[a.t.index], Owner(a.t.owner, c.cap)) && RowSound(Q.rows[a.t.index], Owner(a.t.owner, c.cap));
  }

  /** The result of a store call is sound and later than where it started. */
  ghost predicate Keeps(c: Config, db: Db, after: Db) {
    AllSound(c, after) && Extends(db, after)
  }

  lemma NothingKeeps(c: Config, db: Db)
    requires AllSound(c, db)
    ensures Keeps(c, db, db)
  {
  }

  /** The unique index on hashes lets a replacement in only under a new one. */
  lemma HeirIsNew(db: Db, t: TxRef, gone: Row, heir: Row, p: Owner)
    requires Hit(db, t, {TxAmbiguous, TxBroadcast}) && Sound(db.payments[t.owner], p) && heir.txHash.Some?
    requires CanSupersede(db, t, gone, heir) && gone.txHash == RowAt(db, t).rawHash
    ensures NewTo(db.payments[t.owner].rows, heir.txHash.value)
  {
    hide DropsJustified, RecordSound, Audited, Lineage;
    var P := db.payments[t.owner];
    var mid := Commit(db, t.owner, Put(P, t.index, gone));
    var n := |P.rows|;
    forall k | 0 <= k < n ensures P.rows[k].rawHash != heir.txHash {
      assert mid.payments[t.owner].rows[k].txHash != heir.txHash;
      assert RowSound(P.rows[k], p);
      if k != t.index { OthersAreHashed(P, p, t.index, k); }
    }
  }

  lemma OthersAreHashed(P: Payment, p: Owner, i: nat, k: nat)
    requires Sound(P, p) && i < |P.rows| && k < |P.rows| && k != i && P.rows[i].status in {TxAmbiguous, TxBroadcast}
    ensures P.rows[k].txHash == P.rows[k].rawHash
  {
    hide DropsJustified, RecordSound, Audited, Lineage;
    assert RowSound(P.rows[k], p);
    if P.rows[k].status in {TxIntent, TxBroadcasting, TxAmbiguous} { SoleRow(P, k); }
    if P.rows[k].status == TxDropped && P.rows[k].rawHash.None? { UnsignedDropIsSole(P, p, k); }
  }

  lemma SignStep(c: Config, db: Db, t: TxRef, h: Signed, now: Time)
    requires AllSound(c, db) && (Hit(db, t, {TxIntent}) ==> Fits(h, RowAt(db, t), Owner(t.owner, c.cap)))
    ensures Keeps(c, db, MarkTxSigned(db, t, h, now).0)
  {
    NothingKeeps(c, db);
    if MarkTxSigned(db, t, h, now).1 == Ok {
      SignedKeeps(db.payments[t.owner], Owner(t.owner, c.cap), t.index, h, now);
      CommitKeeps(c, db, t.owner, Put(db.payments[t.owner], t.index, SignedRow(RowAt(db, t), h, now)));
    }
  }

  lemma ResignStep(c: Config, db: Db, t: TxRef, h: Signed, actor: Actor, now: Time)
    requires AllSound(c, db)
    requires Hit(db, t, {TxAmbiguous}) ==>
               Fits(h, RowAt(db, t), Owner(t.owner, c.cap)) && RowAt(db, t).sighash == Some(Sighash(h))
    ensures Keeps(c, db, MarkTxAmbiguousReplaced(db, t, h, actor, now).0)
  {
    NothingKeeps(c, db);
    var (after, reply) := MarkTxAmbiguousReplaced(db, t, h, actor, now);
    if reply == Ok {
      var r := RowAt(db, t);
      HeirIsNew(db, t, r.(status := TxReplaced, txHash := r.rawHash, updatedAt := now),
                Heir(r, h, r.sighash, None, now), Owner(t.owner, c.cap));
      AmbiguousReplacedKeeps(db.payments[t.owner], Owner(t.owner, c.cap), t.index, h, actor, now);
      CommitKeeps(c, db, t.owner, after.payments[t.owner]);
    }
  }

  lemma ReplaceStep(c: Config, db: Db, t: TxRef, h: Signed, actor: Actor, now: Time)
    requires AllSound(c, db) && (Hit(db, t, {TxBroadcast}) ==> Fits(h, RowAt(db, t), Owner(t.owner, c.cap)))
    ensures Keeps(c, db, MarkTxReplaced(db, t, h, actor, now).0)
  {
    NothingKeeps(c, db);
    var (after, reply) := MarkTxReplaced(db, t, h, actor, now);
    if reply == Ok {
      RowOf(db.payments[t.owner], Owner(t.owner, c.cap), t.index);
      HeirIsNew(db, t, StatusRow(RowAt(db, t), TxReplaced, now), Heir(RowAt(db, t), h, None, None, now),
                Owner(t.owner, c.cap));
      ReplacedKeeps(db.payments[t.owner], Owner(t.owner, c.cap), t.index, h, actor, now);
      CommitKeeps(c, db, t.owner, after.payments[t.owner]);
    }
  }

  lemma PrepareStep(c: Config, db: Db, t: TxRef, h: Signed, now: Time)
    requires AllSound(c, db) && (Hit(db, t, {TxDropped}) ==> Fits(h, RowAt(db, t), Owner(t.owner, c.cap)))
    requires Hit(db, t, {TxDropped}) && NoOtherActive(db.payments[t.owner].rows, t.index) ==> RowAt(db, t).rawHash.None?
    ensures Keeps(c, db, MarkGapFillerPrepared(db, t, h, now).0)
  {
    NothingKeeps(c, db);
    if MarkGapFillerPrepared(db, t, h, now).1 == Ok {
      PreparedKeeps(db.payments[t.owner], Owner(t.owner, c.cap), t.index, h, now);
      CommitKeeps(c, db, t.owner, Put(db.payments[t.owner], t.index, FillerRow(RowAt(db, t), h, now)));
    }
  }

  lemma BumpFillerStep(c: Config, db: Db, t: TxRef, h: Signed, now: Time)
    requires AllSound(c, db) && (Hit(db, t, {TxBroadcast}) ==> Fits(h, RowAt(db, t), Owner(t.owner, c.cap)))
    ensures Keeps(c, db, MarkGapFillerReplaced(db, t, h, now).0)
  {
    NothingKeeps(c, db);
    var (after, reply) := MarkGapFillerReplaced(db, t, h, now);
    if reply == Ok {
      RowOf(db.payments[t.owner], Owner(t.owner, c.cap), t.index);
      HeirIsNew(db, t, StatusRow(RowAt(db, t), TxReplaced, now), Heir(RowAt(db, t), h, None, Some(h), now),
                Owner(t.owner, c.cap));
      FillerReplacedKeeps(db.payments[t.owner], Owner(t.owner, c.cap), t.index, h, now);
      CommitKeeps(c, db, t.owner, after.payments[t.owner]);
    }
  }

  lemma StoreKeeps(c: Config, seen: Db, db: Db, a: Act)
    requires AllSound(c, seen) && AllSound(c, db) && Extends(seen, db)
    requires Signs(a) && Signature(c, seen, a).Some? && GapCurrent(db, a)
    ensures Keeps(c, db, Store(db, a, Signature(c, seen, a).value).0)
  {
    var h := Signature(c, seen, a).value;
    SignatureFits(c, seen, db, a);
    match a {
      case Sign(_, t, _, _, now) => SignStep(c, db, t, h, now);
      case Resign(_, t, _, actor, now) =>
        if Hit(db, t, {TxAmbiguous}) { ResignedStillIdentical(c, seen, db, a); }
        ResignStep(c, db, t, h, actor, now);
      case Replace(_, t, _, _, _, actor, now) => ReplaceStep(c, db, t, h, actor, now);
      case Prepare(_, t, _, _, _, now) => PrepareStep(c, db, t, h, now);
      case BumpFiller(_, t, _, _, _, now) => BumpFillerStep(c, db, t, h, now);
    }
  }

  // ------------------------------------------------- steps that sign nothing

  /** A step that moves one row and its payment together. */
  lemma AdvanceStep(c: Config, db: Db, t: TxRef, from: set<Status>, r: Row, states: set<State>, to: State, actor: Actor,
                    now: Time)
    requires AllSound(c, db)
    requires Hit(db, t, from) && db.payments[t.owner].state in states && actor != HttpWait ==>
               var Q := Move(Put(db.payments[t.owner], t.index, r), to, actor, now);
               Sound(Q, Owner(t.owner, c.cap)) && Kept(db.payments[t.owner], Q)
    ensures Keeps(c, db, Advance(db, t, from, r, states, to, actor, now).0)
  {
    NothingKeeps(c, db);
    if Advance(db, t, from, r, states, to, actor, now).1 == Ok {
      CommitKeeps(c, db, t.owner, Move(Put(db.payments[t.owner], t.index, r), to, actor, now));
    }
  }

  lemma BroadcastStep(c: Config, db: Db, t: TxRef, h: Signed, actor: Actor, now: Time)
    requires AllSound(c, db) && (Hit(db, t, {TxBroadcasting, TxAmbiguous}) ==> RowAt(db, t).rawHash == Some(h))
    ensures Keeps(c, db, MarkTxBroadcast(db, t, h, actor, now).0)
    ensures Keeps(c, db, MarkTxRecoveredBroadcast(db, t, h, actor, now).0)
  {
    NothingKeeps(c, db);
    if Hit(db, t, {TxBroadcasting, TxAmbiguous}) {
      var r := BroadcastRow(RowAt(db, t), h, now);
      if actor != HttpWait { BroadcastKeeps(db.payments[t.owner], Owner(t.owner, c.cap), t.index, h, actor, now); }
      if Hit(db, t, {TxBroadcasting}) {
        AdvanceStep(c, db, t, {TxBroadcasting}, r, {Broadcasting}, Broadcast, actor, now);
      } else {
        AdvanceStep(c, db, t, {TxAmbiguous}, r, {ManualReview}, Broadcast, actor, now);
      }
    }
  }

  lemma AmbiguousStep(c: Config, db: Db, t: TxRef, actor: Actor, now: Time)
    requires AllSound(c, db)
    ensures Keeps(c, db, MarkTxAmbiguous(db, t, actor, now).0)
  {
    NothingKeeps(c, db);
    if Hit(db, t, {TxBroadcasting}) {
      if actor != HttpWait { AmbiguousKeeps(db.payments[t.owner], Owner(t.owner, c.cap), t.index, actor, now); }
      AdvanceStep(c, db, t, {TxBroadcasting}, StatusRow(RowAt(db, t), TxAmbiguous, now), {Broadcasting}, ManualReview,
                  actor, now);
    }
  }

  lemma RetireStep(c: Config, db: Db, t: TxRef, to: State, actor: Actor, now: Time)
    requires AllSound(c, db) && to in {Expired, State.Failed}
    ensures Keeps(c, db, RetireIntent(db, t, to, actor, now).0)
  {
    NothingKeeps(c, db);
    if Hit(db, t, {TxIntent}) {
      if actor != HttpWait { RetireKeeps(db.payments[t.owner], Owner(t.owner, c.cap), t.index, to, actor, now); }
      AdvanceStep(c, db, t, {TxIntent}, StatusRow(RowAt(db, t), TxDropped, now), {Broadcasting}, to, actor, now);
    }
  }

  lemma ConfirmStep(c: Config, db: Db, t: TxRef, block: Block, gas: Gas, actor: Actor, now: Time)
    requires AllSound(c, db)
    ensures Keeps(c, db, MarkTxConfirmed(db, t, block, gas, actor, now).0)
  {
    NothingKeeps(c, db);
    var (after, reply) := MarkTxConfirmed(db, t, block, gas, actor, now);
    if Hit(db, t, {TxBroadcast, TxConfirming}) && reply == Ok {
      ConfirmedKeeps(db.payments[t.owner], Owner(t.owner, c.cap), t.index, block, gas, actor, now);
      CommitKeeps(c, db, t.owner, after.payments[t.owner]);
    }
  }

  lemma RevertStep(c: Config, db: Db, t: TxRef, gas: Gas, actor: Actor, now: Time)
    requires AllSound(c, db)
    ensures Keeps(c, db, MarkTxReverted(db, t, gas, actor, now).0)
  {
    NothingKeeps(c, db);
    var (after, reply) := MarkTxReverted(db, t, gas, actor, now);
    if Hit(db, t, {TxBroadcast, TxConfirming}) && reply == Ok {
      RevertedKeeps(db.payments[t.owner], Owner(t.owner, c.cap), t.index, gas, actor, now);
      CommitKeeps(c, db, t.owner, after.payments[t.owner]);
    }
  }

  lemma ReorgStep(c: Config, db: Db, t: TxRef, actor: Actor, now: Time)
    requires AllSound(c, db)
    ensures Keeps(c, db, MarkTxReorgedOut(db, t, actor, now).0)
  {
    NothingKeeps(c, db);
    var (after, reply) := MarkTxReorgedOut(db, t, actor, now);
    if reply == Ok {
      ReorgedKeeps(db.payments[t.owner], Owner(t.owner, c.cap), t.index, actor, now);
      CommitKeeps(c, db, t.owner, after.payments[t.owner]);
    }
  }

  /** A sighting, of whatever row, keeps every payment sound. */
  lemma SightStep(c: Config, db: Db, t: TxRef, block: Block, actor: Actor, now: Time)
    requires AllSound(c, db)
    requires t.owner < |db.payments| && Retired(db.payments[t.owner]) ==> !Hit(db, t, {TxBroadcast, TxConfirming})
    ensures Keeps(c, db, MarkTxConfirming(db, t, block, actor, now).0)
  {
    hide RowsSound, DropsJustified, RecordSound, Audited, Kept;
    NothingKeeps(c, db);
    var (after, reply) := MarkTxConfirming(db, t, block, actor, now);
    if t.owner < |db.payments| && reply == Ok {
      var P, p := db.payments[t.owner], Owner(t.owner, c.cap);
      assert Sound(P, p);
      if Hit(db, t, {TxBroadcast, TxConfirming}) {
        if P.state in {Broadcast, Replaced} {
          SightedKeeps(P, p, t.index, block, actor, now);
        } else {
          ObservedElsewhere(P, t.index);
          SightedAgainKeeps(P, p, t.index, block, now);
        }
      } else if P.state in {Broadcast, Replaced} {
        BlindSightKeeps(P, p, actor, now);
      }
      CommitKeeps(c, db, t.owner, after.payments[t.owner]);
    }
  }

  lemma ObservedElsewhere(P: Payment, i: nat)
    requires Correlated(P.state, P.rows) && i < |P.rows| && P.rows[i].status in {TxBroadcast, TxConfirming}
    requires P.state !in {Broadcast, Replaced} && !Retired(P)
    ensures P.state in {Confirming, ManualReview}
  {
  }

  lemma LandStep(c: Config, db: Db, t: TxRef, succeeded: bool, block: Block, gas: Gas, actor: Actor, now: Time)
    requires AllSound(c, db)
    ensures Keeps(c, db, MarkReplacementLanded(db, t, succeeded, block, gas, actor, now).0)
  {
    NothingKeeps(c, db);
    var (after, reply) := MarkReplacementLanded(db, t, succeeded, block, gas, actor, now);
    if reply == Ok {
      LandedKeeps(db.payments[t.owner], Owner(t.owner, c.cap), t.index, succeeded, block, gas, actor, now);
      CommitKeeps(c, db, t.owner, after.payments[t.owner]);
    }
  }

  lemma ResolveStep(c: Config, db: Db, t: TxRef, gas: Gas, now: Time)
    requires AllSound(c, db) && (Hit(db, t, {TxBroadcast, TxReplaced}) ==> Retired(db.payments[t.owner]))
    ensures Keeps(c, db, MarkGapFillerResolved(db, t, gas, now).0)
  {
    NothingKeeps(c, db);
    var (after, reply) := MarkGapFillerResolved(db, t, gas, now);
    if reply == Ok {
      FillerResolvedKeeps(db.payments[t.owner], Owner(t.owner, c.cap), t.index, gas, now);
      CommitKeeps(c, db, t.owner, after.payments[t.owner]);
    }
  }

  lemma EscalateStep(c: Config, db: Db, t: TxRef, block: Block, gas: Gas, actor: Actor, now: Time)
    requires AllSound(c, db)
    ensures Keeps(c, db, MarkGapFillerSucceeded(db, t, block, gas, actor, now).0)
  {
    NothingKeeps(c, db);
    var (after, reply) := MarkGapFillerSucceeded(db, t, block, gas, actor, now);
    if reply == Ok {
      FillerSucceededKeeps(db.payments[t.owner], Owner(t.owner, c.cap), t.index, block, gas, actor, now);
      CommitKeeps(c, db, t.owner, after.payments[t.owner]);
    }
  }

  /** A payment read as retired has, at any later time, no broadcast or replaced row
      unless it is still retired. */
  lemma RetiredStaysRetired(c: Config, seen: Db, db: Db, t: TxRef)
    requires AllSound(c, db) && Extends(seen, db) && t.owner < |seen.payments| && Retired(seen.payments[t.owner])
    ensures Hit(db, t, {TxBroadcast, TxReplaced}) ==> Retired(db.payments[t.owner])
  {
    var P, Q := seen.payments[t.owner], db.payments[t.owner];
    assert Kept(P, Q) && Sound(Q, Owner(t.owner, c.cap));
    if Escalated(Q) {
      var a :| LiveAt(Q.rows, a, TxConfirming, {TxDropped});
      assert t.index < |Q.rows| && t.index != a ==> Spent(Q.rows[t.index], {TxDropped});
    }
  }

  lemma LeaseStep(c: Config, db: Db, p: PaymentId, worker: nat, duration: int, at: Time, now: Time)
    requires AllSound(c, db)
    ensures Keeps(c, db, ClaimPayment(db, p, worker, duration, at, now).0)
    ensures Keeps(c, db, RenewLease(db, p, worker, duration, at).0)
    ensures Keeps(c, db, ReleaseLease(db, p, worker, now).0)
  {
    NothingKeeps(c, db);
    if p < |db.payments| {
      var P := db.payments[p];
      assert Sound(P, Owner(p, c.cap));
      ClaimKeeps(P, Owner(p, c.cap), None, now);
      CommitKeeps(c, db, p, P.(claim := None, updatedAt := now));
      if P.redactedAt.None? {
        ClaimKeeps(P, Owner(p, c.cap), Some(Ledger.Claim(worker, at + duration)), now);
        CommitKeeps(c, db, p, P.(claim := Some(Ledger.Claim(worker, at + duration)), updatedAt := now));
        ClaimKeeps(P, Owner(p, c.cap), Some(Ledger.Claim(worker, at + duration)), P.updatedAt);
        CommitKeeps(c, db, p, P.(claim := Some(Ledger.Claim(worker, at + duration)), updatedAt := P.updatedAt));
      }
    }
  }

  lemma RetentionStep(c: Config, db: Db, p: PaymentId, cutoff: Time, now: Time)
    requires AllSound(c, db) && p < |db.payments|
    ensures Stale(db.payments[p], now) ==> Keeps(c, db, Commit(db, p, Expire(db.payments[p], now)))
    ensures Redactable(db.payments[p], cutoff) ==> Keeps(c, db, Commit(db, p, Redact(db.payments[p], now)))
  {
    var P := db.payments[p];
    assert Sound(P, Owner(p, c.cap));
    if Stale(P, now) {
      ExpireKeeps(P, Owner(p, c.cap), now);
      CommitKeeps(c, db, p, Expire(P, now));
    }
    if Redactable(P, cutoff) {
      RedactKeeps(P, Owner(p, c.cap), cutoff, now);
      CommitKeeps(c, db, p, Redact(P, now));
    }
  }

  lemma VerifyStep(c: Config, db: Db, identity: nat, authorization: nat, merchant: Option<MerchantId>,
                   validBefore: Time, now: Time)
    requires AllSound(c, db)
    ensures Keeps(c, db, RecordVerification(db, identity, authorization, merchant, validBefore, now).0)
  {
    NothingKeeps(c, db);
    var after := RecordVerification(db, identity, authorization, merchant, validBefore, now).0;
    if |after.payments| > |db.payments| {
      var p := |db.payments|;
      assert after.payments[p].log == [Edge(Received, Verified, Http)];
      assert Sound(after.payments[p], Owner(p, c.cap));
    }
  }

  lemma AdmitStep(c: Config, db: Db, q: IntentRequest)
    requires AllSound(c, db)
    ensures Keeps(c, db, CreateIntent(db, q).0)
  {
    hide Sound, Kept;
    NothingKeeps(c, db);
    var (after, reply) := CreateIntent(db, q);
    if reply.Accept? {
      AcceptedIntentIsDurable(db, q, c.cap);
      AcceptedCounter(db, q);
      hide CreateIntent;
      CommitKeeps(c, db, reply.intent.owner, after.payments[reply.intent.owner]);
    }
  }

  lemma AcceptedCounter(db: Db, q: IntentRequest)
    requires CreateIntent(db, q).1.Accept?
    ensures forall s | s in db.nextNonce ::
      s in CreateIntent(db, q).0.nextNonce && db.nextNonce[s] <= CreateIntent(db, q).0.nextNonce[s]
  {
  }

  // --------------------------------------------------------------- any step

  lemma AdvanceKeeps(c: Config, seen: Db, w: World, a: Act)
    requires AllSound(c, seen) && AllSound(c, w.db) && Extends(seen, w.db)
    requires Advances(a) && Enabled(c, seen, w, a)
    requires forall x | x in w.hands :: Durable(w.db, x.t, x.h)
    ensures Keeps(c, w.db, Write(seen, w.db, a))
  {
    var db := w.db;
    match a {
      case RecordBroadcast(held, actor, now) =>
        assert Durable(db, held.t, held.h);
        BroadcastStep(c, db, held.t, held.h, actor, now);
      case RecordAmbiguous(t, actor, now) => AmbiguousStep(c, db, t, actor, now);
      case Retire(t, to, actor, now) => RetireStep(c, db, t, to, actor, now);
      case Finalize(t, block, gas, actor, now) => ConfirmStep(c, db, t, block, gas, actor, now);
      case Fail(t, gas, actor, now) => RevertStep(c, db, t, gas, actor, now);
      case ReorgOut(t, actor, now) => ReorgStep(c, db, t, actor, now);
      case Recover(t, actor, now) =>
        assert Kept(seen.payments[t.owner], db.payments[t.owner]);
        BroadcastStep(c, db, t, RowAt(seen, t).rawHash.value, actor, now);
    }
  }

  lemma WriteKeeps(c: Config, seen: Db, w: World, a: Act)
    requires AllSound(c, seen) && AllSound(c, w.db) && Extends(seen, w.db)
    requires !Signs(a) && !OnNetwork(a) && Enabled(c, seen, w, a)
    requires forall x | x in w.hands :: Durable(w.db, x.t, x.h)
    ensures Keeps(c, w.db, Write(seen, w.db, a))
  {
    var db := w.db;
    if Advances(a) {
      AdvanceKeeps(c, seen, w, a);
    } else if a.Verify? {
      VerifyStep(c, db, a.identity, a.authorization, a.merchant, a.validBefore, a.now);
    } else if a.Admit? {
      AdmitStep(c, db, a.q);
    } else if a.Sight? {
      PendingNeverRetires(seen, db, a.t);
      SightStep(c, db, a.t, a.block, a.actor, a.now);
    } else if a.Land? {
      LandStep(c, db, a.t, a.succeeded, a.block, a.gas, a.actor, a.now);
    } else if a.Resolve? {
      RetiredStaysRetired(c, seen, db, a.t);
      ResolveStep(c, db, a.t, a.gas, a.now);
    } else if a.Escalate? {
      EscalateStep(c, db, a.t, a.block, a.gas, a.actor, a.now);
    } else {
      UpkeepKeeps(c, seen, db, a);
    }
  }

  lemma UpkeepKeeps(c: Config, seen: Db, db: Db, a: Act)
    requires AllSound(c, db)
    requires a.Claim? || a.Renew? || a.Release? || a.ExpireStale? || a.Erase? || a.Seed? || a.SetMerchants?
    ensures Keeps(c, db, Write(seen, db, a))
  {
    hide Keeps, AllSound, Write;
    if a.Claim? || a.Renew? || a.Release? {
      LeasesKeep(c, seen, db, a);
    } else if a.ExpireStale? || a.Erase? {
      RetentionKeeps(c, seen, db, a);
    } else {
      SettingsKeep(c, seen, db, a);
    }
  }

  lemma LeasesKeep(c: Config, seen: Db, db: Db, a: Act)
    requires AllSound(c, db) && (a.Claim? || a.Renew? || a.Release?)
    ensures Keeps(c, db, Write(seen, db, a))
  {
    hide Keeps, AllSound, ClaimPayment, RenewLease, ReleaseLease;
    match a {
      case Claim(p, worker, duration, at, now) => LeaseStep(c, db, p, worker, duration, at, now);
      case Renew(p, worker, duration, at) => LeaseStep(c, db, p, worker, duration, at, at);
      case Release(p, worker, now) => LeaseStep(c, db, p, worker, 0, now, now);
    }
  }

  lemma RetentionKeeps(c: Config, seen: Db, db: Db, a: Act)
    requires AllSound(c, db) && (a.ExpireStale? || a.Erase?)
    ensures Keeps(c, db, Write(seen, db, a))
  {
    hide Keeps, AllSound, Stale, Redact, Expire, Redactable;
    NothingKeeps(c, db);
    if a.p < |db.payments| { RetentionStep(c, db, a.p, if a.Erase? then a.cutoff else a.now, a.now); }
  }

  lemma SettingsKeep(c: Config, seen: Db, db: Db, a: Act)
    requires AllSound(c, db) && (a.Seed? || a.SetMerchants?)
    ensures Keeps(c, db, Write(seen, db, a))
  {
    hide Keeps, AllSound, SeedSignerAccount;
    if a.Seed? { SeedStep(c, db, a.signer, a.chainNonce); } else { MerchantsStep(c, db, a.active); }
  }

  lemma SeedStep(c: Config, db: Db, signer: Address, chainNonce: nat)
    requires AllSound(c, db)
    ensures Keeps(c, db, SeedSignerAccount(db, signer, chainNonce))
  {
    NothingKeeps(c, db);
  }

  lemma MerchantsStep(c: Config, db: Db, active: set<MerchantId>)
    requires AllSound(c, db)
    ensures Keeps(c, db, db.(activeMerchants := active))
  {
    NothingKeeps(c, db);
  }

  /** The bytes are recorded in row `t`, for good. */
  ghost predicate Durable(db: Db, t: TxRef, h: Signed) {
    t.owner < |db.payments| && t.index < |db.payments[t.owner].rows| && RowAt(db, t).rawHash == Some(h)
  }

  /** A payment read while its transaction was pending can never be retired later. */
  lemma PendingNeverRetires(seen: Db, db: Db, t: TxRef)
    requires Extends(seen, db) && t.owner < |seen.payments| && seen.payments[t.owner].state in PENDING
    ensures !Retired(db.payments[t.owner])
  {
    assert Kept(seen.payments[t.owner], db.payments[t.owner]);
  }
}

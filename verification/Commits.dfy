/** What each store call does in a reachable database. The schema's unique indexes and the
    payment's state are guards of their own; here is when they matter. In every state of a run
    a call commits exactly under the condition stated, leaves exactly the columns stated, and
    otherwise changes nothing. */
module Commits {
  import opened PaymentStates
  import opened Ledger
  import opened Steps
  import opened Preservation
  import opened Admission
  import opened Protocol
  import opened StepProofs
  import opened Theorems
  import F = Fees

  /** The payment with these rows, moved to `to` and audited. */
  function Moved(P: Payment, rows: seq<Row>, to: State, actor: Actor, now: Time): Payment {
    P.(rows := rows, state := to, updatedAt := now, log := P.log + [Edge(P.state, to, actor)])
  }

  /** The database with one payment replaced. */
  function With(db: Db, p: PaymentId, P: Payment): Db
    requires p < |db.payments|
  {
    db.(payments := db.payments[..p] + [P] + db.payments[p + 1..])
  }

  lemma WithIsCommit(db: Db, p: PaymentId, P: Payment)
    requires p < |db.payments|
    ensures Commit(db, p, P) == With(db, p, P)
  {
    assert db.payments[p := P] == db.payments[..p] + [P] + db.payments[p + 1..];
  }

  // ----------------------------------------------------------- the two indexes

  lemma AloneIfActive(c: Config, db: Db, t: TxRef)
    requires AllSound(c, db) && Hit(db, t, ACTIVE)
    ensures NoOtherActive(db.payments[t.owner].rows, t.index)
  {
    hide RowsSound, DropsJustified, RecordSound, Audited, Correlated;
    var P := db.payments[t.owner];
    assert Sound(P, Owner(t.owner, c.cap));
    CorrelatedIsExclusive(P.state, P.rows);
  }

  /** No row anywhere records a signature that is new to its payment. */
  lemma NewIsFree(c: Config, db: Db, h: Signed)
    requires AllSound(c, db) && h.payment < |db.payments| && NewTo(db.payments[h.payment].rows, h)
    ensures forall q, j | 0 <= q < |db.payments| && 0 <= j < |db.payments[q].rows| ::
      db.payments[q].rows[j].txHash != Some(h)
  {
    hide Correlated, DropsJustified, RecordSound, Audited, Lineage;
    forall q, j | 0 <= q < |db.payments| && 0 <= j < |db.payments[q].rows|
      ensures db.payments[q].rows[j].txHash != Some(h)
    {
      assert Sound(db.payments[q], Owner(q, c.cap)) && RowSound(db.payments[q].rows[j], Owner(q, c.cap));
    }
  }

  /** A recorded signature is free to become the hash of its own row. */
  lemma RawIsFree(c: Config, db: Db, t: TxRef)
    requires AllSound(c, db) && t.owner < |db.payments| && t.index < |db.payments[t.owner].rows|
    ensures HashFree(db.payments, t, RowAt(db, t).rawHash)
  {
    hide Correlated, DropsJustified, RecordSound, Audited, Lineage;
    var h := RowAt(db, t).rawHash;
    forall q, j | h.Some? && 0 <= q < |db.payments| && 0 <= j < |db.payments[q].rows| && !(q == t.owner && j == t.index)
      ensures db.payments[q].rows[j].txHash != h
    {
      assert Sound(db.payments[t.owner], Owner(t.owner, c.cap)) && RowSound(RowAt(db, t), Owner(t.owner, c.cap));
      assert Sound(db.payments[q], Owner(q, c.cap)) && RowSound(db.payments[q].rows[j], Owner(q, c.cap));
      if db.payments[q].rows[j].txHash == h { OneRowPerSignature(c, db, t, TxRef(q, j), h.value); }
    }
  }

  /** A live row may be superseded exactly by a signature that is new to its payment. */
  lemma SupersedesExactly(c: Config, db: Db, t: TxRef, gone: Row, heir: Row)
    requires AllSound(c, db) && Hit(db, t, {TxAmbiguous, TxBroadcast}) && !Active(gone) && Active(heir)
    requires gone.txHash == RowAt(db, t).rawHash && heir.txHash.Some? && heir.txHash.value.payment == t.owner
    ensures CanSupersede(db, t, gone, heir) <==> NewTo(db.payments[t.owner].rows, heir.txHash.value)
  {
    hide AllSound, Sound;
    AloneIfActive(c, db, t);
    RawIsFree(c, db, t);
    SoundAt(c, db, t.owner);
    if NewTo(db.payments[t.owner].rows, heir.txHash.value) {
      NewIsFree(c, db, heir.txHash.value);
    } else if CanSupersede(db, t, gone, heir) {
      HeirIsNew(db, t, gone, heir, Owner(t.owner, c.cap));
    }
  }

  lemma SoundAt(c: Config, db: Db, p: PaymentId)
    requires AllSound(c, db) && p < |db.payments|
    ensures Sound(db.payments[p], Owner(p, c.cap))
  {
  }

  /** What the columns of a row say about its payment. */
  lemma StateOf(c: Config, db: Db, t: TxRef)
    requires AllSound(c, db) && t.owner < |db.payments| && t.index < |db.payments[t.owner].rows|
    ensures var P, r := db.payments[t.owner], RowAt(db, t);
      && (r.status in {TxIntent, TxBroadcasting} ==> P.state == Broadcasting && P.rows == [r])
      && (r.status == TxAmbiguous ==> P.state == ManualReview && P.rows == [r])
      && (r.status == TxConfirmed <==> P.state == Confirmed && !(r.status in SUPERSEDED))
      && (r.status == TxIntent ==> r.txHash.None? && r.rawHash.None?)
      && (r.status in {TxBroadcasting, TxAmbiguous} ==> r.txHash.None? && r.rawHash.Some?)
      && (r.status in {TxBroadcast, TxConfirming, TxReplaced, TxConfirmed, TxReverted} ==> r.txHash == r.rawHash)
  {
    hide DropsJustified, RecordSound, Audited, Lineage;
    var P := db.payments[t.owner];
    assert Sound(P, Owner(t.owner, c.cap)) && RowSound(RowAt(db, t), Owner(t.owner, c.cap));
    if RowAt(db, t).status in {TxIntent, TxBroadcasting, TxAmbiguous} { SoleRow(P, t.index); }
  }

  lemma NoneIsFree(payments: seq<Payment>, t: TxRef)
    ensures HashFree(payments, t, None)
  {
  }

  lemma OnlyRow(db: Db, t: TxRef)
    requires t.owner < |db.payments| && t.index < |db.payments[t.owner].rows| && |db.payments[t.owner].rows| == 1
    ensures t.index == 0 && forall s: Row :: db.payments[t.owner].rows[0 := s] == [s]
  {
  }

  // --------------------------------------------------------------- broadcasting

  /** A signature is recorded exactly on an intent. */
  lemma SigningCommits(c: Config, db: Db, t: TxRef, h: Signed, now: Time)
    requires AllSound(c, db)
    ensures var (after, reply) := MarkTxSigned(db, t, h, now);
      && (reply == Ok <==> Hit(db, t, {TxIntent})) && (reply != Ok ==> after == db)
      && (reply == Ok ==>
        var row := RowAt(db, t).(status := TxBroadcasting, rawHash := Some(h), sighash := Some(Sighash(h)),
                                 terms := Some(h.terms), updatedAt := now);
        after == With(db, t.owner, db.payments[t.owner].(rows := [row])))
  {
    hide AllSound, Sound, HashFree, NoOtherActive;
    if Hit(db, t, {TxIntent}) {
      StateOf(c, db, t);
      AloneIfActive(c, db, t);
      NoneIsFree(db.payments, t);
      OnlyRow(db, t);
      WithIsCommit(db, t.owner, Put(db.payments[t.owner], t.index, SignedRow(RowAt(db, t), h, now)));
    }
  }

  /** Handing the recorded signature to the network is recorded exactly on the row that
      holds it while it is being sent. */
  lemma BroadcastCommits(c: Config, db: Db, t: TxRef, h: Signed, actor: Actor, now: Time)
    requires AllSound(c, db) && (Hit(db, t, {TxBroadcasting}) ==> RowAt(db, t).rawHash == Some(h))
    ensures var (after, reply) := MarkTxBroadcast(db, t, h, actor, now);
      && (reply == Ok <==> Hit(db, t, {TxBroadcasting}) && actor != HttpWait) && (reply != Ok ==> after == db)
      && (reply == Ok ==>
        var row := RowAt(db, t).(status := TxBroadcast, txHash := Some(h), attemptedAt := Some(now), updatedAt := now);
        after == With(db, t.owner, Moved(db.payments[t.owner], [row], Broadcast, actor, now)))
  {
    hide AllSound, Sound, HashFree, NoOtherActive;
    if Hit(db, t, {TxBroadcasting}) {
      StateOf(c, db, t);
      AloneIfActive(c, db, t);
      RawIsFree(c, db, t);
      OnlyRow(db, t);
      WithIsCommit(db, t.owner, Move(Put(db.payments[t.owner], t.index, BroadcastRow(RowAt(db, t), h, now)), Broadcast,
                                     actor, now));
    }
  }

  lemma AmbiguityCommits(c: Config, db: Db, t: TxRef, actor: Actor, now: Time)
    requires AllSound(c, db)
    ensures var (after, reply) := MarkTxAmbiguous(db, t, actor, now);
      && (reply == Ok <==> Hit(db, t, {TxBroadcasting}) && actor != HttpWait) && (reply != Ok ==> after == db)
      && (reply == Ok ==>
        var row := RowAt(db, t).(status := TxAmbiguous, updatedAt := now);
        after == With(db, t.owner, Moved(db.payments[t.owner], [row], ManualReview, actor, now)))
  {
    hide AllSound, Sound, HashFree, NoOtherActive;
    if Hit(db, t, {TxBroadcasting}) {
      StateOf(c, db, t);
      AloneIfActive(c, db, t);
      NoneIsFree(db.payments, t);
      OnlyRow(db, t);
      WithIsCommit(db, t.owner, Move(Put(db.payments[t.owner], t.index, StatusRow(RowAt(db, t), TxAmbiguous, now)),
                                     ManualReview, actor, now));
    }
  }

  /** An intent is retired exactly before anything was signed for it. */
  lemma RetirementCommits(c: Config, db: Db, t: TxRef, to: State, actor: Actor, now: Time)
    requires AllSound(c, db)
    ensures var (after, reply) := RetireIntent(db, t, to, actor, now);
      && (reply == Ok <==> Hit(db, t, {TxIntent}) && actor != HttpWait) && (reply != Ok ==> after == db)
      && (reply == Ok ==>
        var row := RowAt(db, t).(status := TxDropped, updatedAt := now);
        after == With(db, t.owner, Moved(db.payments[t.owner], [row], to, actor, now)))
  {
    hide AllSound, Sound, HashFree, NoOtherActive;
    if Hit(db, t, {TxIntent}) {
      StateOf(c, db, t);
      NoneIsFree(db.payments, t);
      OnlyRow(db, t);
      WithIsCommit(db, t.owner, Move(Put(db.payments[t.owner], t.index, StatusRow(RowAt(db, t), TxDropped, now)), to,
                                     actor, now));
    }
  }

  // ---------------------------------------------------------------- confirmation

  /** A sighting writes the block on a live row, keeps the time of the first one, and moves
      the payment exactly if it was broadcast or replaced, whether or not the row was live. */
  lemma SightingCommits(c: Config, db: Db, t: TxRef, block: Block, actor: Actor, now: Time)
    requires AllSound(c, db) && t.owner < |db.payments|
    ensures var (after, reply) := MarkTxConfirming(db, t, block, actor, now);
      var P := db.payments[t.owner];
      var moves, live := P.state in {Broadcast, Replaced}, Hit(db, t, {TxBroadcast, TxConfirming});
      && (reply == Ok <==> !(moves && actor == HttpWait)) && (reply != Ok ==> after == db)
      && (reply == Ok ==>
        var rows := if !live then P.rows else
          var r := RowAt(db, t);
          P.rows[t.index := r.(status := TxConfirming, block := Some(block), updatedAt := now,
                               firstSeenAt := if r.firstSeenAt.None? then Some(now) else r.firstSeenAt)];
        after == With(db, t.owner, if moves then Moved(P, rows, Confirming, actor, now) else P.(rows := rows)))
  {
    hide AllSound, Sound, HashFree, NoOtherActive;
    var P := db.payments[t.owner];
    if Hit(db, t, {TxBroadcast, TxConfirming}) {
      AloneIfActive(c, db, t);
      HashIsFree(c, db, t);
    }
    WithIsCommit(db, t.owner, MarkTxConfirming(db, t, block, actor, now).0.payments[t.owner]);
  }

  /** An outcome is recorded, once, exactly on a live row of a pending payment, with the block
      and gas it was seen with; recording it again succeeds without writing. */
  lemma SuccessCommits(c: Config, db: Db, t: TxRef, block: Block, gas: Gas, actor: Actor, now: Time)
    requires AllSound(c, db)
    ensures var (after, reply) := MarkTxConfirmed(db, t, block, gas, actor, now);
      var live := Hit(db, t, {TxBroadcast, TxConfirming}) &&
        db.payments[t.owner].state in {Broadcast, Confirming, Replaced};
      && (reply == Ok <==> (live && actor != HttpWait) || Hit(db, t, {TxConfirmed}))
      && (!(live && reply == Ok) ==> after == db)
      && (live && reply == Ok ==>
        var P := db.payments[t.owner];
        var row := RowAt(db, t).(status := TxConfirmed, block := Some(block), gas := Some(gas), updatedAt := now);
        after == With(db, t.owner, Moved(P, P.rows[t.index := row], Confirmed, actor, now).(confirmedAt := Some(now))))
  {
    hide AllSound, Sound, HashFree, NoOtherActive;
    if t.owner < |db.payments| && t.index < |db.payments[t.owner].rows| {
      StateOf(c, db, t);
      HashIsFree(c, db, t);
      WithIsCommit(db, t.owner, MarkTxConfirmed(db, t, block, gas, actor, now).0.payments[t.owner]);
    }
  }

  lemma RevertCommits(c: Config, db: Db, t: TxRef, gas: Gas, actor: Actor, now: Time)
    requires AllSound(c, db)
    ensures var (after, reply) := MarkTxReverted(db, t, gas, actor, now);
      var live := Hit(db, t, {TxBroadcast, TxConfirming}) &&
        db.payments[t.owner].state in {Broadcast, Confirming, Replaced};
      && (reply == Ok <==>
          (live && actor != HttpWait) || (Hit(db, t, {TxReverted}) && db.payments[t.owner].state == Reverted))
      && (!(live && reply == Ok) ==> after == db)
      && (live && reply == Ok ==>
        var P := db.payments[t.owner];
        var row := RowAt(db, t).(status := TxReverted, gas := Some(gas), updatedAt := now);
        after == With(db, t.owner, Moved(P, P.rows[t.index := row], Reverted, actor, now)))
  {
    hide AllSound, Sound, HashFree, NoOtherActive;
    if t.owner < |db.payments| && t.index < |db.payments[t.owner].rows| {
      HashIsFree(c, db, t);
      WithIsCommit(db, t.owner, MarkTxReverted(db, t, gas, actor, now).0.payments[t.owner]);
    }
  }

  /** A sighting is unwound exactly on the confirming row of a confirming payment; only the
      block is forgotten. */
  lemma UnwindingCommits(c: Config, db: Db, t: TxRef, actor: Actor, now: Time)
    requires AllSound(c, db)
    ensures var (after, reply) := MarkTxReorgedOut(db, t, actor, now);
      && (reply == Ok <==>
          Hit(db, t, {TxConfirming}) && db.payments[t.owner].state == Confirming && actor != HttpWait)
      && (reply != Ok ==> after == db)
      && (reply == Ok ==>
        var P := db.payments[t.owner];
        var row := RowAt(db, t).(status := TxBroadcast, block := None, updatedAt := now);
        after == With(db, t.owner, Moved(P, P.rows[t.index := row], Broadcast, actor, now)))
  {
    hide AllSound, Sound, HashFree, NoOtherActive;
    if Hit(db, t, {TxConfirming}) {
      AloneIfActive(c, db, t);
      HashIsFree(c, db, t);
      WithIsCommit(db, t.owner, MarkTxReorgedOut(db, t, actor, now).0.payments[t.owner]);
    }
  }

  // -------------------------------------------------------------------- recovery

  /** An ambiguous transaction is re-attached under the signature on record. */
  lemma ReattachmentCommits(c: Config, db: Db, t: TxRef, h: Signed, actor: Actor, now: Time)
    requires AllSound(c, db) && (Hit(db, t, {TxAmbiguous}) ==> RowAt(db, t).rawHash == Some(h))
    ensures var (after, reply) := MarkTxRecoveredBroadcast(db, t, h, actor, now);
      && (reply == Ok <==> Hit(db, t, {TxAmbiguous}) && actor != HttpWait) && (reply != Ok ==> after == db)
      && (reply == Ok ==>
        var row := RowAt(db, t).(status := TxBroadcast, txHash := Some(h), attemptedAt := Some(now), updatedAt := now);
        after == With(db, t.owner, Moved(db.payments[t.owner], [row], Broadcast, actor, now)))
  {
    hide AllSound, Sound, HashFree, NoOtherActive;
    if Hit(db, t, {TxAmbiguous}) {
      StateOf(c, db, t);
      AloneIfActive(c, db, t);
      RawIsFree(c, db, t);
      OnlyRow(db, t);
      WithIsCommit(db, t.owner, MarkTxRecoveredBroadcast(db, t, h, actor, now).0.payments[t.owner]);
    }
  }

  /** The row a replacement inserts: the same nonce, broadcast now under its own hash. */
  function Successor(r: Row, h: Signed, sighash: Option<Signed>, bytes: Option<Signed>, now: Time): Row {
    r.(status := TxBroadcast, txHash := Some(h), rawHash := Some(h), sighash := sighash, bytes := bytes,
       terms := Some(h.terms), attemptedAt := Some(now), firstSeenAt := None, block := None, gas := None,
       replacedBy := None, updatedAt := now)
  }

  /** An ambiguous row is re-signed exactly with a signature that is not the one on record;
      that one stays, under its own hash, linked to the new row. */
  lemma ResigningCommits(c: Config, db: Db, t: TxRef, h: Signed, actor: Actor, now: Time)
    requires AllSound(c, db) && h.payment == t.owner
    ensures var (after, reply) := MarkTxAmbiguousReplaced(db, t, h, actor, now);
      && (reply == Ok <==> Hit(db, t, {TxAmbiguous}) && RowAt(db, t).rawHash != Some(h) && actor != HttpWait)
      && (reply != Ok ==> after == db)
      && (reply == Ok ==>
        var r := RowAt(db, t);
        var rows := [r.(status := TxReplaced, txHash := r.rawHash, replacedBy := Some(1), updatedAt := now),
                     Successor(r, h, r.sighash, None, now)];
        after == With(db, t.owner, Moved(db.payments[t.owner], rows, Replaced, actor, now)))
  {
    hide AllSound, Sound, CanSupersede;
    if Hit(db, t, {TxAmbiguous}) {
      var r := RowAt(db, t);
      StateOf(c, db, t);
      OnlyRow(db, t);
      SupersedesExactly(c, db, t, r.(status := TxReplaced, txHash := r.rawHash, updatedAt := now),
                        Heir(r, h, r.sighash, None, now));
      var gone := r.(status := TxReplaced, txHash := r.rawHash, updatedAt := now);
      var heir := Heir(r, h, r.sighash, None, now);
      assert Supersede(db.payments[t.owner], 0, gone, heir).rows == [gone.(replacedBy := Some(1)), heir];
      assert NewTo(db.payments[t.owner].rows, h) <==> r.rawHash != Some(h);
      WithIsCommit(db, t.owner, MarkTxAmbiguousReplaced(db, t, h, actor, now).0.payments[t.owner]);
    }
  }

  /** A broadcast row is replaced exactly while its payment is broadcast or replaced, by a
      signature that is new to it; the first replacement is audited, later ones are not. */
  lemma ReplacingCommits(c: Config, db: Db, t: TxRef, h: Signed, actor: Actor, now: Time)
    requires AllSound(c, db) && h.payment == t.owner
    ensures var (after, reply) := MarkTxReplaced(db, t, h, actor, now);
      && (reply == Ok <==>
        && Hit(db, t, {TxBroadcast}) && db.payments[t.owner].state in {Broadcast, Replaced}
        && NewTo(db.payments[t.owner].rows, h) && (db.payments[t.owner].state == Broadcast ==> actor != HttpWait))
      && (reply != Ok ==> after == db)
      && (reply == Ok ==>
        var P, r := db.payments[t.owner], RowAt(db, t);
        var gone := r.(status := TxReplaced, replacedBy := Some(|P.rows|), updatedAt := now);
        var rows := P.rows[t.index := gone] + [Successor(r, h, None, None, now)];
        after == With(db, t.owner, if P.state == Broadcast then Moved(P, rows, Replaced, actor, now)
                                   else P.(rows := rows, updatedAt := now)))
  {
    hide AllSound, Sound, CanSupersede;
    if Hit(db, t, {TxBroadcast}) {
      var r := RowAt(db, t);
      StateOf(c, db, t);
      SupersedesExactly(c, db, t, StatusRow(r, TxReplaced, now), Heir(r, h, None, None, now));
      WithIsCommit(db, t.owner, MarkTxReplaced(db, t, h, actor, now).0.payments[t.owner]);
    }
  }

  /** A replaced original lands exactly while its payment is pending; a success only while it
      is not already confirming. The active replacement is dropped. */
  lemma LandingCommits(c: Config, db: Db, t: TxRef, succeeded: bool, block: Block, gas: Gas, actor: Actor, now: Time)
    requires AllSound(c, db)
    ensures var (after, reply) := MarkReplacementLanded(db, t, succeeded, block, gas, actor, now);
      && (reply == Ok <==>
        && Hit(db, t, {TxReplaced}) && db.payments[t.owner].state in {Broadcast, Confirming, Replaced}
        && (succeeded ==> db.payments[t.owner].state != Confirming) && actor != HttpWait)
      && (reply != Ok ==> after == db)
      && (reply == Ok ==>
        var P, r := db.payments[t.owner], RowAt(db, t);
        var row := if succeeded
          then r.(status := TxConfirming, block := Some(block), updatedAt := now,
                  firstSeenAt := if r.firstSeenAt.None? then Some(now) else r.firstSeenAt)
          else r.(status := TxReverted, gas := Some(gas), updatedAt := now);
        var rows := seq(|P.rows|, i requires 0 <= i < |P.rows| =>
          if i == t.index then row
          else if Active(P.rows[i]) then P.rows[i].(status := TxDropped, updatedAt := now) else P.rows[i]);
        after == With(db, t.owner, Moved(P, rows, if succeeded then Confirming else Reverted, actor, now)))
  {
    hide AllSound, Sound;
    if Hit(db, t, {TxReplaced}) {
      var P, r := db.payments[t.owner], RowAt(db, t);
      SoundAt(c, db, t.owner);
      if P.state in {Broadcast, Confirming, Replaced} { PendingHasOne(P, Owner(t.owner, c.cap)); }
      WithIsCommit(db, t.owner, MarkReplacementLanded(db, t, succeeded, block, gas, actor, now).0.payments[t.owner]);
      assert DropActive(P.rows, now)[t.index := LandedRow(r, succeeded, block, gas, now)] ==
        seq(|P.rows|, i requires 0 <= i < |P.rows| =>
          if i == t.index then LandedRow(r, succeeded, block, gas, now)
          else if Active(P.rows[i]) then P.rows[i].(status := TxDropped, updatedAt := now) else P.rows[i]);
    }
  }

  lemma PendingHasOne(P: Payment, p: Owner)
    requires Sound(P, p) && P.state in {Broadcast, Confirming, Replaced}
    ensures ExactlyOneActive(P.rows)
  {
    hide RowsSound, DropsJustified, RecordSound, Audited;
    if OneLive(P.rows, TxConfirming, SUPERSEDED) {
      var a :| LiveAt(P.rows, a, TxConfirming, SUPERSEDED);
      assert Active(P.rows[a]) && NoOtherActive(P.rows, a);
    } else {
      var a :| LiveAt(P.rows, a, TxBroadcast, SUPERSEDED);
      assert Active(P.rows[a]) && NoOtherActive(P.rows, a);
    }
  }

  // ------------------------------------------------------------------ gap fillers

  /** A dropped row becomes a filler exactly if its payment has no active row and the
      signature is new to every other row. */
  lemma PreparingCommits(c: Config, db: Db, t: TxRef, h: Signed, now: Time)
    requires AllSound(c, db) && h.payment == t.owner
    requires Hit(db, t, {TxDropped}) ==> NewTo(db.payments[t.owner].rows, h)
    ensures var (after, reply) := MarkGapFillerPrepared(db, t, h, now);
      && (reply == Ok <==> Hit(db, t, {TxDropped}) && !HasActive(db.payments[t.owner].rows))
      && (reply != Ok ==> after == db)
      && (reply == Ok ==>
        var P := db.payments[t.owner];
        var row := RowAt(db, t).(status := TxBroadcast, rawHash := Some(h), txHash := Some(h), bytes := Some(h),
                                 terms := Some(h.terms), attemptedAt := Some(now), updatedAt := now);
        after == With(db, t.owner, P.(rows := P.rows[t.index := row])))
  {
    hide AllSound, Sound;
    if Hit(db, t, {TxDropped}) {
      NewIsFree(c, db, h);
      WithIsCommit(db, t.owner, MarkGapFillerPrepared(db, t, h, now).0.payments[t.owner]);
    }
  }

  /** A filler is replaced exactly while it is broadcast, by a new signature whose bytes are
      kept; the payment itself is left alone. */
  lemma RefillingCommits(c: Config, db: Db, t: TxRef, h: Signed, now: Time)
    requires AllSound(c, db) && h.payment == t.owner
    ensures var (after, reply) := MarkGapFillerReplaced(db, t, h, now);
      && (reply == Ok <==>
        Hit(db, t, {TxBroadcast}) && RowAt(db, t).bytes.Some? && NewTo(db.payments[t.owner].rows, h))
      && (reply != Ok ==> after == db)
      && (reply == Ok ==>
        var P, r := db.payments[t.owner], RowAt(db, t);
        var gone := r.(status := TxReplaced, replacedBy := Some(|P.rows|), updatedAt := now);
        after == With(db, t.owner,
                      P.(rows := P.rows[t.index := gone] + [Successor(r, h, None, Some(h), now)])))
  {
    hide AllSound, Sound, CanSupersede;
    if Hit(db, t, {TxBroadcast}) {
      var r := RowAt(db, t);
      StateOf(c, db, t);
      SupersedesExactly(c, db, t, StatusRow(r, TxReplaced, now), Heir(r, h, None, Some(h), now));
      WithIsCommit(db, t.owner, MarkGapFillerReplaced(db, t, h, now).0.payments[t.owner]);
    }
  }

  /** Row `k` takes over and every other signature that could still be mined is dropped. */
  function Alone(rows: seq<Row>, k: nat, row: Row, now: Time): seq<Row> {
    seq(|rows|, i requires 0 <= i < |rows| =>
      if i == k then row
      else if rows[i].status in {TxBroadcast, TxReplaced} then rows[i].(status := TxDropped, updatedAt := now)
      else rows[i])
  }

  /** A mined filler is retired exactly while it is broadcast or replaced. */
  lemma ResolvingCommits(c: Config, db: Db, t: TxRef, gas: Gas, now: Time)
    requires AllSound(c, db)
    ensures var (after, reply) := MarkGapFillerResolved(db, t, gas, now);
      && (reply == Ok <==> Hit(db, t, {TxBroadcast, TxReplaced})) && (reply != Ok ==> after == db)
      && (reply == Ok ==>
        var P := db.payments[t.owner];
        var row := RowAt(db, t).(status := TxReverted, gas := Some(gas), updatedAt := now);
        after == With(db, t.owner, P.(rows := Alone(P.rows, t.index, row, now))))
  {
    hide AllSound, Sound, HashFree, NoOtherActive;
    if Hit(db, t, {TxBroadcast, TxReplaced}) {
      var P, row := db.payments[t.owner], RevertedRow(RowAt(db, t), gas, now);
      HashIsFree(c, db, t);
      WithIsCommit(db, t.owner, MarkGapFillerResolved(db, t, gas, now).0.payments[t.owner]);
      assert DropSiblings(P.rows[t.index := row], t.index, now) == Alone(P.rows, t.index, row, now);
    }
  }

  /** A mined success of a filler is escalated, with its block and gas, exactly for the
      broadcast filler of an expired payment. */
  lemma EscalatingCommits(c: Config, db: Db, t: TxRef, block: Block, gas: Gas, actor: Actor, now: Time)
    requires AllSound(c, db)
    ensures var (after, reply) := MarkGapFillerSucceeded(db, t, block, gas, actor, now);
      && (reply == Ok <==> Hit(db, t, {TxBroadcast}) && db.payments[t.owner].state == Expired && actor != HttpWait)
      && (reply != Ok ==> after == db)
      && (reply == Ok ==>
        var P, r := db.payments[t.owner], RowAt(db, t);
        var row := r.(status := TxConfirming, block := Some(block), gas := Some(gas), updatedAt := now,
                      firstSeenAt := if r.firstSeenAt.None? then Some(now) else r.firstSeenAt);
        after == With(db, t.owner, Moved(P, Alone(P.rows, t.index, row, now), ManualReview, actor, now)))
  {
    hide AllSound, Sound, HashFree, NoOtherActive;
    if Hit(db, t, {TxBroadcast, TxReplaced}) {
      var P, row := db.payments[t.owner], ConfirmingRow(RowAt(db, t), block, now).(gas := Some(gas));
      HashIsFree(c, db, t);
      ReplacedHasHeir(c, db, t);
      if Hit(db, t, {TxBroadcast}) { AloneIfActive(c, db, t); }
      WithIsCommit(db, t.owner, MarkGapFillerSucceeded(db, t, block, gas, actor, now).0.payments[t.owner]);
      assert DropSiblings(P.rows[t.index := row], t.index, now) == Alone(P.rows, t.index, row, now);
    }
  }

  lemma ReplacedHasHeir(c: Config, db: Db, t: TxRef)
    requires AllSound(c, db) && t.owner < |db.payments| && t.index < |db.payments[t.owner].rows|
    ensures RowAt(db, t).status == TxReplaced && db.payments[t.owner].state == Expired ==>
      !NoOtherActive(db.payments[t.owner].rows, t.index)
  {
    hide AllSound, Sound;
    SoundAt(c, db, t.owner);
    if RowAt(db, t).status == TxReplaced && db.payments[t.owner].state == Expired {
      FillersOnly(db.payments[t.owner], Owner(t.owner, c.cap), t.index);
      var a :| LiveAt(db.payments[t.owner].rows, a, TxBroadcast, {TxReplaced});
      assert Active(db.payments[t.owner].rows[a]);
    }
  }

  // ---------------------------------------------------------------- the listings

  /** What recovery's queries list in a reachable database: replaced rows of pending payments,
      fillers of retired ones, the stuck among those that are still broadcast, and gaps that
      are due and hold a later nonce up. */
  lemma ListingsExactly(c: Config, db: Db, t: TxRef, signer: Address, at: Time)
    requires AllSound(c, db) && t.owner < |db.payments| && t.index < |db.payments[t.owner].rows|
    ensures var P, r := db.payments[t.owner], RowAt(db, t);
      && (WatchedReplacement(db, t) <==> r.status == TxReplaced && P.state in {Broadcast, Confirming, Replaced})
      && (WatchedFiller(db, t) <==> r.status in {TxBroadcast, TxReplaced} && Retired(P))
      && (StuckFiller(db, signer, at, t) <==>
        && r.status == TxBroadcast && Retired(P) && r.signer == signer
        && r.attemptedAt.Some? && at > r.attemptedAt.value)
      && (BlockingGap(db, signer, at, t) <==>
        && OpenGap(P) && r.signer == signer && P.validBefore.value <= at
        && exists q, j | 0 <= q < |db.payments| && 0 <= j < |db.payments[q].rows| ::
             var later := db.payments[q].rows[j];
             Active(later) && later.signer == signer && later.nonce > r.nonce)
  {
    hide AllSound, Sound;
    SoundAt(c, db, t.owner);
    GapRow(db.payments[t.owner], Owner(t.owner, c.cap), t.index);
    if Retired(db.payments[t.owner]) && RowAt(db, t).status in {TxBroadcast, TxReplaced} {
      FillersOnly(db.payments[t.owner], Owner(t.owner, c.cap), t.index);
    }
  }

  lemma GapRow(P: Payment, p: Owner, i: nat)
    requires Sound(P, p) && i < |P.rows|
    ensures OpenGap(P) <==>
      P.rows[i].status == TxDropped && P.rows[i].rawHash.None? && Retired(P) && P.validBefore.Some?
  {
    hide DropsJustified, RecordSound, Audited;
    assert RowSound(P.rows[i], p);
  }

  // --------------------------------------------------------------- the signatures

  /** A first signature is for the row it was read from: its nonce, its signer, its payment,
      the configured gas limit and tip, and the fees estimated under the configured ceiling. */
  lemma FirstSignature(c: Config, seen: Db, who: nat, t: TxRef, baseFee: int, salt: nat, now: Time)
    ensures var h := Signature(c, seen, Sign(who, t, baseFee, salt, now));
      && (h.Some? <==> Hit(seen, t, {TxIntent}) && c.cap.maxFee > 0 && baseFee >= 0 && baseFee + c.tip > 0)
      && (h.Some? ==>
        && h.value.signer == RowAt(seen, t).signer && h.value.nonce == RowAt(seen, t).nonce
        && h.value.payment == t.owner && h.value.salt == salt && h.value.terms.gasLimit == c.cap.gasLimit
        && h.value.terms.maxFee == F.Min(2 * baseFee + c.tip, c.cap.maxFee)
        && h.value.terms.tip == F.Min(c.tip, h.value.terms.maxFee))
  {
  }

  /** A filler is signed like a first signature, for a gap that blocks. */
  lemma FillerSignature(c: Config, seen: Db, who: nat, t: TxRef, cutoff: Time, baseFee: int, salt: nat, now: Time)
    ensures var h := Signature(c, seen, Prepare(who, t, cutoff, baseFee, salt, now));
      && (h.Some? <==>
          BlockingGap(seen, c.signer, cutoff, t) && c.cap.maxFee > 0 && baseFee >= 0 && baseFee + c.tip > 0)
      && (h.Some? ==>
        && h.value.signer == c.signer && h.value.nonce == RowAt(seen, t).nonce
        && h.value.payment == t.owner && h.value.salt == salt && h.value.terms.gasLimit == c.cap.gasLimit
        && h.value.terms.maxFee == F.Min(2 * baseFee + c.tip, c.cap.maxFee)
        && h.value.terms.tip == F.Min(c.tip, h.value.terms.maxFee))
  {
    hide LaterInFlight;
  }

  /** A re-signature is the transaction on record, under another salt. */
  lemma RepeatedSignature(c: Config, seen: Db, who: nat, t: TxRef, salt: nat, actor: Actor, now: Time)
    requires AllSound(c, seen)
    ensures var h := Signature(c, seen, Resign(who, t, salt, actor, now));
      && (h.Some? <==> Hit(seen, t, {TxAmbiguous}) && RowAt(seen, t).rawHash.value.salt != salt)
      && (h.Some? ==> h.value == RowAt(seen, t).rawHash.value.(salt := salt))
  {
    hide AllSound, Sound;
    if Hit(seen, t, {TxAmbiguous}) {
      StateOf(c, seen, t);
      SoundAt(c, seen, t.owner);
      RowOf(seen.payments[t.owner], Owner(t.owner, c.cap), t.index);
    }
  }

  /** A replacement is the transaction on record with the cheapest fees that outbid it, made
      exactly for a row attempted before the cutoff whose fees leave room. */
  lemma BumpedSignature(c: Config, seen: Db, who: nat, t: TxRef, since: Time, baseFee: int, salt: nat, actor: Actor,
                        now: Time)
    requires AllSound(c, seen)
    ensures var h := Signature(c, seen, Replace(who, t, since, baseFee, salt, actor, now));
      var due := Hit(seen, t, {TxBroadcast}) && RowAt(seen, t).attemptedAt.Some? &&
        RowAt(seen, t).attemptedAt.value < since;
      Outbidding(c, seen, t, baseFee, salt, h, due)
  {
    hide AllSound, Sound, F.Bump, Correlated, Lineage;
    if Hit(seen, t, {TxBroadcast}) { BroadcastRowOf(c, seen, t); }
  }

  /** So is the replacement of a filler, made exactly for a listed one. */
  lemma BumpedFiller(c: Config, seen: Db, who: nat, t: TxRef, since: Time, baseFee: int, salt: nat, now: Time)
    requires AllSound(c, seen)
    ensures var h := Signature(c, seen, BumpFiller(who, t, since, baseFee, salt, now));
      Outbidding(c, seen, t, baseFee, salt, h, StuckFiller(seen, c.signer, since, t))
  {
    hide AllSound, Sound, F.Bump;
    if Hit(seen, t, {TxBroadcast}) { BroadcastRowOf(c, seen, t); }
  }

  lemma BroadcastRowOf(c: Config, db: Db, t: TxRef)
    requires AllSound(c, db) && Hit(db, t, {TxBroadcast})
    ensures var r := RowAt(db, t);
      && r.rawHash.Some? && r.terms == Some(r.rawHash.value.terms) && r.rawHash.value.nonce == r.nonce
      && r.rawHash.value.signer == r.signer && r.rawHash.value.payment == t.owner
  {
    hide AllSound, Sound;
    SoundAt(c, db, t.owner);
    RowOf(db.payments[t.owner], Owner(t.owner, c.cap), t.index);
  }

  ghost predicate Outbidding(c: Config, seen: Db, t: TxRef, baseFee: int, salt: nat, h: Option<Signed>, due: bool) {
    if !(due && Hit(seen, t, {TxBroadcast}) && RowAt(seen, t).rawHash.Some?) then h.None? else
    var prior := RowAt(seen, t).rawHash.value;
    var fee := F.Bump(F.FeePair(prior.terms.maxFee, prior.terms.tip), baseFee, c.cap.maxFee);
    && (h.Some? <==> prior.terms.gasLimit > 0 && fee.Some?)
    && (h.Some? ==>
        h.value == prior.(terms := Terms(prior.terms.gasLimit, fee.value.maxFee, fee.value.tip), salt := salt))
  }

  // ------------------------------------------------------------------- admission

  /** What an admission leaves: a refused or duplicate request only its attempt, under the
      payment it found; an accepted one also the signer's next nonce on one unsigned row, the
      payment broadcasting from now on under the payer's signature, and its audit edge. */
  lemma AdmissionCommits(c: Config, db: Db, q: IntentRequest)
    requires AllSound(c, db)
    ensures var (after, reply) := CreateIntent(db, q);
      var found := Lookup(db.payments, q.identity);
      match reply
      case Fault => after == db
      case Refuse(reason) => after == db.(attempts := db.attempts + [Attempt(found, Rejected(reason))])
      case Existing(row, _, _, _, _) =>
        Some(row.owner) == found && after == db.(attempts := db.attempts + [Attempt(found, Duplicate)])
      case Accept(intent, nonce) =>
        && found == Some(intent.owner) && intent.index == 0 && q.signer in db.nextNonce
        && nonce == db.nextNonce[q.signer]
        && var P := db.payments[intent.owner];
           var row := Row(TxIntent, q.signer, nonce, None, None, None, None, None, None, None, None, None, None, q.now);
           var taken := Moved(P, [row], Broadcasting, Http, q.now)
                        .(requestedAt := Some(q.now), signature := Some(q.signature));
           after == With(db, intent.owner, taken)
                    .(nextNonce := db.nextNonce[q.signer := nonce + 1],
                      attempts := db.attempts + [Attempt(found, Accepted)])
  {
    hide Sound, Kept;
    var (after, reply) := CreateIntent(db, q);
    if reply.Accept? {
      AcceptedIntentIsDurable(db, q, c.cap);
      var p := reply.intent.owner;
      WithIsCommit(db, p, after.payments[p]);
    }
  }

  // ------------------------------------------------- leases, retention, nonces

  /** A lease is granted exactly on an unerased payment that is free at the caller's time, and
      lasts from then for the duration asked for. */
  lemma LeaseCommits(c: Config, db: Db, p: PaymentId, worker: nat, duration: int, at: Time, now: Time)
    requires AllSound(c, db)
    ensures var (after, reply) := ClaimPayment(db, p, worker, duration, at, now);
      var there := duration > 0 && p < |db.payments|;
      && (reply == Ok <==>
        && there && db.payments[p].redactedAt.None?
        && (db.payments[p].claim.Some? ==> db.payments[p].claim.value.until <= at))
      && (reply == Constraint <==> there && db.payments[p].redactedAt.Some?)
      && (reply != Ok ==> after == db)
      && (reply == Ok ==>
        after == With(db, p, db.payments[p].(claim := Some(Ledger.Claim(worker, at + duration)), updatedAt := now)))
  {
    hide AllSound, Sound;
    if p < |db.payments| {
      ErasedIsFree(c, db, p);
      WithIsCommit(db, p, ClaimPayment(db, p, worker, duration, at, now).0.payments[p]);
    }
  }

  lemma ErasedIsFree(c: Config, db: Db, p: PaymentId)
    requires AllSound(c, db) && p < |db.payments|
    ensures db.payments[p].redactedAt.Some? ==> db.payments[p].claim.None?
  {
    assert Sound(db.payments[p], Owner(p, c.cap));
  }

  /** A lease is extended exactly by its own holder before it runs out, and given back exactly
      by its own holder. */
  lemma LeaseUpkeepCommits(db: Db, p: PaymentId, worker: nat, duration: int, at: Time)
    ensures var (after, reply) := RenewLease(db, p, worker, duration, at);
      var held := p < |db.payments| && db.payments[p].claim.Some? && db.payments[p].claim.value.holder == worker;
      && (reply == Ok <==> duration > 0 && held && at < db.payments[p].claim.value.until)
      && (reply != Ok ==> after == db)
      && (reply == Ok ==> after == With(db, p, db.payments[p].(claim := Some(Ledger.Claim(worker, at + duration)))))
    ensures var (after, reply) := ReleaseLease(db, p, worker, at);
      var held := p < |db.payments| && db.payments[p].claim.Some? && db.payments[p].claim.value.holder == worker;
      && (reply == Ok <==> held) && (reply != Ok ==> after == db)
      && (reply == Ok ==> after == With(db, p, db.payments[p].(claim := None, updatedAt := at)))
  {
    if p < |db.payments| {
      WithIsCommit(db, p, RenewLease(db, p, worker, duration, at).0.payments[p]);
      WithIsCommit(db, p, ReleaseLease(db, p, worker, at).0.payments[p]);
    }
  }

  /** Retention expires exactly what was verified and ran out, and erases exactly what is
      settled or retired, ran out and has rested since before the cutoff. Erasing forgets who
      paid whom and what was signed, and nothing else. */
  lemma RetentionCommits(seen: Db, db: Db, p: PaymentId, cutoff: Time, now: Time)
    requires p < |db.payments|
    ensures var P := db.payments[p];
      Write(seen, db, ExpireStale(p, now)) ==
        if P.state == Verified && P.validBefore.Some? && P.validBefore.value < now
        then With(db, p, Moved(P, P.rows, Expired, System, now)) else db
    ensures var P := db.payments[p];
      var rested := if P.confirmedAt.Some? then P.confirmedAt.value else P.updatedAt;
      Write(seen, db, Erase(p, cutoff, now)) ==
        if && P.redactedAt.None? && P.validBefore.Some? && P.validBefore.value < cutoff && rested < cutoff
           && (|| P.state in {Confirmed, Reverted, VerificationFailed}
               || (P.state in {Failed, Expired} && forall r | r in P.rows :: r.status == TxReverted))
        then With(db, p, P.(merchant := None, authorization := None, validBefore := None, signature := None,
                            claim := None, redactedAt := Some(now), updatedAt := now, rows := Forgotten(P.rows, now)))
        else db
  {
    var P := db.payments[p];
    WithIsCommit(db, p, Expire(P, now));
    WithIsCommit(db, p, Redact(P, now));
    assert ClearBytes(P.rows, now) == Forgotten(P.rows, now);
    assert (forall i | 0 <= i < |P.rows| :: P.rows[i].status == TxReverted) <==>
      forall r | r in P.rows :: r.status == TxReverted;
  }

  function Forgotten(rows: seq<Row>, now: Time): seq<Row> {
    seq(|rows|, i requires 0 <= i < |rows| =>
      if rows[i].bytes.None? then rows[i] else rows[i].(bytes := None, updatedAt := now))
  }

  /** Seeding sets a signer's counter to the greater of the chain's count and its own, and
      touches nothing else. */
  lemma SeedingCommits(db: Db, signer: Address, chainNonce: nat)
    ensures var after := SeedSignerAccount(db, signer, chainNonce);
      && after == db.(nextNonce := after.nextNonce) && after.nextNonce.Keys == db.nextNonce.Keys + {signer}
      && (forall s | s in db.nextNonce && s != signer :: after.nextNonce[s] == db.nextNonce[s])
      && after.nextNonce[signer] >= chainNonce
      && (signer in db.nextNonce ==> after.nextNonce[signer] >= db.nextNonce[signer])
      && (after.nextNonce[signer] == chainNonce ||
          (signer in db.nextNonce && after.nextNonce[signer] == db.nextNonce[signer]))
  {
  }

  /** A verification is recorded exactly once per identity, and only if no live record has
      taken its authorization. */
  lemma VerificationCommits(db: Db, identity: nat, authorization: nat, merchant: Option<MerchantId>, validBefore: Time,
                            now: Time)
    ensures var (after, reply) :=
        RecordVerification(db, identity, authorization, merchant, validBefore, now);
      var known := exists p | 0 <= p < |db.payments| :: db.payments[p].identity == identity;
      var taken := exists p | 0 <= p < |db.payments| :: db.payments[p].authorization == Some(authorization);
      && (reply == Ok <==> known || !taken) && (reply == Constraint <==> !known && taken)
      && (known || taken ==> after == db)
      && (!known && !taken ==>
        && after == db.(payments := after.payments) && |after.payments| == |db.payments| + 1
        && after.payments[..|db.payments|] == db.payments
        && var P := after.payments[|db.payments|];
           && P.identity == identity && P.state == Verified && P.merchant == merchant
           && P.authorization == Some(authorization) && P.validBefore == Some(validBefore) && P.updatedAt == now
           && P.signature.None? && P.requestedAt.None? && P.confirmedAt.None? && P.claim.None? && P.redactedAt.None?
           && P.rows == [] && P.log == [Edge(Received, Verified, Http)])
  {
  }
}

/** Each committed store step keeps a payment sound and only ever adds to its
    history. The lemmas are about one payment: no step touches two. */
module Preservation {
  import opened PaymentStates
  import opened Ledger
  import opened Steps

  /** A signature made for row `r` of payment `p`: the signer is always handed the
      row's own nonce, and fees under the configured ceiling. */
  predicate Fits(h: Signed, r: Row, p: Owner) {
    h.nonce == r.nonce && h.signer == r.signer && h.payment == p.payment && Within(h.terms, p.cap)
  }

  // -------------------------------------------------------------- one row

  /** The status the live row of a payment in `state` has. */
  function LiveStatus(state: State): Status {
    match state
    case Confirming => TxConfirming
    case Confirmed => TxConfirmed
    case Reverted => TxReverted
    case _ => TxBroadcast
  }

  lemma MoveAudited(P: Payment, Q: Payment, to: State, actor: Actor, now: Time)
    requires Audited(P) && Q.log == P.log && Q.state == P.state && (Q.rows != [] ==> P.rows != [])
    requires CanTransition(P.state, to) && to != Verified && actor != HttpWait
    ensures Audited(Move(Q, to, actor, now)) && P.log <= Move(Q, to, actor, now).log
  {
    TrailExtends(P.log, P.state, Edge(P.state, to, actor));
  }

  /** The row is rewritten without touching its signature or its attempt. */
  predicate SameSignature(r: Row, s: Row) {
    s.rawHash == r.rawHash && s.sighash == r.sighash && s.attemptedAt == r.attemptedAt &&
      (Unattempted(s) <==> Unattempted(r))
  }

  /** What a rewritten row must keep for the lineage to hold. */
  predicate Descends(rows: seq<Row>, i: nat, r: Row)
    requires i < |rows|
  {
    SameSignature(rows[i], r) || (|rows| == 1 && (r.attemptedAt.None? <==> Unattempted(r)))
  }

  lemma SameLineage(rows: seq<Row>, after: seq<Row>)
    requires Lineage(rows) && |after| == |rows| && forall k | 0 <= k < |rows| :: SameSignature(rows[k], after[k])
    ensures Lineage(after)
  {
    assert rows != [] ==> SameSignature(rows[0], after[0]);
    assert |rows| > 1 ==> SameSignature(rows[1], after[1]);
  }

  lemma PutLineage(rows: seq<Row>, i: nat, r: Row)
    requires Lineage(rows) && i < |rows| && Descends(rows, i, r)
    ensures Lineage(rows[i := r])
  {
    if SameSignature(rows[i], r) { SameLineage(rows, rows[i := r]); }
  }

  /** Rewriting one row keeps the family when the new row is sound and kept. */
  lemma PutRowsSound(rows: seq<Row>, p: Owner, i: nat, r: Row)
    requires RowsSound(rows, p) && i < |rows|
    requires RowSound(r, p) && RowKept(rows[i], r) && Descends(rows, i, r)
    requires r.status == TxReplaced ==> r.replacedBy.Some? && i < r.replacedBy.value < |rows|
    ensures RowsSound(rows[i := r], p) && RowsKept(rows, rows[i := r])
  {
    PutLineage(rows, i, r);
    hide Lineage, Descends;
  }

  predicate Mined(r: Row) { r.firstSeenAt.Some? || r.status == TxReverted }

  lemma PutDropsJustified(rows: seq<Row>, i: nat, r: Row)
    requires DropsJustified(rows) && i < |rows|
    requires Mined(rows[i]) ==> Mined(r)
    requires r.status == TxDropped && r.rawHash.Some? ==> SiblingMined(rows, i)
    ensures DropsJustified(rows[i := r])
  {
    var after := rows[i := r];
    forall k | 0 <= k < |after| && after[k].status == TxDropped && after[k].rawHash.Some?
      ensures SiblingMined(after, k)
    {
      assert SiblingMined(rows, k);
      var j :| 0 <= j < |rows| && j != k && Mined(rows[j]);
      assert Mined(after[j]);
    }
  }

  /** In an unresolved payment, a broadcast or confirming row is the active one. */
  lemma PendingIsLive(state: State, rows: seq<Row>, i: nat)
    requires Correlated(state, rows) && state in PENDING && i < |rows| && rows[i].status in {TxBroadcast, TxConfirming}
    ensures LiveAt(rows, i, rows[i].status, SUPERSEDED) && NoBytes(rows)
  {
    var s := if OneLive(rows, TxConfirming, SUPERSEDED) then TxConfirming else TxBroadcast;
    var a :| LiveAt(rows, a, s, SUPERSEDED);
    assert i == a;
  }

  /** A payment that reached confirmed is stamped with the time. */
  function Settled(P: Payment, now: Time): Payment {
    if P.state == Confirmed then P.(confirmedAt := Some(now)) else P
  }

  const UNSETTLED: set<State> := {Broadcasting, Broadcast, Confirming, Replaced, ManualReview}

  /** Puts the separately proved parts of a step that moves an unsettled payment together. */
  lemma MoveKeeps(P: Payment, p: Owner, rows: seq<Row>, to: State, actor: Actor, now: Time)
    requires Sound(P, p) && P.rows != [] && P.state in UNSETTLED && !Escalated(P)
    requires CanTransition(P.state, to) && to != Verified && actor != HttpWait
    requires P.state in PENDING ==> to in PENDING || to in {Confirmed, Reverted}
    requires rows != [] && RowsSound(rows, p) && RowsKept(P.rows, rows) && Correlated(to, rows) && DropsJustified(rows)
    ensures var Q := Settled(Move(P.(rows := rows), to, actor, now), now); Sound(Q, p) && Kept(P, Q)
  {
    hide RowsSound, RowsKept, Correlated, DropsJustified, Escalated, Trail;
    MoveAudited(P, P.(rows := rows), to, actor, now);
  }

  /** The same for a step that leaves the payment where it is. */
  lemma StayKeeps(P: Payment, p: Owner, rows: seq<Row>, now: Time)
    requires Sound(P, p) && P.rows != [] && P.state in PENDING
    requires rows != [] && RowsSound(rows, p) && RowsKept(P.rows, rows) && Correlated(P.state, rows) &&
      DropsJustified(rows)
    ensures var Q := P.(rows := rows, updatedAt := now); Sound(Q, p) && Kept(P, Q)
  {
    hide RowsSound, RowsKept, Correlated, DropsJustified, Escalated, Trail;
    NeverEscalated(P);
  }

  lemma NeverEscalated(P: Payment)
    requires P.state in PENDING || (P.rows != [] && NoBytes(P.rows))
    ensures !Escalated(P)
  {
    assert P.rows != [] ==> P.rows[0].bytes.None? || P.rows[0].bytes.Some?;
  }

  // ------------------------------------------------------- broadcast steps

  lemma SignedKeeps(P: Payment, p: Owner, i: nat, h: Signed, now: Time)
    requires Sound(P, p) && i < |P.rows| && P.rows[i].status == TxIntent && Fits(h, P.rows[i], p)
    ensures var Q := Put(P, i, SignedRow(P.rows[i], h, now)); Sound(Q, p) && Kept(P, Q)
  {
    SoleRow(P, i);
    PutRowsSound(P.rows, p, i, SignedRow(P.rows[i], h, now));
    PutDropsJustified(P.rows, i, SignedRow(P.rows[i], h, now));
  }

  /** Intents, unrecorded broadcasts and ambiguous rows are their payment's only row. */
  lemma SoleRow(P: Payment, i: nat)
    requires Correlated(P.state, P.rows) && i < |P.rows| && P.rows[i].status in {TxIntent, TxBroadcasting, TxAmbiguous}
    ensures i == 0 && |P.rows| == 1 && NoBytes(P.rows)
    ensures P.state == if P.rows[i].status == TxAmbiguous then ManualReview else Broadcasting
  {
  }

  lemma BroadcastKeeps(P: Payment, p: Owner, i: nat, h: Signed, actor: Actor, now: Time)
    requires Sound(P, p) && i < |P.rows| && P.rows[i].status in {TxBroadcasting, TxAmbiguous} &&
      P.rows[i].rawHash == Some(h)
    requires actor != HttpWait
    ensures var Q := Move(Put(P, i, BroadcastRow(P.rows[i], h, now)), Broadcast, actor, now); Sound(Q, p) && Kept(P, Q)
  {
    var r := BroadcastRow(P.rows[i], h, now);
    SoleRow(P, i);
    PutRowsSound(P.rows, p, i, r);
    PutDropsJustified(P.rows, i, r);
    NeverEscalated(P);
    assert LiveAt(P.rows[i := r], i, TxBroadcast, SUPERSEDED);
    MoveKeeps(P, p, P.rows[i := r], Broadcast, actor, now);
  }

  lemma AmbiguousKeeps(P: Payment, p: Owner, i: nat, actor: Actor, now: Time)
    requires Sound(P, p) && i < |P.rows| && P.rows[i].status == TxBroadcasting && actor != HttpWait
    ensures var Q := Move(Put(P, i, StatusRow(P.rows[i], TxAmbiguous, now)), ManualReview, actor, now);
      Sound(Q, p) && Kept(P, Q)
  {
    var r := StatusRow(P.rows[i], TxAmbiguous, now);
    SoleRow(P, i);
    PutRowsSound(P.rows, p, i, r);
    PutDropsJustified(P.rows, i, r);
    NeverEscalated(P);
    MoveKeeps(P, p, P.rows[i := r], ManualReview, actor, now);
  }

  lemma RetireKeeps(P: Payment, p: Owner, i: nat, to: State, actor: Actor, now: Time)
    requires Sound(P, p) && i < |P.rows| && P.rows[i].status == TxIntent
    requires to in {Expired, Failed} && actor != HttpWait
    ensures var Q := Move(Put(P, i, StatusRow(P.rows[i], TxDropped, now)), to, actor, now); Sound(Q, p) && Kept(P, Q)
  {
    var r := StatusRow(P.rows[i], TxDropped, now);
    SoleRow(P, i);
    PutRowsSound(P.rows, p, i, r);
    PutDropsJustified(P.rows, i, r);
    NeverEscalated(P);
    MoveKeeps(P, p, P.rows[i := r], to, actor, now);
  }

  // ---------------------------------------------------- confirmation steps

  lemma RowOf(P: Payment, p: Owner, i: nat)
    requires Sound(P, p) && i < |P.rows|
    ensures RowSound(P.rows[i], p)
  {
  }

  /** `s` is a sound rewriting of `r` that leaves its signature alone. */
  ghost predicate Rewrites(r: Row, s: Row, p: Owner) {
    RowSound(s, p) && RowKept(r, s) && SameSignature(r, s) && s.bytes == r.bytes && (Mined(r) ==> Mined(s))
  }

  lemma ObservedRow(r: Row, p: Owner, block: Block, gas: Gas, now: Time)
    requires RowSound(r, p) && r.status in {TxBroadcast, TxConfirming, TxReplaced} && r.rawHash.Some?
    ensures Rewrites(r, ConfirmedRow(r, block, gas, now), p) && Rewrites(r, RevertedRow(r, gas, now), p)
    ensures Rewrites(r, ConfirmingRow(r, block, now), p) &&
      Rewrites(r, ConfirmingRow(r, block, now).(gas := Some(gas)), p)
  {
  }

  lemma DisplacedRow(r: Row, p: Owner, now: Time)
    requires RowSound(r, p) && r.status in {TxBroadcast, TxConfirming, TxReplaced} && r.rawHash.Some?
    ensures Rewrites(r, StatusRow(r, TxDropped, now), p)
    ensures r.status == TxConfirming ==> Rewrites(r, ReorgedRow(r, now), p)
  {
  }

  lemma SentRow(r: Row, p: Owner)
    requires RowSound(r, p) && r.status in {TxBroadcast, TxConfirming, TxReplaced}
    ensures r.rawHash.Some?
  {
  }

  /** Moving the live row of an unresolved payment to the status of the payment's
      next state keeps it sound. */
  lemma LivePutKeeps(P: Payment, p: Owner, i: nat, r: Row, to: State, actor: Actor, now: Time)
    requires Sound(P, p) && P.state in PENDING && i < |P.rows| && P.rows[i].status in {TxBroadcast, TxConfirming}
    requires Rewrites(P.rows[i], r, p)
    requires CanTransition(P.state, to) && actor != HttpWait
    requires to in {Broadcast, Confirming, Confirmed, Reverted} && r.status == LiveStatus(to)
    ensures var Q := Settled(Move(Put(P, i, r), to, actor, now), now); Sound(Q, p) && Kept(P, Q)
  {
    hide RowSound, RowKept, RowsSound, RowsKept, DropsJustified, RecordSound, Audited;
    assert P.rows != [];
    PendingIsLive(P.state, P.rows, i);
    PutRowsSound(P.rows, p, i, r);
    PutDropsJustified(P.rows, i, r);
    LivePutCorrelated(P.rows, i, r, to);
    NeverEscalated(P);
    hide Correlated, Kept;
    MoveKeeps(P, p, P.rows[i := r], to, actor, now);
  }

  lemma LivePutCorrelated(rows: seq<Row>, i: nat, r: Row, to: State)
    requires i < |rows| && LiveAt(rows, i, rows[i].status, SUPERSEDED) && NoBytes(rows)
    requires to in {Broadcast, Confirming, Confirmed, Reverted} && r.status == LiveStatus(to) && r.bytes.None?
    ensures Correlated(to, rows[i := r]) && Sighted(to, rows[i := r])
  {
    assert LiveAt(rows[i := r], i, r.status, SUPERSEDED);
  }

  lemma ConfirmedKeeps(P: Payment, p: Owner, i: nat, block: Block, gas: Gas, actor: Actor, now: Time)
    requires Sound(P, p) && P.state in PENDING && i < |P.rows| && P.rows[i].status in {TxBroadcast, TxConfirming} &&
      actor != HttpWait
    ensures var R := Put(P, i, ConfirmedRow(P.rows[i], block, gas, now));
      var Q := Move(R, Confirmed, actor, now).(confirmedAt := Some(now));
            Sound(Q, p) && Kept(P, Q)
  {
    hide Sound, Kept, RowSound, Rewrites;
    RowOf(P, p, i);
    SentRow(P.rows[i], p);
    ObservedRow(P.rows[i], p, block, gas, now);
    LivePutKeeps(P, p, i, ConfirmedRow(P.rows[i], block, gas, now), Confirmed, actor, now);
  }

  lemma RevertedKeeps(P: Payment, p: Owner, i: nat, gas: Gas, actor: Actor, now: Time)
    requires Sound(P, p) && P.state in PENDING && i < |P.rows| && P.rows[i].status in {TxBroadcast, TxConfirming} &&
      actor != HttpWait
    ensures var Q := Move(Put(P, i, RevertedRow(P.rows[i], gas, now)), Reverted, actor, now); Sound(Q, p) && Kept(P, Q)
  {
    hide Sound, Kept, RowSound, Rewrites;
    RowOf(P, p, i);
    SentRow(P.rows[i], p);
    ObservedRow(P.rows[i], p, Block(0, 0), gas, now);
    LivePutKeeps(P, p, i, RevertedRow(P.rows[i], gas, now), Reverted, actor, now);
  }

  lemma ReorgedKeeps(P: Payment, p: Owner, i: nat, actor: Actor, now: Time)
    requires Sound(P, p) && P.state == Confirming && i < |P.rows| && P.rows[i].status == TxConfirming &&
      actor != HttpWait
    ensures var Q := Move(Put(P, i, ReorgedRow(P.rows[i], now)), Broadcast, actor, now); Sound(Q, p) && Kept(P, Q)
  {
    hide Sound, Kept, RowSound, Rewrites;
    RowOf(P, p, i);
    SentRow(P.rows[i], p);
    DisplacedRow(P.rows[i], p, now);
    LivePutKeeps(P, p, i, ReorgedRow(P.rows[i], now), Broadcast, actor, now);
  }

  lemma SightedKeeps(P: Payment, p: Owner, i: nat, block: Block, actor: Actor, now: Time)
    requires Sound(P, p) && P.state in {Broadcast, Replaced} && actor != HttpWait
    requires i < |P.rows| && P.rows[i].status in {TxBroadcast, TxConfirming}
    ensures var Q := Move(Put(P, i, ConfirmingRow(P.rows[i], block, now)), Confirming, actor, now);
      Sound(Q, p) && Kept(P, Q)
  {
    hide Sound, Kept, RowSound, Rewrites;
    RowOf(P, p, i);
    SentRow(P.rows[i], p);
    ObservedRow(P.rows[i], p, block, Gas(0, 0), now);
    LivePutKeeps(P, p, i, ConfirmingRow(P.rows[i], block, now), Confirming, actor, now);
  }

  /** A sighting of the live row of a payment that does not move: the row is confirming
      afterwards, with the block it was seen in. */
  lemma SightedAgainKeeps(P: Payment, p: Owner, i: nat, block: Block, now: Time)
    requires Sound(P, p) && P.state in {Confirming, ManualReview} && i < |P.rows| &&
      P.rows[i].status in {TxBroadcast, TxConfirming}
    ensures var Q := Put(P, i, ConfirmingRow(P.rows[i], block, now));
      Sound(Q, p) && Kept(P, Q) && Sighted(Q.state, Q.rows)
  {
    hide RowSound, RowKept, RowsSound, RowsKept, Correlated, DropsJustified, Trail;
    var r := ConfirmingRow(P.rows[i], block, now);
    RowOf(P, p, i);
    SentRow(P.rows[i], p);
    ObservedRow(P.rows[i], p, block, Gas(0, 0), now);
    PutRowsSound(P.rows, p, i, r);
    PutDropsJustified(P.rows, i, r);
    SightedAgainCorrelated(P.state, P.rows, i, r);
  }

  lemma SightedAgainCorrelated(state: State, rows: seq<Row>, i: nat, r: Row)
    requires Correlated(state, rows) && i < |rows| && state in {Confirming, ManualReview}
    requires rows[i].status in {TxBroadcast, TxConfirming} && r.status == TxConfirming && r.bytes == rows[i].bytes
    ensures Correlated(state, rows[i := r]) && Sighted(state, rows[i := r])
    ensures HasBytes(rows) ==> HasBytes(rows[i := r])
  {
    if state == Confirming {
      PendingIsLive(state, rows, i);
      LivePutCorrelated(rows, i, r, Confirming);
    } else {
      var a :| LiveAt(rows, a, TxConfirming, {TxDropped});
      assert LiveAt(rows[i := r], i, TxConfirming, {TxDropped});
    }
  }

  /** A stale sighting moves the payment and no row. */
  lemma BlindSightKeeps(P: Payment, p: Owner, actor: Actor, now: Time)
    requires Sound(P, p) && P.state in {Broadcast, Replaced} && actor != HttpWait
    ensures var Q := Move(P, Confirming, actor, now); Sound(Q, p) && Kept(P, Q) && !Sighted(Q.state, Q.rows)
  {
    NeverEscalated(P);
    MoveKeeps(P, p, P.rows, Confirming, actor, now);
    var a :| LiveAt(P.rows, a, TxBroadcast, SUPERSEDED);
    assert !Spent(P.rows[a], SUPERSEDED);
  }

  // ------------------------------------------------------ replacement steps

  function Superseded(rows: seq<Row>, i: nat, gone: Row, heir: Row): seq<Row>
    requires i < |rows|
  {
    rows[i := gone.(replacedBy := Some(|rows|))] + [heir]
  }

  /** No row of the payment records the signature yet. */
  predicate NewTo(rows: seq<Row>, h: Signed) {
    forall k | 0 <= k < |rows| :: rows[k].rawHash != Some(h)
  }

  /** What a replacement must keep: the signature it supersedes, a new hash, and the
      sighash exactly when it re-signs the only, ambiguous row. */
  predicate Succeeds(rows: seq<Row>, i: nat, gone: Row, heir: Row)
    requires i < |rows|
  {
    && gone.rawHash == rows[i].rawHash && gone.sighash == rows[i].sighash && gone.attemptedAt == rows[i].attemptedAt
    && heir.attemptedAt.Some? && heir.rawHash.Some? && NewTo(rows, heir.rawHash.value)
    && (Unattempted(rows[i]) ==> |rows| == 1)
    && (|rows| == 1 ==> (heir.sighash.Some? <==> Unattempted(rows[0])))
  }

  lemma SupersedeLineage(rows: seq<Row>, i: nat, gone: Row, heir: Row)
    requires Lineage(rows) && i < |rows| && Succeeds(rows, i, gone, heir) && gone.status == TxReplaced
    ensures Lineage(Superseded(rows, i, gone, heir))
  {
    var after, n := Superseded(rows, i, gone, heir), |rows|;
    assert forall k | 0 <= k < n :: after[k].rawHash == rows[k].rawHash && after[k].attemptedAt == rows[k].attemptedAt;
    assert after[n] == heir;
    if n > 1 {
      assert after[1].sighash == rows[1].sighash;
      assert Unattempted(after[0]) <==> Unattempted(rows[0]);
    }
  }

  lemma SupersedeRowsSound(rows: seq<Row>, p: Owner, i: nat, gone: Row, heir: Row)
    requires RowsSound(rows, p) && i < |rows| && Succeeds(rows, i, gone, heir)
    requires RowSound(gone, p) && RowKept(rows[i], gone) && gone.status == TxReplaced
    requires RowSound(heir, p) && heir.nonce == gone.nonce && heir.signer == gone.signer && heir.status == TxBroadcast
    ensures RowsSound(Superseded(rows, i, gone, heir), p) && RowsKept(rows, Superseded(rows, i, gone, heir))
  {
    SupersedeLineage(rows, i, gone, heir);
    hide Lineage, Succeeds;
  }

  lemma SupersedeDropsJustified(rows: seq<Row>, i: nat, gone: Row, heir: Row)
    requires DropsJustified(rows) && i < |rows| && rows[i].status != TxReverted
    requires gone.status == TxReplaced && gone.firstSeenAt == rows[i].firstSeenAt && heir.status == TxBroadcast
    ensures DropsJustified(Superseded(rows, i, gone, heir))
  {
    var after := Superseded(rows, i, gone, heir);
    forall k | 0 <= k < |after| && after[k].status == TxDropped && after[k].rawHash.Some?
      ensures SiblingMined(after, k)
    {
      assert k < |rows| && k != i && rows[k] == after[k];
      assert SiblingMined(rows, k);
      var j :| 0 <= j < |rows| && j != k && Mined(rows[j]);
      if j == i {
        assert Mined(rows[i]);
        assert after[i] == gone.(replacedBy := Some(|rows|));
        assert Mined(after[i]);
      } else {
        assert after[j] == rows[j] && Mined(after[j]);
      }
    }
  }

  lemma SupersedeLive(rows: seq<Row>, i: nat, gone: Row, heir: Row, s: Status, rest: set<Status>)
    requires i < |rows| && LiveAt(rows, i, s, rest) && TxReplaced in rest
    requires gone.status == TxReplaced && gone.rawHash.Some? && heir.status == TxBroadcast
    ensures OneLive(Superseded(rows, i, gone, heir), TxBroadcast, rest)
  {
    assert LiveAt(Superseded(rows, i, gone, heir), |rows|, TxBroadcast, rest);
  }

  /** The three row facts a replacement needs, at once. */
  lemma SupersedeKeepsRows(rows: seq<Row>, p: Owner, i: nat, gone: Row, heir: Row, s: Status, rest: set<Status>)
    requires RowsSound(rows, p) && DropsJustified(rows) && i < |rows| && LiveAt(rows, i, s, rest) && s != TxReverted
    requires Succeeds(rows, i, gone, heir)
    requires RowSound(gone, p) && RowKept(rows[i], gone) && gone.status == TxReplaced &&
      gone.firstSeenAt == rows[i].firstSeenAt
    requires RowSound(heir, p) && heir.nonce == gone.nonce && heir.signer == gone.signer && heir.status == TxBroadcast
    requires TxReplaced in rest
    ensures var after := Superseded(rows, i, gone, heir);
            RowsSound(after, p) && RowsKept(rows, after) && DropsJustified(after) && OneLive(after, TxBroadcast, rest)
  {
    SupersedeRowsSound(rows, p, i, gone, heir);
    SupersedeDropsJustified(rows, i, gone, heir);
    SupersedeLive(rows, i, gone, heir, s, rest);
  }

  lemma AmbiguousReplacedKeeps(P: Payment, p: Owner, i: nat, h: Signed, actor: Actor, now: Time)
    requires Sound(P, p) && i < |P.rows| && P.rows[i].status == TxAmbiguous && actor != HttpWait
    requires Fits(h, P.rows[i], p) && Some(Sighash(h)) == P.rows[i].sighash && NewTo(P.rows, h)
    ensures var r := P.rows[i];
            var gone := r.(status := TxReplaced, txHash := r.rawHash, updatedAt := now);
            var Q := Move(Supersede(P, i, gone, Heir(r, h, r.sighash, None, now)), Replaced, actor, now);
            Sound(Q, p) && Kept(P, Q)
  {
    var r := P.rows[i];
    var gone := r.(status := TxReplaced, txHash := r.rawHash, updatedAt := now);
    SoleRow(P, i);
    ResignedRows(P.rows, p, h, now);
    NeverEscalated(P);
    MoveKeeps(P, p, Superseded(P.rows, i, gone, Heir(r, h, r.sighash, None, now)), Replaced, actor, now);
  }

  lemma ResignedRows(rows: seq<Row>, p: Owner, h: Signed, now: Time)
    requires RowsSound(rows, p) && DropsJustified(rows) && NoBytes(rows) && |rows| == 1 && rows[0].status == TxAmbiguous
    requires Fits(h, rows[0], p) && Some(Sighash(h)) == rows[0].sighash && NewTo(rows, h)
    ensures var gone := rows[0].(status := TxReplaced, txHash := rows[0].rawHash, updatedAt := now);
            var after := Superseded(rows, 0, gone, Heir(rows[0], h, rows[0].sighash, None, now));
            RowsSound(after, p) && RowsKept(rows, after) && DropsJustified(after) && Correlated(Replaced, after)
  {
    var gone := rows[0].(status := TxReplaced, txHash := rows[0].rawHash, updatedAt := now);
    SupersedeKeepsRows(rows, p, 0, gone, Heir(rows[0], h, rows[0].sighash, None, now), TxAmbiguous, SUPERSEDED);
  }

  lemma ReplacedKeeps(P: Payment, p: Owner, i: nat, h: Signed, actor: Actor, now: Time)
    requires Sound(P, p) && P.state in {Broadcast, Replaced} && (P.state == Broadcast ==> actor != HttpWait)
    requires i < |P.rows| && P.rows[i].status == TxBroadcast && Fits(h, P.rows[i], p) && NewTo(P.rows, h)
    ensures var r := P.rows[i];
            var Q := MoveToReplaced(Supersede(P, i, StatusRow(r, TxReplaced, now), Heir(r, h, None, None, now)), actor,
                                    now);
            Sound(Q, p) && Kept(P, Q)
  {
    var rows := Superseded(P.rows, i, StatusRow(P.rows[i], TxReplaced, now), Heir(P.rows[i], h, None, None, now));
    BumpedRows(P.state, P.rows, p, i, h, now);
    NeverEscalated(P);
    if P.state == Broadcast { MoveKeeps(P, p, rows, Replaced, actor, now); } else { StayKeeps(P, p, rows, now); }
  }

  lemma BumpedRows(state: State, rows: seq<Row>, p: Owner, i: nat, h: Signed, now: Time)
    requires RowsSound(rows, p) && DropsJustified(rows) && Correlated(state, rows) && state in {Broadcast, Replaced}
    requires i < |rows| && rows[i].status == TxBroadcast && Fits(h, rows[i], p) && NewTo(rows, h)
    ensures var after := Superseded(rows, i, StatusRow(rows[i], TxReplaced, now), Heir(rows[i], h, None, None, now));
            RowsSound(after, p) && RowsKept(rows, after) && DropsJustified(after) && Correlated(Replaced, after)
  {
    PendingIsLive(state, rows, i);
    SupersedeKeepsRows(rows, p, i, StatusRow(rows[i], TxReplaced, now), Heir(rows[i], h, None, None, now), TxBroadcast,
                       SUPERSEDED);
  }

  /** Dropping the active row and landing a superseded one. */
  lemma LandedRows(rows: seq<Row>, p: Owner, a: nat, i: nat, succeeded: bool, block: Block, gas: Gas, now: Time)
    requires RowsSound(rows, p) && DropsJustified(rows) && NoBytes(rows)
    requires a < |rows| && i < |rows| && rows[i].status == TxReplaced
    requires rows[a].status in {TxBroadcast, TxConfirming} && LiveAt(rows, a, rows[a].status, SUPERSEDED)
    ensures var after := DropActive(rows, now)[i := LandedRow(rows[i], succeeded, block, gas, now)];
            && RowsSound(after, p) && RowsKept(rows, after) && DropsJustified(after) && NoBytes(after)
            && LiveAt(after, i, if succeeded then TxConfirming else TxReverted, SUPERSEDED)
  {
    var r, gone := LandedRow(rows[i], succeeded, block, gas, now), StatusRow(rows[a], TxDropped, now);
    var after := DropActive(rows, now)[i := r];
    assert after == rows[a := gone][i := r];
    assert RowSound(rows[a], p) && RowSound(rows[i], p);
    assert Spent(rows[i], SUPERSEDED);
    hide RowSound, RowsSound, RowsKept, DropsJustified, DropActive;
    SentRow(rows[a], p);
    DisplacedRow(rows[a], p, now);
    ObservedRow(rows[i], p, block, gas, now);
    LandedJustifies(rows, a, i, gone, r);
    PutRowsSound(rows, p, a, gone);
    PutRowsSound(rows[a := gone], p, i, r);
    RowsKeptTwice(rows, rows[a := gone], after);
  }

  lemma RowsKeptTwice(rows: seq<Row>, more: seq<Row>, most: seq<Row>)
    requires RowsKept(rows, more) && RowsKept(more, most)
    ensures RowsKept(rows, most)
  {
    forall i | 0 <= i < |rows| ensures RowKept(rows[i], most[i]) {
      assert RowKept(rows[i], more[i]) && RowKept(more[i], most[i]);
    }
  }

  /** The landed row justifies the drop of the row it takes over from, and stays a
      justification of every earlier drop. */
  lemma LandedJustifies(rows: seq<Row>, a: nat, i: nat, gone: Row, r: Row)
    requires DropsJustified(rows) && a < |rows| && i < |rows| && a != i && rows[i].status == TxReplaced
    requires gone.firstSeenAt == rows[a].firstSeenAt && rows[a].status != TxReverted && Mined(r) &&
      r.status != TxDropped
    ensures DropsJustified(rows[a := gone][i := r])
  {
    var after := rows[a := gone][i := r];
    forall k | 0 <= k < |after| && after[k].status == TxDropped && after[k].rawHash.Some?
      ensures SiblingMined(after, k)
    {
      assert k != i && Mined(after[i]);
    }
  }

  lemma LandedKeeps(P: Payment, p: Owner, i: nat, succeeded: bool, block: Block, gas: Gas, actor: Actor, now: Time)
    requires Sound(P, p) && P.state in LandedFrom(succeeded) && actor != HttpWait
    requires i < |P.rows| && P.rows[i].status == TxReplaced
    ensures var rows := DropActive(P.rows, now)[i := LandedRow(P.rows[i], succeeded, block, gas, now)];
            var Q := Move(P.(rows := rows), if succeeded then Confirming else Reverted, actor, now);
            Sound(Q, p) && Kept(P, Q)
  {
    LandedAfter(P.state, P.rows, p, i, succeeded, block, gas, now);
    NeverEscalated(P);
    hide RowsSound, RowsKept, Correlated, DropsJustified, RecordSound, Audited, DropActive, LandedRow;
    MoveKeeps(P, p, DropActive(P.rows, now)[i := LandedRow(P.rows[i], succeeded, block, gas, now)],
              if succeeded then Confirming else Reverted, actor, now);
  }

  lemma LandedAfter(state: State, rows: seq<Row>, p: Owner, i: nat, succeeded: bool, block: Block, gas: Gas, now: Time)
    requires Correlated(state, rows) && state in LandedFrom(succeeded)
    requires RowsSound(rows, p) && DropsJustified(rows) && i < |rows| && rows[i].status == TxReplaced
    ensures var after := DropActive(rows, now)[i := LandedRow(rows[i], succeeded, block, gas, now)];
            && RowsSound(after, p) && RowsKept(rows, after) && DropsJustified(after)
            && Correlated(if succeeded then Confirming else Reverted, after)
  {
    hide RowsSound, RowsKept, DropsJustified, DropActive, LandedRow;
    var s := if OneLive(rows, TxConfirming, SUPERSEDED) then TxConfirming else TxBroadcast;
    var a :| LiveAt(rows, a, s, SUPERSEDED);
    LandedRows(rows, p, a, i, succeeded, block, gas, now);
  }

  // ------------------------------------------------------------ gap fillers

  predicate Retired(P: Payment) { P.state in {Expired, Failed} }

  /** For a payment that expired or failed and stays that way. */
  lemma AssembleRetired(P: Payment, p: Owner, rows: seq<Row>)
    requires Sound(P, p) && Retired(P) && P.rows != [] && P.redactedAt.None?
    requires rows != [] && RowsSound(rows, p) && RowsKept(P.rows, rows) && Correlated(P.state, rows) &&
      DropsJustified(rows)
    ensures Sound(P.(rows := rows), p) && Kept(P, P.(rows := rows))
  {
  }

  lemma PreparedKeeps(P: Payment, p: Owner, i: nat, h: Signed, now: Time)
    requires Sound(P, p) && i < |P.rows| && P.rows[i].status == TxDropped && P.rows[i].rawHash.None? &&
      Fits(h, P.rows[i], p)
    ensures Retired(P) && |P.rows| == 1
    ensures var Q := Put(P, i, FillerRow(P.rows[i], h, now)); Sound(Q, p) && Kept(P, Q)
  {
    var r := FillerRow(P.rows[i], h, now);
    UnsignedDropIsSole(P, p, i);
    PutRowsSound(P.rows, p, i, r);
    PutDropsJustified(P.rows, i, r);
    assert LiveAt(P.rows[i := r], i, TxBroadcast, {TxReplaced});
    AssembleRetired(P, p, P.rows[i := r]);
  }

  /** A dropped row that was never signed is the only row of a retired payment. */
  lemma UnsignedDropIsSole(P: Payment, p: Owner, i: nat)
    requires Sound(P, p) && i < |P.rows| && P.rows[i].status == TxDropped && P.rows[i].rawHash.None?
    ensures Retired(P) && RetiredUnsigned(P.rows) && i == 0 && P.redactedAt.None?
  {
  }

  /** The rows of a retired payment with a broadcast or replaced row are all fillers. */
  lemma FillersOnly(P: Payment, p: Owner, i: nat)
    requires Sound(P, p) && Retired(P) && i < |P.rows| && P.rows[i].status in {TxBroadcast, TxReplaced}
    ensures OneLive(P.rows, TxBroadcast, {TxReplaced}) && HasBytes(P.rows) && P.redactedAt.None?
    ensures forall k | 0 <= k < |P.rows| :: P.rows[k].status in {TxBroadcast, TxReplaced} && P.rows[k].rawHash.Some?
    ensures P.rows[i].status == TxBroadcast ==> LiveAt(P.rows, i, TxBroadcast, {TxReplaced})
  {
    hide DropsJustified, Audited;
    FillersLive(P.state, P.rows, i);
    var a :| LiveAt(P.rows, a, TxBroadcast, {TxReplaced});
    assert RowSound(P.rows[a], p);
  }

  lemma FillersLive(state: State, rows: seq<Row>, i: nat)
    requires Correlated(state, rows) && state in {Expired, Failed} && i < |rows| &&
      rows[i].status in {TxBroadcast, TxReplaced}
    ensures OneLive(rows, TxBroadcast, {TxReplaced}) && HasBytes(rows)
    ensures rows[i].status == TxBroadcast ==> LiveAt(rows, i, TxBroadcast, {TxReplaced})
  {
  }

  /** Only fillers carry signed bytes, so a broadcast row with bytes is one. */
  lemma BytesMeanFiller(P: Payment, i: nat)
    requires Correlated(P.state, P.rows) && i < |P.rows| && P.rows[i].status == TxBroadcast && P.rows[i].bytes.Some?
    ensures Retired(P)
  {
  }

  lemma FillerReplacedKeeps(P: Payment, p: Owner, i: nat, h: Signed, now: Time)
    requires Sound(P, p) && i < |P.rows| && P.rows[i].status == TxBroadcast && P.rows[i].bytes.Some?
    requires Fits(h, P.rows[i], p) && NewTo(P.rows, h)
    ensures var r := P.rows[i];
            var Q := Supersede(P, i, StatusRow(r, TxReplaced, now), Heir(r, h, None, Some(h), now));
            Sound(Q, p) && Kept(P, Q)
  {
    var r := P.rows[i];
    var gone, heir := StatusRow(r, TxReplaced, now), Heir(r, h, None, Some(h), now);
    BytesMeanFiller(P, i);
    FillersOnly(P, p, i);
    SupersedeKeepsRows(P.rows, p, i, gone, heir, TxBroadcast, {TxReplaced});
    AssembleRetired(P, p, Superseded(P.rows, i, gone, heir));
  }

  /** One filler signature is recorded as mined; the others are dropped. */
  lemma FillerMinedRows(rows: seq<Row>, p: Owner, i: nat, r: Row, now: Time)
    requires RowsSound(rows, p) && HasBytes(rows) && i < |rows|
    requires forall k | 0 <= k < |rows| :: rows[k].status in {TxBroadcast, TxReplaced} && rows[k].rawHash.Some?
    requires Rewrites(rows[i], r, p)
    requires r.status == TxReverted || (r.status == TxConfirming && r.firstSeenAt.Some?)
    ensures var after := DropSiblings(rows[i := r], i, now);
            && RowsSound(after, p) && RowsKept(rows, after) && DropsJustified(after) && HasBytes(after)
            && LiveAt(after, i, r.status, {TxDropped})
  {
    hide RowSound;
    var after := DropSiblings(rows[i := r], i, now);
    forall k | 0 <= k < |rows|
      ensures RowSound(after[k], p) && RowKept(rows[k], after[k]) && SameSignature(rows[k], after[k])
    {
      assert RowSound(rows[k], p);
      DisplacedRow(rows[k], p, now);
      assert after[k] == if k == i then r else StatusRow(rows[k], TxDropped, now);
    }
    SameLineage(rows, after);
    hide Lineage;
    assert after[i] == r && Mined(after[i]);
  }

  lemma FillerResolvedKeeps(P: Payment, p: Owner, i: nat, gas: Gas, now: Time)
    requires Sound(P, p) && Retired(P) && i < |P.rows| && P.rows[i].status in {TxBroadcast, TxReplaced}
    ensures var Q := Put(P, i, RevertedRow(P.rows[i], gas, now));
            var R := Q.(rows := DropSiblings(Q.rows, i, now));
            Sound(R, p) && Kept(P, R)
  {
    hide RowSound, RowKept, RowsSound, RowsKept, DropsJustified, RecordSound, Audited;
    FillersOnly(P, p, i);
    RowOf(P, p, i);
    ObservedRow(P.rows[i], p, Block(0, 0), gas, now);
    FillerMinedRows(P.rows, p, i, RevertedRow(P.rows[i], gas, now), now);
    AssembleRetired(P, p, DropSiblings(P.rows[i := RevertedRow(P.rows[i], gas, now)], i, now));
  }

  lemma FillerSucceededKeeps(P: Payment, p: Owner, i: nat, block: Block, gas: Gas, actor: Actor, now: Time)
    requires Sound(P, p) && P.state == Expired && actor != HttpWait
    requires i < |P.rows| && P.rows[i].status in {TxBroadcast, TxReplaced}
    ensures var Q := Put(P, i, ConfirmingRow(P.rows[i], block, now).(gas := Some(gas)));
            var R := Move(Q.(rows := DropSiblings(Q.rows, i, now)), ManualReview, actor, now);
            Sound(R, p) && Kept(P, R)
  {
    var r := ConfirmingRow(P.rows[i], block, now).(gas := Some(gas));
    hide Sound, Kept, RowSound, RowKept, RowsSound, RowsKept, DropsJustified, DropSiblings;
    FillersOnly(P, p, i);
    RowOf(P, p, i);
    ObservedRow(P.rows[i], p, block, gas, now);
    SoundRows(P, p);
    FillerMinedRows(P.rows, p, i, r, now);
    EscalatedKeeps(P, p, DropSiblings(P.rows[i := r], i, now), i, actor, now);
  }

  lemma SoundRows(P: Payment, p: Owner)
    requires Sound(P, p)
    ensures RowsSound(P.rows, p) && DropsJustified(P.rows) && Correlated(P.state, P.rows)
  {
  }

  lemma EscalatedKeeps(P: Payment, p: Owner, rows: seq<Row>, i: nat, actor: Actor, now: Time)
    requires Sound(P, p) && P.state == Expired && P.rows != [] && P.redactedAt.None? && actor != HttpWait
    requires RowsSound(rows, p) && RowsKept(P.rows, rows) && DropsJustified(rows) && HasBytes(rows)
    requires LiveAt(rows, i, TxConfirming, {TxDropped})
    ensures var Q := Move(P.(rows := rows), ManualReview, actor, now); Sound(Q, p) && Kept(P, Q)
  {
    hide RowsSound, RowsKept, DropsJustified, Trail, HasBytes, LiveAt;
    assert OneLive(rows, TxConfirming, {TxDropped});
    assert rows != [] by { LiveIsThere(rows, i); }
    MoveAudited(P, P.(rows := rows), ManualReview, actor, now);
  }

  lemma LiveIsThere(rows: seq<Row>, i: nat)
    requires LiveAt(rows, i, TxConfirming, {TxDropped})
    ensures rows != []
  {
  }

  // ----------------------------------------------- leases, retention, nonces

  lemma ClaimKeeps(P: Payment, p: Owner, claim: Option<Claim>, now: Time)
    requires Sound(P, p) && (P.redactedAt.Some? ==> claim.None?)
    ensures var Q := P.(claim := claim, updatedAt := now); Sound(Q, p) && Kept(P, Q)
  {
  }

  lemma ExpireKeeps(P: Payment, p: Owner, now: Time)
    requires Sound(P, p) && Stale(P, now)
    ensures Sound(Expire(P, now), p) && Kept(P, Expire(P, now))
  {
    MoveAudited(P, P, Expired, System, now);
  }

  lemma RedactKeeps(P: Payment, p: Owner, cutoff: Time, now: Time)
    requires Sound(P, p) && Redactable(P, cutoff)
    ensures Sound(Redact(P, now), p) && Kept(P, Redact(P, now))
  {
    ClearedRows(P.state, P.rows, p, now);
    ErasedRecord(P, cutoff, now);
    hide RowsSound, RowsKept, Correlated, DropsJustified, RecordSound, Trail, ClearBytes, Escalated;
  }

  lemma ErasedRecord(P: Payment, cutoff: Time, now: Time)
    requires RecordSound(P) && Redactable(P, cutoff)
    ensures RecordSound(Redact(P, now))
  {
    var rows := ClearBytes(P.rows, now);
    assert forall i | 0 <= i < |rows| :: rows[i].status == P.rows[i].status;
  }

  lemma ClearedRows(state: State, rows: seq<Row>, p: Owner, now: Time)
    requires RowsSound(rows, p) && DropsJustified(rows) && Correlated(state, rows)
    requires state in {Confirmed, Reverted, VerificationFailed} ||
      (state in {Failed, Expired} && forall i | 0 <= i < |rows| :: rows[i].status == TxReverted)
    ensures var after := ClearBytes(rows, now);
            RowsSound(after, p) && RowsKept(rows, after) && DropsJustified(after) && Correlated(state, after)
  {
    var after := ClearBytes(rows, now);
    if state in {Confirmed, Reverted, VerificationFailed} {
      assert after == rows;
    } else if rows != [] {
      var a :| LiveAt(rows, a, TxReverted, {TxDropped});
      var k := if a == 0 then 1 else 0;
      assert k < |rows| ==> Spent(rows[k], {TxDropped});
      assert RowSound(rows[0], p);
      assert LiveAt(after, 0, TxReverted, {TxDropped});
    }
  }
}

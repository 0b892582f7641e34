/** The guarantees of the settlement protocol, over every state of every run: any
    interleaving of actors, any staleness of what they read, and a stop after any step. */
module Theorems {
  import opened PaymentStates
  import opened Ledger
  import opened Steps
  import opened Admission
  import opened Protocol
  import opened StepProofs
  import opened Runs

  /** Each payment is sound in each state, and each later version keeps the earlier. */
  lemma EveryPayment(c: Config, states: seq<World>, events: seq<Event>, n: nat, m: nat, p: PaymentId)
    requires GapRun(c, states, events) && n <= m < |states| && p < |states[n].db.payments|
    ensures p < |states[m].db.payments|
    ensures Sound(states[n].db.payments[p], Owner(p, c.cap)) && Sound(states[m].db.payments[p], Owner(p, c.cap))
    ensures Kept(states[n].db.payments[p], states[m].db.payments[p])
  {
    hide Sound, Kept, GapRun, Good;
    RunsStayGood(c, states, events, m);
  }

  // ------------------------------------------------------ state correlation

  lemma CorrelatedIsExclusive(state: State, rows: seq<Row>)
    requires Correlated(state, rows)
    ensures OneActive(rows)
    ensures state == Confirmed ==> exists a :: LiveAt(rows, a, TxConfirmed, SUPERSEDED)
    ensures state == Reverted ==> exists a :: LiveAt(rows, a, TxReverted, SUPERSEDED)
    ensures state != Confirmed ==> forall i | 0 <= i < |rows| :: rows[i].status != TxConfirmed
  {
  }

  /** At most one row of a payment is ever active, and its state matches its rows: a
      settled payment has exactly one settled row, of the matching kind, and no active
      one, and no other payment has a confirmed row. */
  lemma StateCorrelation(c: Config, states: seq<World>, events: seq<Event>, n: nat, p: PaymentId)
    requires GapRun(c, states, events) && n < |states| && p < |states[n].db.payments|
    ensures var P := states[n].db.payments[p];
      && Correlated(P.state, P.rows) && OneActive(P.rows)
      && (P.state == Confirmed ==> exists a :: LiveAt(P.rows, a, TxConfirmed, SUPERSEDED))
      && (P.state == Reverted ==> exists a :: LiveAt(P.rows, a, TxReverted, SUPERSEDED))
      && (P.state != Confirmed ==> forall i | 0 <= i < |P.rows| :: P.rows[i].status != TxConfirmed)
  {
    hide GapRun, Correlated, Kept, RowsSound, DropsJustified, RecordSound, Audited;
    EveryPayment(c, states, events, n, n, p);
    CorrelatedIsExclusive(states[n].db.payments[p].state, states[n].db.payments[p].rows);
  }

  // ------------------------------------------------------------- write-ahead

  /** A signature is on record before it is first handed to the network, and forever. */
  lemma WriteAhead(c: Config, states: seq<World>, events: seq<Event>, n: nat, m: nat, h: Signed)
    requires GapRun(c, states, events) && n < |events| && n <= m < |states|
    requires h in states[n + 1].sent && h !in states[n].sent
    ensures OnRecord(states[n].db, h) && OnRecord(states[m].db, h)
    ensures events[n].act.Send? || events[n].act.Resend?
  {
    hide Good, AllSound, Extends, OnRecord;
    RunsStayGood(c, states, events, n);
    RunsStayGood(c, states, events, m);
    SendingIsRecorded(c, states[events[n].read].db, states[n], events[n].act, h);
    RecordStays(states[n].db, states[m].db, h);
  }

  lemma SendingIsRecorded(c: Config, seen: Db, w: World, a: Act, h: Signed)
    requires Good(c, w) && AllSound(c, seen) && Extends(seen, w.db) && Enabled(c, seen, w, a)
    requires h in Apply(c, seen, w, a).sent && h !in w.sent
    ensures OnRecord(w.db, h) && (a.Send? || a.Resend?)
  {
    hide Good, AllSound, Extends, OnRecord, Write, Store;
    if a.Send? {
      HeldIsOnRecord(c, w, a.held);
    } else if a.Resend? {
      ReadIsOnRecord(c, seen, w.db, a.t);
    }
  }

  lemma RecordStays(db: Db, after: Db, h: Signed)
    requires OnRecord(db, h) && Extends(db, after)
    ensures OnRecord(after, h)
  {
    var i: nat :| Durable(db, TxRef(h.payment, i), h);
    DurableStays(db, after, TxRef(h.payment, i), h);
  }

  /** A signature names its payment, and no two rows of a payment share one. */
  lemma OneRowPerSignature(c: Config, db: Db, t: TxRef, u: TxRef, h: Signed)
    requires AllSound(c, db) && Durable(db, t, h) && Durable(db, u, h)
    ensures t == u
  {
    hide Correlated, DropsJustified, RecordSound, Audited;
    assert Sound(db.payments[t.owner], Owner(t.owner, c.cap)) && Sound(db.payments[u.owner], Owner(u.owner, c.cap));
    assert RowSound(RowAt(db, t), Owner(t.owner, c.cap)) && RowSound(RowAt(db, u), Owner(u.owner, c.cap));
  }

  /** In every state a signature is recorded by one row at most, so UNIQUE (tx_hash) holds. */
  lemma HashesAreUnique(c: Config, states: seq<World>, events: seq<Event>, n: nat, t: TxRef)
    requires GapRun(c, states, events) && n < |states|
    requires t.owner < |states[n].db.payments| && t.index < |states[n].db.payments[t.owner].rows|
    ensures HashFree(states[n].db.payments, t, RowAt(states[n].db, t).txHash)
    ensures forall u: TxRef, h: Signed :: Durable(states[n].db, t, h) && Durable(states[n].db, u, h) ==> t == u
  {
    hide GapRun, Good;
    RunsStayGood(c, states, events, n);
    HashIsFree(c, states[n].db, t);
    forall u: TxRef, h: Signed | Durable(states[n].db, t, h) && Durable(states[n].db, u, h) ensures t == u {
      OneRowPerSignature(c, states[n].db, t, u, h);
    }
  }

  lemma HashIsFree(c: Config, db: Db, t: TxRef)
    requires AllSound(c, db) && t.owner < |db.payments| && t.index < |db.payments[t.owner].rows|
    ensures HashFree(db.payments, t, RowAt(db, t).txHash)
  {
    hide Correlated, DropsJustified, RecordSound, Audited, Lineage;
    var h := RowAt(db, t).txHash;
    assert Sound(db.payments[t.owner], Owner(t.owner, c.cap)) && RowSound(RowAt(db, t), Owner(t.owner, c.cap));
    forall q, j | h.Some? && 0 <= q < |db.payments| && 0 <= j < |db.payments[q].rows| && !(q == t.owner && j == t.index)
      ensures db.payments[q].rows[j].txHash != h
    {
      assert Sound(db.payments[q], Owner(q, c.cap)) && RowSound(db.payments[q].rows[j], Owner(q, c.cap));
      if db.payments[q].rows[j].txHash == h { OneRowPerSignature(c, db, t, TxRef(q, j), h.value); }
    }
  }

  /** However many actors race for one intent, its own signature first reaches the network
      in one of two ways: the one actor that signed it sends it, or, once the row was read
      as ambiguous, recovery re-sends the very transaction on record. */
  lemma OneFirstSender(c: Config, states: seq<World>, events: seq<Event>, n: nat, x: Held)
    requires GapRun(c, states, events) && n < |events| && x in states[n].hands && x.first
    requires x.h !in states[n].sent && x.h in states[n + 1].sent
    ensures
      || events[n].act == Send(x)
      || (events[n].act == Resend(x.t) && events[n].read <= n && Hit(states[events[n].read].db, x.t, {TxAmbiguous}))
    ensures forall y | y in states[n].hands && y.t == x.t :: y == x
  {
    hide AllSound, Extends, NoncesDistinct, IdentitiesDistinct, ChainSound, OnRecord;
    RunsStayGood(c, states, events, n);
    FirstSending(c, states[events[n].read].db, states[n], events[n].act, x);
  }

  lemma FirstSending(c: Config, seen: Db, w: World, a: Act, x: Held)
    requires Good(c, w) && AllSound(c, seen) && Extends(seen, w.db) && Enabled(c, seen, w, a)
    requires x in w.hands && x.first && x.h !in w.sent && x.h in Apply(c, seen, w, a).sent
    ensures a == Send(x) || (a == Resend(x.t) && Hit(seen, x.t, {TxAmbiguous}))
  {
    hide AllSound, Extends, Write, Store, Signature, NoncesDistinct, IdentitiesDistinct, ChainSound, OnRecord,
      WatchedFiller;
    SendingIsRecorded(c, seen, w, a, x.h);
    if a.Send? {
      OneRowPerSignature(c, w.db, x.t, a.held.t, x.h);
    } else {
      ReadIsDurable(seen, w.db, a.t);
      OneRowPerSignature(c, w.db, x.t, a.t, x.h);
      if WatchedFiller(seen, a.t) {
        FillerHasNoSighash(c, seen, w.db, a.t);
      }
    }
  }

  lemma ReadIsDurable(seen: Db, db: Db, t: TxRef)
    requires Extends(seen, db)
    requires t.owner < |seen.payments| && t.index < |seen.payments[t.owner].rows| && RowAt(seen, t).rawHash.Some?
    ensures Durable(db, t, RowAt(seen, t).rawHash.value)
  {
    DurableStays(seen, db, t, RowAt(seen, t).rawHash.value);
  }

  /** A filler never carries a sighash, then or later. */
  lemma FillerHasNoSighash(c: Config, seen: Db, db: Db, t: TxRef)
    requires AllSound(c, seen) && Extends(seen, db) && WatchedFiller(seen, t)
    ensures t.owner < |db.payments| && t.index < |db.payments[t.owner].rows| && RowAt(db, t).sighash.None?
  {
    assert Sound(seen.payments[t.owner], Owner(t.owner, c.cap));
    assert RowSound(RowAt(seen, t), Owner(t.owner, c.cap));
    assert Kept(seen.payments[t.owner], db.payments[t.owner]);
    assert RowKept(RowAt(seen, t), RowAt(db, t));
  }

  lemma {:induction false} HandsGrow(c: Config, states: seq<World>, events: seq<Event>, n: nat, m: nat)
    requires Run(c, states, events) && n <= m < |states|
    ensures states[n].hands <= states[m].hands && states[n].sent <= states[m].sent
    decreases m - n
  {
    if n < m {
      HandsGrow(c, states, events, n, m - 1);
      HandsStep(c, states[events[m - 1].read].db, states[m - 1], events[m - 1].act);
    }
  }

  lemma HandsStep(c: Config, seen: Db, w: World, a: Act)
    ensures w.hands <= Apply(c, seen, w, a).hands && w.sent <= Apply(c, seen, w, a).sent
  {
    hide Store, Write, Signature;
  }

  /** What was once recorded of a row stays: its nonce, its hashes, its first sighting
      through any reorganization, and a final outcome with its block and gas. */
  lemma RecordsArePermanent(c: Config, states: seq<World>, events: seq<Event>, n: nat, m: nat, t: TxRef)
    requires GapRun(c, states, events) && n <= m < |states|
    requires t.owner < |states[n].db.payments| && t.index < |states[n].db.payments[t.owner].rows|
    ensures t.owner < |states[m].db.payments| && t.index < |states[m].db.payments[t.owner].rows|
    ensures RowKept(RowAt(states[n].db, t), RowAt(states[m].db, t))
  {
    hide GapRun, Sound, RowKept;
    EveryPayment(c, states, events, n, m, t.owner);
  }

  // ---------------------------------------------------------- watch coverage

  /** The row is still worked on, already settled, watched, or dropped after another
      signature of its nonce was recorded as mined. */
  ghost predicate Covered(db: Db, t: TxRef)
    requires t.owner < |db.payments| && t.index < |db.payments[t.owner].rows|
  {
    var P, r := db.payments[t.owner], RowAt(db, t);
    || Active(r)
    || r.status in {TxConfirmed, TxReverted}
    || (r.status == TxReplaced &&
        (WatchedReplacement(db, t) || WatchedFiller(db, t) || P.state in {Confirmed, Reverted}))
    || (r.status == TxDropped && SiblingMined(P.rows, t.index))
  }

  /** Every signature ever sent belongs to a row that is active, settled, or watched
      until its payment is settled, unless a same-nonce sibling was recorded as mined. */
  lemma WatchCoverage(c: Config, states: seq<World>, events: seq<Event>, n: nat, h: Signed)
    requires GapRun(c, states, events) && n < |states| && h in states[n].sent
    ensures exists i :: Durable(states[n].db, TxRef(h.payment, i), h) && Covered(states[n].db, TxRef(h.payment, i))
  {
    RunsStayGood(c, states, events, n);
    var i: nat :| Durable(states[n].db, TxRef(h.payment, i), h);
    RecordedIsCovered(c, states[n].db, TxRef(h.payment, i));
  }

  lemma RecordedIsCovered(c: Config, db: Db, t: TxRef)
    requires AllSound(c, db) && t.owner < |db.payments| && t.index < |db.payments[t.owner].rows|
    requires RowAt(db, t).rawHash.Some?
    ensures Covered(db, t)
  {
    var P := db.payments[t.owner];
    assert Sound(P, Owner(t.owner, c.cap));
  }

  /** A dropped signature stays dropped: no later step records it as mined, sent or
      settled, in its row or any other, and no query lists it. */
  lemma DroppedForGood(c: Config, states: seq<World>, events: seq<Event>, n: nat, m: nat, t: TxRef, h: Signed)
    requires GapRun(c, states, events) && n <= m < |states|
    requires Hit(states[n].db, t, {TxDropped}) && RowAt(states[n].db, t).rawHash == Some(h)
    ensures Hit(states[m].db, t, {TxDropped}) && Unlisted(states[m].db, t)
    ensures forall u: TxRef | Durable(states[m].db, u, h) :: u == t
  {
    hide GapRun, Good, AllSound, LaterInFlight;
    RecordsArePermanent(c, states, events, n, m, t);
    RunsStayGood(c, states, events, m);
    forall u: TxRef | Durable(states[m].db, u, h) ensures u == t {
      OneRowPerSignature(c, states[m].db, t, u, h);
    }
  }

  /** The chain could take the transaction next. */
  ghost predicate Mineable(c: Config, w: World, h: Signed) {
    exists gas: Gas :: Enabled(c, w.db, w, Mine(h, gas))
  }

  lemma MineableIfFree(c: Config, w: World, h: Signed)
    requires h in w.sent
    ensures Mineable(c, w, h) <==> Slot(h.signer, h.nonce) !in w.chain
  {
    if Slot(h.signer, h.nonce) !in w.chain { assert Enabled(c, w.db, w, Mine(h, Gas(0, 0))); }
  }

  /** A transaction that was sent, and whose nonce the chain has given to another, cannot be
      mined any more if and only if the chain never gives that one up. */
  lemma HarmlessExactly(c: Config, states: seq<World>, events: seq<Event>, n: nat, m: nat, h: Signed)
    requires Run(c, states, events) && n <= m < |states| && h in states[n].sent
    requires Slot(h.signer, h.nonce) in states[n].chain
    ensures (forall k | n <= k <= m :: !Mineable(c, states[k], h)) <==>
      forall k | n <= k < m :: events[k].act != Unmine(Slot(h.signer, h.nonce))
  {
    hide Apply, Enabled, Mineable;
    var s := Slot(h.signer, h.nonce);
    forall k | n <= k <= m ensures Mineable(c, states[k], h) <==> s !in states[k].chain {
      HandsGrow(c, states, events, n, k);
      MineableIfFree(c, states[k], h);
    }
    if forall k | n <= k < m :: events[k].act != Unmine(s) {
      forall k | n <= k <= m ensures s in states[k].chain { SlotStays(c, states, events, n, k, s); }
    } else {
      var k :| n <= k < m && events[k].act == Unmine(s);
      UnmineFrees(c, states, events, k, s);
      assert Mineable(c, states[k + 1], h);
    }
  }

  lemma {:induction false} SlotStays(c: Config, states: seq<World>, events: seq<Event>, n: nat, m: nat, s: Slot)
    requires Run(c, states, events) && n <= m < |states| && s in states[n].chain
    requires forall k | n <= k < m :: events[k].act != Unmine(s)
    ensures s in states[m].chain && states[m].chain[s] == states[n].chain[s]
    decreases m - n
  {
    if n < m {
      SlotStays(c, states, events, n, m - 1, s);
      SlotStep(c, states[events[m - 1].read].db, states[m - 1], events[m - 1].act, s);
    }
  }

  lemma SlotStep(c: Config, seen: Db, w: World, a: Act, s: Slot)
    requires Enabled(c, seen, w, a) && s in w.chain && a != Unmine(s)
    ensures var after := Apply(c, seen, w, a).chain; s in after && after[s] == w.chain[s]
  {
    hide Store, Write, Signature;
  }

  lemma UnmineFrees(c: Config, states: seq<World>, events: seq<Event>, k: nat, s: Slot)
    requires Run(c, states, events) && k < |events| && events[k].act == Unmine(s)
    ensures k + 1 < |states| && s !in states[k + 1].chain
  {
    hide Store, Write, Signature;
  }

  // ---------------------------------------------------------- nonce accounting

  /** Distinct payments never share a nonce, and every row and signature of a payment
      carries the one it was given. */
  lemma OnePaymentPerNonce(c: Config, states: seq<World>, events: seq<Event>, n: nat, t: TxRef, u: TxRef)
    requires GapRun(c, states, events) && n < |states|
    requires t.owner < |states[n].db.payments| && t.index < |states[n].db.payments[t.owner].rows|
    requires u.owner < |states[n].db.payments| && u.index < |states[n].db.payments[u.owner].rows|
    ensures var r, s := RowAt(states[n].db, t), RowAt(states[n].db, u);
      && (t.owner == u.owner <==> r.signer == s.signer && r.nonce == s.nonce)
      && (r.rawHash.Some? ==>
        && r.rawHash.value.nonce == r.nonce && r.rawHash.value.signer == r.signer
        && r.rawHash.value.payment == t.owner)
  {
    RunsStayGood(c, states, events, n);
    var db := states[n].db;
    assert Sound(db.payments[t.owner], Owner(t.owner, c.cap)) && Sound(db.payments[u.owner], Owner(u.owner, c.cap));
    assert RowSound(RowAt(db, t), Owner(t.owner, c.cap));
  }

  /** The chain never holds two signatures for one payment, whatever was sent. */
  lemma ChainSettlesOnce(c: Config, states: seq<World>, events: seq<Event>, n: nat, s: Slot, z: Slot)
    requires GapRun(c, states, events) && n < |states|
    requires s in states[n].chain && z in states[n].chain
    ensures states[n].chain[s].tx.payment == states[n].chain[z].tx.payment <==> s == z
  {
    RunsStayGood(c, states, events, n);
    var w := states[n];
    MinedIsOnRecord(c, w, s);
    MinedIsOnRecord(c, w, z);
  }

  lemma MinedIsOnRecord(c: Config, w: World, s: Slot)
    requires Good(c, w) && s in w.chain
    ensures var h := w.chain[s].tx;
      && h.payment < |w.db.payments| && w.db.payments[h.payment].rows != [] && Within(h.terms, c.cap)
      && s == Slot(w.db.payments[h.payment].rows[0].signer, w.db.payments[h.payment].rows[0].nonce)
  {
    OnRecordIsOwned(c, w.db, w.chain[s].tx);
  }

  lemma OnRecordIsOwned(c: Config, db: Db, h: Signed)
    requires AllSound(c, db) && OnRecord(db, h)
    ensures h.payment < |db.payments| && db.payments[h.payment].rows != [] && Within(h.terms, c.cap)
    ensures h.signer == db.payments[h.payment].rows[0].signer && h.nonce == db.payments[h.payment].rows[0].nonce
  {
    hide Correlated, DropsJustified, RecordSound, Audited;
    var i: nat :| Durable(db, TxRef(h.payment, i), h);
    assert Sound(db.payments[h.payment], Owner(h.payment, c.cap));
    assert RowSound(db.payments[h.payment].rows[i], Owner(h.payment, c.cap));
  }

  /** A nonce is handed out once, to one payment, and that payment keeps it. */
  lemma AllocatedNonceIsKept(c: Config, states: seq<World>, events: seq<Event>, n: nat, m: nat)
    requires GapRun(c, states, events) && n < |events| && n < m < |states|
    requires events[n].act.Admit? && CreateIntent(states[n].db, events[n].act.q).1.Accept?
    ensures var reply, signer := CreateIntent(states[n].db, events[n].act.q).1, events[n].act.q.signer;
      && reply.intent.owner < |states[m].db.payments|
      && states[m].db.payments[reply.intent.owner].rows != []
      && states[m].db.payments[reply.intent.owner].rows[0].signer == signer
      && states[m].db.payments[reply.intent.owner].rows[0].nonce == reply.nonce
      && signer in states[m].db.nextNonce && reply.nonce < states[m].db.nextNonce[signer]
      && NonceHeld(states[m].db, reply.intent.owner)
  {
    hide Sound, NonceHeld, Write;
    RunsStayGood(c, states, events, n);
    var q := events[n].act.q;
    AcceptedIntentIsDurable(states[n].db, q, c.cap);
    var p := CreateIntent(states[n].db, q).1.intent.owner;
    assert states[n + 1].db == CreateIntent(states[n].db, q).0 by {
      WriteAdmits(c, states[events[n].read].db, states[n], q);
    }
    EveryPayment(c, states, events, n + 1, m, p);
    assert RowKept(states[n + 1].db.payments[p].rows[0], states[m].db.payments[p].rows[0]);
    CounterNeverFalls(c, states, events, n + 1, m, q.signer);
    NoNonceIsOrphaned(c, states, events, m, p);
  }

  lemma WriteAdmits(c: Config, seen: Db, w: World, q: IntentRequest)
    ensures Apply(c, seen, w, Admit(q)).db == CreateIntent(w.db, q).0
  {
    hide CreateIntent;
  }

  /** The payment's nonce is in use, was consumed, or is a gap that recovery will see. */
  ghost predicate NonceHeld(db: Db, p: PaymentId)
    requires p < |db.payments|
  {
    var P := db.payments[p];
    || (exists i | 0 <= i < |P.rows| :: Active(P.rows[i]) || P.rows[i].status in {TxConfirmed, TxReverted})
    || (&& P.rows != [] && P.validBefore.Some?
        && forall cutoff: Time ::
             BlockingGap(db, P.rows[0].signer, cutoff, TxRef(p, 0)) <==>
               P.validBefore.value <= cutoff && LaterInFlight(db, P.rows[0].signer, P.rows[0].nonce))
  }

  /** No allocated nonce is ever orphaned: retention included, a nonce no row holds or
      consumed is listed as a blocking gap exactly when its authorization has run out
      and a later nonce is in flight. */
  lemma NoNonceIsOrphaned(c: Config, states: seq<World>, events: seq<Event>, n: nat, p: PaymentId)
    requires GapRun(c, states, events) && n < |states| && p < |states[n].db.payments|
    requires states[n].db.payments[p].rows != []
    ensures NonceHeld(states[n].db, p)
  {
    hide GapRun, Sound, Kept;
    EveryPayment(c, states, events, n, n, p);
    LiveOrRetired(states[n].db.payments[p], Owner(p, c.cap));
  }

  lemma LiveOrRetired(P: Payment, p: Owner)
    requires Sound(P, p) && P.rows != []
    ensures (exists i | 0 <= i < |P.rows| :: Active(P.rows[i]) || P.rows[i].status in {TxConfirmed, TxReverted})
         || (RetiredUnsigned(P.rows) && P.state in {Expired, Failed} && P.validBefore.Some?)
  {
    forall s: Status, rest: set<Status> | OneLive(P.rows, s, rest)
      ensures exists i | 0 <= i < |P.rows| :: P.rows[i].status == s
    {
      var a :| LiveAt(P.rows, a, s, rest);
      assert P.rows[a].status == s;
    }
    if |P.rows| == 1 {
      assert P.rows[0].status == TxDropped || Active(P.rows[0]) ||
        P.rows[0].status in {TxConfirmed, TxReverted, TxReplaced};
    }
  }

  /** The record says the nonce was consumed. */
  ghost predicate Consumed(rows: seq<Row>) {
    exists i | 0 <= i < |rows| :: rows[i].status in {TxConfirmed, TxReverted}
  }

  ghost predicate HasActive(rows: seq<Row>) {
    exists i | 0 <= i < |rows| :: Active(rows[i])
  }

  /** A gap recovery lists once it is due and a later nonce is in flight. */
  ghost predicate OpenGap(P: Payment) {
    RetiredUnsigned(P.rows) && P.state in {Expired, Failed} && P.validBefore.Some?
  }

  function PaymentSlot(P: Payment): Slot
    requires P.rows != []
  {
    Slot(P.rows[0].signer, P.rows[0].nonce)
  }

  /** On the chain itself: a payment's nonce is taken there, or worked on, or an open gap, if
      and only if it is taken or the record does not call it consumed. */
  lemma NonceOnChainExactly(c: Config, states: seq<World>, events: seq<Event>, n: nat, p: PaymentId)
    requires GapRun(c, states, events) && n < |states| && p < |states[n].db.payments|
    requires states[n].db.payments[p].rows != []
    ensures var P, chain := states[n].db.payments[p], states[n].chain;
      (PaymentSlot(P) in chain || HasActive(P.rows) || OpenGap(P)) <==>
        (PaymentSlot(P) in chain || !Consumed(P.rows))
  {
    hide GapRun, Sound, Kept, Consumed, HasActive, OpenGap;
    EveryPayment(c, states, events, n, n, p);
    ConsumedOrOpen(states[n].db.payments[p], Owner(p, c.cap));
  }

  lemma ConsumedOrOpen(P: Payment, p: Owner)
    requires Sound(P, p) && P.rows != []
    ensures Consumed(P.rows) <==> !HasActive(P.rows) && !OpenGap(P)
    ensures Consumed(P.rows) ==> P.state in {Confirmed, Reverted, Expired, Failed}
    ensures Consumed(P.rows) ==> forall i | 0 <= i < |P.rows| ::
      && !Active(P.rows[i]) && (P.rows[i].status == TxDropped ==> P.rows[i].rawHash.Some?)
      && (P.state in {Expired, Failed} ==> P.rows[i].status != TxReplaced)
  {
    LiveOrRetired(P, p);
    if Consumed(P.rows) { ConsumedRows(P, p); }
  }

  lemma ConsumedRows(P: Payment, p: Owner)
    requires Sound(P, p) && Consumed(P.rows)
    ensures P.state in {Confirmed, Reverted, Expired, Failed} && !HasActive(P.rows) && !OpenGap(P)
    ensures forall i | 0 <= i < |P.rows| ::
      && !Active(P.rows[i]) && (P.rows[i].status == TxDropped ==> P.rows[i].rawHash.Some?)
      && (P.state in {Expired, Failed} ==> P.rows[i].status != TxReplaced)
  {
    hide RowsSound, DropsJustified, RecordSound, Audited, OneLive;
    var i :| 0 <= i < |P.rows| && P.rows[i].status in {TxConfirmed, TxReverted};
    forall s: Status, rest: set<Status> | OneLive(P.rows, s, rest) && rest <= SUPERSEDED
      ensures P.rows[i].status == s && LiveAt(P.rows, i, s, rest)
    {
      OnlyLive(P.rows, i, s, rest);
    }
    hide Sound;
    if P.state in {Expired, Failed} { assert LiveAt(P.rows, i, TxReverted, {TxDropped}); }
  }

  lemma OnlyLive(rows: seq<Row>, i: nat, s: Status, rest: set<Status>)
    requires OneLive(rows, s, rest) && i < |rows| && rows[i].status !in rest
    ensures rows[i].status == s && LiveAt(rows, i, s, rest)
  {
    var a :| LiveAt(rows, a, s, rest);
    assert a == i;
  }

  /** And where the record calls it consumed, nobody will ever be led to fill it: in no later
      state does any query list a row of the payment. */
  lemma ConsumedForGood(c: Config, states: seq<World>, events: seq<Event>, n: nat, m: nat, p: PaymentId)
    requires GapRun(c, states, events) && n <= m < |states| && p < |states[n].db.payments|
    requires Consumed(states[n].db.payments[p].rows)
    ensures p < |states[m].db.payments| && Consumed(states[m].db.payments[p].rows)
    ensures forall i: nat :: Unlisted(states[m].db, TxRef(p, i))
  {
    hide GapRun, Sound, Unlisted;
    EveryPayment(c, states, events, n, m, p);
    ConsumedStays(states[n].db.payments[p].rows, states[m].db.payments[p].rows);
    ConsumedOrOpen(states[m].db.payments[p], Owner(p, c.cap));
    ConsumedIsUnlisted(states[m].db, p);
  }

  lemma ConsumedStays(rows: seq<Row>, later: seq<Row>)
    requires Consumed(rows) && RowsKept(rows, later)
    ensures Consumed(later)
  {
    var i :| 0 <= i < |rows| && rows[i].status in {TxConfirmed, TxReverted};
    assert RowKept(rows[i], later[i]);
  }

  lemma ConsumedIsUnlisted(db: Db, p: PaymentId)
    requires p < |db.payments| && db.payments[p].state in {Confirmed, Reverted, Expired, Failed}
    requires forall i | 0 <= i < |db.payments[p].rows| ::
      && !Active(db.payments[p].rows[i])
      && (db.payments[p].rows[i].status == TxDropped ==> db.payments[p].rows[i].rawHash.Some?)
      && (db.payments[p].state in {Expired, Failed} ==> db.payments[p].rows[i].status != TxReplaced)
    ensures forall i: nat :: Unlisted(db, TxRef(p, i))
  {
    hide LaterInFlight;
  }

  /** Reseeding and refusals never lower or consume the counter. */
  lemma CounterNeverFalls(c: Config, states: seq<World>, events: seq<Event>, n: nat, m: nat, signer: Address)
    requires GapRun(c, states, events) && n <= m < |states| && signer in states[n].db.nextNonce
    ensures signer in states[m].db.nextNonce && states[n].db.nextNonce[signer] <= states[m].db.nextNonce[signer]
  {
    RunsStayGood(c, states, events, m);
  }

  // ---------------------------------------------------------------- erasure

  /** No query that feeds signing or watching selects row `t`. */
  ghost predicate Unlisted(db: Db, t: TxRef)
  {
    && !Loaded(db, t) && !WatchedReplacement(db, t) && !WatchedFiller(db, t)
    && forall signer: Address, at: Time :: !BlockingGap(db, signer, at, t) && !StuckFiller(db, signer, at, t)
  }

  /** No row of the payment is ever listed, and nobody can lease it. */
  ghost predicate OutOfReach(db: Db, p: PaymentId)
    requires p < |db.payments|
  {
    && (forall i: nat :: Unlisted(db, TxRef(p, i)))
    && (forall worker: nat, duration: int, at: Time, now: Time ::
        ClaimPayment(db, p, worker, duration, at, now).1 != Ok)
  }

  /** An erased payment is out of reach of recovery from then on, and stays erased
      in the state it was erased in. */
  lemma ErasureIsFinal(c: Config, states: seq<World>, events: seq<Event>, n: nat, m: nat, p: PaymentId)
    requires GapRun(c, states, events) && n <= m < |states|
    requires p < |states[n].db.payments| && states[n].db.payments[p].redactedAt.Some?
    ensures p < |states[m].db.payments| && OutOfReach(states[m].db, p)
    ensures states[m].db.payments[p].redactedAt == states[n].db.payments[p].redactedAt
    ensures states[m].db.payments[p].state == states[n].db.payments[p].state
  {
    hide GapRun, Sound, OutOfReach, RowsKept;
    EveryPayment(c, states, events, n, m, p);
    ErasedIsOutOfReach(states[m].db, p, c.cap);
  }

  lemma ErasedIsOutOfReach(db: Db, p: PaymentId, cap: Terms)
    requires p < |db.payments| && Sound(db.payments[p], Owner(p, cap)) && db.payments[p].redactedAt.Some?
    ensures OutOfReach(db, p)
  {
    ErasedRows(db.payments[p], Owner(p, cap));
    hide Sound, LaterInFlight;
  }

  lemma ErasedRows(P: Payment, p: Owner)
    requires Sound(P, p) && P.redactedAt.Some?
    ensures P.state in {Confirmed, Reverted, Failed, Expired, VerificationFailed}
    ensures forall i | 0 <= i < |P.rows| :: !Active(P.rows[i])
    ensures P.state in {Failed, Expired} ==> forall i | 0 <= i < |P.rows| :: P.rows[i].status == TxReverted
  {
    hide RowsSound, DropsJustified, Audited;
  }

  // ------------------------------------------------------------- audit trail

  /** The audit trail is an unbroken walk over the table from received to the present
      state, only ever appended to, and a confirmed payment was verified and then
      broadcasting first. */
  lemma AuditTrail(c: Config, states: seq<World>, events: seq<Event>, n: nat, m: nat, p: PaymentId)
    requires GapRun(c, states, events) && n <= m < |states| && p < |states[n].db.payments|
    ensures p < |states[m].db.payments|
    ensures var P, Q := states[n].db.payments[p], states[m].db.payments[p];
      && Trail(P.log, P.state) && Trail(Q.log, Q.state) && P.log <= Q.log
      && (P.state in {Confirmed, Reverted, Failed, VerificationFailed} ==> Q.state == P.state && Q.log == P.log)
      && (P.state == Expired ==> Q.state == Expired || Q.state == ManualReview)
      && (P.state == Confirmed ==>
          |P.log| > 2 && P.log[0].to == Verified && P.log[1] == Edge(Verified, Broadcasting, P.log[1].actor))
  {
    hide GapRun, RowsSound, RecordSound, DropsJustified;
    EveryPayment(c, states, events, n, m, p);
    var P, Q := states[n].db.payments[p], states[m].db.payments[p];
    if P.state in {Confirmed, Reverted, Failed, VerificationFailed} {
      TerminalStatesAbsorb(Q.log, Q.state, |P.log| - 1);
    }
  }
}

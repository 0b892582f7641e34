/** What holds in every state of every run. */
module Runs {
  import opened PaymentStates
  import opened Ledger
  import opened Steps
  import opened Preservation
  import opened Admission
  import opened Protocol
  import opened StepProofs

  // ------------------------------------------------------------ invariants

  /** Some row of the payment that `h` pays records its bytes. */
  ghost predicate OnRecord(db: Db, h: Signed) {
    exists i :: Durable(db, TxRef(h.payment, i), h)
  }

  /** The nonce a payment was given is below the signer's counter. */
  ghost predicate NonceAllocated(db: Db, p: PaymentId)
    requires p < |db.payments| && db.payments[p].rows != []
  {
    var r := db.payments[p].rows[0];
    r.signer in db.nextNonce && r.nonce < db.nextNonce[r.signer]
  }

  ghost predicate NoncesDistinct(db: Db)
  {
    && (forall p | 0 <= p < |db.payments| && db.payments[p].rows != [] :: NonceAllocated(db, p))
    && (forall p, q | 0 <= p < q < |db.payments| && db.payments[p].rows != [] && db.payments[q].rows != [] ::
          db.payments[p].rows[0].signer != db.payments[q].rows[0].signer ||
            db.payments[p].rows[0].nonce != db.payments[q].rows[0].nonce)
  }

  ghost predicate IdentitiesDistinct(db: Db) {
    forall p, q | 0 <= p < q < |db.payments| :: db.payments[p].identity != db.payments[q].identity
  }

  /** Whatever an actor may send is recorded, only one actor ever holds the signature of
      a row, and an intent's own signature keeps its sighash. */
  ghost predicate HandsSound(w: World)
  {
    && (forall x | x in w.hands :: Durable(w.db, x.t, x.h) && x.h.payment == x.t.owner)
    && (forall x | x in w.hands && x.first :: Durable(w.db, x.t, x.h) && RowAt(w.db, x.t).sighash.Some?)
    && (forall x, y | x in w.hands && y in w.hands && x.t == y.t :: x == y)
  }

  ghost predicate ChainSound(w: World)
  {
    forall s | s in w.chain ::
      && w.chain[s].tx in w.sent
      && s == Slot(w.chain[s].tx.signer, w.chain[s].tx.nonce)
      && w.chain[s].gas.used <= w.chain[s].tx.terms.gasLimit && w.chain[s].gas.price <= w.chain[s].tx.terms.maxFee
  }

  ghost predicate Good(c: Config, w: World)
  {
    && AllSound(c, w.db)
    && NoncesDistinct(w.db)
    && IdentitiesDistinct(w.db)
    && HandsSound(w)
    && (forall h | h in w.sent :: OnRecord(w.db, h))
    && ChainSound(w)
  }

  // ------------------------------------------------------------- one step

  /** Only admission stamps an intent. */
  ghost predicate SameRequests(db: Db, after: Db)
  {
    && |db.payments| <= |after.payments|
    && forall p | 0 <= p < |after.payments| ::
         after.payments[p].requestedAt == if p < |db.payments| then db.payments[p].requestedAt else None
  }

  ghost predicate SameFrame(db: Db, after: Db) {
    SameRequests(db, after) && |after.payments| == |db.payments| && after.nextNonce == db.nextNonce
  }

  lemma CommitFrame(db: Db, p: PaymentId, Q: Payment)
    requires p < |db.payments| && Q.requestedAt == db.payments[p].requestedAt
    ensures SameFrame(db, Commit(db, p, Q))
  {
  }

  lemma StoreFrame(db: Db, a: Act, h: Signed)
    requires Signs(a)
    ensures SameFrame(db, Store(db, a, h).0)
  {
    var after := Store(db, a, h).0;
    if after != db { CommitFrame(db, a.t.owner, after.payments[a.t.owner]); }
  }

  lemma AdvanceFrame(seen: Db, db: Db, a: Act)
    requires Advances(a)
    ensures SameFrame(db, Write(seen, db, a))
  {
    var after, p := Write(seen, db, a), if a.RecordBroadcast? then a.held.t.owner else a.t.owner;
    if after != db { CommitFrame(db, p, after.payments[p]); }
  }

  lemma WriteFrame(seen: Db, db: Db, a: Act)
    requires !Signs(a) && !OnNetwork(a) && !Advances(a) && !a.Admit?
    ensures SameRequests(db, Write(seen, db, a))
    ensures !a.Seed? ==> Write(seen, db, a).nextNonce == db.nextNonce
    ensures !a.Verify? ==> |Write(seen, db, a).payments| == |db.payments|
  {
    var after := Write(seen, db, a);
    if a.Sight? || a.Land? || a.Resolve? || a.Escalate? {
      if after != db { CommitFrame(db, a.t.owner, after.payments[a.t.owner]); }
    } else if a.Claim? || a.Renew? || a.Release? || a.ExpireStale? || a.Erase? {
      if after != db { CommitFrame(db, a.p, after.payments[a.p]); }
    }
  }

  /** Steps that admit nothing hand out no nonce. */
  lemma NoncesStep(c: Config, db: Db, after: Db)
    requires AllSound(c, db) && AllSound(c, after) && Extends(db, after) && SameRequests(db, after) &&
      NoncesDistinct(db)
    ensures NoncesDistinct(after)
  {
    forall p | 0 <= p < |after.payments| && after.payments[p].rows != []
      ensures p < |db.payments| && db.payments[p].rows != [] &&
        RowKept(db.payments[p].rows[0], after.payments[p].rows[0])
    {
      assert Sound(after.payments[p], Owner(p, c.cap));
      assert Sound(db.payments[p], Owner(p, c.cap)) && Kept(db.payments[p], after.payments[p]);
    }
    forall p | 0 <= p < |after.payments| && after.payments[p].rows != [] ensures NonceAllocated(after, p) {
      assert NonceAllocated(db, p);
    }
  }

  /** An accepted intent gets the counter's value, which no payment had. */
  lemma AdmitNonces(c: Config, db: Db, q: IntentRequest)
    requires AllSound(c, db) && NoncesDistinct(db)
    ensures NoncesDistinct(CreateIntent(db, q).0)
  {
    hide Sound, Kept, NoncesDistinct;
    var (after, reply) := CreateIntent(db, q);
    if reply.Accept? {
      AcceptedIntentIsDurable(db, q, c.cap);
      AcceptedNonce(db, q);
      hide CreateIntent;
      FreshNonce(db, after, reply.intent.owner, q.signer);
    } else {
      SameNonces(db, after);
    }
  }

  lemma AcceptedNonce(db: Db, q: IntentRequest)
    requires CreateIntent(db, q).1.Accept?
    ensures var (after, reply) := CreateIntent(db, q);
      && q.signer in db.nextNonce && reply.nonce == db.nextNonce[q.signer]
      && after.nextNonce == db.nextNonce[q.signer := reply.nonce + 1]
  {
  }

  lemma SameNonces(db: Db, after: Db)
    requires NoncesDistinct(db) && after.payments == db.payments && after.nextNonce == db.nextNonce
    ensures NoncesDistinct(after)
  {
    forall p | 0 <= p < |after.payments| && after.payments[p].rows != [] ensures NonceAllocated(after, p) {
      assert NonceAllocated(db, p);
    }
  }

  lemma FreshNonce(db: Db, after: Db, n: PaymentId, signer: Address)
    requires NoncesDistinct(db) && n < |db.payments| && |after.payments| == |db.payments| && signer in db.nextNonce
    requires after.payments == db.payments[n := after.payments[n]] && after.payments[n].rows != []
    requires after.payments[n].rows[0].signer == signer && after.payments[n].rows[0].nonce == db.nextNonce[signer]
    requires after.nextNonce == db.nextNonce[signer := db.nextNonce[signer] + 1]
    ensures NoncesDistinct(after)
  {
    forall p | 0 <= p < |after.payments| && after.payments[p].rows != [] ensures NonceAllocated(after, p) {
      if p != n { assert after.payments[p] == db.payments[p] && NonceAllocated(db, p); }
    }
    forall p, k | 0 <= p < k < |after.payments| && after.payments[p].rows != [] && after.payments[k].rows != []
      ensures after.payments[p].rows[0].signer != after.payments[k].rows[0].signer
           || after.payments[p].rows[0].nonce != after.payments[k].rows[0].nonce
    {
      if p == n { assert NonceAllocated(db, k); }
      if k == n { assert NonceAllocated(db, p); }
    }
  }

  lemma IdentitiesStep(db: Db, after: Db)
    requires IdentitiesDistinct(db) && Extends(db, after) && |after.payments| == |db.payments|
    ensures IdentitiesDistinct(after)
  {
    forall p | 0 <= p < |db.payments| ensures after.payments[p].identity == db.payments[p].identity {
      assert Kept(db.payments[p], after.payments[p]);
    }
  }

  /** A recorded signature stays recorded. */
  lemma DurableStays(db: Db, after: Db, t: TxRef, h: Signed)
    requires Extends(db, after) && Durable(db, t, h)
    ensures Durable(after, t, h)
  {
    assert Kept(db.payments[t.owner], after.payments[t.owner]);
    assert RowKept(RowAt(db, t), RowAt(after, t));
  }

  /** Everything about signatures, carried over to a later database. */
  lemma RecordsStay(w: World, after: Db)
    requires Extends(w.db, after) && HandsSound(w) && forall h | h in w.sent :: OnRecord(w.db, h)
    ensures HandsSound(w.(db := after)) && forall h | h in w.sent :: OnRecord(after, h)
  {
    forall x | x in w.hands ensures Durable(after, x.t, x.h) {
      DurableStays(w.db, after, x.t, x.h);
    }
    forall h | h in w.sent ensures OnRecord(after, h) {
      var i :| Durable(w.db, TxRef(h.payment, i), h);
      DurableStays(w.db, after, TxRef(h.payment, i), h);
    }
  }

  /** A committed signing step leaves the signature in the row it names, which held none. */
  lemma StoreRecords(c: Config, db: Db, a: Act, h: Signed)
    requires AllSound(c, db) && Signs(a) && h.payment == a.t.owner && Store(db, a, h).1 == Ok && GapCurrent(db, a)
    ensures var t := Recorded(World(db, {}, {}, map[]), a);
      && Durable(Store(db, a, h).0, t, h)
      && (a.Sign? ==> RowAt(Store(db, a, h).0, t).sighash.Some?)
      && forall g: Signed :: !Durable(db, t, g)
  {
    hide Correlated, DropsJustified, RecordSound, Audited, Lineage;
    assert Sound(db.payments[a.t.owner], Owner(a.t.owner, c.cap));
    if a.Sign? { assert RowSound(RowAt(db, a.t), Owner(a.t.owner, c.cap)); }
  }

  /** A good world stays good when its database moves on. */
  lemma GoodAfter(c: Config, w: World, after: Db)
    requires Good(c, w) && Keeps(c, w.db, after) && NoncesDistinct(after) && IdentitiesDistinct(after)
    ensures Good(c, w.(db := after))
  {
    RecordsStay(w, after);
  }

  /** A good world stays good when an actor takes a recorded signature in hand. */
  lemma GoodHold(c: Config, w: World, x: Held)
    requires Good(c, w) && Durable(w.db, x.t, x.h) && x.h.payment == x.t.owner
    requires x.first ==> RowAt(w.db, x.t).sighash.Some?
    requires forall y | y in w.hands :: y.t != x.t
    ensures Good(c, w.(hands := w.hands + {x}))
  {
    hide AllSound, NoncesDistinct, IdentitiesDistinct, OnRecord;
  }

  /** A good world stays good when a recorded signature is sent. */
  lemma GoodSend(c: Config, w: World, h: Signed)
    requires Good(c, w) && OnRecord(w.db, h)
    ensures Good(c, w.(sent := w.sent + {h}))
  {
  }

  lemma GoodMine(c: Config, w: World, h: Signed, gas: Gas)
    requires Good(c, w) && h in w.sent && gas.used <= h.terms.gasLimit && gas.price <= h.terms.maxFee
    ensures Good(c, w.(chain := w.chain[Slot(h.signer, h.nonce) := Mined(h, gas)]))
  {
  }

  lemma GoodUnmine(c: Config, w: World, slot: Slot)
    requires Good(c, w)
    ensures Good(c, w.(chain := w.chain - {slot}))
  {
  }

  lemma SigningStep(c: Config, seen: Db, w: World, a: Act)
    requires Good(c, w) && AllSound(c, seen) && Extends(seen, w.db)
    requires Signs(a) && Signature(c, seen, a).Some? && GapCurrent(w.db, a)
    ensures var (after, reply) := Store(w.db, a, Signature(c, seen, a).value);
            && Extends(w.db, after)
            && Good(c, if reply != Ok then w.(db := after)
                       else w.(db := after,
                               hands := w.hands + {Held(a.who, Recorded(w, a), Signature(c, seen, a).value, a.Sign?)}))
  {
    hide Sound, Kept, NoncesDistinct, IdentitiesDistinct, ChainSound, OnRecord, SameRequests, Store;
    var h := Signature(c, seen, a).value;
    var (after, reply) := Store(w.db, a, h);
    StoreKeeps(c, seen, w.db, a);
    StoreFrame(w.db, a, h);
    NoncesStep(c, w.db, after);
    IdentitiesStep(w.db, after);
    GoodAfter(c, w, after);
    if reply == Ok {
      StoreRecords(c, w.db, a, h);
      assert forall y | y in w.hands :: Durable(w.db, y.t, y.h);
      GoodHold(c, w.(db := after), Held(a.who, Recorded(w, a), h, a.Sign?));
    }
  }

  lemma WritingStep(c: Config, seen: Db, w: World, a: Act)
    requires Good(c, w) && AllSound(c, seen) && Extends(seen, w.db)
    requires !Signs(a) && !OnNetwork(a) && Enabled(c, seen, w, a)
    ensures Good(c, w.(db := Write(seen, w.db, a))) && Extends(w.db, Write(seen, w.db, a))
  {
    var after := Write(seen, w.db, a);
    WriteKeeps(c, seen, w, a);
    if a.Admit? {
      AdmitNonces(c, w.db, a.q);
      if CreateIntent(w.db, a.q).1.Accept? { AcceptedIntentIsDurable(w.db, a.q, c.cap); }
      IdentitiesStep(w.db, after);
    } else {
      if Advances(a) { AdvanceFrame(seen, w.db, a); } else { WriteFrame(seen, w.db, a); }
      NoncesStep(c, w.db, after);
      if a.Verify? { VerifyIdentities(w.db, a); } else { IdentitiesStep(w.db, after); }
    }
    GoodAfter(c, w, after);
  }

  lemma VerifyIdentities(db: Db, a: Act)
    requires a.Verify? && IdentitiesDistinct(db)
    ensures IdentitiesDistinct(RecordVerification(db, a.identity, a.authorization, a.merchant, a.validBefore, a.now).0)
  {
  }

  lemma RelayStep(c: Config, seen: Db, w: World, a: Act)
    requires Good(c, w) && AllSound(c, seen) && Extends(seen, w.db) && OnNetwork(a) && Enabled(c, seen, w, a)
    ensures Good(c, Relay(seen, w, a)) && Relay(seen, w, a).db == w.db
  {
    hide AllSound, Good, Extends;
    if a.Send? {
      HeldIsOnRecord(c, w, a.held);
      GoodSend(c, w, a.held.h);
    } else if a.Resend? {
      ReadIsOnRecord(c, seen, w.db, a.t);
      GoodSend(c, w, RowAt(seen, a.t).rawHash.value);
    } else if a.Mine? {
      GoodMine(c, w, a.h, a.gas);
    } else {
      GoodUnmine(c, w, a.slot);
    }
  }

  lemma OneStep(c: Config, seen: Db, w: World, a: Act)
    requires Good(c, w) && AllSound(c, seen) && Extends(seen, w.db)
    requires Enabled(c, seen, w, a) && GapCurrent(w.db, a)
    ensures Good(c, Apply(c, seen, w, a)) && Extends(w.db, Apply(c, seen, w, a).db)
  {
    hide AllSound, Good, Kept, Write, Store, Signature, Recorded, Relay;
    if Signs(a) {
      SigningStep(c, seen, w, a);
    } else if OnNetwork(a) {
      RelayStep(c, seen, w, a);
      ExtendsItself(w.db);
    } else {
      WritingStep(c, seen, w, a);
    }
  }

  lemma ExtendsItself(db: Db)
    ensures Extends(db, db)
  {
  }

  lemma HeldIsOnRecord(c: Config, w: World, x: Held)
    requires Good(c, w) && x in w.hands
    ensures OnRecord(w.db, x.h)
  {
    assert Durable(w.db, TxRef(x.h.payment, x.t.index), x.h);
  }

  /** A signature an actor read is on record, however long ago it read it. */
  lemma ReadIsOnRecord(c: Config, seen: Db, db: Db, t: TxRef)
    requires AllSound(c, seen) && Extends(seen, db)
    requires t.owner < |seen.payments| && t.index < |seen.payments[t.owner].rows| && RowAt(seen, t).rawHash.Some?
    ensures OnRecord(db, RowAt(seen, t).rawHash.value)
  {
    var h := RowAt(seen, t).rawHash.value;
    assert Sound(seen.payments[t.owner], Owner(t.owner, c.cap));
    assert RowSound(RowAt(seen, t), Owner(t.owner, c.cap));
    DurableStays(seen, db, t, h);
    assert Durable(db, TxRef(h.payment, t.index), h);
  }

  // ------------------------------------------------------------ whole runs

  /** Every state of a run is good, and every earlier reading is a past of it. */
  lemma {:induction false} RunsStayGood(c: Config, states: seq<World>, events: seq<Event>, n: nat)
    requires GapRun(c, states, events) && n < |states|
    ensures Good(c, states[n])
    ensures forall k | 0 <= k <= n :: AllSound(c, states[k].db) && Extends(states[k].db, states[n].db)
  {
    hide Apply, Enabled, Good, AllSound, Extends, GapCurrent;
    if n == 0 {
      StartsGood(c);
    } else {
      RunsStayGood(c, states, events, n - 1);
      var e := events[n - 1];
      OneStep(c, states[e.read].db, states[n - 1], e.act);
      forall k | 0 <= k < n ensures Extends(states[k].db, states[n].db) {
        ExtendsTransitive(states[k].db, states[n - 1].db, states[n].db);
      }
    }
    GoodIsSound(c, states[n]);
    ExtendsItself(states[n].db);
  }

  lemma StartsGood(c: Config)
    ensures Good(c, INIT)
  {
  }

  lemma GoodIsSound(c: Config, w: World)
    requires Good(c, w)
    ensures AllSound(c, w.db)
  {
  }

  /** One event of a run, seen on its own. */
  lemma RunStep(c: Config, states: seq<World>, events: seq<Event>, n: nat)
    requires GapRun(c, states, events) && n < |events|
    ensures |states| == |events| + 1 && events[n].read <= n
    ensures states[n + 1] == Apply(c, states[events[n].read].db, states[n], events[n].act)
    ensures Enabled(c, states[events[n].read].db, states[n], events[n].act) && GapCurrent(states[n].db, events[n].act)
    ensures AllSound(c, states[events[n].read].db) && Extends(states[events[n].read].db, states[n].db)
    ensures Good(c, states[n]) && AllSound(c, states[n].db) && Extends(states[n].db, states[n + 1].db)
  {
    hide Apply, Enabled, Good, AllSound, Extends;
    RunsStayGood(c, states, events, n);
    RunsStayGood(c, states, events, n + 1);
  }
}

/** The settlement protocol as a step system: the database, the network, the chain,
    and actors that act on a possibly stale reading of the database and may stop
    after any step (internal/settlement/service.go, recovery.go).

    An event carries the index of the earlier state its actor read. Everything the
    actor passes to the store is derived from that reading, never from the present;
    only the store's own guards look at the present. */
module Protocol {
  import opened PaymentStates
  import opened Ledger
  import opened Steps
  import opened Preservation
  import opened Admission
  import F = Fees

  /** The fixed configuration. `cap` bounds every transaction: the gas limit and the
      hard fee ceiling. */
  datatype Config = Config(signer: Address, cap: Terms, tip: nat)

  /** A raw transaction an actor may send: it holds the bytes it signed for row `t`
      only after the store recorded them. `first` marks an intent's own signature. */
  datatype Held = Held(actor: nat, t: TxRef, h: Signed, first: bool)

  /** A place in a signer's transaction sequence, and what the chain put there. */
  datatype Slot = Slot(signer: Address, nonce: nat)
  datatype Mined = Mined(tx: Signed, gas: Gas)

  datatype World = World(db: Db, hands: set<Held>, sent: set<Signed>, chain: map<Slot, Mined>)

  datatype Act =
    | Verify(identity: nat, authorization: nat, merchant: Option<MerchantId>, validBefore: Time, now: Time)
    | Admit(q: IntentRequest)
    | Sign(who: nat, t: TxRef, baseFee: int, salt: nat, now: Time)
    | Send(held: Held)
    | RecordBroadcast(held: Held, actor: Actor, now: Time)
    | RecordAmbiguous(t: TxRef, actor: Actor, now: Time)
    | Retire(t: TxRef, to: State, actor: Actor, now: Time)
    | Sight(t: TxRef, block: Block, actor: Actor, now: Time)
    | Finalize(t: TxRef, block: Block, gas: Gas, actor: Actor, now: Time)
    | Fail(t: TxRef, gas: Gas, actor: Actor, now: Time)
    | ReorgOut(t: TxRef, actor: Actor, now: Time)
    | Recover(t: TxRef, actor: Actor, now: Time)
    | Resign(who: nat, t: TxRef, salt: nat, actor: Actor, now: Time)
    | Resend(t: TxRef)
    | Replace(who: nat, t: TxRef, since: Time, baseFee: int, salt: nat, actor: Actor, now: Time)
    | Land(t: TxRef, succeeded: bool, block: Block, gas: Gas, actor: Actor, now: Time)
    | Prepare(who: nat, t: TxRef, cutoff: Time, baseFee: int, salt: nat, now: Time)
    | BumpFiller(who: nat, t: TxRef, since: Time, baseFee: int, salt: nat, now: Time)
    | Resolve(t: TxRef, gas: Gas, now: Time)
    | Escalate(t: TxRef, block: Block, gas: Gas, actor: Actor, now: Time)
    | Claim(p: PaymentId, worker: nat, duration: int, at: Time, now: Time)
    | Renew(p: PaymentId, worker: nat, duration: int, at: Time)
    | Release(p: PaymentId, worker: nat, now: Time)
    | ExpireStale(p: PaymentId, now: Time)
    | Erase(p: PaymentId, cutoff: Time, now: Time)
    | Seed(signer: Address, chainNonce: nat)
    | SetMerchants(active: set<MerchantId>)
    | Mine(h: Signed, gas: Gas)
    | Unmine(slot: Slot)

  // -------------------------------------------------------------- signing

  function Make(r: Row, p: PaymentId, terms: Terms, salt: nat): Signed {
    Signed(r.signer, r.nonce, terms, p, salt)
  }

  function Estimated(c: Config, r: Row, p: PaymentId, baseFee: int, salt: nat): Option<Signed> {
    var fee := F.EstimateFees(baseFee, c.tip, c.cap.maxFee);
    if fee.None? then None else Some(Make(r, p, Terms(c.cap.gasLimit, fee.value.maxFee, fee.value.tip), salt))
  }

  function Bumped(c: Config, r: Row, p: PaymentId, baseFee: int, salt: nat): Option<Signed> {
    if r.terms.None? || r.terms.value.gasLimit == 0 then None else
    var fee := F.Bump(F.FeePair(r.terms.value.maxFee, r.terms.value.tip), baseFee, c.cap.maxFee);
    if fee.None? then None else Some(Make(r, p, Terms(r.terms.value.gasLimit, fee.value.maxFee, fee.value.tip), salt))
  }

  /** signIdentical: the recorded transaction again, proved by its sighash. */
  function Resigned(r: Row, p: PaymentId, salt: nat): Option<Signed> {
    if r.terms.None? then None else
    var h := Make(r, p, r.terms.value, salt);
    if r.sighash != Some(Sighash(h)) || r.rawHash == Some(h) then None else Some(h)
  }

  /** The signature an act asks the store to record, built from what its actor read. */
  function Signature(c: Config, seen: Db, a: Act): Option<Signed>
  {
    match a
    case Sign(_, t, baseFee, salt, _) =>
      if Hit(seen, t, {TxIntent}) then Estimated(c, RowAt(seen, t), t.owner, baseFee, salt) else None
    case Resign(_, t, salt, _, _) =>
      if Hit(seen, t, {TxAmbiguous}) then Resigned(RowAt(seen, t), t.owner, salt) else None
    case Replace(_, t, since, baseFee, salt, _, _) =>
      if Hit(seen, t, {TxBroadcast}) && RowAt(seen, t).attemptedAt.Some? && RowAt(seen, t).attemptedAt.value < since
      then Bumped(c, RowAt(seen, t), t.owner, baseFee, salt) else None
    case Prepare(_, t, cutoff, baseFee, salt, _) =>
      if BlockingGap(seen, c.signer, cutoff, t) then Estimated(c, RowAt(seen, t), t.owner, baseFee, salt) else None
    case BumpFiller(_, t, since, baseFee, salt, _) =>
      if StuckFiller(seen, c.signer, since, t) then Bumped(c, RowAt(seen, t), t.owner, baseFee, salt) else None
    case _ => None
  }

  // ----------------------------------------------------------------- steps

  predicate Signs(a: Act) { a.Sign? || a.Resign? || a.Replace? || a.Prepare? || a.BumpFiller? }

  /** The steps that move one row and its payment together. */
  predicate Advances(a: Act) {
    a.RecordBroadcast? || a.RecordAmbiguous? || a.Retire? || a.Finalize? || a.Fail? || a.ReorgOut? || a.Recover?
  }

  /** What an actor must have read, or hold, before it takes a step. */
  predicate Enabled(c: Config, seen: Db, w: World, a: Act)
  {
    match a
    case Send(held) => held in w.hands
    case RecordBroadcast(held, _, _) => held in w.hands && held.first
    case Retire(_, to, _, _) => to in {Expired, State.Failed}
    case Sight(t, _, _, _) => Loaded(seen, t) && RowAt(seen, t).txHash.Some? && seen.payments[t.owner].state in PENDING
    case Recover(t, _, _) => Hit(seen, t, {TxAmbiguous}) && RowAt(seen, t).rawHash.Some?
    case Resend(t) =>
      && (Hit(seen, t, {TxAmbiguous}) || (WatchedFiller(seen, t) && RowAt(seen, t).status == TxBroadcast))
      && RowAt(seen, t).rawHash.Some?
    case Resolve(t, _, _) => WatchedFiller(seen, t)
    case Mine(h, gas) =>
      h in w.sent && Slot(h.signer, h.nonce) !in w.chain && gas.used <= h.terms.gasLimit && gas.price <= h.terms.maxFee
    case _ => Signs(a) ==> Signature(c, seen, a).Some?
  }

  /** Where the store puts the signature of an act. */
  function Recorded(w: World, a: Act): TxRef
    requires Signs(a)
  {
    if (a.Resign? || a.Replace? || a.BumpFiller?) && a.t.owner < |w.db.payments|
    then TxRef(a.t.owner, |w.db.payments[a.t.owner].rows|) else a.t
  }

  /** What the store does with a signing act. */
  function Store(db: Db, a: Act, h: Signed): (Db, Reply)
    requires Signs(a)
  {
    match a
    case Sign(_, t, _, _, now) => MarkTxSigned(db, t, h, now)
    case Resign(_, t, _, actor, now) => MarkTxAmbiguousReplaced(db, t, h, actor, now)
    case Replace(_, t, _, _, _, actor, now) => MarkTxReplaced(db, t, h, actor, now)
    case Prepare(_, t, _, _, _, now) => MarkGapFillerPrepared(db, t, h, now)
    case BumpFiller(_, t, _, _, _, now) => MarkGapFillerReplaced(db, t, h, now)
  }

  /** The network and the chain: sending, re-sending, mining and un-mining. */
  predicate OnNetwork(a: Act) { a.Send? || a.Resend? || a.Mine? || a.Unmine? }

  /** The database after any other act. */
  function Write(seen: Db, db: Db, a: Act): Db
    requires !Signs(a) && !OnNetwork(a)
  {
    match a
    case Verify(identity, authorization, merchant, validBefore, now) =>
      RecordVerification(db, identity, authorization, merchant, validBefore, now).0
    case Admit(q) => CreateIntent(db, q).0
    case RecordBroadcast(held, actor, now) => MarkTxBroadcast(db, held.t, held.h, actor, now).0
    case RecordAmbiguous(t, actor, now) => MarkTxAmbiguous(db, t, actor, now).0
    case Retire(t, to, actor, now) => RetireIntent(db, t, to, actor, now).0
    case Sight(t, block, actor, now) => MarkTxConfirming(db, t, block, actor, now).0
    case Finalize(t, block, gas, actor, now) => MarkTxConfirmed(db, t, block, gas, actor, now).0
    case Fail(t, gas, actor, now) => MarkTxReverted(db, t, gas, actor, now).0
    case ReorgOut(t, actor, now) => MarkTxReorgedOut(db, t, actor, now).0
    case Recover(t, actor, now) =>
      if Hit(seen, t, {TxAmbiguous}) && RowAt(seen, t).rawHash.Some?
      then MarkTxRecoveredBroadcast(db, t, RowAt(seen, t).rawHash.value, actor, now).0 else db
    case Land(t, succeeded, block, gas, actor, now) => MarkReplacementLanded(db, t, succeeded, block, gas, actor, now).0
    case Resolve(t, gas, now) => MarkGapFillerResolved(db, t, gas, now).0
    case Escalate(t, block, gas, actor, now) => MarkGapFillerSucceeded(db, t, block, gas, actor, now).0
    case Claim(p, worker, duration, at, now) => ClaimPayment(db, p, worker, duration, at, now).0
    case Renew(p, worker, duration, at) => RenewLease(db, p, worker, duration, at).0
    case Release(p, worker, now) => ReleaseLease(db, p, worker, now).0
    case ExpireStale(p, now) =>
      if p < |db.payments| && Stale(db.payments[p], now) then Commit(db, p, Expire(db.payments[p], now)) else db
    case Erase(p, cutoff, now) =>
      if p < |db.payments| && Redactable(db.payments[p], cutoff) then Commit(db, p, Redact(db.payments[p], now)) else db
    case Seed(signer, chainNonce) => SeedSignerAccount(db, signer, chainNonce)
    case SetMerchants(active) => db.(activeMerchants := active)
  }

  function Relay(seen: Db, w: World, a: Act): World
    requires OnNetwork(a)
  {
    if a.Send? then w.(sent := w.sent + {a.held.h})
    else if a.Resend? then
      if Hit(seen, a.t, {TxAmbiguous, TxBroadcast}) && RowAt(seen, a.t).rawHash.Some?
      then w.(sent := w.sent + {RowAt(seen, a.t).rawHash.value}) else w
    else if a.Mine? then w.(chain := w.chain[Slot(a.h.signer, a.h.nonce) := Mined(a.h, a.gas)])
    else w.(chain := w.chain - {a.slot})
  }

  /** A signing act: an actor only ever holds bytes the store has recorded. */
  function Countersign(c: Config, seen: Db, w: World, a: Act): World
    requires Signs(a)
  {
    var h := Signature(c, seen, a);
    if h.None? then w else
    var (db, reply) := Store(w.db, a, h.value);
    if reply != Ok then w.(db := db)
    else w.(db := db, hands := w.hands + {Held(a.who, Recorded(w, a), h.value, a.Sign?)})
  }

  function Apply(c: Config, seen: Db, w: World, a: Act): World
  {
    if Signs(a) then Countersign(c, seen, w, a)
    else if OnNetwork(a) then Relay(seen, w, a)
    else w.(db := Write(seen, w.db, a))
  }

  // ------------------------------------------------------------------ runs

  datatype Event = Event(read: nat, act: Act)

  const INIT: World := World(Db([], map[], {}, []), {}, {}, map[])

  /** `states` is a run of `events`, each acting on the state its actor read. */
  ghost predicate Run(c: Config, states: seq<World>, events: seq<Event>)
  {
    && |states| == |events| + 1
    && states[0] == INIT
    && forall n | 0 <= n < |events| ::
         && events[n].read <= n
         && Enabled(c, states[events[n].read].db, states[n], events[n].act)
         && states[n + 1] == Apply(c, states[events[n].read].db, states[n], events[n].act)
  }

  /** MarkGapFillerPrepared guards only on `dropped`. The row it revives must still be
      the unsigned one the actor listed. */
  predicate GapCurrent(db: Db, a: Act)
  {
    a.Prepare? && Hit(db, a.t, {TxDropped}) && NoOtherActive(db.payments[a.t.owner].rows, a.t.index) ==>
      RowAt(db, a.t).rawHash.None?
  }

  /** MarkTxConfirming ignores how many rows it updated. A payment it moves must still
      have the observed row as its live one. */
  predicate SightCurrent(db: Db, a: Act)
  {
    a.Sight? && a.t.owner < |db.payments| && db.payments[a.t.owner].state in {Broadcast, Replaced} ==>
      Hit(db, a.t, {TxBroadcast, TxConfirming})
  }

  /** Runs in which gap fillers are prepared on a current listing. Every other call may
      be as stale as it likes. */
  ghost predicate GapRun(c: Config, states: seq<World>, events: seq<Event>)
  {
    Run(c, states, events) && forall n | 0 <= n < |events| :: GapCurrent(states[n].db, events[n].act)
  }

  lemma RunLength(c: Config, states: seq<World>, events: seq<Event>)
    requires GapRun(c, states, events)
    ensures |states| == |events| + 1
  {
    hide Apply, Enabled;
  }

  // ------------------------------------------------------------- invariants

  ghost predicate AllSound(c: Config, db: Db) {
    forall p | 0 <= p < |db.payments| :: Sound(db.payments[p], Owner(p, c.cap))
  }

  /** `after` is a later value of the database. */
  ghost predicate Extends(db: Db, after: Db)
  {
    && |db.payments| <= |after.payments|
    && (forall p | 0 <= p < |db.payments| :: Kept(db.payments[p], after.payments[p]))
    && (forall s | s in db.nextNonce :: s in after.nextNonce && db.nextNonce[s] <= after.nextNonce[s])
  }

  lemma KeptTransitive(P: Payment, Q: Payment, R: Payment)
    requires Kept(P, Q) && Kept(Q, R)
    ensures Kept(P, R)
  {
    forall i | 0 <= i < |P.rows| ensures RowKept(P.rows[i], R.rows[i]) {
      assert RowKept(P.rows[i], Q.rows[i]) && RowKept(Q.rows[i], R.rows[i]);
    }
  }

  lemma ExtendsTransitive(a: Db, b: Db, d: Db)
    requires Extends(a, b) && Extends(b, d)
    ensures Extends(a, d)
  {
    forall p | 0 <= p < |a.payments| ensures Kept(a.payments[p], d.payments[p]) {
      KeptTransitive(a.payments[p], b.payments[p], d.payments[p]);
    }
  }

  /** Replacing one payment by a later, sound version of itself. */
  lemma CommitKeeps(c: Config, db: Db, p: PaymentId, Q: Payment)
    requires AllSound(c, db) && p < |db.payments|
    requires Sound(Q, Owner(p, c.cap)) && Kept(db.payments[p], Q)
    ensures AllSound(c, Commit(db, p, Q)) && Extends(db, Commit(db, p, Q))
  {
    forall k | 0 <= k < |db.payments| && k != p ensures Kept(db.payments[k], db.payments[k]) {
    }
  }
}

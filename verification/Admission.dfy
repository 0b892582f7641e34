/** Admission to settlement: CreateSettlementIntent (internal/store/settlement.go) and
    the nonce allocation inside it (internal/store/signer.go). */
module Admission {
  import opened PaymentStates
  import opened Ledger
  import opened Steps
  import opened Preservation

  /** `at` is the application clock, `now` the database's transaction start, which
      is also the stamp of an accepted intent. */
  datatype IntentRequest = IntentRequest(
    identity: nat, signer: Address, signature: nat, margin: int,
    quota: int, globalQuota: int, window: int, at: Time, now: Time)

  predicate ValidRequest(q: IntentRequest) {
    q.margin > 0 && q.quota > 0 && q.window > 0 && q.globalQuota > 0 && q.globalQuota >= q.quota
  }

  /** Accept: a fresh intent. Existing: the payment already has an active or terminal
      transaction. Refuse: an audited rejection. Fault: nothing was recorded. */
  datatype IntentReply =
    | Accept(intent: TxRef, nonce: nat)
    | Existing(row: TxRef, nonce: nat, txHash: Option<Signed>, confirmed: bool, reverted: bool)
    | Refuse(reason: Reason)
    | Fault

  /** Nonces are parsed as uint64; a sequence beyond that is refused. */
  const NONCE_LIMIT: nat := 0x1_0000_0000_0000_0000

  /** The payments whose intent was stamped after `since`. */
  function Requested(payments: seq<Payment>, since: Time): set<PaymentId> {
    set p | 0 <= p < |payments| && payments[p].requestedAt.Some? && payments[p].requestedAt.value > since
  }

  function RequestedFor(payments: seq<Payment>, m: MerchantId, since: Time): set<PaymentId> {
    set p | p in Requested(payments, since) && payments[p].merchant == Some(m)
  }

  /** The most recently updated row of status `s` with a recorded hash. */
  function Newest(rows: seq<Row>, s: Status): (k: Option<nat>)
    ensures k.Some? ==> k.value < |rows| && rows[k.value].status == s && rows[k.value].txHash.Some?
    ensures k.Some? ==> forall i | 0 <= i < |rows| && rows[i].status == s && rows[i].txHash.Some? ::
                          rows[i].updatedAt <= rows[k.value].updatedAt
    ensures k.None? ==> forall i | 0 <= i < |rows| :: !(rows[i].status == s && rows[i].txHash.Some?)
  {
    if rows == [] then None else
    var n := |rows| - 1;
    var k := Newest(rows[..n], s);
    if rows[n].status == s && rows[n].txHash.Some? &&
      (k.None? || rows[k.value].updatedAt < rows[n].updatedAt) then Some(n) else k
  }

  function FirstActive(rows: seq<Row>): (k: Option<nat>)
    ensures k.Some? ==> k.value < |rows| && Active(rows[k.value])
    ensures k.Some? ==> forall i | 0 <= i < k.value :: !Active(rows[i])
    ensures k.None? ==> forall i | 0 <= i < |rows| :: !Active(rows[i])
  {
    if rows == [] then None
    else if Active(rows[0]) then Some(0)
    else var k := FirstActive(rows[1..]); if k.None? then None else Some(k.value + 1)
  }

  function Terminal(P: Payment): Option<nat> {
    if P.state == Confirmed then Newest(P.rows, TxConfirmed)
    else if P.state == Reverted then Newest(P.rows, TxReverted)
    else None
  }

  /** The first admission rule a payment without a transaction breaks, in order. */
  function Refusal(db: Db, P: Payment, q: IntentRequest): Option<Reason>
  {
    if !CanTransition(P.state, Broadcasting) then Some(PaymentNotVerified)
    else if P.merchant.None? || P.merchant.value !in db.activeMerchants then Some(RecipientNotMerchant)
    else if P.validBefore.None? || P.validBefore.value <= q.at + q.margin then Some(AuthorizationExpiring)
    else if |RequestedFor(db.payments, P.merchant.value, q.now - q.window)| >= q.quota then Some(MerchantQuotaExceeded)
    else if |Requested(db.payments, q.now - q.window)| >= q.globalQuota then Some(GlobalQuotaExceeded)
    else None
  }

  function IntentRow(signer: Address, nonce: nat, now: Time): Row {
    Row(TxIntent, signer, nonce, None, None, None, None, None, None, None, None, None, None, now)
  }

  /** The payment row, its audit edge and the intent row, written together. */
  function Admitted(P: Payment, q: IntentRequest, nonce: nat): Payment {
    Move(P, Broadcasting, Http, q.now).(
      requestedAt := Some(q.now), signature := Some(q.signature), rows := P.rows + [IntentRow(q.signer, nonce, q.now)])
  }

  function Record(db: Db, p: Option<PaymentId>, result: AttemptResult): Db {
    db.(attempts := db.attempts + [Attempt(p, result)])
  }

  /** The intent is well-founded: nothing conflicts and the signer's sequence is usable. */
  predicate Signable(db: Db, P: Payment, q: IntentRequest) {
    && (P.signature.Some? ==> P.signature.value == q.signature)
    && q.signer in db.nextNonce && db.nextNonce[q.signer] < NONCE_LIMIT
  }

  /** The durable record of an accepted intent: payment, nonce and attempt. */
  function Accepting(db: Db, p: PaymentId, q: IntentRequest): Db
    requires p < |db.payments| && q.signer in db.nextNonce
  {
    var nonce := db.nextNonce[q.signer];
    Record(Commit(db, p, Admitted(db.payments[p], q, nonce)).(nextNonce := db.nextNonce[q.signer := nonce + 1]),
           Some(p), Accepted)
  }

  /** A request that is not accepted touches no payment and consumes no nonce. */
  function CreateIntent(db: Db, q: IntentRequest): (outcome: (Db, IntentReply))
    ensures !outcome.1.Accept? ==> outcome.0.payments == db.payments && outcome.0.nextNonce == db.nextNonce
    ensures outcome.1.Accept? ==>
      && q.signer in db.nextNonce && outcome.1.nonce == db.nextNonce[q.signer]
      && outcome.0.nextNonce == db.nextNonce[q.signer := outcome.1.nonce + 1]
  {
    if !ValidRequest(q) then (db, Fault) else
    var found := Lookup(db.payments, q.identity);
    if found.None? then (Record(db, None, Rejected(PaymentNotFound)), Refuse(PaymentNotFound)) else
    var p, P := found.value, db.payments[found.value];
    var terminal, active, refusal := Terminal(P), FirstActive(P.rows), Refusal(db, P, q);
    if terminal.Some? then
      (Record(db, Some(p), Duplicate),
       Existing(TxRef(p, terminal.value), P.rows[terminal.value].nonce, P.rows[terminal.value].txHash,
                P.state == Confirmed, P.state == Reverted))
    else if active.Some? then
      (Record(db, Some(p), Duplicate),
       Existing(TxRef(p, active.value), P.rows[active.value].nonce, P.rows[active.value].txHash, false, false))
    else if refusal.Some? then (Record(db, Some(p), Rejected(refusal.value)), Refuse(refusal.value))
    else if !Signable(db, P, q) then (db, Fault)
    else (Accepting(db, p, q), Accept(TxRef(p, |P.rows|), db.nextNonce[q.signer]))
  }

  // ----------------------------------------------------- who is admitted, exactly

  predicate OfActiveMerchant(db: Db, P: Payment) { P.merchant.Some? && P.merchant.value in db.activeMerchants }

  /** The authorization outlives the request by more than the safety margin. */
  predicate Outlives(P: Payment, at: Time, margin: int) { P.validBefore.Some? && P.validBefore.value - at > margin }

  /** How many intents, of one merchant or of all, were stamped within the window before now. */
  function Used(db: Db, merchant: Option<MerchantId>, q: IntentRequest): nat {
    |set p | 0 <= p < |db.payments| && db.payments[p].requestedAt.Some?
        && q.now - db.payments[p].requestedAt.value < q.window
        && (merchant.None? || db.payments[p].merchant == merchant)|
  }

  /** The payment of the request, if it has no transaction to answer from. */
  predicate Untried(db: Db, q: IntentRequest, p: PaymentId) {
    && p < |db.payments| && db.payments[p].identity == q.identity
    && (forall k | 0 <= k < p :: db.payments[k].identity != q.identity)
    && (forall i | 0 <= i < |db.payments[p].rows| :: !Active(db.payments[p].rows[i]))
    && db.payments[p].state !in {Confirmed, Reverted}
  }

  /** What a request is told, in terms of the payment it names: each refusal exactly if its own
      condition fails and those before it hold, and acceptance exactly if all of them hold. */
  lemma RepliesExactly(db: Db, q: IntentRequest, p: PaymentId)
    requires ValidRequest(q) && Untried(db, q, p)
    ensures var P, reply := db.payments[p], CreateIntent(db, q).1;
      var verified := P.state == Verified;
      var merchant := verified && OfActiveMerchant(db, P);
      var lasting := merchant && Outlives(P, q.at, q.margin);
      var within := lasting && Used(db, P.merchant, q) < q.quota;
      var room := within && Used(db, None, q) < q.globalQuota;
      var usable := room && (P.signature.None? || P.signature == Some(q.signature)) && q.signer in db.nextNonce
                    && db.nextNonce[q.signer] < 0x1_0000_0000_0000_0000;
      && (reply == Refuse(PaymentNotVerified) <==> !verified)
      && (reply == Refuse(RecipientNotMerchant) <==> verified && !merchant)
      && (reply == Refuse(AuthorizationExpiring) <==> merchant && !lasting)
      && (reply == Refuse(MerchantQuotaExceeded) <==> lasting && !within)
      && (reply == Refuse(GlobalQuotaExceeded) <==> within && !room)
      && (reply == Fault <==> room && !usable)
      && (reply.Accept? <==> usable)
      && (reply.Accept? ==> reply == Accept(TxRef(p, |P.rows|), db.nextNonce[q.signer]))
  {
    hide Requested, RequestedFor, Used, CreateIntent;
    UntriedReply(db, q, p);
    CountsAgree(db, q, None);
    CountsAgree(db, q, db.payments[p].merchant);
  }

  lemma UntriedReply(db: Db, q: IntentRequest, p: PaymentId)
    requires ValidRequest(q) && Untried(db, q, p)
    ensures var P, reply := db.payments[p], CreateIntent(db, q).1;
      var refusal := Refusal(db, P, q);
      if refusal.Some? then reply == Refuse(refusal.value)
      else if !Signable(db, P, q) then reply == Fault
      else reply == Accept(TxRef(p, |P.rows|), db.nextNonce[q.signer])
  {
    hide Refusal, Signable;
    assert Lookup(db.payments, q.identity) == Some(p);
  }

  lemma CountsAgree(db: Db, q: IntentRequest, m: Option<MerchantId>)
    ensures Used(db, m, q) ==
      if m.Some? then |RequestedFor(db.payments, m.value, q.now - q.window)|
      else |Requested(db.payments, q.now - q.window)|
  {
    var used := set p | 0 <= p < |db.payments| && db.payments[p].requestedAt.Some?
        && q.now - db.payments[p].requestedAt.value < q.window && (m.None? || db.payments[p].merchant == m);
    if m.Some? {
      assert used == RequestedFor(db.payments, m.value, q.now - q.window);
    } else {
      assert used == Requested(db.payments, q.now - q.window);
    }
  }

  /** Without a payment there is nothing else to say; an invalid request is not answered. */
  lemma UnknownIsNotFound(db: Db, q: IntentRequest)
    ensures CreateIntent(db, q).1 == Refuse(PaymentNotFound) <==>
      ValidRequest(q) && forall p | 0 <= p < |db.payments| :: db.payments[p].identity != q.identity
    ensures !ValidRequest(q) ==> CreateIntent(db, q) == (db, Fault)
    ensures ValidRequest(q) <==> q.margin > 0 && q.window > 0 && 0 < q.quota <= q.globalQuota
  {
  }

  /** What a request was told is what the attempt log says; only an invalid request or a
      conflict leaves no trace. */
  lemma AnswersAreLogged(db: Db, q: IntentRequest)
    ensures var (after, reply) := CreateIntent(db, q);
      && after.activeMerchants == db.activeMerchants
      && (reply.Fault? ==> after == db)
      && (!reply.Fault? ==>
            && after.attempts == db.attempts + [after.attempts[|after.attempts| - 1]]
            && after.attempts[|db.attempts|].result ==
                 match reply
                 case Accept(_, _) => Accepted
                 case Existing(_, _, _, _, _) => Duplicate
                 case Refuse(reason) => Rejected(reason))
  {
  }

  /** An accepted intent leaves exactly one new row, an unsigned intent holding the
      nonce, on a payment that was verified and belonged to an active merchant. */
  lemma AcceptedIntentIsDurable(db: Db, q: IntentRequest, cap: Terms)
    requires CreateIntent(db, q).1.Accept?
    requires forall p | 0 <= p < |db.payments| :: Sound(db.payments[p], Owner(p, cap))
    ensures var (after, reply) := CreateIntent(db, q);
      var p := reply.intent.owner;
      && p < |db.payments| && |after.payments| == |db.payments|
      && db.payments[p].identity == q.identity && db.payments[p].state == Verified && db.payments[p].rows == []
      && db.payments[p].merchant.Some? && db.payments[p].merchant.value in db.activeMerchants
      && after.payments == db.payments[p := Admitted(db.payments[p], q, reply.nonce)]
      && after.payments[p].rows == [IntentRow(q.signer, reply.nonce, q.now)]
      && Sound(after.payments[p], Owner(p, cap)) && Kept(db.payments[p], after.payments[p])
  {
    AcceptedShape(db, q);
    hide CreateIntent, Sound, Kept;
    var p := CreateIntent(db, q).1.intent.owner;
    VerifiedIsNew(db.payments[p], Owner(p, cap));
    AdmitKeeps(db.payments[p], Owner(p, cap), q, CreateIntent(db, q).1.nonce);
    assert Admitted(db.payments[p], q, CreateIntent(db, q).1.nonce).rows ==
      [IntentRow(q.signer, CreateIntent(db, q).1.nonce, q.now)];
  }

  /** What acceptance says about the payment it found. */
  lemma AcceptedShape(db: Db, q: IntentRequest)
    requires CreateIntent(db, q).1.Accept?
    ensures var (after, reply) := CreateIntent(db, q);
      var p := reply.intent.owner;
      && p < |db.payments| && db.payments[p].identity == q.identity && CanTransition(db.payments[p].state, Broadcasting)
      && db.payments[p].merchant.Some? && db.payments[p].merchant.value in db.activeMerchants
      && after.payments == db.payments[p := Admitted(db.payments[p], q, reply.nonce)]
  {
  }

  lemma VerifiedIsNew(P: Payment, p: Owner)
    requires Sound(P, p) && CanTransition(P.state, Broadcasting)
    ensures P.state == Verified && P.rows == []
  {
  }

  lemma AdmitKeeps(P: Payment, p: Owner, q: IntentRequest, nonce: nat)
    requires Sound(P, p) && P.state == Verified
    ensures P.rows == [] && Sound(Admitted(P, q, nonce), p) && Kept(P, Admitted(P, q, nonce))
  {
    MoveAudited(P, P, Broadcasting, Http, q.now);
    assert Admitted(P, q, nonce).rows == [IntentRow(q.signer, nonce, q.now)];
  }
}

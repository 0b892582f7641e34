/** The durable records of a settlement: payment rows, the Ethereum transaction
    rows that belong to each of them, and the audit trail of each payment.

    The ethereum_transactions and payment_transitions tables are partitioned by
    their payment_id foreign key, so a transaction id is the pair (payment, index).
    Rows are only ever appended or updated, never deleted. */
module Ledger {
  import opened PaymentStates

  datatype Option<+T> = None | Some(value: T)

  type PaymentId = nat
  type MerchantId = nat
  type Address = nat
  type Time = int

  /** What a transaction may spend: the three values recovery needs to rebuild it. */
  datatype Terms = Terms(gasLimit: nat, maxFee: nat, tip: nat)

  /** A signed transaction. It stands for its own hash (equal hash, equal bytes);
      `salt` is the signer's ECDSA randomness, the only thing that differs between
      two signatures of the same transaction. */
  datatype Signed = Signed(signer: Address, nonce: nat, terms: Terms, payment: PaymentId, salt: nat)

  /** The digest every signature of one transaction commits to. */
  function Sighash(h: Signed): Signed { h.(salt := 0) }

  datatype Status =
    | TxIntent | TxBroadcasting | TxBroadcast | TxConfirming | TxConfirmed
    | TxReverted | TxReplaced | TxDropped | TxAmbiguous

  datatype Block = Block(number: nat, hash: nat)
  datatype Gas = Gas(used: nat, price: nat)

  datatype Row = Row(
    status: Status,
    signer: Address,
    nonce: nat,
    txHash: Option<Signed>,
    rawHash: Option<Signed>,
    sighash: Option<Signed>,
    bytes: Option<Signed>,
    terms: Option<Terms>,
    attemptedAt: Option<Time>,
    firstSeenAt: Option<Time>,
    block: Option<Block>,
    gas: Option<Gas>,
    replacedBy: Option<nat>,
    updatedAt: Time)

  datatype Claim = Claim(holder: nat, until: Time)

  datatype Payment = Payment(
    identity: nat,
    state: State,
    merchant: Option<MerchantId>,
    authorization: Option<nat>,
    validBefore: Option<Time>,
    signature: Option<nat>,
    requestedAt: Option<Time>,
    confirmedAt: Option<Time>,
    updatedAt: Time,
    claim: Option<Claim>,
    redactedAt: Option<Time>,
    rows: seq<Row>,
    log: seq<Edge>)

  datatype TxRef = TxRef(owner: PaymentId, index: nat)

  /** The statuses of the ethereum_transactions_active_payment_unique partial index. */
  const ACTIVE: set<Status> := {TxIntent, TxBroadcasting, TxBroadcast, TxConfirming, TxAmbiguous}

  predicate Active(r: Row) { r.status in ACTIVE }

  /** At most one row of a payment is active: what the partial unique index demands. */
  predicate OneActive(rows: seq<Row>)
  {
    forall i, j | 0 <= i < |rows| && 0 <= j < |rows| && Active(rows[i]) && Active(rows[j]) :: i == j
  }

  /** No active row other than the one at `i`. */
  predicate NoOtherActive(rows: seq<Row>, i: nat)
  {
    forall j | 0 <= j < |rows| && j != i :: !Active(rows[j])
  }

  // ---------------------------------------------------------------- row facts

  /** The payment a row belongs to, and the most any of its signatures may spend. */
  datatype Owner = Owner(payment: PaymentId, cap: Terms)

  predicate Within(terms: Terms, cap: Terms) {
    terms.gasLimit <= cap.gasLimit && 0 < terms.maxFee <= cap.maxFee && terms.tip <= terms.maxFee
  }

  /** What one row's columns say about each other, for row `r` of payment `p`. */
  ghost predicate RowSound(r: Row, p: Owner)
  {
    && (r.rawHash.Some? ==>
          && r.rawHash.value.nonce == r.nonce && r.rawHash.value.signer == r.signer
          && r.rawHash.value.payment == p.payment && Within(r.rawHash.value.terms, p.cap)
          && r.terms == Some(r.rawHash.value.terms))
    && (r.txHash.Some? ==> r.txHash == r.rawHash)
    && (r.bytes.Some? ==> r.bytes == r.rawHash && r.sighash.None?)
    && (r.sighash.Some? ==> r.rawHash.Some? && r.sighash == Some(Sighash(r.rawHash.value)))
    && match r.status
       case TxIntent => r.rawHash.None? && r.block.None?
       case TxBroadcasting | TxAmbiguous => r.sighash.Some? && r.txHash.None? && r.block.None?
       case TxBroadcast => r.txHash.Some? && r.block.None? && (r.attemptedAt.Some? || r.firstSeenAt.Some?)
       case TxReplaced => r.txHash.Some? && r.block.None?
       case TxConfirming => r.txHash.Some? && r.block.Some? && r.firstSeenAt.Some?
       case TxConfirmed => r.txHash.Some? && r.block.Some? && r.gas.Some?
       case TxReverted => r.txHash.Some? && r.gas.Some?
       case TxDropped => (r.rawHash.None? ==> r.block.None?) && (r.rawHash.Some? ==> r.txHash.Some?)
  }

  /** Never recorded as handed to the network under its own hash. */
  predicate Unattempted(r: Row) {
    r.status in {TxIntent, TxBroadcasting, TxAmbiguous} || (r.status == TxDropped && r.rawHash.None?)
  }

  /** The first row was superseded while ambiguous: only a re-signature carries the sighash on. */
  predicate ReSigned(rows: seq<Row>) { |rows| > 1 && rows[1].sighash.Some? }

  /** How the rows of a payment descend from each other: no two record one signature, every
      replacement is stamped with its attempt, and the first row lacks that stamp exactly
      before its first recorded attempt or after a re-signature took its place. */
  ghost predicate Lineage(rows: seq<Row>)
  {
    && (forall i | 0 < i < |rows| :: rows[i].attemptedAt.Some?)
    && (rows != [] ==> (rows[0].attemptedAt.None? <==> Unattempted(rows[0]) || ReSigned(rows)))
    && (forall i, j | 0 <= i < j < |rows| && rows[i].rawHash.Some? :: rows[j].rawHash != rows[i].rawHash)
  }

  /** Every row of a payment is sound and carries the nonce the payment was given. */
  ghost predicate RowsSound(rows: seq<Row>, p: Owner)
  {
    && (forall i | 0 <= i < |rows| :: RowSound(rows[i], p))
    && (forall i | 0 <= i < |rows| :: rows[i].nonce == rows[0].nonce && rows[i].signer == rows[0].signer)
    && (forall i | 0 <= i < |rows| && rows[i].status == TxReplaced ::
          rows[i].replacedBy.Some? && i < rows[i].replacedBy.value < |rows|)
    && Lineage(rows)
  }

  // ------------------------------------------------------- state correlation

  /** A signature that can no longer be the recorded one of its payment. */
  predicate Spent(r: Row, rest: set<Status>) { r.status in rest && r.rawHash.Some? }

  predicate LiveAt(rows: seq<Row>, a: int, s: Status, rest: set<Status>)
  {
    && 0 <= a < |rows|
    && rows[a].status == s
    && forall i | 0 <= i < |rows| && i != a :: Spent(rows[i], rest)
  }

  /** Exactly one row has status `s`; every other row is a superseded signature. */
  ghost predicate OneLive(rows: seq<Row>, s: Status, rest: set<Status>)
  {
    exists a :: LiveAt(rows, a, s, rest)
  }

  const SUPERSEDED: set<Status> := {TxReplaced, TxDropped}

  ghost predicate HasBytes(rows: seq<Row>) {
    forall i | 0 <= i < |rows| :: rows[i].bytes.Some?
  }

  ghost predicate NoBytes(rows: seq<Row>) {
    forall i | 0 <= i < |rows| :: rows[i].bytes.None?
  }

  /** The single intent was retired before anything was signed. */
  predicate RetiredUnsigned(rows: seq<Row>) {
    |rows| == 1 && rows[0].status == TxDropped && rows[0].rawHash.None? && rows[0].bytes.None?
  }

  /** A payment's state and its transaction rows tell the same story. */
  ghost predicate Correlated(state: State, rows: seq<Row>)
  {
    match state
    case Received | Verified | VerificationFailed => rows == []
    case Broadcasting => |rows| == 1 && rows[0].status in {TxIntent, TxBroadcasting} && NoBytes(rows)
    case ManualReview =>
      || (|rows| == 1 && rows[0].status == TxAmbiguous && NoBytes(rows))
      || (OneLive(rows, TxConfirming, {TxDropped}) && HasBytes(rows))
    case Broadcast | Replaced => OneLive(rows, TxBroadcast, SUPERSEDED) && NoBytes(rows)
    case Confirming => (OneLive(rows, TxConfirming, SUPERSEDED) || OneLive(rows, TxBroadcast, SUPERSEDED)) &&
      NoBytes(rows)
    case Confirmed => OneLive(rows, TxConfirmed, SUPERSEDED) && NoBytes(rows)
    case Reverted => OneLive(rows, TxReverted, SUPERSEDED) && NoBytes(rows)
    case Expired | Failed =>
      || (rows == [] && state == Expired)
      || RetiredUnsigned(rows)
      || (OneLive(rows, TxBroadcast, {TxReplaced}) && HasBytes(rows))
      || OneLive(rows, TxReverted, {TxDropped})
  }

  /** A confirming payment is one whose recorded row was itself seen mined. It does not
      follow from Correlated: a stale sighting can move the payment alone. */
  ghost predicate Sighted(state: State, rows: seq<Row>) {
    state == Confirming ==> OneLive(rows, TxConfirming, SUPERSEDED)
  }

  // ---------------------------------------------------- watching and erasure

  /** Some other signature of the same nonce was recorded as mined. */
  ghost predicate SiblingMined(rows: seq<Row>, i: int) {
    exists j | 0 <= j < |rows| && j != i :: rows[j].firstSeenAt.Some? || rows[j].status == TxReverted
  }

  /** A signed row is only ever dropped once a sibling was recorded as mined. */
  ghost predicate DropsJustified(rows: seq<Row>)
  {
    forall i | 0 <= i < |rows| && rows[i].status == TxDropped && rows[i].rawHash.Some? :: SiblingMined(rows, i)
  }

  /** The columns of a payment that outlive or precede settlement. */
  ghost predicate RecordSound(P: Payment)
  {
    && (P.rows != [] <==> P.requestedAt.Some?)
    && (P.confirmedAt.Some? <==> P.state == Confirmed)
    && (P.redactedAt.None? ==> P.validBefore.Some? && (P.rows != [] ==> P.signature.Some?))
    && (P.redactedAt.Some? ==>
          && P.merchant.None? && P.authorization.None? && P.validBefore.None? && P.signature.None? && P.claim.None?
          && P.state in {Confirmed, Reverted, Failed, Expired, VerificationFailed}
          && (P.state in {Failed, Expired} ==> forall i | 0 <= i < |P.rows| :: P.rows[i].status == TxReverted))
  }

  /** The walk started received -> verified and never returned there, and anything
      with a transaction row went verified -> broadcasting next. */
  ghost predicate Audited(P: Payment)
  {
    && Trail(P.log, P.state)
    && P.log[0].to == Verified
    && (P.state == Verified ==> |P.log| == 1)
    && (P.rows != [] ==> |P.log| > 1 && P.log[1].from == Verified && P.log[1].to == Broadcasting)
  }

  /** Everything the protocol keeps true of one payment, at every commit. */
  ghost predicate Sound(P: Payment, p: Owner)
  {
    RowsSound(P.rows, p) && Correlated(P.state, P.rows) && DropsJustified(P.rows) && RecordSound(P) && Audited(P)
  }

  // ---------------------------------------------------------------- history

  /** What no later step can take back about a row. */
  ghost predicate RowKept(r: Row, s: Row)
  {
    && s.nonce == r.nonce && s.signer == r.signer
    && (r.rawHash.Some? ==> s.rawHash == r.rawHash && s.sighash == r.sighash)
    && (r.txHash.Some? ==> s.txHash == r.txHash)
    && (r.firstSeenAt.Some? ==> s.firstSeenAt == r.firstSeenAt)
    && (r.status in {TxConfirmed, TxReverted} ==> s.status == r.status && s.block == r.block && s.gas == r.gas)
    && (r.status == TxDropped && r.rawHash.Some? ==> s.status == TxDropped)
  }

  ghost predicate RowsKept(rows: seq<Row>, later: seq<Row>) {
    |rows| <= |later| && forall i | 0 <= i < |rows| :: RowKept(rows[i], later[i])
  }

  /** An expired payment whose gap filler the chain accepted. */
  ghost predicate Escalated(P: Payment) {
    P.state == ManualReview && P.rows != [] && HasBytes(P.rows)
  }

  /** `Q` is a later version of payment `P`. */
  ghost predicate Kept(P: Payment, Q: Payment)
  {
    && Q.identity == P.identity
    && RowsKept(P.rows, Q.rows)
    && P.log <= Q.log
    && (P.requestedAt.Some? ==> Q.requestedAt == P.requestedAt)
    && (P.redactedAt.Some? ==> Q.redactedAt == P.redactedAt && Q.state == P.state)
    && (P.state in {Confirmed, Reverted, Failed} ==> Q.state == P.state)
    && (P.state in {Broadcast, Confirming, Replaced} ==>
        Q.state in {Broadcast, Confirming, Replaced, Confirmed, Reverted})
    && (P.state == Expired ==> Q.state == Expired || Escalated(Q))
    && (Escalated(P) ==> Escalated(Q))
  }
}

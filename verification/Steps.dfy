/** Every committed step of the settlement store, as a function from one database
    value to the next (internal/store/settlement.go, settlementwork.go, recovery.go,
    lease.go, signer.go, retention.go).

    Each function first lists what the step needs and then the whole new value. A
    step that cannot commit leaves the database as it was. `now` is the database
    clock of the statement. */
module Steps {
  import opened PaymentStates
  import opened Ledger

  datatype Reason =
    | PaymentNotFound | PaymentNotVerified | RecipientNotMerchant
    | AuthorizationExpiring | MerchantQuotaExceeded | GlobalQuotaExceeded

  datatype AttemptResult = Accepted | Duplicate | Rejected(reason: Reason)
  datatype Attempt = Attempt(payment: Option<PaymentId>, result: AttemptResult)

  datatype Db = Db(
    payments: seq<Payment>,
    nextNonce: map<Address, nat>,
    activeMerchants: set<MerchantId>,
    attempts: seq<Attempt>)

  /** Ok: committed. Race: a guard found another state and the step rolled back.
      Constraint: the schema refused a statement and the step rolled back.
      InvalidEdge: the transition is not in the table, and nothing was written. */
  datatype Reply = Ok | Race | Constraint | InvalidEdge

  // ------------------------------------------------------------------ guards

  predicate Hit(db: Db, t: TxRef, statuses: set<Status>)
  {
    && t.owner < |db.payments|
    && t.index < |db.payments[t.owner].rows|
    && db.payments[t.owner].rows[t.index].status in statuses
  }

  function RowAt(db: Db, t: TxRef): Row
    requires t.owner < |db.payments| && t.index < |db.payments[t.owner].rows|
  {
    db.payments[t.owner].rows[t.index]
  }

  /** UNIQUE (tx_hash): no row other than `t` records the hash. */
  predicate HashFree(payments: seq<Payment>, t: TxRef, h: Option<Signed>)
  {
    h.Some? ==>
      forall q, j | 0 <= q < |payments| && 0 <= j < |payments[q].rows| && !(q == t.owner && j == t.index) ::
        payments[q].rows[j].txHash != h
  }

  /** Writing `r` at `t` violates neither unique index. */
  predicate Admissible(payments: seq<Payment>, t: TxRef, r: Row)
    requires t.owner < |payments|
  {
    (Active(r) ==> NoOtherActive(payments[t.owner].rows, t.index)) && HashFree(payments, t, r.txHash)
  }

  function Commit(db: Db, p: PaymentId, P: Payment): Db
    requires p < |db.payments|
  {
    db.(payments := db.payments[p := P])
  }

  function Put(P: Payment, i: nat, r: Row): Payment
    requires i < |P.rows|
  {
    P.(rows := P.rows[i := r])
  }

  function Move(P: Payment, to: State, actor: Actor, now: Time): Payment {
    P.(state := to, updatedAt := now, log := P.log + [Edge(P.state, to, actor)])
  }

  /** One row and its payment advance together or not at all. */
  function Advance(db: Db, t: TxRef, from: set<Status>, r: Row, states: set<State>, to: State, actor: Actor,
                   now: Time): (Db, Reply)
  {
    if !Hit(db, t, from) then (db, Race)
    else if !Admissible(db.payments, t, r) then (db, Constraint)
    else if db.payments[t.owner].state !in states then (db, Race)
    else if actor == HttpWait then (db, Constraint)
    else (Commit(db, t.owner, Move(Put(db.payments[t.owner], t.index, r), to, actor, now)), Ok)
  }

  // --------------------------------------------------------- broadcast steps

  function SignedRow(r: Row, h: Signed, now: Time): Row {
    r.(status := TxBroadcasting, rawHash := Some(h), sighash := Some(Sighash(h)), terms := Some(h.terms),
       updatedAt := now)
  }

  function MarkTxSigned(db: Db, t: TxRef, h: Signed, now: Time): (Db, Reply)
  {
    if !Hit(db, t, {TxIntent}) then (db, Race)
    else if !Admissible(db.payments, t, SignedRow(RowAt(db, t), h, now)) then (db, Constraint)
    else (Commit(db, t.owner, Put(db.payments[t.owner], t.index, SignedRow(RowAt(db, t), h, now))), Ok)
  }

  function BroadcastRow(r: Row, h: Signed, now: Time): Row {
    r.(status := TxBroadcast, txHash := Some(h), attemptedAt := Some(now), updatedAt := now)
  }

  function MarkTxBroadcast(db: Db, t: TxRef, h: Signed, actor: Actor, now: Time): (Db, Reply)
  {
    if !Hit(db, t, {TxBroadcasting}) then (db, Race) else
    Advance(db, t, {TxBroadcasting}, BroadcastRow(RowAt(db, t), h, now), {Broadcasting}, Broadcast, actor, now)
  }

  function StatusRow(r: Row, s: Status, now: Time): Row { r.(status := s, updatedAt := now) }

  function MarkTxAmbiguous(db: Db, t: TxRef, actor: Actor, now: Time): (Db, Reply)
  {
    if !Hit(db, t, {TxBroadcasting}) then (db, Race) else
    Advance(db, t, {TxBroadcasting}, StatusRow(RowAt(db, t), TxAmbiguous, now), {Broadcasting}, ManualReview, actor,
            now)
  }

  /** MarkIntentExpired (`to` Expired) and MarkIntentUnsettleable (`to` Failed). */
  function RetireIntent(db: Db, t: TxRef, to: State, actor: Actor, now: Time): (Db, Reply)
  {
    if !Hit(db, t, {TxIntent}) then (db, Race) else
    Advance(db, t, {TxIntent}, StatusRow(RowAt(db, t), TxDropped, now), {Broadcasting}, to, actor, now)
  }

  // ------------------------------------------------------ confirmation steps

  function ConfirmingRow(r: Row, block: Block, now: Time): Row {
    r.(status := TxConfirming, block := Some(block),
       firstSeenAt := if r.firstSeenAt.Some? then r.firstSeenAt else Some(now), updatedAt := now)
  }

  /** The affected-row count of the row update is ignored, as in the source. */
  function MarkTxConfirming(db: Db, t: TxRef, block: Block, actor: Actor, now: Time): (Db, Reply)
  {
    if t.owner >= |db.payments| then (db, Ok) else
    var P := db.payments[t.owner];
    var Q := if Hit(db, t, {TxBroadcast, TxConfirming}) then Put(P, t.index, ConfirmingRow(RowAt(db, t), block, now))
      else P;
    if Hit(db, t, {TxBroadcast, TxConfirming}) &&
      !Admissible(db.payments, t, ConfirmingRow(RowAt(db, t), block, now)) then (db, Constraint)
    else if P.state !in {Broadcast, Replaced} then (Commit(db, t.owner, Q), Ok)
    else if actor == HttpWait then (db, Constraint)
    else (Commit(db, t.owner, Move(Q, Confirming, actor, now)), Ok)
  }

  const PENDING: set<State> := {Broadcast, Confirming, Replaced}

  function ConfirmedRow(r: Row, block: Block, gas: Gas, now: Time): Row {
    r.(status := TxConfirmed, block := Some(block), gas := Some(gas), updatedAt := now)
  }

  function MarkTxConfirmed(db: Db, t: TxRef, block: Block, gas: Gas, actor: Actor, now: Time): (Db, Reply)
  {
    if !Hit(db, t, {TxBroadcast, TxConfirming}) then
      (db, if Hit(db, t, {TxConfirmed}) && db.payments[t.owner].state == Confirmed then Ok else Race)
    else
      var P, r := db.payments[t.owner], ConfirmedRow(RowAt(db, t), block, gas, now);
      if !Admissible(db.payments, t, r) then (db, Constraint)
      else if P.state !in PENDING then (db, Race)
      else if actor == HttpWait then (db, Constraint)
      else (Commit(db, t.owner, Move(Put(P, t.index, r), Confirmed, actor, now).(confirmedAt := Some(now))), Ok)
  }

  function RevertedRow(r: Row, gas: Gas, now: Time): Row {
    r.(status := TxReverted, gas := Some(gas), updatedAt := now)
  }

  function MarkTxReverted(db: Db, t: TxRef, gas: Gas, actor: Actor, now: Time): (Db, Reply)
  {
    if !Hit(db, t, {TxBroadcast, TxConfirming}) then
      (db, if Hit(db, t, {TxReverted}) && db.payments[t.owner].state == Reverted then Ok else Race)
    else
      Advance(db, t, {TxBroadcast, TxConfirming}, RevertedRow(RowAt(db, t), gas, now), PENDING, Reverted, actor, now)
  }

  function ReorgedRow(r: Row, now: Time): Row {
    r.(status := TxBroadcast, block := None, updatedAt := now)
  }

  function MarkTxReorgedOut(db: Db, t: TxRef, actor: Actor, now: Time): (Db, Reply)
  {
    if !Hit(db, t, {TxConfirming}) then (db, Race) else
    Advance(db, t, {TxConfirming}, ReorgedRow(RowAt(db, t), now), {Confirming}, Broadcast, actor, now)
  }

  // ---------------------------------------------------------- recovery steps

  function MarkTxRecoveredBroadcast(db: Db, t: TxRef, h: Signed, actor: Actor, now: Time): (Db, Reply)
  {
    if !Hit(db, t, {TxAmbiguous}) then (db, Race) else
    Advance(db, t, {TxAmbiguous}, BroadcastRow(RowAt(db, t), h, now), {ManualReview}, Broadcast, actor, now)
  }

  /** The row inserted by a replacement: same payment, signer and nonce. */
  function Heir(r: Row, h: Signed, sighash: Option<Signed>, bytes: Option<Signed>, now: Time): Row {
    Row(TxBroadcast, r.signer, r.nonce, Some(h), Some(h), sighash, bytes, Some(h.terms), Some(now), None, None, None,
        None, now)
  }

  /** Row `i` becomes `gone`, linked to `heir`, which is appended. */
  function Supersede(P: Payment, i: nat, gone: Row, heir: Row): Payment
    requires i < |P.rows|
  {
    P.(rows := P.rows[i := gone.(replacedBy := Some(|P.rows|))] + [heir])
  }

  /** Neither the update to `gone` nor the insert of `heir` violates an index. */
  predicate CanSupersede(db: Db, t: TxRef, gone: Row, heir: Row)
    requires t.owner < |db.payments| && t.index < |db.payments[t.owner].rows|
  {
    && Admissible(db.payments, t, gone)
    && var mid := Commit(db, t.owner, Put(db.payments[t.owner], t.index, gone));
       Admissible(mid.payments, TxRef(t.owner, |db.payments[t.owner].rows|), heir)
  }

  function MarkTxAmbiguousReplaced(db: Db, t: TxRef, h: Signed, actor: Actor, now: Time): (Db, Reply)
  {
    if !Hit(db, t, {TxAmbiguous}) then (db, Race) else
    var P, r := db.payments[t.owner], RowAt(db, t);
    var gone := r.(status := TxReplaced, txHash := r.rawHash, updatedAt := now);
    var heir := Heir(r, h, r.sighash, None, now);
    if !CanSupersede(db, t, gone, heir) then (db, Constraint)
    else if P.state != ManualReview then (db, Race)
    else if actor == HttpWait then (db, Constraint)
    else (Commit(db, t.owner, Move(Supersede(P, t.index, gone, heir), Replaced, actor, now)), Ok)
  }

  /** Only the first replacement is audited; a re-bump leaves the payment replaced. */
  function MoveToReplaced(P: Payment, actor: Actor, now: Time): Payment {
    if P.state == Replaced then P.(updatedAt := now) else Move(P, Replaced, actor, now)
  }

  function MarkTxReplaced(db: Db, t: TxRef, h: Signed, actor: Actor, now: Time): (Db, Reply)
  {
    if !Hit(db, t, {TxBroadcast}) then (db, Race) else
    var P, r := db.payments[t.owner], RowAt(db, t);
    var gone, heir := StatusRow(r, TxReplaced, now), Heir(r, h, None, None, now);
    if !CanSupersede(db, t, gone, heir) then (db, Constraint)
    else if P.state !in {Broadcast, Replaced} then (db, Race)
    else if P.state == Broadcast && actor == HttpWait then (db, Constraint)
    else (Commit(db, t.owner, MoveToReplaced(Supersede(P, t.index, gone, heir), actor, now)), Ok)
  }

  predicate ExactlyOneActive(rows: seq<Row>) {
    exists a | 0 <= a < |rows| :: Active(rows[a]) && NoOtherActive(rows, a)
  }

  function DropActive(rows: seq<Row>, now: Time): (dropped: seq<Row>)
    ensures |dropped| == |rows|
  {
    seq(|rows|, i requires 0 <= i < |rows| => if Active(rows[i]) then StatusRow(rows[i], TxDropped, now) else rows[i])
  }

  function LandedRow(r: Row, succeeded: bool, block: Block, gas: Gas, now: Time): Row {
    if succeeded then ConfirmingRow(r, block, now) else RevertedRow(r, gas, now)
  }

  function LandedFrom(succeeded: bool): set<State> {
    if succeeded then {Replaced, Broadcast} else {Replaced, Broadcast, Confirming}
  }

  function MarkReplacementLanded(db: Db, t: TxRef, succeeded: bool, block: Block, gas: Gas, actor: Actor,
                                 now: Time): (Db, Reply)
  {
    if !Hit(db, t, {TxReplaced}) || !ExactlyOneActive(db.payments[t.owner].rows) then (db, Race) else
    var P := db.payments[t.owner];
    var Q := P.(rows := DropActive(P.rows, now)[t.index := LandedRow(RowAt(db, t), succeeded, block, gas, now)]);
    if P.state !in LandedFrom(succeeded) then (db, Race)
    else if actor == HttpWait then (db, Constraint)
    else (Commit(db, t.owner, Move(Q, if succeeded then Confirming else Reverted, actor, now)), Ok)
  }

  // -------------------------------------------------------- nonce-gap fillers

  function FillerRow(r: Row, h: Signed, now: Time): Row {
    r.(status := TxBroadcast, rawHash := Some(h), txHash := Some(h), bytes := Some(h), terms := Some(h.terms),
       attemptedAt := Some(now), updatedAt := now)
  }

  function MarkGapFillerPrepared(db: Db, t: TxRef, h: Signed, now: Time): (Db, Reply)
  {
    if !Hit(db, t, {TxDropped}) then (db, Race)
    else if !Admissible(db.payments, t, FillerRow(RowAt(db, t), h, now)) then (db, Constraint)
    else (Commit(db, t.owner, Put(db.payments[t.owner], t.index, FillerRow(RowAt(db, t), h, now))), Ok)
  }

  function MarkGapFillerReplaced(db: Db, t: TxRef, h: Signed, now: Time): (Db, Reply)
  {
    if !Hit(db, t, {TxBroadcast}) || RowAt(db, t).bytes.None? then (db, Race) else
    var r := RowAt(db, t);
    var gone, heir := StatusRow(r, TxReplaced, now), Heir(r, h, None, Some(h), now);
    if !CanSupersede(db, t, gone, heir) then (db, Constraint)
    else (Commit(db, t.owner, Supersede(db.payments[t.owner], t.index, gone, heir)), Ok)
  }

  function DropSiblings(rows: seq<Row>, k: nat, now: Time): (dropped: seq<Row>)
    ensures |dropped| == |rows|
  {
    seq(|rows|, i requires 0 <= i < |rows| =>
      if i != k && rows[i].status in {TxBroadcast, TxReplaced} then StatusRow(rows[i], TxDropped, now) else rows[i])
  }

  function MarkGapFillerResolved(db: Db, t: TxRef, gas: Gas, now: Time): (Db, Reply)
  {
    if !Hit(db, t, {TxBroadcast, TxReplaced}) then (db, Race)
    else if !Admissible(db.payments, t, RevertedRow(RowAt(db, t), gas, now)) then (db, Constraint)
    else
      var P := Put(db.payments[t.owner], t.index, RevertedRow(RowAt(db, t), gas, now));
      (Commit(db, t.owner, P.(rows := DropSiblings(P.rows, t.index, now))), Ok)
  }

  function MarkGapFillerSucceeded(db: Db, t: TxRef, block: Block, gas: Gas, actor: Actor, now: Time): (Db, Reply)
  {
    if !Hit(db, t, {TxBroadcast, TxReplaced}) then (db, Race) else
    var r := ConfirmingRow(RowAt(db, t), block, now).(gas := Some(gas));
    if !Admissible(db.payments, t, r) then (db, Constraint) else
    var P := Put(db.payments[t.owner], t.index, r);
    if P.state != Expired then (db, Race)
    else if actor == HttpWait then (db, Constraint)
    else (Commit(db, t.owner, Move(P.(rows := DropSiblings(P.rows, t.index, now)), ManualReview, actor, now)), Ok)
  }

  // ------------------------------------------------------------ watch queries

  /** ListReplacedPending. */
  predicate WatchedReplacement(db: Db, t: TxRef) {
    Hit(db, t, {TxReplaced}) && db.payments[t.owner].state in {Replaced, Confirming, Broadcast}
  }

  /** ListDroppedBlockingGaps, for rows of `signer` whose authorization ran out by `cutoff`. */
  predicate BlockingGap(db: Db, signer: Address, cutoff: Time, t: TxRef)
  {
    && Hit(db, t, {TxDropped})
    && RowAt(db, t).signer == signer
    && RowAt(db, t).rawHash.None?
    && db.payments[t.owner].state in {Expired, Failed}
    && db.payments[t.owner].validBefore.Some? && db.payments[t.owner].validBefore.value <= cutoff
    && LaterInFlight(db, signer, RowAt(db, t).nonce)
  }

  predicate LaterInFlight(db: Db, signer: Address, nonce: nat)
  {
    exists q, j | 0 <= q < |db.payments| && 0 <= j < |db.payments[q].rows| ::
      var later := db.payments[q].rows[j]; later.signer == signer && later.nonce > nonce && Active(later)
  }

  /** ListGapFillers. */
  predicate WatchedFiller(db: Db, t: TxRef)
  {
    && Hit(db, t, {TxBroadcast, TxReplaced})
    && db.payments[t.owner].state in {Expired, Failed}
    && RowAt(db, t).rawHash.Some? && RowAt(db, t).bytes.Some?
  }

  /** ListStuckGapFillers, for fillers of `signer` last attempted before `since`. */
  predicate StuckFiller(db: Db, signer: Address, since: Time, t: TxRef)
  {
    && Hit(db, t, {TxBroadcast})
    && RowAt(db, t).signer == signer
    && RowAt(db, t).bytes.Some?
    && db.payments[t.owner].state in {Expired, Failed}
    && RowAt(db, t).attemptedAt.Some? && RowAt(db, t).attemptedAt.value < since
  }

  /** LoadSettlementWork returns the active row. */
  predicate Loaded(db: Db, t: TxRef) { Hit(db, t, ACTIVE) }

  // ------------------------------------------------------------------ leases

  predicate Claimable(P: Payment, now: Time) { P.claim.None? || P.claim.value.until <= now }

  /** ClaimPayment: `at` is the caller's clock, `now` the database's. The redaction
      CHECK refuses a lease on an erased payment. */
  function ClaimPayment(db: Db, p: PaymentId, worker: nat, duration: int, at: Time, now: Time): (Db, Reply)
  {
    if duration <= 0 || p >= |db.payments| || !Claimable(db.payments[p], at) then (db, Race)
    else if db.payments[p].redactedAt.Some? then (db, Constraint)
    else (Commit(db, p, db.payments[p].(claim := Some(Claim(worker, at + duration)), updatedAt := now)), Ok)
  }

  function RenewLease(db: Db, p: PaymentId, worker: nat, duration: int, at: Time): (Db, Reply)
  {
    if duration <= 0 || p >= |db.payments| then (db, Race) else
    var c := db.payments[p].claim;
    if c.None? || c.value.holder != worker || c.value.until <= at then (db, Race)
    else (Commit(db, p, db.payments[p].(claim := Some(Claim(worker, at + duration)))), Ok)
  }

  function ReleaseLease(db: Db, p: PaymentId, worker: nat, now: Time): (Db, Reply)
  {
    if p >= |db.payments| then (db, Race) else
    var c := db.payments[p].claim;
    if c.None? || c.value.holder != worker then (db, Race)
    else (Commit(db, p, db.payments[p].(claim := None, updatedAt := now)), Ok)
  }

  // --------------------------------------------------------------- retention

  predicate Stale(P: Payment, now: Time) {
    P.state == Verified && P.validBefore.Some? && P.validBefore.value < now
  }

  function Expire(P: Payment, now: Time): Payment { Move(P, Expired, System, now) }

  /** The redaction predicate, with `cutoff` the retention period before now. */
  predicate Redactable(P: Payment, cutoff: Time)
  {
    && P.redactedAt.None?
    && P.state in {Confirmed, Reverted, Failed, Expired, VerificationFailed}
    && P.validBefore.Some? && P.validBefore.value < cutoff
    && (if P.confirmedAt.Some? then P.confirmedAt.value else P.updatedAt) < cutoff
    && (P.state in {Confirmed, Reverted, VerificationFailed}
        || forall i | 0 <= i < |P.rows| :: P.rows[i].status == TxReverted)
  }

  function ClearBytes(rows: seq<Row>, now: Time): (cleared: seq<Row>)
    ensures |cleared| == |rows|
  {
    seq(|rows|, i requires 0 <= i < |rows| => if rows[i].bytes.Some? then rows[i].(bytes := None, updatedAt := now)
        else rows[i])
  }

  function Redact(P: Payment, now: Time): Payment {
    P.(merchant := None, authorization := None, validBefore := None, signature := None, claim := None,
       redactedAt := Some(now), updatedAt := now, rows := ClearBytes(P.rows, now))
  }

  // ---------------------------------------------------- verification, nonces

  function Lookup(payments: seq<Payment>, identity: nat): (p: Option<PaymentId>)
    ensures p.Some? ==> p.value < |payments| && payments[p.value].identity == identity
    ensures p.Some? ==> forall k | 0 <= k < p.value :: payments[k].identity != identity
    ensures p.None? ==> forall k | 0 <= k < |payments| :: payments[k].identity != identity
  {
    if payments == [] then None
    else if payments[0].identity == identity then Some(0)
    else
      var rest := Lookup(payments[1..], identity);
      if rest.None? then None else Some(rest.value + 1)
  }

  predicate AuthorizationTaken(db: Db, authorization: nat) {
    exists q | 0 <= q < |db.payments| :: db.payments[q].authorization == Some(authorization)
  }

  /** RecordVerification of a verified attempt: at most one record per identity and
      per live authorization. */
  function RecordVerification(db: Db, identity: nat, authorization: nat, merchant: Option<MerchantId>,
                              validBefore: Time, now: Time): (Db, Reply)
  {
    if Lookup(db.payments, identity).Some? then (db, Ok)
    else if AuthorizationTaken(db, authorization) then (db, Constraint)
    else
      var record := Payment(identity, Verified, merchant, Some(authorization), Some(validBefore), None, None, None, now,
                           None, None, [], [Edge(Received, Verified, Http)]);
      (db.(payments := db.payments + [record]), Ok)
  }

  /** SeedSignerAccount: the stored sequence is only ever raised. */
  function SeedSignerAccount(db: Db, signer: Address, chainNonce: nat): Db
  {
    var stored := if signer in db.nextNonce && db.nextNonce[signer] > chainNonce then db.nextNonce[signer]
      else chainNonce;
    db.(nextNonce := db.nextNonce[signer := stored])
  }
}

/** What a settle request is told about a transaction, and why it is never told
    anything else later (internal/settlement/service.go). */
module Outcomes {
  import opened PaymentStates
  import opened Ledger
  import opened Steps
  import opened Preservation
  import opened Admission
  import opened Protocol
  import opened Runs
  import opened Theorems

  datatype Response =
    | Settled(txHash: Signed) | TransactionFailed | FailedToGetReceipt
    | Refused(reason: Reason) | SimulationReverted | BroadcastFailed | InternalError

  /** What the bounded wait for a receipt ended with. */
  datatype Observation = SawConfirmed(block: Block, gas: Gas) | SawReverted(gas: Gas) | SawNothing

  /** respondWithTx: an observation is reported only once the store has it. */
  function RespondWithTx(db: Db, t: TxRef, h: Signed, seen: Observation, now: Time): Response
  {
    match seen
    case SawConfirmed(block, gas) =>
      if MarkTxConfirmed(db, t, block, gas, HttpWait, now).1 == Ok then Settled(h) else FailedToGetReceipt
    case SawReverted(gas) =>
      if MarkTxReverted(db, t, gas, HttpWait, now).1 == Ok then TransactionFailed else FailedToGetReceipt
    case SawNothing => FailedToGetReceipt
  }

  /** What a wait under row `t` is answered, in every database: an outcome exactly if the record
      has that outcome of the row and of its payment. Which block it was seen in is not asked. */
  lemma WaitAnswersExactly(db: Db, t: TxRef, h: Signed, seen: Observation, now: Time)
    ensures var response := RespondWithTx(db, t, h, seen, now);
      && (response == Settled(h) <==>
          seen.SawConfirmed? && Hit(db, t, {TxConfirmed}) && db.payments[t.owner].state == Confirmed)
      && (response == TransactionFailed <==>
          seen.SawReverted? && Hit(db, t, {TxReverted}) && db.payments[t.owner].state == Reverted)
      && response in {Settled(h), TransactionFailed, FailedToGetReceipt}
  {
  }

  /** What a retry is answered while its payment has a hash: its state, and nothing else. */
  lemma RetryAnswersExactly(db: Db, q: IntentRequest)
    requires CreateIntent(db, q).1.Existing? && CreateIntent(db, q).1.txHash.Some?
    ensures var reply := CreateIntent(db, q).1;
      && reply.row.owner < |db.payments| && db.payments[reply.row.owner].identity == q.identity
      && var state := db.payments[reply.row.owner].state;
         AnswerDuplicate(reply) ==
           if state == Confirmed && !Loaded(db, reply.row) then Settled(reply.txHash.value)
           else if state == Reverted && !Loaded(db, reply.row) then TransactionFailed
           else FailedToGetReceipt
  {
  }

  /** Settle's answer to a request whose payment already has a transaction hash. */
  function AnswerDuplicate(reply: IntentReply): Response
    requires reply.Existing? && reply.txHash.Some?
  {
    if reply.reverted then TransactionFailed
    else if reply.confirmed then Settled(reply.txHash.value)
    else FailedToGetReceipt
  }

  /** The payment is durably settled by the transaction `h`, and by no other. */
  ghost predicate SettledBy(db: Db, p: PaymentId, h: Signed)
  {
    && p < |db.payments| && db.payments[p].state == Confirmed
    && exists a :: LiveAt(db.payments[p].rows, a, TxConfirmed, SUPERSEDED) && db.payments[p].rows[a].txHash == Some(h)
  }

  ghost predicate RevertedFor(db: Db, p: PaymentId) {
    p < |db.payments| && db.payments[p].state == Reverted
  }

  /** Row `t` was once read with hash `h`. */
  ghost predicate ReadTogether(states: seq<World>, n: nat, t: TxRef, h: Signed)
    requires n < |states|
  {
    exists k: nat | k <= n ::
      t.owner < |states[k].db.payments| && t.index < |states[k].db.payments[t.owner].rows| &&
      RowAt(states[k].db, t).txHash == Some(h)
  }

  lemma HashStays(c: Config, states: seq<World>, events: seq<Event>, n: nat, t: TxRef, h: Signed)
    requires GapRun(c, states, events) && n < |states| && ReadTogether(states, n, t, h)
    ensures t.owner < |states[n].db.payments| && t.index < |states[n].db.payments[t.owner].rows|
    ensures RowAt(states[n].db, t).txHash == Some(h)
  {
    hide GapRun, Sound;
    var k: nat :| k <= n && t.owner < |states[k].db.payments| && t.index < |states[k].db.payments[t.owner].rows| &&
      RowAt(states[k].db, t).txHash == Some(h);
    EveryPayment(c, states, events, k, n, t.owner);
    assert RowKept(RowAt(states[k].db, t), RowAt(states[n].db, t));
  }

  /** A success the waiter reports is the payment's durable outcome exactly when the row
      it marked carries the hash it waited for. */
  lemma SuccessExactly(db: Db, t: TxRef, h: Signed, seen: Observation, now: Time, p: Owner)
    requires RespondWithTx(db, t, h, seen, now).Settled? && Sound(db.payments[t.owner], p)
    ensures SettledBy(db, t.owner, h) <==> RowAt(db, t).txHash == Some(h)
  {
    hide RowsSound, DropsJustified, RecordSound, Audited;
    var rows := db.payments[t.owner].rows;
    var a :| LiveAt(rows, a, TxConfirmed, SUPERSEDED);
    assert t.index != a ==> Spent(rows[t.index], SUPERSEDED);
    assert forall b | LiveAt(rows, b, TxConfirmed, SUPERSEDED) :: b == a;
  }

  /** When row id and hash were read together, success means settled by that hash. */
  lemma SuccessIsDurable(c: Config, states: seq<World>, events: seq<Event>, n: nat, t: TxRef, h: Signed,
                         seen: Observation, now: Time)
    requires GapRun(c, states, events) && n < |states| && ReadTogether(states, n, t, h)
    requires RespondWithTx(states[n].db, t, h, seen, now).Settled?
    ensures SettledBy(states[n].db, t.owner, h)
  {
    hide GapRun, Sound, Kept, ReadTogether, SettledBy;
    HashStays(c, states, events, n, t, h);
    EveryPayment(c, states, events, n, n, t.owner);
    SuccessExactly(states[n].db, t, h, seen, now, Owner(t.owner, c.cap));
  }

  /** A settled payment stays settled by the same transaction, erased or not. */
  lemma SettledStays(c: Config, states: seq<World>, events: seq<Event>, n: nat, m: nat, p: PaymentId, h: Signed)
    requires GapRun(c, states, events) && n <= m < |states| && SettledBy(states[n].db, p, h)
    ensures SettledBy(states[m].db, p, h)
  {
    hide GapRun, RowsSound, DropsJustified, RecordSound, Audited;
    EveryPayment(c, states, events, n, m, p);
    var rows, later := states[n].db.payments[p].rows, states[m].db.payments[p].rows;
    var a :| LiveAt(rows, a, TxConfirmed, SUPERSEDED) && rows[a].txHash == Some(h);
    var b :| LiveAt(later, b, TxConfirmed, SUPERSEDED);
    assert RowKept(rows[a], later[a]);
    assert b != a ==> Spent(later[a], SUPERSEDED);
  }

  /** What a retry is told about a payment that has settled. */
  lemma RetrySeesOutcome(db: Db, q: IntentRequest, p: PaymentId, h: Signed, o: Owner)
    requires ValidRequest(q) && Lookup(db.payments, q.identity) == Some(p) && Sound(db.payments[p], o)
    ensures SettledBy(db, p, h) ==>
      var reply := CreateIntent(db, q).1; reply.Existing? && reply.txHash.Some? && AnswerDuplicate(reply) == Settled(h)
    ensures RevertedFor(db, p) ==>
      var reply := CreateIntent(db, q).1;
      reply.Existing? && reply.txHash.Some? && AnswerDuplicate(reply) == TransactionFailed
  {
    hide DropsJustified, RecordSound, Audited, Lineage;
    var rows := db.payments[p].rows;
    if SettledBy(db, p, h) {
      var a :| LiveAt(rows, a, TxConfirmed, SUPERSEDED) && rows[a].txHash == Some(h);
      var k := Newest(rows, TxConfirmed);
      assert k.Some? && k.value != a ==> Spent(rows[k.value], SUPERSEDED);
    }
    if RevertedFor(db, p) {
      var a :| LiveAt(rows, a, TxReverted, SUPERSEDED);
      assert RowSound(rows[a], o);
      assert rows[a].txHash.Some?;
    }
  }

  /** A duplicate is answered from one row of the payment, and changes no payment. */
  lemma ExistingRow(db: Db, q: IntentRequest)
    requires CreateIntent(db, q).1.Existing?
    ensures var (after, reply) := CreateIntent(db, q);
      && after.payments == db.payments
      && reply.row.owner < |db.payments| && reply.row.index < |db.payments[reply.row.owner].rows|
      && RowAt(db, reply.row).txHash == reply.txHash && RowAt(db, reply.row).nonce == reply.nonce
  {
  }

  /** A success answered to a retry is durable too. */
  lemma RetriedSuccessIsDurable(db: Db, q: IntentRequest, o: Owner)
    requires CreateIntent(db, q).1.Existing? && CreateIntent(db, q).1.txHash.Some?
    requires AnswerDuplicate(CreateIntent(db, q).1).Settled? && Sound(db.payments[CreateIntent(db, q).1.row.owner], o)
    ensures SettledBy(db, CreateIntent(db, q).1.row.owner, AnswerDuplicate(CreateIntent(db, q).1).txHash)
  {
    hide RowsSound, DropsJustified, RecordSound, Audited;
    var rows := db.payments[CreateIntent(db, q).1.row.owner].rows;
    var a :| LiveAt(rows, a, TxConfirmed, SUPERSEDED);
    assert CreateIntent(db, q).1.row.index == a;
  }

  /** Settle is outcome-stable. Once any response reported success with `h` (here, once
      the payment is settled by `h`), every later settle of the payment reports the same
      success, before or after erasure, and no later wait reports another hash or a failure. */
  lemma SettleIsStable(c: Config, states: seq<World>, events: seq<Event>, n: nat, m: nat, p: PaymentId, h: Signed,
                       q: IntentRequest, t: TxRef, g: Signed, seen: Observation, now: Time)
    requires GapRun(c, states, events) && n <= m < |states| && SettledBy(states[n].db, p, h)
    requires ValidRequest(q) && q.identity == states[n].db.payments[p].identity
    requires t.owner == p && ReadTogether(states, m, t, g)
    ensures var reply := CreateIntent(states[m].db, q).1;
      reply.Existing? && reply.txHash.Some? && AnswerDuplicate(reply) == Settled(h)
    ensures RespondWithTx(states[m].db, t, g, seen, now) in {Settled(h), FailedToGetReceipt}
    ensures RespondWithTx(states[m].db, t, g, seen, now) == Settled(h) <==> g == h && seen.SawConfirmed?
  {
    hide GapRun, Sound, RowsKept, ReadTogether, SettledBy, CreateIntent;
    SettledIsConfirmed(states[n].db, p, h);
    SettledStays(c, states, events, n, m, p, h);
    SettledIsConfirmed(states[m].db, p, h);
    IdentityFinds(c, states, events, n, m, p);
    EveryPayment(c, states, events, m, m, p);
    RetrySeesOutcome(states[m].db, q, p, h, Owner(p, c.cap));
    if RespondWithTx(states[m].db, t, g, seen, now).Settled? {
      SuccessIsDurable(c, states, events, m, t, g, seen, now);
      OneSettler(states[m].db, p, g, h);
    }
    if g == h && seen.SawConfirmed? {
      HashStays(c, states, events, m, t, h);
      SettlingRow(states[m].db, t, h, Owner(p, c.cap));
    }
  }

  /** The row that carries the settling hash is the settled one. */
  lemma SettlingRow(db: Db, t: TxRef, h: Signed, p: Owner)
    requires t.owner < |db.payments| && t.index < |db.payments[t.owner].rows| && RowAt(db, t).txHash == Some(h)
    requires SettledBy(db, t.owner, h) && Sound(db.payments[t.owner], p)
    ensures Hit(db, t, {TxConfirmed})
  {
    hide Correlated, DropsJustified, RecordSound, Audited;
    var rows := db.payments[t.owner].rows;
    var a :| LiveAt(rows, a, TxConfirmed, SUPERSEDED) && rows[a].txHash == Some(h);
    assert RowSound(rows[a], p) && RowSound(rows[t.index], p);
  }

  /** A revert is never reported as a success afterwards, and every later wait that sees it
      on the row it was recorded for reports the failure. */
  lemma RevertIsStable(c: Config, states: seq<World>, events: seq<Event>, n: nat, m: nat, p: PaymentId,
                       q: IntentRequest, t: TxRef, g: Signed, seen: Observation, now: Time)
    requires GapRun(c, states, events) && n <= m < |states| && RevertedFor(states[n].db, p)
    requires ValidRequest(q) && q.identity == states[n].db.payments[p].identity && t.owner == p
    ensures var reply := CreateIntent(states[m].db, q).1;
      reply.Existing? && reply.txHash.Some? && AnswerDuplicate(reply) == TransactionFailed
    ensures !RespondWithTx(states[m].db, t, g, seen, now).Settled?
    ensures Hit(states[n].db, t, {TxReverted}) ==>
      (RespondWithTx(states[m].db, t, g, seen, now) == TransactionFailed <==> seen.SawReverted?)
  {
    hide GapRun, Sound, CreateIntent, RowKept;
    RowStaysReverted(c, states, events, n, m, t);
    EveryPayment(c, states, events, n, m, p);
    IdentityFinds(c, states, events, n, m, p);
    RetrySeesOutcome(states[m].db, q, p, g, Owner(p, c.cap));
  }

  lemma RowStaysReverted(c: Config, states: seq<World>, events: seq<Event>, n: nat, m: nat, t: TxRef)
    requires GapRun(c, states, events) && n <= m < |states|
    ensures Hit(states[n].db, t, {TxReverted}) ==> Hit(states[m].db, t, {TxReverted})
  {
    hide GapRun;
    if Hit(states[n].db, t, {TxReverted}) { RecordsArePermanent(c, states, events, n, m, t); }
  }

  lemma SettledIsConfirmed(db: Db, p: PaymentId, h: Signed)
    requires SettledBy(db, p, h)
    ensures p < |db.payments| && db.payments[p].state == Confirmed
  {
  }

  lemma OneSettler(db: Db, p: PaymentId, g: Signed, h: Signed)
    requires SettledBy(db, p, g) && SettledBy(db, p, h)
    ensures g == h
  {
    var rows := db.payments[p].rows;
    var a :| LiveAt(rows, a, TxConfirmed, SUPERSEDED) && rows[a].txHash == Some(g);
    var b :| LiveAt(rows, b, TxConfirmed, SUPERSEDED) && rows[b].txHash == Some(h);
    assert a == b;
  }

  /** One record per identity, for good: a lookup keeps finding the same payment. */
  lemma IdentityFinds(c: Config, states: seq<World>, events: seq<Event>, n: nat, m: nat, p: PaymentId)
    requires GapRun(c, states, events) && n <= m < |states| && p < |states[n].db.payments|
    ensures Lookup(states[m].db.payments, states[n].db.payments[p].identity) == Some(p)
  {
    hide GapRun, AllSound, NoncesDistinct, HandsSound, ChainSound, OnRecord, Sound, RowsKept;
    RunsStayGood(c, states, events, m);
    EveryPayment(c, states, events, n, m, p);
  }

  /** A waiter whose observation is true can only contradict the record where the chain
      does not hold the transaction the record was settled by. */
  lemma WrongOnlyAfterReorg(c: Config, states: seq<World>, events: seq<Event>, n: nat, t: TxRef, h: Signed, s: Slot,
                            seen: Observation, now: Time)
    requires GapRun(c, states, events) && n < |states| && RespondWithTx(states[n].db, t, h, seen, now).Settled?
    requires s in states[n].chain && states[n].chain[s].tx == h && h.payment == t.owner
    requires !SettledBy(states[n].db, t.owner, h)
    ensures exists g: Signed ::
      SettledBy(states[n].db, t.owner, g) && forall z | z in states[n].chain :: states[n].chain[z].tx != g
  {
    hide GapRun, RowsSound, DropsJustified, RecordSound, Audited, Kept;
    EveryPayment(c, states, events, n, n, t.owner);
    var rows := states[n].db.payments[t.owner].rows;
    var a :| LiveAt(rows, a, TxConfirmed, SUPERSEDED);
    SettledHash(states[n].db.payments[t.owner], Owner(t.owner, c.cap), a);
    var g := rows[a].txHash.value;
    assert SettledBy(states[n].db, t.owner, g);
    forall z | z in states[n].chain ensures states[n].chain[z].tx != g {
      if states[n].chain[z].tx == g { ChainSettlesOnce(c, states, events, n, s, z); }
    }
  }

  lemma SettledHash(P: Payment, p: Owner, a: nat)
    requires Sound(P, p) && a < |P.rows| && P.rows[a].status == TxConfirmed
    ensures P.rows[a].txHash.Some? && P.rows[a].txHash.value.payment == p.payment
  {
    assert RowSound(P.rows[a], p);
  }
}

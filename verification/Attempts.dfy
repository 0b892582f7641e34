/** What one attempt to broadcast a payment does and answers (internal/settlement/service.go,
    Broadcast and broadcastClaimed), told from the events it performed itself. The events
    `mine` are positions in the run; other actors' events lie anywhere between them. */
module Attempts {
  import opened PaymentStates
  import opened Ledger
  import opened Steps
  import opened Admission
  import opened Protocol

  /** How simulating the transfer ended. */
  datatype Simulation = Succeeds | Reverts | Unknown

  /** What becomes of one signature: whether the signer makes it, whether sending it reaches
      the network, and whether the provider acknowledges it with the expected hash. The last
      two are independent; only the acknowledgement is seen. */
  datatype Delivery = Delivery(signed: bool, reached: bool, acknowledged: bool)

  /** How one attempt to broadcast ended. */
  datatype Attempted = Sent(txHash: Signed) | Expiring | Unsettleable | InProgress | Unresolved

  /** Everything an attempt meets that is not in the database. */
  datatype Try = Try(
    who: nat, at: Time, simulation: Simulation, baseFee: int, salt: nat, delivery: Delivery, actor: Actor, now: Time)

  /** The authorization runs out within the safety margin. */
  predicate Lapsing(P: Payment, margin: int, at: Time) {
    P.validBefore.None? || P.validBefore.value <= at + margin
  }

  /** The own events `mine` record signature `h` by act `a` and, if that committed and the
      delivery reaches the network, send it afterwards. */
  ghost predicate RecordedThenSent(states: seq<World>, events: seq<Event>, mine: seq<nat>, read: nat, a: Act,
                                   h: Signed, reached: bool, recorded: bool)
    requires Signs(a) && |states| == |events| + 1
  {
    && |mine| > 0 && mine[0] < |events| && events[mine[0]] == Event(read, a)
    && (recorded <==> Store(states[mine[0]].db, a, h).1 == Ok)
    && if recorded && reached then
         && |mine| == 2 && mine[0] < mine[1] < |events|
         && events[mine[1]].act == Send(Held(a.who, Recorded(states[mine[0]], a), h, a.Sign?))
       else |mine| == 1
  }

  /** The one own event is the last one, `a` on the reading `read`. */
  ghost predicate DidLast(events: seq<Event>, mine: seq<nat>, read: nat, a: Act) {
    |events| > 0 && mine == [|events| - 1] && events[|events| - 1] == Event(read, a)
  }

  /** The one own event retires the intent, and `retired` says whether that committed. */
  ghost predicate RetiredBy(states: seq<World>, events: seq<Event>, mine: seq<nat>, read: nat, t: TxRef, to: State,
                            x: Try, retired: bool)
    requires |states| == |events| + 1
  {
    && |mine| == 1 && mine[0] < |events| && events[mine[0]] == Event(read, Retire(t, to, x.actor, x.now))
    && (retired <==> RetireIntent(states[mine[0]].db, t, to, x.actor, x.now).1 == Ok)
  }

  /** Event `k` writes down what became of the sent signature `h`: broadcast if it was
      acknowledged, ambiguous otherwise. Only a committed broadcast is answered as sent. */
  ghost predicate Delivered(states: seq<World>, events: seq<Event>, k: nat, t: TxRef, h: Signed, x: Try,
                            result: Attempted)
    requires |states| == |events| + 1
  {
    && k < |events|
    && if x.delivery.acknowledged then
         && events[k].act == RecordBroadcast(Held(x.who, t, h, true), x.actor, x.now)
         && result == if MarkTxBroadcast(states[k].db, t, h, x.actor, x.now).1 == Ok then Sent(h) else Unresolved
       else events[k].act == RecordAmbiguous(t, x.actor, x.now) && result == Unresolved
  }

  /** An intent is signed: nothing happens without a usable fee or a signature; otherwise the
      signature is recorded, sent if the record committed, and what became of it is written
      down. */
  ghost predicate SignedBy(c: Config, states: seq<World>, events: seq<Event>, mine: seq<nat>, read: nat, t: TxRef,
                           x: Try, result: Attempted)
    requires |states| == |events| + 1 && read < |states|
  {
    var a := Sign(x.who, t, x.baseFee, x.salt, x.now);
    var h := Signature(c, states[read].db, a);
    if h.None? || !x.delivery.signed then mine == [] && result == Unresolved
    else if mine == [] then false
    else if mine[0] < |events| && Store(states[mine[0]].db, a, h.value).1 == Ok then
      && RecordedThenSent(states, events, mine[..|mine| - 1], read, a, h.value, x.delivery.reached, true)
      && Delivered(states, events, mine[|mine| - 1], t, h.value, x, result)
    else
      RecordedThenSent(states, events, mine, read, a, h.value, x.delivery.reached, false) && result == Unresolved
  }

  /** broadcastClaimed on the active row `t` read in state `read`. A recorded hash is answered
      untouched; a row left between sending and recording is written down as ambiguous; an
      intent is retired exactly if it lapses or provably reverts, and signed otherwise. */
  ghost predicate Pipeline(c: Config, margin: int, states: seq<World>, events: seq<Event>, mine: seq<nat>, read: nat,
                           t: TxRef, x: Try, result: Attempted)
    requires |states| == |events| + 1 && read < |states| && Loaded(states[read].db, t)
  {
    var row := RowAt(states[read].db, t);
    if row.txHash.Some? then result == Sent(row.txHash.value) && mine == []
    else if row.status == TxBroadcasting then
      && result == Unresolved
      && |mine| == 1 && mine[0] < |events| && events[mine[0]] == Event(read, RecordAmbiguous(t, x.actor, x.now))
    else if row.status != TxIntent then result == Unresolved && mine == []
    else if Lapsing(states[read].db.payments[t.owner], margin, x.at) then
      result in {Expiring, Unresolved} && RetiredBy(states, events, mine, read, t, Expired, x, result == Expiring)
    else match x.simulation
      case Unknown => result == Unresolved && mine == []
      case Reverts =>
        && result in {Unsettleable, Unresolved}
        && RetiredBy(states, events, mine, read, t, State.Failed, x, result == Unsettleable)
      case Succeeds => SignedBy(c, states, events, mine, read, t, x, result)
  }

  /** The active row is loaded in state `read` and attempted, if the payment has one. */
  ghost predicate Loads(c: Config, margin: int, states: seq<World>, events: seq<Event>, mine: seq<nat>, read: nat,
                        p: PaymentId, x: Try, t: TxRef, result: Attempted)
    requires |states| == |events| + 1
  {
    && read < |states|
    && if p < |states[read].db.payments| && FirstActive(states[read].db.payments[p].rows).Some? then
         && t == TxRef(p, FirstActive(states[read].db.payments[p].rows).value)
         && Pipeline(c, margin, states, events, mine, read, t, x, result)
       else result == Unresolved && mine == []
  }

  /** Broadcast: the lease is asked for; another worker's lease is answered as in progress;
      with the lease the active row is attempted and the lease released last. */
  ghost predicate Broadcasts(c: Config, margin: int, states: seq<World>, events: seq<Event>, mine: seq<nat>,
                             p: PaymentId, duration: int, x: Try, t: TxRef, result: Attempted)
    requires |states| == |events| + 1
  {
    && mine != [] && mine[0] < |events|
    && events[mine[0]].act == Protocol.Claim(p, x.who, duration, x.at, x.now)
    && match ClaimPayment(states[mine[0]].db, p, x.who, duration, x.at, x.now).1
       case Ok =>
         && |mine| > 1 && mine[|mine| - 1] < |events| && events[mine[|mine| - 1]].act == Release(p, x.who, x.now)
         && var inner := mine[1..|mine| - 1];
            exists read | mine[0] < read :: Loads(c, margin, states, events, inner, read, p, x, t, result)
       case Race => result == InProgress && |mine| == 1
       case _ => result == Unresolved && |mine| == 1
  }

  /** A first signature is asked for only while the authorization outlives the attempt by more
      than the margin, only for an intent, and only once simulating it succeeded; an intent is
      retired as expired only if the authorization does not, and as failed only if it would
      revert. */
  lemma SignedInTime(c: Config, margin: int, states: seq<World>, events: seq<Event>, mine: seq<nat>, read: nat,
                     t: TxRef, x: Try, result: Attempted)
    requires |states| == |events| + 1 && read < |states| && Loaded(states[read].db, t)
    requires Pipeline(c, margin, states, events, mine, read, t, x, result)
    ensures var P, row := states[read].db.payments[t.owner], RowAt(states[read].db, t);
      var first := if mine == [] then None else Some(events[mine[0]].act);
      && (first.Some? && first.value.Sign? ==>
          row.status == TxIntent && row.txHash.None? && Outlives(P, x.at, margin) && x.simulation == Succeeds)
      && (first == Some(Retire(t, Expired, x.actor, x.now)) <==>
          row.status == TxIntent && row.txHash.None? && !Outlives(P, x.at, margin))
      && (first == Some(Retire(t, State.Failed, x.actor, x.now)) <==>
          row.status == TxIntent && row.txHash.None? && Outlives(P, x.at, margin) && x.simulation == Reverts)
      && (first == Some(RecordAmbiguous(t, x.actor, x.now)) <==> row.txHash.None? && row.status == TxBroadcasting)
  {
    hide Signature, Store, RetireIntent, MarkTxBroadcast, Recorded;
  }

  /** The own events of a signed intent, one by one: its record; its sending, exactly if the
      record committed and the delivery gets through; and last what became of it, broadcast
      exactly if it was acknowledged. */
  lemma SignedStepByStep(c: Config, margin: int, states: seq<World>, events: seq<Event>, mine: seq<nat>, read: nat,
                         t: TxRef, x: Try, result: Attempted)
    requires |states| == |events| + 1 && read < |states| && Loaded(states[read].db, t)
    requires Pipeline(c, margin, states, events, mine, read, t, x, result)
    requires mine != [] && events[mine[0]].act.Sign?
    ensures var a := Sign(x.who, t, x.baseFee, x.salt, x.now);
      && x.delivery.signed && events[mine[0]] == Event(read, a) && Signature(c, states[read].db, a).Some?
      && var h, last := Signature(c, states[read].db, a).value, mine[|mine| - 1];
         var recorded := Store(states[mine[0]].db, a, h).1 == Ok;
         && |mine| == (if !recorded then 1 else if x.delivery.reached then 3 else 2) && last < |events|
         && (|mine| == 3 ==> events[mine[1]].act == Send(Held(x.who, t, h, true)))
         && (recorded && x.delivery.acknowledged ==>
             events[last].act == RecordBroadcast(Held(x.who, t, h, true), x.actor, x.now))
         && (recorded && !x.delivery.acknowledged ==> events[last].act == RecordAmbiguous(t, x.actor, x.now))
         && (result == Sent(h) <==>
             recorded && x.delivery.acknowledged && MarkTxBroadcast(states[last].db, t, h, x.actor, x.now).1 == Ok)
         && result in {Sent(h), Unresolved}
  {
    hide Signature, Store, RetireIntent, MarkTxBroadcast;
  }

  /** A broadcast is answered as in progress exactly if another lease on the payment is still
      running. */
  lemma InProgressExactly(c: Config, margin: int, states: seq<World>, events: seq<Event>, mine: seq<nat>,
                          p: PaymentId, duration: int, x: Try, t: TxRef, result: Attempted)
    requires |states| == |events| + 1 && Broadcasts(c, margin, states, events, mine, p, duration, x, t, result)
    requires duration > 0 && p < |states[mine[0]].db.payments|
    ensures var claim := states[mine[0]].db.payments[p].claim;
      result == InProgress <==> claim.Some? && x.at < claim.value.until
  {
    hide Signature, Store, RetireIntent, MarkTxBroadcast, Recorded, SignedBy;
    if ClaimPayment(states[mine[0]].db, p, x.who, duration, x.at, x.now).1 == Ok {
      var inner := mine[1..|mine| - 1];
      var k :| mine[0] < k && Loads(c, margin, states, events, inner, k, p, x, t, result);
      NeverInProgress(c, margin, states, events, inner, k, p, x, t, result);
    }
  }

  lemma NeverInProgress(c: Config, margin: int, states: seq<World>, events: seq<Event>, mine: seq<nat>, read: nat,
                        p: PaymentId, x: Try, t: TxRef, result: Attempted)
    requires |states| == |events| + 1 && Loads(c, margin, states, events, mine, read, p, x, t, result)
    ensures result != InProgress
  {
    hide Signature, Store, RetireIntent, MarkTxBroadcast, Recorded;
  }

  // --------------------------------------------------- as the run goes on

  lemma StillRecorded(states: seq<World>, events: seq<Event>, more: seq<World>, longer: seq<Event>, mine: seq<nat>,
                      read: nat, a: Act, h: Signed, reached: bool, recorded: bool)
    requires Signs(a) && |states| == |events| + 1 && |more| == |longer| + 1 && states <= more && events <= longer
    requires RecordedThenSent(states, events, mine, read, a, h, reached, recorded)
    ensures RecordedThenSent(more, longer, mine, read, a, h, reached, recorded)
  {
    hide Store, Recorded;
  }

  lemma StillSigned(c: Config, states: seq<World>, events: seq<Event>, more: seq<World>, longer: seq<Event>,
                    mine: seq<nat>, read: nat, t: TxRef, x: Try, result: Attempted)
    requires |states| == |events| + 1 && |more| == |longer| + 1 && states <= more && events <= longer
    requires read < |states| && SignedBy(c, states, events, mine, read, t, x, result)
    ensures SignedBy(c, more, longer, mine, read, t, x, result)
  {
    hide Store, Recorded, Signature, MarkTxBroadcast;
  }

  lemma StillPipeline(c: Config, margin: int, states: seq<World>, events: seq<Event>, more: seq<World>,
                      longer: seq<Event>, mine: seq<nat>, read: nat, t: TxRef, x: Try, result: Attempted)
    requires |states| == |events| + 1 && |more| == |longer| + 1 && states <= more && events <= longer
    requires read < |states| && Loaded(states[read].db, t)
    requires Pipeline(c, margin, states, events, mine, read, t, x, result)
    ensures Pipeline(c, margin, more, longer, mine, read, t, x, result)
  {
    hide SignedBy, RetireIntent;
    var row := RowAt(states[read].db, t);
    assert RowAt(more[read].db, t) == row;
    if row.txHash.None? && row.status == TxIntent && x.simulation == Succeeds
      && !Lapsing(states[read].db.payments[t.owner], margin, x.at)
    {
      StillSigned(c, states, events, more, longer, mine, read, t, x, result);
    }
  }

  lemma StillLoads(c: Config, margin: int, states: seq<World>, events: seq<Event>, more: seq<World>,
                   longer: seq<Event>, mine: seq<nat>, read: nat, p: PaymentId, x: Try, t: TxRef, result: Attempted)
    requires |states| == |events| + 1 && |more| == |longer| + 1 && states <= more && events <= longer
    requires Loads(c, margin, states, events, mine, read, p, x, t, result)
    ensures Loads(c, margin, more, longer, mine, read, p, x, t, result)
  {
    hide Pipeline;
    assert more[read] == states[read];
    if p < |states[read].db.payments| && FirstActive(states[read].db.payments[p].rows).Some? {
      StillPipeline(c, margin, states, events, more, longer, mine, read, t, x, result);
    }
  }

  lemma LastIsPast(c: Config, margin: int, states: seq<World>, events: seq<Event>, mine: seq<nat>, p: PaymentId,
                   duration: int, x: Try, t: TxRef, result: Attempted)
    requires |states| == |events| + 1
    requires Broadcasts(c, margin, states, events, mine, p, duration, x, t, result)
    ensures mine != [] && mine[|mine| - 1] < |events|
  {
    hide Loads;
  }

  lemma StillBroadcasts(c: Config, margin: int, states: seq<World>, events: seq<Event>, more: seq<World>,
                        longer: seq<Event>, mine: seq<nat>, p: PaymentId, duration: int, x: Try, t: TxRef,
                        result: Attempted)
    requires |states| == |events| + 1 && |more| == |longer| + 1 && states <= more && events <= longer
    requires Broadcasts(c, margin, states, events, mine, p, duration, x, t, result)
    ensures Broadcasts(c, margin, more, longer, mine, p, duration, x, t, result)
  {
    hide Loads, ClaimPayment;
    assert more[mine[0]] == states[mine[0]] && longer[mine[0]] == events[mine[0]];
    if ClaimPayment(states[mine[0]].db, p, x.who, duration, x.at, x.now).1 == Ok {
      var inner := mine[1..|mine| - 1];
      var read :| mine[0] < read && Loads(c, margin, states, events, inner, read, p, x, t, result);
      StillLoads(c, margin, states, events, more, longer, inner, read, p, x, t, result);
    }
  }
}

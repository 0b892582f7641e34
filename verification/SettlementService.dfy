/** The settlement pipeline as the program writes it (internal/settlement/service.go and
    recovery.go): each method takes its steps in the source's order, on the reading it
    started from, with anything other actors do in between. Every method extends a run of
    the protocol, and says which of the new events are its own. */
module SettlementService {
  import opened PaymentStates
  import opened Ledger
  import opened Steps
  import opened Admission
  import opened Protocol
  import opened Attempts
  import opened Theorems
  import opened Outcomes
  import opened Agreement
  import G = Grounds
  import F = Fees
  import V = Finality

  /** The call a verdict asks for, if any. */
  function ConfirmAct(t: TxRef, verdict: V.Verdict, actor: Actor, now: Time): Option<Act> {
    match verdict
    case Failure => None
    case Nothing => None
    case ReorgedOut => Some(ReorgOut(t, actor, now))
    case Confirming(block) => Some(Sight(t, block, actor, now))
    case FinalRevert(gas) => Some(Fail(t, gas, actor, now))
    case FinalSuccess(block, gas) => Some(Finalize(t, block, gas, actor, now))
  }

  /** The one call an observation of row `t` makes, if any, by what the reads agreed on: a row
      seen before is unwound exactly if it is gone; a sighting is recorded exactly for a
      canonical receipt short of full depth, under its block; an outcome exactly at full depth,
      as the receipt has it; nothing exactly if a read failed or an unseen row is gone. */
  ghost predicate CallsFor(call: Option<Act>, t: TxRef, row: Row, got: V.Reads, confirmations: nat, actor: Actor,
                           now: Time)
  {
    var hashed, deep := row.txHash.Some?, V.Buried(got, confirmations);
    var shallow := V.Canonical(got) && got.head.Agreed? && !deep;
    && (call == Some(ReorgOut(t, actor, now)) <==> hashed && row.status == TxConfirming && V.Gone(got))
    && (call.Some? && call.value.Sight? <==> hashed && shallow)
    && (hashed && shallow ==> call == Some(Sight(t, got.receipt.value.value.block, actor, now)))
    && (call.Some? && call.value.Fail? <==> hashed && deep && !got.receipt.value.value.succeeded)
    && (hashed && deep && !got.receipt.value.value.succeeded ==>
        call == Some(Fail(t, got.receipt.value.value.gas, actor, now)))
    && (call.Some? && call.value.Finalize? <==> hashed && deep && got.receipt.value.value.succeeded)
    && (hashed && deep && got.receipt.value.value.succeeded ==>
        call == Some(Finalize(t, got.receipt.value.value.block, got.receipt.value.value.gas, actor, now)))
    && (call.None? <==> !hashed || (V.Gone(got) && row.status != TxConfirming) || !(V.Gone(got) || shallow || deep))
  }

  lemma CallExactly(t: TxRef, row: Row, got: V.Reads, confirmations: nat, actor: Actor, now: Time)
    ensures var verdict := V.Confirmation(row.status == TxConfirming, got, confirmations);
      var call := if row.txHash.None? then None else ConfirmAct(t, verdict, actor, now);
      CallsFor(call, t, row, got, confirmations, actor, now)
  {
    hide V.Confirmation;
    V.VerdictExactly(row.status == TxConfirming, got, confirmations);
  }

  /** What resolveAmbiguous does with an ambiguous row. */
  datatype Course = Leave | Reattach | SendAgain | SignAgain(h: Signed)

  /** A transaction the network knows is re-attached. Otherwise, once due, the recorded
      transaction is rebuilt from its terms and signed; its sighash must match, or without
      one its hash. */
  function AmbiguousCourse(row: Row, p: PaymentId, onChain: bool, due: bool, signed: bool, salt: nat): Course {
    if row.rawHash.None? then Leave
    else if onChain then Reattach
    else if !due || row.terms.None? || row.terms.value.gasLimit == 0 || !signed then Leave
    else
      var h := Make(row, p, row.terms.value, salt);
      if row.rawHash == Some(h) then if row.sighash in {None, Some(Sighash(h))} then SendAgain else Leave
      else if row.sighash == Some(Sighash(h)) then SignAgain(h) else Leave
  }

  /** What recovery does with an ambiguous row: it is re-attached exactly if the network knows
      its transaction; otherwise, only once due, the very bytes on record are sent again, or
      an identical transaction under another signature is recorded and sent. */
  lemma CourseExactly(row: Row, p: PaymentId, onChain: bool, due: bool, signed: bool, salt: nat)
    requires row.rawHash.Some? && row.rawHash.value.payment == p && row.rawHash.value.signer == row.signer
    requires row.rawHash.value.nonce == row.nonce && row.terms == Some(row.rawHash.value.terms)
    requires row.sighash == Some(Sighash(row.rawHash.value))
    ensures var course, h := AmbiguousCourse(row, p, onChain, due, signed, salt), row.rawHash.value;
      var signs := !onChain && due && signed && h.terms.gasLimit > 0;
      && (course == Reattach <==> onChain)
      && (course == SendAgain <==> signs && h.salt == salt)
      && (course.SignAgain? <==> signs && h.salt != salt)
      && (course.SignAgain? ==> course.h == h.(salt := salt))
      && (course == Leave <==> !onChain && !signs)
  {
  }

  /** A signature is made again only as the identical transaction. */
  lemma SignedAgainIsIdentical(row: Row, p: PaymentId, onChain: bool, due: bool, signed: bool, salt: nat)
    requires AmbiguousCourse(row, p, onChain, due, signed, salt).SignAgain? && row.rawHash.value.payment == p
    requires row.rawHash.value.signer == row.signer && row.sighash == Some(Sighash(row.rawHash.value))
    ensures var h := AmbiguousCourse(row, p, onChain, due, signed, salt).h;
      !onChain && due && Sighash(h) == Sighash(row.rawHash.value) && h != row.rawHash.value &&
        Resigned(row, p, salt) == Some(h)
  {
  }

  /** What settle answers once the broadcast came back with `result`, and the row id it
      answers under. A hash that was sent is waited for under the admitted row. Otherwise the
      payment's active row is read again, in `read`, and a hash found there is waited for
      under that row. The wait ends in `db`. */
  function AnswerOf(read: Db, db: Db, intent: TxRef, result: Attempted, seen: Observation, now: Time):
      (Response, TxRef)
  {
    match result
    case Sent(h) => (RespondWithTx(db, intent, h, seen, now), intent)
    case Expiring => (Refused(AuthorizationExpiring), intent)
    case Unsettleable => (SimulationReverted, intent)
    case _ =>
      var active := if intent.owner < |read.payments| then FirstActive(read.payments[intent.owner].rows) else None;
      var t := if active.Some? then TxRef(intent.owner, active.value) else intent;
      if active.Some? && RowAt(read, t).txHash.Some?
      then (RespondWithTx(db, t, RowAt(read, t).txHash.value, seen, now), t)
      else (BroadcastFailed, t)
  }

  /** An active row that records a hash. */
  predicate Hashed(db: Db, t: TxRef) { Loaded(db, t) && RowAt(db, t).txHash.Some? }

  /** What each way a broadcast can end is answered: an intent retired by it as such; a hash it
      sent with what the wait for it shows; and otherwise, with what the wait for the active
      row's hash shows, or if it has none, that the broadcast failed. */
  lemma AnswersByOutcome(read: Db, db: Db, intent: TxRef, result: Attempted, seen: Observation, now: Time)
    requires intent.owner < |read.payments| ==> OneActive(read.payments[intent.owner].rows)
    ensures var (response, t) := AnswerOf(read, db, intent, result, seen, now);
      && (response == Refused(AuthorizationExpiring) <==> result == Expiring)
      && (response == SimulationReverted <==> result == Unsettleable)
      && (response == BroadcastFailed <==>
          result in {InProgress, Unresolved} && forall i: nat :: !Hashed(read, TxRef(intent.owner, i)))
      && (result.Sent? ==> t == intent && response == RespondWithTx(db, intent, result.txHash, seen, now))
      && (forall i: nat | result in {InProgress, Unresolved} && Hashed(read, TxRef(intent.owner, i)) ::
            && t == TxRef(intent.owner, i)
            && response == RespondWithTx(db, t, RowAt(read, t).txHash.value, seen, now))
  {
    hide MarkTxConfirmed, MarkTxReverted;
    if intent.owner < |read.payments| {
      var active := FirstActive(read.payments[intent.owner].rows);
      forall i: nat | Hashed(read, TxRef(intent.owner, i)) ensures active == Some(i) {
        assert Active(read.payments[intent.owner].rows[i]);
      }
    }
  }

  /** The own events are one broadcast of the admitted payment, and the answer is that of its
      outcome, with the active row read again in some state after the broadcast. */
  ghost predicate AnsweredAfter(c: Config, margin: int, states: seq<World>, events: seq<Event>, mine: seq<nat>,
                                intent: TxRef, duration: int, x: Try, seen: Observation, result: Attempted,
                                response: Response, t: TxRef)
    requires |states| == |events| + 1
  {
    exists u: TxRef, k: nat | k < |states| ::
      && Broadcasts(c, margin, states, events, mine, intent.owner, duration, x, u, result)
      && mine[|mine| - 1] < k
      && AnswerOf(states[k].db, states[|states| - 1].db, intent, result, seen, x.now) == (response, t)
  }

  /** One settle request: its own events and its answer. A refusal is the admission's own; a
      hash already recorded is answered from the record; otherwise the payment is broadcast
      and its outcome answered. `attempt` is what the broadcast came back with. */
  ghost predicate Settling(c: Config, margin: int, states: seq<World>, events: seq<Event>, mine: seq<nat>,
                           q: IntentRequest, duration: int, x: Try, seen: Observation, attempt: Option<Attempted>,
                           response: Response, t: TxRef)
    requires |states| == |events| + 1
  {
    && mine != [] && mine[0] < |events| && events[mine[0]].act == Admit(q) && (|mine| > 1 ==> mine[0] < mine[1])
    && (attempt.None? ==> |mine| == 1)
    && var reply := CreateIntent(states[mine[0]].db, q).1;
       match reply
       case Fault => attempt.None? && response == InternalError
       case Refuse(reason) => attempt.None? && response == Refused(reason)
       case Accept(intent, _) =>
         && attempt.Some?
         && AnsweredAfter(c, margin, states, events, mine[1..], intent, duration, x, seen, attempt.value, response, t)
       case Existing(row, _, h, _, _) =>
         if h.Some? then attempt.None? && response == AnswerDuplicate(reply) && t == row
         else
           && attempt.Some?
           && AnsweredAfter(c, margin, states, events, mine[1..], row, duration, x, seen, attempt.value, response, t)
  }

  /** The lease identity all inline requests share. */
  const HTTP: nat := 0

  function Inline(x: Try): Try { x.(who := HTTP, actor := Http) }

  class Service {
    const c: Config
    const margin: int
    const confirmations: nat
    var states: seq<World>
    var events: seq<Event>
    /** Which events this service performed itself. */
    ghost var own: seq<nat>

    constructor (c: Config, margin: int, confirmations: nat)
      ensures Valid() && states == [INIT] && events == [] && own == []
      ensures this.c == c && this.margin == margin && this.confirmations == confirmations
    {
      this.c, this.margin, this.confirmations := c, margin, confirmations;
      states, events, own := [INIT], [], [];
    }

    ghost predicate Valid()
      reads this
    {
      Run(c, states, events) && |states| == |events| + 1
    }

    /** Only what happened since, on top of what had happened. */
    twostate predicate Continues()
      reads this
    {
      old(states) <= states && old(events) <= events && old(own) <= own
    }

    /** The own events since. */
    twostate function Mine(): (mine: seq<nat>)
      requires Continues()
      reads this
    {
      own[|old(own)|..]
    }

    function Present(): World
      requires states != []
      reads this
    {
      states[|states| - 1]
    }

    // ---------------------------------------------------------- taking a step

    method Append(read: nat, a: Act)
      requires Valid() && read < |states| && Enabled(c, states[read].db, Present(), a)
      modifies this`states, this`events
      ensures Valid() && states == old(states) + [Apply(c, old(states)[read].db, old(Present()), a)]
      ensures events == old(events) + [Event(read, a)]
    {
      hide Apply, Enabled;
      states, events := states + [Apply(c, states[read].db, Present(), a)], events + [Event(read, a)];
    }

    /** One step of this service, on what it read in state `read`. */
    method Perform(read: nat, a: Act)
      requires Valid() && read < |states| && Enabled(c, states[read].db, Present(), a)
      modifies this`states, this`events, this`own
      ensures Valid() && Continues() && own == old(own) + [|old(events)|]
      ensures states == old(states) + [Apply(c, old(states)[read].db, old(Present()), a)]
      ensures events == old(events) + [Event(read, a)] && DidLast(events, Mine(), read, a)
    {
      hide Run, Apply, Enabled;
      own := own + [|events|];
      Append(read, a);
    }

    /** Whatever other actors do meanwhile: any enabled events, on readings as old as they like. */
    method Others(meanwhile: seq<Event>)
      requires Valid()
      modifies this`states, this`events
      ensures Valid() && Continues() && old(Present()).hands <= Present().hands
    {
      hide Run, Apply;
      for i := 0 to |meanwhile|
        invariant Valid() && Continues()
      {
        var e := meanwhile[i];
        if e.read < |states| && Enabled(c, states[e.read].db, Present(), e.act) { Append(e.read, e.act); }
      }
      HandsKept(|old(states)| - 1);
    }

    lemma HandsKept(n: nat)
      requires Valid() && n < |states|
      ensures states[n].hands <= Present().hands
    {
      hide Apply, Enabled;
      HandsGrow(c, states, events, n, |states| - 1);
    }

    /** Ask the store to record a signature; hold the bytes only if that committed. */
    method RecordSignature(read: nat, a: Act, meanwhile: seq<Event>) returns (recorded: bool, held: Held)
      requires Valid() && read < |states| && Signs(a) && Signature(c, states[read].db, a).Some?
      modifies this`states, this`events, this`own
      ensures Valid() && Continues() && DidLast(events, Mine(), read, a)
      ensures recorded ==> held in Present().hands
      ensures recorded <==> Store(states[|states| - 2].db, a, held.h).1 == Ok
      ensures held == Held(a.who, Recorded(states[|states| - 2], a), Signature(c, old(states)[read].db, a).value,
                           a.Sign?)
    {
      hide Run, Apply, Signature, Store, Enabled, Recorded;
      var h := Signature(c, states[read].db, a).value;
      Others(meanwhile);
      recorded := Store(Present().db, a, h).1 == Ok;
      held := Held(a.who, Recorded(Present(), a), h, a.Sign?);
      SigningIsEnabled(c, states[read].db, Present(), a);
      if recorded { CommittedIsHeld(c, states[read].db, Present(), a); }
      Perform(read, a);
    }

    /** The order every signature is handled in: recorded first, sent only if that committed. */
    method RecordThenSend(read: nat, a: Act, delivery: Delivery, meanwhile: (seq<Event>, seq<Event>))
        returns (recorded: bool, held: Held)
      requires Valid() && read < |states| && Signs(a) && Signature(c, states[read].db, a).Some?
      modifies this`states, this`events, this`own
      ensures Valid() && Continues()
      ensures RecordedThenSent(states, events, Mine(), read, a, held.h, delivery.reached, recorded)
      ensures recorded ==> held in Present().hands
      ensures held.h == Signature(c, old(states)[read].db, a).value && held.actor == a.who && held.first == a.Sign?
      ensures a.Sign? ==> held.t == a.t
    {
      hide Run, Apply, Signature, Store;
      recorded, held := RecordSignature(read, a, meanwhile.0);
      ghost var k, mine, before := |events| - 1, own, states;
      assert Mine() == [k] && mine == old(own) + [k];
      if recorded {
        Others(meanwhile.1);
        if delivery.reached {
          SendingKeepsHands(c, Present().db, Present(), held);
          Perform(|states| - 1, Send(held));
          assert own == old(own) + [k, |events| - 1];
          assert Mine() == [k, |events| - 1];
        }
      }
      assert states[k] == before[k] && events[k] == Event(read, a);
    }

    // --------------------------------------------------------------- broadcast

    /** broadcastClaimed, on the active row `t` it read in state `read`. */
    method BroadcastClaimed(read: nat, t: TxRef, x: Try, meanwhile: (seq<Event>, seq<Event>, seq<Event>))
        returns (result: Attempted)
      requires Valid() && read < |states| && Loaded(states[read].db, t)
      modifies this`states, this`events, this`own
      ensures Valid() && Continues() && Pipeline(c, margin, states, events, Mine(), read, t, x, result)
      ensures result.Sent? ==> ReadTogether(states, |states| - 1, t, result.txHash)
      ensures result != InProgress && (result == Unsettleable ==> x.simulation == Reverts)
    {
      hide Run, Apply, Store, SignedBy, RetireIntent;
      var seen := states[read].db;
      var row := RowAt(seen, t);
      if row.txHash.Some? {
        assert ReadTogether(states, |states| - 1, t, row.txHash.value);
        return Sent(row.txHash.value);
      }
      if row.status == TxBroadcasting {
        // An earlier attempt stopped between sending and recording.
        Others(meanwhile.0);
        Perform(read, RecordAmbiguous(t, x.actor, x.now));
        return Unresolved;
      }
      if row.status != TxIntent { return Unresolved; }
      if Lapsing(seen.payments[t.owner], margin, x.at) {
        var retired := RetireUnsigned(read, t, Expired, x, meanwhile.0);
        return if retired then Expiring else Unresolved;
      }
      if x.simulation == Unknown { return Unresolved; }
      if x.simulation == Reverts {
        var retired := RetireUnsigned(read, t, State.Failed, x, meanwhile.0);
        return if retired then Unsettleable else Unresolved;
      }
      result := SignAndDeliver(read, t, x, meanwhile);
    }

    method RetireUnsigned(read: nat, t: TxRef, to: State, x: Try, meanwhile: seq<Event>) returns (retired: bool)
      requires Valid() && read < |states| && to in {Expired, State.Failed}
      modifies this`states, this`events, this`own
      ensures Valid() && Continues() && RetiredBy(states, events, Mine(), read, t, to, x, retired)
    {
      hide Run, Apply, RetireIntent;
      Others(meanwhile);
      retired := RetireIntent(Present().db, t, to, x.actor, x.now).1 == Ok;
      Perform(read, Retire(t, to, x.actor, x.now));
    }

    method SignAndDeliver(read: nat, t: TxRef, x: Try, meanwhile: (seq<Event>, seq<Event>, seq<Event>))
        returns (result: Attempted)
      requires Valid() && read < |states| && Hit(states[read].db, t, {TxIntent})
      modifies this`states, this`events, this`own
      ensures Valid() && Continues() && SignedBy(c, states, events, Mine(), read, t, x, result)
      ensures result.Sent? || result == Unresolved
      ensures result.Sent? ==> ReadTogether(states, |states| - 1, t, result.txHash)
    {
      hide Run, Apply, Store, Signature, MarkTxBroadcast, ReadTogether, Recorded;
      var a := Sign(x.who, t, x.baseFee, x.salt, x.now);
      if Signature(c, states[read].db, a).None? || !x.delivery.signed { return Unresolved; }
      var recorded, held := RecordThenSend(read, a, x.delivery, (meanwhile.0, meanwhile.1));
      if !recorded { return Unresolved; }
      ghost var before, past, mine := states, events, Mine();
      Others(meanwhile.2);
      result := RecordDelivery(held, x);
      StillRecorded(before, past, states, events, mine, read, a, held.h, x.delivery.reached, true);
      assert Mine() == mine + [|events| - 1] && Mine()[..|Mine()| - 1] == mine;
    }

    method RecordDelivery(held: Held, x: Try) returns (result: Attempted)
      requires Valid() && held in Present().hands && held == Held(x.who, held.t, held.h, true)
      modifies this`states, this`events, this`own
      ensures Valid() && Continues() && own == old(own) + [|events| - 1]
      ensures |events| > 0 && Delivered(states, events, |events| - 1, held.t, held.h, x, result)
      ensures result.Sent? ==> ReadTogether(states, |states| - 1, held.t, held.h)
    {
      hide Run, Apply, MarkTxBroadcast, Signature;
      if !x.delivery.acknowledged {
        Perform(|states| - 1, RecordAmbiguous(held.t, x.actor, x.now));
        return Unresolved;
      }
      var reply := MarkTxBroadcast(Present().db, held.t, held.h, x.actor, x.now).1;
      if reply == Ok { BroadcastIsRead(c, Present().db, Present(), held, x.actor, x.now); }
      Perform(|states| - 1, RecordBroadcast(held, x.actor, x.now));
      if reply != Ok { return Unresolved; }
      assert RowAt(states[|states| - 1].db, held.t).txHash == Some(held.h);
      return Sent(held.h);
    }

    /** Broadcast: lease the payment, load its active row, run the pipeline, release. */
    method Broadcast(p: PaymentId, duration: int, x: Try, meanwhile: (seq<Event>, seq<Event>, seq<Event>))
        returns (result: Attempted, t: TxRef)
      requires Valid()
      modifies this`states, this`events, this`own
      ensures Valid() && Continues()
      ensures Broadcasts(c, margin, states, events, Mine(), p, duration, x, t, result) && Mine()[0] == |old(events)|
      ensures result.Sent? ==> t.owner == p && ReadTogether(states, |states| - 1, t, result.txHash)
      ensures result == Unsettleable ==> x.simulation == Reverts
    {
      hide Run, Apply, ReadTogether, Enabled, ClaimPayment, Loads;
      t := TxRef(p, 0);
      LeasingIsEnabled(c);
      var claimed := ClaimPayment(Present().db, p, x.who, duration, x.at, x.now).1;
      Perform(|states| - 1, Protocol.Claim(p, x.who, duration, x.at, x.now));
      assert Mine() == [|old(events)|];
      if claimed != Ok { return if claimed == Race then InProgress else Unresolved, t; }
      ghost var mine := own;
      ghost var read;
      result, t, read := BroadcastLeased(p, x, meanwhile);
      assert Mine() == [|old(events)|] + own[|mine|..];
      assert Mine()[1..|Mine()| - 1] == own[|mine|..|own| - 1];
    }

    /** Under the lease: load in state `read` and run, then release. */
    method BroadcastLeased(p: PaymentId, x: Try, meanwhile: (seq<Event>, seq<Event>, seq<Event>))
        returns (result: Attempted, t: TxRef, ghost read: nat)
      requires Valid()
      modifies this`states, this`events, this`own
      ensures Valid() && Continues() && |old(own)| < |own|
      ensures |events| > 0 && own[|own| - 1] == |events| - 1 && events[|events| - 1].act == Release(p, x.who, x.now)
      ensures |old(states)| <= read + 1
      ensures Loads(c, margin, states, events, own[|old(own)|..|own| - 1], read, p, x, t, result)
      ensures result.Sent? ==> t.owner == p && ReadTogether(states, |states| - 1, t, result.txHash)
      ensures result == Unsettleable ==> x.simulation == Reverts
    {
      hide Run, Apply, ReadTogether, Enabled, Loads;
      LeasingIsEnabled(c);
      Others(meanwhile.0);
      read := |states| - 1;
      result, t := BroadcastLoaded(p, x, meanwhile);
      ghost var before, past, mine := states, events, Mine();
      Perform(|states| - 1, Release(p, x.who, x.now));
      if result.Sent? { StillReadTogether(before, states, t, result.txHash); }
      StillLoads(c, margin, before, past, states, events, mine, read, p, x, t, result);
      assert own[|old(own)|..|own| - 1] == mine;
    }

    /** Load the active row, if the payment has one, and run the pipeline on it. */
    method BroadcastLoaded(p: PaymentId, x: Try, meanwhile: (seq<Event>, seq<Event>, seq<Event>))
        returns (result: Attempted, t: TxRef)
      requires Valid()
      modifies this`states, this`events, this`own
      ensures Valid() && Continues() && result != InProgress
      ensures Loads(c, margin, states, events, Mine(), |old(states)| - 1, p, x, t, result)
      ensures result.Sent? ==> t.owner == p && ReadTogether(states, |states| - 1, t, result.txHash)
      ensures result == Unsettleable ==> x.simulation == Reverts
    {
      hide Run, Apply, ReadTogether, Enabled, Pipeline;
      t := TxRef(p, 0);
      if p >= |Present().db.payments| { return Unresolved, t; }
      var active := FirstActive(Present().db.payments[p].rows);
      if active.None? { return Unresolved, t; }
      t := TxRef(p, active.value);
      result := BroadcastClaimed(|states| - 1, t, x, meanwhile);
    }

    // ------------------------------------------------------------------ settle

    /** Settle: admit, broadcast inline, and answer with what the bounded wait saw. `t` is
        the row id the answer was recorded under. A failure is durable always. So is a
        success, unless a hash the broadcast sent was waited for under the admitted row; that
        one is durable exactly when the row carries it. */
    method Settle(q: IntentRequest, duration: int, x: Try, seen: Observation, before: seq<Event>,
                  meanwhile: (seq<Event>, seq<Event>, seq<Event>), after: (seq<Event>, seq<Event>))
        returns (response: Response, t: TxRef, attempt: Option<Attempted>)
      requires Valid()
      modifies this`states, this`events, this`own
      ensures Valid() && Continues() && Mine() != [] && Mine()[0] == |old(events)|
      ensures Settling(c, margin, states, events, Mine(), q, duration, Inline(x), seen, attempt, response, t)
      ensures response == SimulationReverted ==> x.simulation == Reverts
      ensures response == TransactionFailed ==> RevertedFor(Present().db, t.owner)
      ensures response.Settled? && GapRun(c, states, events) ==>
        && t.owner < |Present().db.payments| && t.index < |Present().db.payments[t.owner].rows|
        && (SettledBy(Present().db, t.owner, response.txHash) <==>
            RowAt(Present().db, t).txHash == Some(response.txHash))
        && (attempt.None? || !attempt.value.Sent? ==> SettledBy(Present().db, t.owner, response.txHash))
    {
      hide Run, Apply, Enabled, CreateIntent, SettledBy, RevertedFor, GapRun, AnsweredAfter;
      t, attempt := TxRef(0, 0), None;
      var reply := CreateIntent(Present().db, q).1;
      AdmittingIsEnabled(c, q);
      Perform(|states| - 1, Admit(q));
      assert Mine() == [|old(events)|];
      if reply.Fault? { return InternalError, t, None; }
      if reply.Refuse? { return Refused(reply.reason), t, None; }
      t := if reply.Accept? then reply.intent else reply.row;
      if reply.Existing? && reply.txHash.Some? {
        response := AnswerDuplicate(reply);
        RetriedIsSettled(q);
        return;
      }
      ghost var mine := own;
      var result;
      response, t, result := SettleAdmitted(t, duration, Inline(x), seen, before, meanwhile, after);
      attempt := Some(result);
      assert Mine()[1..] == own[|mine|..];
    }

    /** Broadcast the admitted intent inline and answer. */
    method SettleAdmitted(intent: TxRef, duration: int, x: Try, seen: Observation, before: seq<Event>,
                          meanwhile: (seq<Event>, seq<Event>, seq<Event>), after: (seq<Event>, seq<Event>))
        returns (response: Response, t: TxRef, result: Attempted)
      requires Valid()
      modifies this`states, this`events, this`own
      ensures Valid() && Continues() && Mine() != [] && Mine()[0] >= |old(events)|
      ensures AnsweredAfter(c, margin, states, events, Mine(), intent, duration, x, seen, result, response, t)
      ensures response == SimulationReverted ==> x.simulation == Reverts
      ensures response == TransactionFailed ==> RevertedFor(Present().db, t.owner)
      ensures response.Settled? && GapRun(c, states, events) ==> Rightly(result, response.txHash, t)
    {
      hide Run, Apply, Enabled, ReadTogether, Rightly, RevertedFor, Broadcasts, GapRun, AnswerOf;
      Others(before);
      var u;
      result, u := Broadcast(intent.owner, duration, x, meanwhile);
      ghost var older, past, mine := states, events, Mine();
      LastIsPast(c, margin, older, past, mine, intent.owner, duration, x, u, result);
      Others(after.0);
      var k := |states| - 1;
      Others(after.1);
      StillBroadcasts(c, margin, older, past, states, events, mine, intent.owner, duration, x, u, result);
      assert Mine() == mine;
      response, t := AnswerAttempt(result, intent, k, seen, x.now);
    }

    /** What a reported success is worth: the record carries it exactly if the row it was
        recorded under does, and always if that row was read together with the hash. */
    ghost predicate Rightly(result: Attempted, h: Signed, t: TxRef)
      requires states != []
      reads this
    {
      && t.owner < |Present().db.payments| && t.index < |Present().db.payments[t.owner].rows|
      && (SettledBy(Present().db, t.owner, h) <==> RowAt(Present().db, t).txHash == Some(h))
      && (!result.Sent? ==> SettledBy(Present().db, t.owner, h))
    }

    /** What settle answers once the broadcast came back, looking once more for a hash another
        actor may have recorded by state `k`. */
    method AnswerAttempt(result: Attempted, intent: TxRef, k: nat, seen: Observation, now: Time)
        returns (response: Response, t: TxRef)
      requires Valid() && k < |states|
      ensures (response, t) == AnswerOf(states[k].db, Present().db, intent, result, seen, now)
      ensures response == SimulationReverted ==> result == Unsettleable
      ensures response == TransactionFailed ==> RevertedFor(Present().db, t.owner)
      ensures response.Settled? && GapRun(c, states, events) ==> Rightly(result, response.txHash, t)
    {
      hide Run, SettledBy;
      var db := states[k].db;
      t := intent;
      if result.Sent? {
        response := RespondWithTx(Present().db, t, result.txHash, seen, now);
        if response.Settled? { WaitedIsExact(t, result.txHash, seen, now); }
        return;
      }
      if result == Expiring { return Refused(AuthorizationExpiring), t; }
      if result == Unsettleable { return SimulationReverted, t; }
      if t.owner < |db.payments| && FirstActive(db.payments[t.owner].rows).Some? {
        t := TxRef(t.owner, FirstActive(db.payments[t.owner].rows).value);
        if RowAt(db, t).txHash.Some? {
          response := RespondWithTx(Present().db, t, RowAt(db, t).txHash.value, seen, now);
          if response.Settled? { ReloadedIsSettled(k, t, seen, now); }
          return;
        }
      }
      return BroadcastFailed, t;
    }

    /** A row and its hash read together: a success is the payment's outcome outright. */
    lemma ReloadedIsSettled(k: nat, t: TxRef, seen: Observation, now: Time)
      requires Valid() && k < |states| && t.owner < |states[k].db.payments|
      requires t.index < |states[k].db.payments[t.owner].rows| && RowAt(states[k].db, t).txHash.Some?
      requires RespondWithTx(Present().db, t, RowAt(states[k].db, t).txHash.value, seen, now).Settled?
      ensures var h := RowAt(states[k].db, t).txHash.value;
        && RespondWithTx(Present().db, t, h, seen, now) == Settled(h)
        && t.owner < |Present().db.payments| && t.index < |Present().db.payments[t.owner].rows|
        && (GapRun(c, states, events) ==>
            SettledBy(Present().db, t.owner, h) && RowAt(Present().db, t).txHash == Some(h))
    {
      var h := RowAt(states[k].db, t).txHash.value;
      WaitedIsExact(t, h, seen, now);
      if GapRun(c, states, events) {
        hide Run, SettledBy;
        assert ReadTogether(states, |states| - 1, t, h);
        SuccessIsDurable(c, states, events, |states| - 1, t, h, seen, now);
      }
    }

    lemma WaitedIsExact(t: TxRef, h: Signed, seen: Observation, now: Time)
      requires Valid() && RespondWithTx(Present().db, t, h, seen, now).Settled?
      ensures RespondWithTx(Present().db, t, h, seen, now) == Settled(h)
      ensures t.owner < |Present().db.payments| && t.index < |Present().db.payments[t.owner].rows|
      ensures GapRun(c, states, events) ==>
        (SettledBy(Present().db, t.owner, h) <==> RowAt(Present().db, t).txHash == Some(h))
    {
      if GapRun(c, states, events) {
        hide Run, Sound, Kept, SettledBy;
        EveryPayment(c, states, events, |states| - 1, |states| - 1, t.owner);
        SuccessExactly(Present().db, t, h, seen, now, Owner(t.owner, c.cap));
      }
    }

    /** An outcome answered straight from the record stays true as the attempt is logged. */
    lemma RetriedIsSettled(q: IntentRequest)
      requires Valid() && |states| > 1 && states[|states| - 1].db == CreateIntent(states[|states| - 2].db, q).0
      requires var reply := CreateIntent(states[|states| - 2].db, q).1; reply.Existing? && reply.txHash.Some?
      ensures var reply, db := CreateIntent(states[|states| - 2].db, q).1, Present().db;
        && reply.row.owner < |db.payments| && reply.row.index < |db.payments[reply.row.owner].rows|
        && RowAt(db, reply.row).txHash == reply.txHash
        && (AnswerDuplicate(reply) == TransactionFailed ==> RevertedFor(db, reply.row.owner))
        && (AnswerDuplicate(reply).Settled? && GapRun(c, states, events) ==>
            SettledBy(db, reply.row.owner, reply.txHash.value))
    {
      var before, reply := states[|states| - 2].db, CreateIntent(states[|states| - 2].db, q).1;
      ExistingRow(before, q);
      if AnswerDuplicate(reply).Settled? && GapRun(c, states, events) {
        hide Run, Kept, Sound, CreateIntent;
        EveryPayment(c, states, events, |states| - 2, |states| - 2, reply.row.owner);
        RetriedSuccessIsDurable(before, q, Owner(reply.row.owner, c.cap));
        assert SettledBy(Present().db, reply.row.owner, reply.txHash.value);
      }
    }

    // ------------------------------------------------------------ confirmation

    /** Confirmation: one observation of the active row `t` of a pending payment, read from
        all providers. It makes exactly the one call its verdict asks for, or none; and what
        it finalizes rests on the hash it read, wherever one provider was honest. */
    method Confirmation(read: nat, t: TxRef, receipts: seq<Answer<Option<V.Receipt>>>, blocks: seq<Answer<nat>>,
                        heads: seq<Answer<nat>>, actor: Actor, now: Time, meanwhile: seq<Event>)
        returns (verdict: V.Verdict, got: V.Reads)
      requires Valid() && read < |states| && Loaded(states[read].db, t)
      requires states[read].db.payments[t.owner].state in PENDING
      requires receipts != [] && blocks != [] && heads != []
      modifies this`states, this`events, this`own
      ensures Valid() && Continues() && V.Reconciles(got, receipts, blocks, heads)
      ensures verdict == if RowAt(old(states)[read].db, t).txHash.None? then V.Failure
                         else V.Confirmation(RowAt(old(states)[read].db, t).status == TxConfirming, got, confirmations)
      ensures Mine() == [] || (|Mine()| == 1 && Mine()[0] < |events|)
      ensures var call := if Mine() == [] then None else Some(events[Mine()[0]].act);
        CallsFor(call, t, RowAt(old(states)[read].db, t), got, confirmations, actor, now)
      ensures match ConfirmAct(t, verdict, actor, now)
              case None => own == old(own)
              case Some(a) =>
                && DidLast(events, Mine(), read, a)
                && forall e: V.Evidence ::
                     e.got == got && V.Honest(e, RowAt(old(states)[read].db, t).txHash.value) ==>
                       G.Backed(old(states)[read].db, a, e, confirmations)
    {
      hide Run, Apply, V.Reconciles, V.Confirmation, V.Honest, G.Backed, CallsFor;
      var seen := states[read].db;
      var row := RowAt(seen, t);
      assert Mine() == [];
      got := V.ReadChain(receipts, blocks, heads);
      CallExactly(t, row, got, confirmations, actor, now);
      Others(meanwhile);
      if row.txHash.None? { return V.Failure, got; }
      verdict := V.Confirmation(row.status == TxConfirming, got, confirmations);
      var a := ConfirmAct(t, verdict, actor, now);
      if a.None? { return; }
      Perform(read, a.value);
      VerdictIsBacked(seen, t, verdict, got, actor, now, confirmations);
    }

    // ---------------------------------------------------------------- recovery

    /** The own events are what the course asks for, in order. */
    twostate predicate Resolves(read: nat, t: TxRef, who: nat, salt: nat, course: Course, delivery: Delivery,
                                actor: Actor, now: Time)
      requires Continues() && |states| == |events| + 1
      reads this
    {
      match course
      case Leave => own == old(own)
      case Reattach => DidLast(events, Mine(), read, Recover(t, actor, now))
      case SignAgain(h) =>
        exists recorded: bool ::
          RecordedThenSent(states, events, Mine(), read, Resign(who, t, salt, actor, now), h, delivery.reached,
                           recorded)
      case SendAgain =>
        if !delivery.reached && !delivery.acknowledged then own == old(own)
        else if !delivery.acknowledged then DidLast(events, Mine(), read, Resend(t))
        else if !delivery.reached then DidLast(events, Mine(), read, Recover(t, actor, now))
        else
          && |Mine()| == 2 && Mine()[0] < Mine()[1] < |events|
          && events[Mine()[0]] == Event(read, Resend(t)) && events[Mine()[1]] == Event(read, Recover(t, actor, now))
    }

    /** resolveAmbiguous: exactly what AmbiguousCourse decides on the row it read. */
    method ResolveAmbiguous(read: nat, t: TxRef, who: nat, onChain: bool, due: bool, salt: nat, delivery: Delivery,
                            actor: Actor, now: Time, meanwhile: (seq<Event>, seq<Event>))
      requires Valid() && read < |states| && Hit(states[read].db, t, {TxAmbiguous})
      modifies this`states, this`events, this`own
      ensures Valid() && Continues()
      ensures var row := RowAt(old(states)[read].db, t);
        var course := AmbiguousCourse(row, t.owner, onChain, due, delivery.signed, salt);
        Resolves(read, t, who, salt, course, delivery, actor, now)
      ensures RowAt(old(states)[read].db, t).rawHash.Some? && onChain ==>
        DidLast(events, Mine(), read, Recover(t, actor, now))
      ensures !onChain && !due ==> own == old(own)
    {
      hide Run, Apply, BlockingGap, StuckFiller, WatchedFiller, Store;
      var row := RowAt(states[read].db, t);
      if row.rawHash.None? { return; }
      if onChain {
        Others(meanwhile.0);
        Perform(read, Recover(t, actor, now));
        return;
      }
      if !due || row.terms.None? || row.terms.value.gasLimit == 0 || !delivery.signed { return; }
      var h := Make(row, t.owner, row.terms.value, salt);
      if row.sighash.Some? && row.sighash.value != Sighash(h) { return; }
      if row.sighash.None? && row.rawHash != Some(h) { return; }
      if row.rawHash != Some(h) {
        var _, _ := RecordThenSend(read, Resign(who, t, salt, actor, now), delivery, meanwhile);
        return;
      }
      SendIdentical(read, t, delivery, actor, now, meanwhile);
    }

    /** Re-sending the recorded bytes; an acknowledgement re-attaches the hash. */
    method SendIdentical(read: nat, t: TxRef, delivery: Delivery, actor: Actor, now: Time,
                         meanwhile: (seq<Event>, seq<Event>))
      requires Valid() && read < |states| && Hit(states[read].db, t, {TxAmbiguous}) &&
        RowAt(states[read].db, t).rawHash.Some?
      modifies this`states, this`events, this`own
      ensures Valid() && Continues() && Resolves(read, t, 0, 0, SendAgain, delivery, actor, now)
    {
      hide Run, Apply, BlockingGap, StuckFiller, WatchedFiller, Store;
      Others(meanwhile.0);
      if delivery.reached { Perform(read, Resend(t)); }
      ghost var mine := Mine();
      if delivery.acknowledged {
        Others(meanwhile.1);
        Perform(read, Recover(t, actor, now));
        assert Mine() == mine + [|events| - 1];
      }
    }

    /** Without stored terms, headroom or a signature nothing happens; otherwise the
        replacement is recorded before it is sent. */
    twostate predicate Bumps(read: nat, a: Act, delivery: Delivery)
      requires Continues() && Signs(a) && |states| == |events| + 1 && read < |old(states)|
      reads this
    {
      var h := Signature(c, old(states)[read].db, a);
      if h.None? || !delivery.signed then own == old(own)
      else exists recorded: bool ::
        RecordedThenSent(states, events, Mine(), read, a, h.value, delivery.reached, recorded)
    }

    /** replaceStuck: without headroom under the ceiling it keeps waiting. */
    method ReplaceStuck(read: nat, t: TxRef, who: nat, since: Time, baseFee: int, salt: nat, delivery: Delivery,
                        actor: Actor, now: Time, meanwhile: (seq<Event>, seq<Event>))
      requires Valid() && read < |states| && Hit(states[read].db, t, {TxBroadcast})
      requires RowAt(states[read].db, t).attemptedAt.Some? && RowAt(states[read].db, t).attemptedAt.value < since
      modifies this`states, this`events, this`own
      ensures Valid() && Continues() && Bumps(read, Replace(who, t, since, baseFee, salt, actor, now), delivery)
    {
      hide Run, Apply, Store;
      var row := RowAt(states[read].db, t);
      if row.terms.None? || row.terms.value.gasLimit == 0 { return; }
      var fee := F.BumpFees(F.FeePair(row.terms.value.maxFee, row.terms.value.tip), baseFee, c.cap.maxFee);
      if fee.None? || !delivery.signed { return; }
      var recorded, held := RecordThenSend(read, Replace(who, t, since, baseFee, salt, actor, now), delivery,
                                           meanwhile);
      assert RecordedThenSent(states, events, Mine(), read, Replace(who, t, since, baseFee, salt, actor, now), held.h,
                              delivery.reached, recorded);
    }

    /** recoverPayment, on the active row `t`: ambiguous rows are reconciled, rows stuck since
        before `since` are fee-bumped, anything else is left to the confirmation worker. */
    method RecoverPayment(read: nat, t: TxRef, who: nat, onChain: bool, due: bool, since: Time, baseFee: int, salt: nat,
                          delivery: Delivery, actor: Actor, now: Time, meanwhile: (seq<Event>, seq<Event>))
      requires Valid() && read < |states| && Loaded(states[read].db, t)
      modifies this`states, this`events, this`own
      ensures Valid() && Continues()
      ensures var row := RowAt(old(states)[read].db, t);
        if row.status == TxAmbiguous then
          Resolves(read, t, who, salt, AmbiguousCourse(row, t.owner, onChain, due, delivery.signed, salt), delivery,
                   actor, now)
        else if row.status == TxBroadcast && row.attemptedAt.Some? && row.attemptedAt.value < since then
          Bumps(read, Replace(who, t, since, baseFee, salt, actor, now), delivery)
        else states == old(states) && own == old(own)
    {
      hide Run, Apply, Store, Signature;
      var row := RowAt(states[read].db, t);
      if row.status == TxAmbiguous {
        ResolveAmbiguous(read, t, who, onChain, due, salt, delivery, actor, now, meanwhile);
      } else if row.status == TxBroadcast && row.attemptedAt.Some? && row.attemptedAt.value < since {
        ReplaceStuck(read, t, who, since, baseFee, salt, delivery, actor, now, meanwhile);
      }
    }

    /** observeReplacements, for one listed row: a mined original is recorded if all providers
        agree on it, and a reverted one only at full depth. */
    method ObserveReplacement(read: nat, t: TxRef, receipts: seq<Answer<Option<V.Receipt>>>, heads: seq<Answer<nat>>,
                              actor: Actor, now: Time, meanwhile: seq<Event>) returns (landed: Option<V.Receipt>)
      requires Valid() && read < |states| && WatchedReplacement(states[read].db, t) && receipts != [] && heads != []
      modifies this`states, this`events, this`own
      ensures Valid() && Continues()
      ensures landed == V.OriginalLanded(receipts, heads, confirmations)
      ensures match landed
              case None => own == old(own)
              case Some(r) =>
                && DidLast(events, Mine(), read, Land(t, r.succeeded, r.block, r.gas, actor, now))
                && forall e: V.Evidence | Bears(e, receipts, heads, RowAt(old(states)[read].db, t).txHash, r.block) ::
                     G.Backed(old(states)[read].db, Land(t, r.succeeded, r.block, r.gas, actor, now), e, confirmations)
    {
      hide Run, Apply, V.OriginalLanded, Bears;
      landed := V.ReadOriginal(receipts, heads, confirmations);
      Others(meanwhile);
      if landed.Some? {
        var r := landed.value;
        LandingIsBacked(states[read].db, t, receipts, heads, r, actor, now, confirmations);
        Perform(read, Land(t, r.succeeded, r.block, r.gas, actor, now));
      }
    }

    /** fillNonceGap, for one listed gap: the exact bytes are recorded before they are sent. */
    method FillNonceGap(read: nat, t: TxRef, who: nat, cutoff: Time, baseFee: int, salt: nat, delivery: Delivery,
                        now: Time, meanwhile: (seq<Event>, seq<Event>))
      requires Valid() && read < |states| && BlockingGap(states[read].db, c.signer, cutoff, t)
      modifies this`states, this`events, this`own
      ensures Valid() && Continues() && Bumps(read, Prepare(who, t, cutoff, baseFee, salt, now), delivery)
    {
      hide Run, Apply, Store;
      if F.EstimateFees(baseFee, c.tip, c.cap.maxFee).None? || !delivery.signed { return; }
      var recorded, held := RecordThenSend(read, Prepare(who, t, cutoff, baseFee, salt, now), delivery, meanwhile);
      assert RecordedThenSent(states, events, Mine(), read, Prepare(who, t, cutoff, baseFee, salt, now), held.h,
                              delivery.reached, recorded);
    }

    /** bumpStuckGapFiller, for one listed filler. */
    method BumpStuckGapFiller(read: nat, t: TxRef, who: nat, since: Time, baseFee: int, salt: nat, delivery: Delivery,
                              now: Time, meanwhile: (seq<Event>, seq<Event>))
      requires Valid() && read < |states| && StuckFiller(states[read].db, c.signer, since, t)
      modifies this`states, this`events, this`own
      ensures Valid() && Continues() && Bumps(read, BumpFiller(who, t, since, baseFee, salt, now), delivery)
    {
      hide Run, Apply, Store;
      var row := RowAt(states[read].db, t);
      if row.terms.None? || row.terms.value.gasLimit == 0 { return; }
      var fee := F.BumpFees(F.FeePair(row.terms.value.maxFee, row.terms.value.tip), baseFee, c.cap.maxFee);
      if fee.None? || !delivery.signed { return; }
      var recorded, held := RecordThenSend(read, BumpFiller(who, t, since, baseFee, salt, now), delivery, meanwhile);
      assert RecordedThenSent(states, events, Mine(), read, BumpFiller(who, t, since, baseFee, salt, now), held.h,
                              delivery.reached, recorded);
    }

    /** observeGapFiller: an unmined live filler the network forgot is re-sent byte for byte, a
        success is escalated, a revert retired; a superseded filler is only watched. */
    method ObserveGapFiller(read: nat, t: TxRef, receipt: Option<V.Receipt>, known: bool, reached: bool, actor: Actor,
                            now: Time, meanwhile: seq<Event>)
      requires Valid() && read < |states| && WatchedFiller(states[read].db, t)
      modifies this`states, this`events, this`own
      ensures Valid() && Continues()
      ensures match receipt
              case None =>
                if RowAt(old(states)[read].db, t).status == TxBroadcast && !known && reached
                then DidLast(events, Mine(), read, Resend(t)) else own == old(own)
              case Some(r) =>
                DidLast(events, Mine(), read,
                        if r.succeeded then Escalate(t, r.block, r.gas, actor, now) else Resolve(t, r.gas, now))
    {
      hide Run, Apply;
      var status := RowAt(states[read].db, t).status;
      Others(meanwhile);
      if receipt.None? {
        if status == TxReplaced || known || !reached { return; }
        Perform(read, Resend(t));
      } else if receipt.value.succeeded {
        Perform(read, Escalate(t, receipt.value.block, receipt.value.gas, actor, now));
      } else {
        Perform(read, Resolve(t, receipt.value.gas, now));
      }
    }
  }

  // ------------------------------------------------------------- small facts

  lemma SigningIsEnabled(c: Config, seen: Db, w: World, a: Act)
    requires Signs(a) && Signature(c, seen, a).Some?
    ensures Enabled(c, seen, w, a)
  {
    hide Signature;
  }

  lemma LeasingIsEnabled(c: Config)
    ensures forall seen: Db, w: World, a: Act :: a.Claim? || a.Release? ==> Enabled(c, seen, w, a)
  {
  }

  lemma AdmittingIsEnabled(c: Config, q: IntentRequest)
    ensures forall seen: Db, w: World :: Enabled(c, seen, w, Admit(q))
    ensures forall seen: Db, w: World :: Apply(c, seen, w, Admit(q)).db == CreateIntent(w.db, q).0
  {
    forall seen: Db, w: World ensures Apply(c, seen, w, Admit(q)).db == CreateIntent(w.db, q).0 {
      WriteAdmits(c, seen, w, q);
    }
  }

  lemma CommittedIsHeld(c: Config, seen: Db, w: World, a: Act)
    requires Signs(a) && Signature(c, seen, a).Some? && Store(w.db, a, Signature(c, seen, a).value).1 == Ok
    ensures Held(a.who, Recorded(w, a), Signature(c, seen, a).value, a.Sign?) in Apply(c, seen, w, a).hands
  {
    hide Signature, Store;
  }

  lemma SendingKeepsHands(c: Config, seen: Db, w: World, held: Held)
    ensures Apply(c, seen, w, Send(held)).hands == w.hands
  {
  }

  lemma BroadcastIsRead(c: Config, seen: Db, w: World, held: Held, actor: Actor, now: Time)
    requires MarkTxBroadcast(w.db, held.t, held.h, actor, now).1 == Ok
    ensures var db := Apply(c, seen, w, RecordBroadcast(held, actor, now)).db;
      && held.t.owner < |db.payments| && held.t.index < |db.payments[held.t.owner].rows|
      && RowAt(db, held.t).txHash == Some(held.h)
  {
  }

  lemma StillReadTogether(states: seq<World>, more: seq<World>, t: TxRef, h: Signed)
    requires states != [] && states <= more && ReadTogether(states, |states| - 1, t, h)
    ensures ReadTogether(more, |more| - 1, t, h)
  {
    var k: nat :| k <= |states| - 1 && t.owner < |states[k].db.payments|
      && t.index < |states[k].db.payments[t.owner].rows| && RowAt(states[k].db, t).txHash == Some(h);
    assert states[k] == more[k];
  }

  /** The evidence is about these answers on the hash `h`, and its provider kept the block. */
  ghost predicate Bears(e: V.Evidence, receipts: seq<Answer<Option<V.Receipt>>>, heads: seq<Answer<nat>>,
                        h: Option<Signed>, block: Block)
  {
    && h.Some? && V.Honest(e, h.value) && V.Unmoved(e.third, block)
    && e.receipts == receipts && e.heads == heads && e.got.receipt.Agreed? && e.got.head.Agreed?
  }

  /** A reverted original that landed by these answers rests on an observation of its hash. */
  lemma LandingIsBacked(seen: Db, t: TxRef, receipts: seq<Answer<Option<V.Receipt>>>, heads: seq<Answer<nat>>,
                        r: V.Receipt, actor: Actor, now: Time, confirmations: nat)
    requires t.owner < |seen.payments| && t.index < |seen.payments[t.owner].rows|
    requires V.OriginalLanded(receipts, heads, confirmations) == Some(r)
    ensures forall e: V.Evidence | Bears(e, receipts, heads, RowAt(seen, t).txHash, r.block) ::
      G.Backed(seen, Land(t, r.succeeded, r.block, r.gas, actor, now), e, confirmations)
  {
    var a := Land(t, r.succeeded, r.block, r.gas, actor, now);
    forall e: V.Evidence | Bears(e, receipts, heads, RowAt(seen, t).txHash, r.block)
      ensures G.Backed(seen, a, e, confirmations)
    {
      if G.Outcoming(a) {
        assert e.got.receipt == Agreed(Some(r));
        assert r == V.Receipt(false, r.block, r.gas);
        assert G.Supports(seen, a, e, RowAt(seen, t).txHash.value, confirmations);
      }
    }
  }

  /** A final verdict on the hash that was read is the observation its call rests on. */
  lemma VerdictIsBacked(seen: Db, t: TxRef, verdict: V.Verdict, got: V.Reads, actor: Actor, now: Time,
                        confirmations: nat)
    requires t.owner < |seen.payments| && t.index < |seen.payments[t.owner].rows| && RowAt(seen, t).txHash.Some?
    requires verdict == V.Confirmation(RowAt(seen, t).status == TxConfirming, got, confirmations)
    requires ConfirmAct(t, verdict, actor, now).Some?
    ensures forall e: V.Evidence ::
      e.got == got && V.Honest(e, RowAt(seen, t).txHash.value) ==>
        G.Backed(seen, ConfirmAct(t, verdict, actor, now).value, e, confirmations)
  {
    hide V.Honest;
    var a := ConfirmAct(t, verdict, actor, now).value;
    forall e: V.Evidence | e.got == got && V.Honest(e, RowAt(seen, t).txHash.value)
      ensures G.Backed(seen, a, e, confirmations)
    {
      if G.Outcoming(a) { assert G.Supports(seen, a, e, RowAt(seen, t).txHash.value, confirmations); }
    }
  }
}

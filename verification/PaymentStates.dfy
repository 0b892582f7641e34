/** The payment state machine (internal/settlement/state.go) and the audit trail
    that records a payment's walk through it. */
module PaymentStates {

  datatype State =
    | Received | VerificationFailed | Verified | Broadcasting | Broadcast | Confirming
    | Confirmed | Failed | Reverted | Replaced | Expired | ManualReview

  /** Who a transition is attributed to. `HttpWait` is what the HTTP waiter passes;
      the schema's CHECK on actor_type admits only the other four. */
  datatype Actor = Http | Worker | Operator | System | HttpWait

  datatype Edge = Edge(from: State, to: State, actor: Actor)

  function Successors(from: State): set<State>
  {
    match from
    case Received => {VerificationFailed, Verified, Expired, ManualReview}
    case Verified => {Broadcasting, Expired, ManualReview}
    case Broadcasting => {Broadcast, Failed, Expired, ManualReview}
    case Broadcast => {Confirming, Confirmed, Reverted, Replaced, ManualReview}
    case Confirming => {Broadcast, Confirmed, Reverted, Replaced, ManualReview}
    case Replaced => {Confirming, Confirmed, Reverted, ManualReview}
    case Expired => {ManualReview}
    case ManualReview => {Verified, Broadcast, Confirming, Replaced, Failed, Expired}
    case _ => {}
  }

  predicate CanTransition(from: State, to: State) {
    to in Successors(from)
  }

  /** The same table, read by where its edges lead. */
  function Predecessors(to: State): set<State>
  {
    match to
    case Received => {}
    case VerificationFailed => {Received}
    case Verified => {Received, ManualReview}
    case Broadcasting => {Verified}
    case Broadcast => {Broadcasting, Confirming, ManualReview}
    case Confirming => {Broadcast, Replaced, ManualReview}
    case Confirmed => {Broadcast, Confirming, Replaced}
    case Failed => {Broadcasting, ManualReview}
    case Reverted => {Broadcast, Confirming, Replaced}
    case Replaced => {Broadcast, Confirming, ManualReview}
    case Expired => {Received, Verified, Broadcasting, ManualReview}
    case ManualReview => {Received, Verified, Broadcasting, Broadcast, Confirming, Replaced, Expired}
  }

  lemma TableReadsBothWays(from: State, to: State)
    ensures CanTransition(from, to) <==> from in Predecessors(to)
  {
  }

  /** `log` is an unbroken walk over edges of the table, from received to `end`. */
  ghost predicate Trail(log: seq<Edge>, end: State)
  {
    && |log| > 0
    && log[0].from == Received
    && log[|log| - 1].to == end
    && (forall k | 0 <= k < |log| :: CanTransition(log[k].from, log[k].to) && log[k].actor != HttpWait)
    && (forall k | 0 < k < |log| :: log[k].from == log[k - 1].to)
  }

  /** Appending one audited edge out of the current state keeps the walk unbroken. */
  lemma TrailExtends(log: seq<Edge>, end: State, e: Edge)
    requires Trail(log, end)
    requires e.from == end && CanTransition(end, e.to) && e.actor != HttpWait
    ensures Trail(log + [e], e.to)
  {
    var more := log + [e];
    forall k | 0 < k < |more| ensures more[k].from == more[k - 1].to {
      if k == |log| { assert more[k - 1] == log[|log| - 1]; }
    }
  }

  /** Confirmed, reverted, failed and verification_failed are never left again, and
      an expired payment is only ever left for manual review. */
  lemma TerminalStatesAbsorb(log: seq<Edge>, end: State, k: nat)
    requires Trail(log, end) && k < |log|
    ensures log[k].to in {Confirmed, Reverted, Failed, VerificationFailed} ==> k == |log| - 1 && end == log[k].to
    ensures log[k].to == Expired && k < |log| - 1 ==> log[k + 1].to == ManualReview
  {
    if k + 1 < |log| { assert log[k + 1].from == log[k].to; }
  }
}

/** Admission quotas over every window of time, and what they bound. */
module Quotas {
  import opened PaymentStates
  import opened Ledger
  import opened Steps
  import opened Admission
  import opened Protocol
  import opened Runs
  import opened Theorems
  import opened Timeline

  /** The payments whose intent is stamped in the half-open window (lo, hi]. */
  function Stamped(payments: seq<Payment>, lo: Time, hi: Time): set<PaymentId> {
    set p | 0 <= p < |payments| && payments[p].requestedAt.Some? && lo < payments[p].requestedAt.value <= hi
  }

  /** The quotas and the window every admission of the run was configured with. */
  ghost predicate Limited(events: seq<Event>, quota: nat, globalQuota: nat, window: nat) {
    forall k | 0 <= k < |events| && events[k].act.Admit? ::
      events[k].act.q.quota <= quota && events[k].act.q.globalQuota <= globalQuota && events[k].act.q.window >= window
  }

  lemma SubsetSize<T>(a: set<T>, b: set<T>)
    requires a <= b
    ensures |a| <= |b|
  {
    assert b == a + (b - a);
  }

  /** Everything but an accepted intent leaves the stamps alone. */
  lemma StampsStay(c: Config, seen: Db, w: World, a: Act, lo: Time, hi: Time)
    requires !(a.Admit? && CreateIntent(w.db, a.q).1.Accept?)
    ensures Stamped(Apply(c, seen, w, a).db.payments, lo, hi) <= Stamped(w.db.payments, lo, hi)
  {
    hide Store, Write, Signature, CreateIntent, Stamped;
    if Signs(a) {
      if Signature(c, seen, a).Some? { StoreFrame(w.db, a, Signature(c, seen, a).value); }
    } else if OnNetwork(a) {
    } else if a.Admit? {
      WriteAdmits(c, seen, w, a.q);
    } else if Advances(a) {
      AdvanceFrame(seen, w.db, a);
    } else {
      WriteFrame(seen, w.db, a);
    }
    SameStamps(w.db, Apply(c, seen, w, a).db, lo, hi);
  }

  lemma SameStamps(db: Db, after: Db, lo: Time, hi: Time)
    requires SameRequests(db, after)
    ensures Stamped(after.payments, lo, hi) <= Stamped(db.payments, lo, hi)
  {
  }

  /** An accepted intent stamps one payment, and the window behind its stamp had room. */
  lemma AcceptHadRoom(db: Db, q: IntentRequest)
    requires CreateIntent(db, q).1.Accept?
    ensures var (after, reply) := CreateIntent(db, q);
      && reply.intent.owner < |db.payments| && |after.payments| == |db.payments|
      && after.payments == db.payments[reply.intent.owner := after.payments[reply.intent.owner]]
      && after.payments[reply.intent.owner].requestedAt == Some(q.now)
      && |Requested(db.payments, q.now - q.window)| < q.globalQuota
      && db.payments[reply.intent.owner].merchant.Some?
      && |RequestedFor(db.payments, db.payments[reply.intent.owner].merchant.value, q.now - q.window)| < q.quota
  {
    hide Requested, RequestedFor, Terminal, Signable, CanTransition;
  }

  lemma AcceptStampsOne(db: Db, q: IntentRequest, lo: Time, hi: Time)
    requires CreateIntent(db, q).1.Accept? && hi - lo <= q.window
    ensures var after := CreateIntent(db, q).0.payments;
      |Stamped(after, lo, hi)| <= |Stamped(db.payments, lo, hi)| || |Stamped(after, lo, hi)| <= q.globalQuota
  {
    AcceptHadRoom(db, q);
    hide CreateIntent;
    var p, after := CreateIntent(db, q).1.intent.owner, CreateIntent(db, q).0.payments;
    if lo < q.now <= hi {
      assert Stamped(after, lo, hi) <= Requested(db.payments, q.now - q.window) + {p};
      SubsetSize(Stamped(after, lo, hi), Requested(db.payments, q.now - q.window) + {p});
    } else {
      assert Stamped(after, lo, hi) <= Stamped(db.payments, lo, hi);
      SubsetSize(Stamped(after, lo, hi), Stamped(db.payments, lo, hi));
    }
  }

  lemma StampsStep(c: Config, seen: Db, w: World, a: Act, lo: Time, hi: Time, globalQuota: nat)
    requires a.Admit? ==> hi - lo <= a.q.window && a.q.globalQuota <= globalQuota
    requires |Stamped(w.db.payments, lo, hi)| <= globalQuota
    ensures |Stamped(Apply(c, seen, w, a).db.payments, lo, hi)| <= globalQuota
  {
    hide Apply, CreateIntent, Stamped;
    if a.Admit? && CreateIntent(w.db, a.q).1.Accept? {
      WriteAdmits(c, seen, w, a.q);
      AcceptStampsOne(w.db, a.q, lo, hi);
    } else {
      StampsStay(c, seen, w, a, lo, hi);
      SubsetSize(Stamped(Apply(c, seen, w, a).db.payments, lo, hi), Stamped(w.db.payments, lo, hi));
    }
  }

  /** In every state, no window of the configured length holds more stamps than the
      global quota, in whatever order the stamped intents committed. */
  lemma {:induction false} GlobalQuotaHolds(c: Config, states: seq<World>, events: seq<Event>, n: nat, quota: nat,
                                            globalQuota: nat, window: nat, lo: Time)
    requires Run(c, states, events) && n < |states| && Limited(events, quota, globalQuota, window)
    ensures |Stamped(states[n].db.payments, lo, lo + window)| <= globalQuota
    decreases n
  {
    hide Apply, Enabled;
    if n > 0 {
      GlobalQuotaHolds(c, states, events, n - 1, quota, globalQuota, window, lo);
      StampsStep(c, states[events[n - 1].read].db, states[n - 1], events[n - 1].act, lo, lo + window, globalQuota);
    }
  }

  // ---------------------------------------------------- merchants and erasure

  /** Erasure spares the counts an admission still looks at: whatever is erased by then
      was stamped outside the window behind it. */
  ghost predicate CountsComplete(db: Db, q: IntentRequest) {
    forall p | 0 <= p < |db.payments| && db.payments[p].redactedAt.Some? && db.payments[p].requestedAt.Some? ::
      db.payments[p].requestedAt.value <= q.now - q.window
  }

  /** Event `k` accepted an intent of payment `p` for merchant `m`. */
  ghost predicate AcceptedAt(states: seq<World>, events: seq<Event>, k: nat, p: PaymentId, m: MerchantId)
    requires |states| == |events| + 1 && k < |events|
  {
    && events[k].act.Admit?
    && CreateIntent(states[k].db, events[k].act.q).1.Accept?
    && CreateIntent(states[k].db, events[k].act.q).1.intent.owner == p
    && p < |states[k].db.payments| && states[k].db.payments[p].merchant == Some(m)
  }

  ghost predicate AcceptedWithin(states: seq<World>, events: seq<Event>, n: nat, p: PaymentId, m: MerchantId, lo: Time,
                                 hi: Time)
    requires |states| == |events| + 1 && n < |states|
  {
    exists k: nat | k < n :: AcceptedAt(states, events, k, p, m) && lo < events[k].act.q.now <= hi
  }

  /** The payments of merchant `m` accepted before state `n` with a stamp in (lo, hi],
      attributed by the merchant each had when it was accepted. */
  ghost function AcceptedFor(states: seq<World>, events: seq<Event>, n: nat, m: MerchantId, lo: Time,
                             hi: Time): set<PaymentId>
    requires |states| == |events| + 1 && n < |states|
  {
    set p | 0 <= p < |states[n].db.payments| && AcceptedWithin(states, events, n, p, m, lo, hi)
  }

  lemma AttributionStarts(c: Config, states: seq<World>, events: seq<Event>, k: nat, p: PaymentId, m: MerchantId)
    requires GapRun(c, states, events) && k < |events| && AcceptedAt(states, events, k, p, m)
    ensures p < |states[k + 1].db.payments|
    ensures states[k + 1].db.payments[p].requestedAt == Some(events[k].act.q.now) &&
      states[k + 1].db.payments[p].merchant == Some(m)
  {
    hide Enabled, Good, Sound, Kept, Write;
    var q := events[k].act.q;
    WriteAdmits(c, states[events[k].read].db, states[k], q);
    RunsStayGood(c, states, events, k);
    AcceptedIntentIsDurable(states[k].db, q, c.cap);
  }

  /** After acceptance the stamp stays, and so does the merchant until erasure. */
  lemma {:induction false} AttributionStays(c: Config, states: seq<World>, events: seq<Event>, k: nat, n: nat,
                                            p: PaymentId, m: MerchantId)
    requires GapRun(c, states, events) && k < n < |states| && AcceptedAt(states, events, k, p, m)
    ensures p < |states[n].db.payments| && states[n].db.payments[p].requestedAt == Some(events[k].act.q.now)
    ensures states[n].db.payments[p].merchant == Some(m) || states[n].db.payments[p].redactedAt.Some?
    decreases n
  {
    hide GapRun, Run, AcceptedAt, RowsKept;
    RunLength(c, states, events);
    if n == k + 1 {
      AttributionStarts(c, states, events, k, p, m);
    } else {
      AttributionStays(c, states, events, k, n - 1, p, m);
      OneDatedStep(c, states, events, n - 1, p);
    }
  }

  /** Whenever an intent is accepted, its payment is verified, without transactions, of an
      active merchant, and authorized for longer than the safety margin from the request on;
      and it stays authorized until then for as long as it is on record. */
  lemma AcceptedInTime(c: Config, states: seq<World>, events: seq<Event>, k: nat, n: nat, p: PaymentId, m: MerchantId)
    requires GapRun(c, states, events) && k < n < |states| && AcceptedAt(states, events, k, p, m)
    ensures var P, q := states[k].db.payments[p], events[k].act.q;
      P.state == Verified && P.rows == [] && m in states[k].db.activeMerchants && Outlives(P, q.at, q.margin)
    ensures p < |states[n].db.payments| &&
      (states[n].db.payments[p].redactedAt.None? ==>
        states[n].db.payments[p].validBefore == states[k].db.payments[p].validBefore)
  {
    hide GapRun, Run, Sound, Kept, Outlives, CreateIntent, NoncesDistinct, IdentitiesDistinct, HandsSound, ChainSound;
    RunLength(c, states, events);
    RunsStayGood(c, states, events, k);
    AcceptedIntentIsDurable(states[k].db, events[k].act.q, c.cap);
    AcceptedOutlives(states[k].db, events[k].act.q);
    AuthorizationStays(c, states, events, k, n, p);
  }

  lemma AcceptedOutlives(db: Db, q: IntentRequest)
    requires CreateIntent(db, q).1.Accept?
    ensures CreateIntent(db, q).1.intent.owner < |db.payments|
    ensures Outlives(db.payments[CreateIntent(db, q).1.intent.owner], q.at, q.margin)
  {
  }

  lemma {:induction false} AuthorizationStays(c: Config, states: seq<World>, events: seq<Event>, k: nat, n: nat,
                                              p: PaymentId)
    requires GapRun(c, states, events) && k <= n < |states| && p < |states[k].db.payments|
    ensures p < |states[n].db.payments|
    ensures states[n].db.payments[p].redactedAt.None? ==>
      states[n].db.payments[p].validBefore == states[k].db.payments[p].validBefore
    decreases n
  {
    hide GapRun, Run, RowsKept;
    RunLength(c, states, events);
    if k < n {
      AuthorizationStays(c, states, events, k, n - 1, p);
      OneDatedStep(c, states, events, n - 1, p);
    }
  }

  // ------------------------------------------------- what an admission counts

  ghost predicate AcceptedAfter(states: seq<World>, events: seq<Event>, n: nat, p: PaymentId, m: MerchantId,
                                since: Time)
    requires |states| == |events| + 1 && n < |states|
  {
    exists k: nat | k < n :: AcceptedAt(states, events, k, p, m) && since < events[k].act.q.now
  }

  /** The payments accepted for merchant `m` before state `n`, with a stamp after `since`. */
  ghost function AcceptedSince(states: seq<World>, events: seq<Event>, n: nat, m: MerchantId,
                               since: Time): set<PaymentId>
    requires |states| == |events| + 1 && n < |states|
  {
    set p | 0 <= p < |states[n].db.payments| && AcceptedAfter(states, events, n, p, m, since)
  }

  /** Those of them that are erased by then. */
  ghost function Hidden(states: seq<World>, events: seq<Event>, n: nat, m: MerchantId, since: Time): set<PaymentId>
    requires |states| == |events| + 1 && n < |states|
  {
    set p | p in AcceptedSince(states, events, n, m, since) && states[n].db.payments[p].redactedAt.Some?
  }

  /** A stamped payment that still names its merchant was accepted for it, with that stamp. */
  lemma {:induction false} StampWasAccepted(c: Config, states: seq<World>, events: seq<Event>, n: nat, p: PaymentId,
                                            m: MerchantId)
    requires GapRun(c, states, events) && n < |states| && p < |states[n].db.payments|
    requires states[n].db.payments[p].requestedAt.Some? && states[n].db.payments[p].merchant == Some(m)
    ensures exists k: nat | k < n ::
      AcceptedAt(states, events, k, p, m) && Some(events[k].act.q.now) == states[n].db.payments[p].requestedAt
    decreases n
  {
    hide GapRun, Run, AcceptedAt, Good, AllSound, Extends, Sound, RowsKept;
    RunLength(c, states, events);
    EveryPayment(c, states, events, n, n, p);
    StampStarts(c, states, events, n, p);
    if StampedBy(states[n - 1].db, p) {
      OneDatedStep(c, states, events, n - 1, p);
      MerchantIsLive(states[n].db.payments[p], Owner(p, c.cap));
      StampWasAccepted(c, states, events, n - 1, p, m);
    } else {
      StampIsNew(c, states, events, n - 1, p, m);
    }
  }

  ghost predicate StampedBy(db: Db, p: PaymentId) { p < |db.payments| && db.payments[p].requestedAt.Some? }

  lemma StampStarts(c: Config, states: seq<World>, events: seq<Event>, n: nat, p: PaymentId)
    requires GapRun(c, states, events) && n < |states| && p < |states[n].db.payments|
    ensures n > 0
  {
    hide Apply, Enabled;
  }

  lemma MerchantIsLive(P: Payment, p: Owner)
    requires Sound(P, p) && P.merchant.Some?
    ensures P.redactedAt.None?
  {
  }

  /** Only an accepted intent stamps a payment. */
  lemma StampIsNew(c: Config, states: seq<World>, events: seq<Event>, k: nat, p: PaymentId, m: MerchantId)
    requires GapRun(c, states, events) && k < |events| && |states| == |events| + 1
    requires !StampedBy(states[k].db, p) && StampedBy(states[k + 1].db, p)
    requires states[k + 1].db.payments[p].merchant == Some(m)
    ensures AcceptedAt(states, events, k, p, m)
    ensures Some(events[k].act.q.now) == states[k + 1].db.payments[p].requestedAt
  {
    hide Apply, Good, Sound, Kept;
    RunsStayGood(c, states, events, k);
    var a, w := events[k].act, states[k];
    StepDated(c, states[events[k].read].db, w, a);
    assert p < |w.db.payments| && Dated(w.db.payments[p], states[k + 1].db.payments[p], a);
    WriteAdmits(c, states[events[k].read].db, w, a.q);
    if CreateIntent(w.db, a.q).1.Accept? { AcceptedIntentIsDurable(w.db, a.q, c.cap); }
  }

  /** What an admission of merchant `m` counts: exactly the payments accepted for `m` since
      the window's start that are not erased. So its count is complete if and only if none of
      them is, and it never counts anything else. */
  lemma CountedExactly(c: Config, states: seq<World>, events: seq<Event>, n: nat, m: MerchantId, since: Time)
    requires GapRun(c, states, events) && n < |states|
    ensures var counted, accepted := RequestedFor(states[n].db.payments, m, since),
                                     AcceptedSince(states, events, n, m, since);
      && counted == accepted - Hidden(states, events, n, m, since)
      && |accepted| == |counted| + |Hidden(states, events, n, m, since)|
      && (accepted <= counted <==> Hidden(states, events, n, m, since) == {})
  {
    hide GapRun, Run, AcceptedAt;
    RunLength(c, states, events);
    var counted, accepted := RequestedFor(states[n].db.payments, m, since), AcceptedSince(states, events, n, m, since);
    var hidden := Hidden(states, events, n, m, since);
    forall p | p in counted ensures p in accepted && p !in hidden {
      CountedWasAccepted(c, states, events, n, m, since, p);
    }
    forall p | p in accepted - hidden ensures p in counted { AcceptedIsCounted(c, states, events, n, m, since, p); }
    assert accepted == counted + hidden && counted !! hidden;
    if p :| p in hidden { assert p in accepted && p !in counted; }
  }

  lemma CountedWasAccepted(c: Config, states: seq<World>, events: seq<Event>, n: nat, m: MerchantId, since: Time,
                           p: PaymentId)
    requires GapRun(c, states, events) && n < |states| && |states| == |events| + 1
    requires p in RequestedFor(states[n].db.payments, m, since)
    ensures p in AcceptedSince(states, events, n, m, since) && states[n].db.payments[p].redactedAt.None?
  {
    hide GapRun, Run, AcceptedAt, Sound, Kept;
    StampWasAccepted(c, states, events, n, p, m);
    EveryPayment(c, states, events, n, n, p);
    MerchantIsLive(states[n].db.payments[p], Owner(p, c.cap));
  }

  lemma AcceptedIsCounted(c: Config, states: seq<World>, events: seq<Event>, n: nat, m: MerchantId, since: Time,
                          p: PaymentId)
    requires GapRun(c, states, events) && n < |states| && |states| == |events| + 1
    requires p in AcceptedSince(states, events, n, m, since) && states[n].db.payments[p].redactedAt.None?
    ensures p in RequestedFor(states[n].db.payments, m, since)
  {
    hide GapRun, Run, CreateIntent;
    var k: nat :| k < n && AcceptedAt(states, events, k, p, m) && since < events[k].act.q.now;
    AttributionStays(c, states, events, k, n, p, m);
  }

  /** With the hidden payments counted as well, admission `k` left room for merchant `m`. */
  ghost predicate LeavesRoom(states: seq<World>, events: seq<Event>, k: nat, m: MerchantId)
    requires |states| == |events| + 1 && k < |events| && events[k].act.Admit?
  {
    var q := events[k].act.q;
    |RequestedFor(states[k].db.payments, m, q.now - q.window)| + |Hidden(states, events, k, m, q.now - q.window)|
      < q.quota
  }

  /** An accepted intent leaves its merchant within the quota if and only if the payments its
      count could not see fit as well; and they do whenever none is erased. */
  lemma AdmissionExactly(c: Config, states: seq<World>, events: seq<Event>, k: nat, p: PaymentId, m: MerchantId)
    requires GapRun(c, states, events) && k < |events| && AcceptedAt(states, events, k, p, m)
    ensures var q := events[k].act.q;
      && (|AcceptedSince(states, events, k + 1, m, q.now - q.window)| <= q.quota <==> LeavesRoom(states, events, k, m))
      && (Hidden(states, events, k, m, q.now - q.window) == {} ==> LeavesRoom(states, events, k, m))
  {
    hide GapRun, Run, CreateIntent, Hidden, AcceptedSince, RequestedFor;
    RunLength(c, states, events);
    var q := events[k].act.q;
    CountedExactly(c, states, events, k, m, q.now - q.window);
    HadRoom(states, events, k, p, m);
    OneMoreAccepted(c, states, events, k, p, m);
  }

  lemma HadRoom(states: seq<World>, events: seq<Event>, k: nat, p: PaymentId, m: MerchantId)
    requires |states| == |events| + 1 && k < |events| && AcceptedAt(states, events, k, p, m)
    ensures var q := events[k].act.q;
      q.window > 0 && |RequestedFor(states[k].db.payments, m, q.now - q.window)| < q.quota
  {
    AcceptHadRoom(states[k].db, events[k].act.q);
  }

  lemma OneMoreAccepted(c: Config, states: seq<World>, events: seq<Event>, k: nat, p: PaymentId, m: MerchantId)
    requires GapRun(c, states, events) && k < |events| && |states| == |events| + 1
    requires AcceptedAt(states, events, k, p, m)
    ensures var since := events[k].act.q.now - events[k].act.q.window;
      && p !in AcceptedSince(states, events, k, m, since)
      && AcceptedSince(states, events, k + 1, m, since) == AcceptedSince(states, events, k, m, since) + {p}
  {
    hide GapRun, Run, Sound, Kept, CreateIntent, RequestedFor;
    var since := events[k].act.q.now - events[k].act.q.window;
    HadRoom(states, events, k, p, m);
    AttributionStarts(c, states, events, k, p, m);
    EveryPayment(c, states, events, k, k, p);
    UnstampedYet(c, states, events, k, p, m);
    assert AcceptedAfter(states, events, k + 1, p, m, since);
    forall x | x in AcceptedSince(states, events, k + 1, m, since)
      ensures x in AcceptedSince(states, events, k, m, since) + {p}
    {
      var j: nat :| j < k + 1 && AcceptedAt(states, events, j, x, m) && since < events[j].act.q.now;
      if j < k { AttributionStays(c, states, events, j, k, x, m); }
    }
    forall x | x in AcceptedSince(states, events, k, m, since)
      ensures x in AcceptedSince(states, events, k + 1, m, since) && x != p
    {
      var j: nat :| j < k && AcceptedAt(states, events, j, x, m) && since < events[j].act.q.now;
      AttributionStays(c, states, events, j, k, x, m);
      EveryPayment(c, states, events, k, k + 1, x);
    }
  }

  lemma UnstampedYet(c: Config, states: seq<World>, events: seq<Event>, k: nat, p: PaymentId, m: MerchantId)
    requires GapRun(c, states, events) && k < |events| && |states| == |events| + 1
    requires AcceptedAt(states, events, k, p, m)
    ensures p < |states[k].db.payments| && states[k].db.payments[p].requestedAt.None?
  {
    hide GapRun, Run, Kept, RowsSound, DropsJustified, Audited;
    EveryPayment(c, states, events, k, k, p);
    AcceptedShape(states[k].db, events[k].act.q);
  }

  // --------------------------------------------------------- the quota itself

  lemma AcceptedGrow(c: Config, states: seq<World>, events: seq<Event>, n: nat, m: MerchantId, lo: Time, hi: Time)
    requires GapRun(c, states, events) && n < |events|
    ensures forall p | p in AcceptedFor(states, events, n + 1, m, lo, hi) ::
      p in AcceptedFor(states, events, n, m, lo, hi) ||
      (AcceptedAt(states, events, n, p, m) && lo < events[n].act.q.now <= hi)
  {
    hide GapRun, Run, CreateIntent;
    RunLength(c, states, events);
    forall p | p in AcceptedFor(states, events, n + 1, m, lo, hi)
      ensures p in AcceptedFor(states, events, n, m, lo, hi) ||
      (AcceptedAt(states, events, n, p, m) && lo < events[n].act.q.now <= hi)
    {
      var k: nat :| k < n + 1 && AcceptedAt(states, events, k, p, m) && lo < events[k].act.q.now <= hi;
      if k < n { AttributionStays(c, states, events, k, n, p, m); }
    }
  }

  /** One more admission cannot overfill a merchant's window. */
  lemma MerchantStep(c: Config, states: seq<World>, events: seq<Event>, n: nat, m: MerchantId, lo: Time, hi: Time)
    requires GapRun(c, states, events) && n < |events| && |states| == |events| + 1
    requires forall p | AcceptedAt(states, events, n, p, m) ::
      LeavesRoom(states, events, n, m) && hi - lo <= events[n].act.q.window
    ensures var before := AcceptedFor(states, events, n, m, lo, hi);
      var after := AcceptedFor(states, events, n + 1, m, lo, hi);
      |after| <= |before| || (events[n].act.Admit? && |after| <= events[n].act.q.quota)
  {
    hide GapRun, Run, AcceptedWithin, CreateIntent, RequestedFor, Hidden, AcceptedAfter;
    AcceptedGrow(c, states, events, n, m, lo, hi);
    var before, after := AcceptedFor(states, events, n, m, lo, hi), AcceptedFor(states, events, n + 1, m, lo, hi);
    if after <= before {
      SubsetSize(after, before);
    } else {
      var p :| p in after && p !in before;
      assert AcceptedAt(states, events, n, p, m);
      var since := events[n].act.q.now - events[n].act.q.window;
      CountedExactly(c, states, events, n, m, since);
      WithinIsSince(states, events, n, m, lo, hi, since);
      var accepted := AcceptedSince(states, events, n, m, since);
      assert after <= accepted + {p};
      SubsetSize(after, accepted + {p});
    }
  }

  lemma WithinIsSince(states: seq<World>, events: seq<Event>, n: nat, m: MerchantId, lo: Time, hi: Time, since: Time)
    requires |states| == |events| + 1 && n < |states| && since <= lo
    ensures AcceptedFor(states, events, n, m, lo, hi) <= AcceptedSince(states, events, n, m, since)
  {
    hide AcceptedAt;
  }

  /** No merchant has more intents accepted in a window than its quota, as long as at each of
      its own admissions the payments erasure hid fit as well. */
  lemma {:induction false} MerchantQuotaHolds(c: Config, states: seq<World>, events: seq<Event>, n: nat, m: MerchantId,
                                              quota: nat, globalQuota: nat, window: nat, lo: Time)
    requires GapRun(c, states, events) && n < |states| && Limited(events, quota, globalQuota, window)
    requires forall k, p | 0 <= k < n && AcceptedAt(states, events, k, p, m) :: LeavesRoom(states, events, k, m)
    ensures |AcceptedFor(states, events, n, m, lo, lo + window)| <= quota
    decreases n
  {
    hide GapRun, Run, LeavesRoom, CreateIntent;
    RunLength(c, states, events);
    if n == 0 {
      assert AcceptedFor(states, events, 0, m, lo, lo + window) == {};
    } else {
      MerchantQuotaHolds(c, states, events, n - 1, m, quota, globalQuota, window, lo);
      MerchantStep(c, states, events, n - 1, m, lo, lo + window);
    }
  }

  // -------------------------------------------------------------- one clock

  /** Every step is dated by one clock that never runs backwards, and erasure keeps
      payments for at least `keep`. */
  ghost predicate OneClock(events: seq<Event>, keep: nat)
  {
    && (forall j, k | 0 <= j < k < |events| && Now(events[j].act).Some? && Now(events[k].act).Some? ::
          Now(events[j].act).value <= Now(events[k].act).value)
    && (forall k | 0 <= k < |events| && events[k].act.Erase? :: events[k].act.cutoff <= events[k].act.now - keep)
  }

  /** What one clock implies for the dates of a payment by time `at`. */
  ghost predicate InOrder(P: Payment, at: Time, keep: nat) {
    P.requestedAt.Some? ==>
      && P.requestedAt.value <= P.updatedAt && P.requestedAt.value <= at
      && (P.confirmedAt.Some? ==> P.requestedAt.value <= P.confirmedAt.value)
      && (P.redactedAt.Some? ==> P.requestedAt.value < P.redactedAt.value - keep && P.redactedAt.value <= at)
  }

  lemma DatedInOrder(P: Payment, Q: Payment, a: Act, at: Time, keep: nat)
    requires InOrder(P, at, keep) && Dated(P, Q, a) && (Now(a).Some? ==> Now(a).value == at)
    requires a.Erase? ==> a.cutoff <= a.now - keep
    ensures InOrder(Q, at, keep)
  {
  }

  lemma {:induction false} DatesInOrder(c: Config, states: seq<World>, events: seq<Event>, n: nat, at: Time, keep: nat)
    requires GapRun(c, states, events) && n < |states| && OneClock(events, keep)
    requires forall j | 0 <= j < n && Now(events[j].act).Some? :: Now(events[j].act).value <= at
    ensures forall p | 0 <= p < |states[n].db.payments| :: InOrder(states[n].db.payments[p], at, keep)
    decreases n
  {
    hide Apply, Enabled, AllDated, InOrder, Good, AllSound;
    if n > 0 {
      var a := events[n - 1].act;
      var date := if Now(a).Some? then Now(a).value else at;
      DatesInOrder(c, states, events, n - 1, date, keep);
      RunsStayGood(c, states, events, n - 1);
      StepDated(c, states[events[n - 1].read].db, states[n - 1], a);
      AllInOrder(states[n - 1].db, states[n].db, a, date, at, keep);
    }
  }

  lemma AllInOrder(db: Db, after: Db, a: Act, date: Time, at: Time, keep: nat)
    requires forall p | 0 <= p < |db.payments| :: InOrder(db.payments[p], date, keep)
    requires AllDated(db, after, a) && date <= at && (Now(a).Some? ==> Now(a).value == date)
    requires a.Erase? ==> a.cutoff <= a.now - keep
    ensures forall p | 0 <= p < |after.payments| :: InOrder(after.payments[p], at, keep)
  {
    hide Dated, InOrder;
    forall p | 0 <= p < |after.payments| ensures InOrder(after.payments[p], at, keep) {
      if p < |db.payments| { DatedInOrder(db.payments[p], after.payments[p], a, date, keep); }
      LaterInOrder(after.payments[p], date, at, keep);
    }
  }

  lemma LaterInOrder(P: Payment, date: Time, at: Time, keep: nat)
    requires date <= at && (P.requestedAt.None? || InOrder(P, date, keep))
    ensures InOrder(P, at, keep)
  {
  }

  /** Under one clock, and with retention no shorter than the quota window, erasure
      never removes a payment from a count an admission still takes. */
  lemma ErasureSparesLiveCounts(c: Config, states: seq<World>, events: seq<Event>, n: nat, keep: nat)
    requires GapRun(c, states, events) && n < |events| && OneClock(events, keep)
    requires events[n].act.Admit? && events[n].act.q.window <= keep
    ensures CountsComplete(states[n].db, events[n].act.q)
  {
    hide Apply, Enabled;
    DatesInOrder(c, states, events, n, events[n].act.q.now, keep);
  }

  lemma NothingHidden(c: Config, states: seq<World>, events: seq<Event>, k: nat, m: MerchantId)
    requires GapRun(c, states, events) && k < |events| && |states| == |events| + 1 && events[k].act.Admit?
    requires CountsComplete(states[k].db, events[k].act.q)
    ensures Hidden(states, events, k, m, events[k].act.q.now - events[k].act.q.window) == {}
  {
    hide GapRun, Run, CreateIntent;
    var since := events[k].act.q.now - events[k].act.q.window;
    forall p | p in AcceptedSince(states, events, k, m, since) ensures states[k].db.payments[p].redactedAt.None? {
      var j: nat :| j < k && AcceptedAt(states, events, j, p, m) && since < events[j].act.q.now;
      AttributionStays(c, states, events, j, k, p, m);
    }
  }

  /** The merchant quota, with retention no shorter than the window and one clock for
      everything: no merchant ever has more intents accepted in a window than its quota. */
  lemma MerchantQuotaUnderOneClock(c: Config, states: seq<World>, events: seq<Event>, n: nat, m: MerchantId,
                                   quota: nat, globalQuota: nat, window: nat, keep: nat, lo: Time)
    requires GapRun(c, states, events) && n < |states| && Limited(events, quota, globalQuota, window) &&
      OneClock(events, keep)
    requires forall k | 0 <= k < |events| && events[k].act.Admit? :: events[k].act.q.window <= keep
    ensures |AcceptedFor(states, events, n, m, lo, lo + window)| <= quota
  {
    hide GapRun, Run, OneClock, Limited, AcceptedFor, LeavesRoom, CreateIntent;
    RunLength(c, states, events);
    forall k, p | 0 <= k < n && AcceptedAt(states, events, k, p, m) ensures LeavesRoom(states, events, k, m) {
      ErasureSparesLiveCounts(c, states, events, k, keep);
      NothingHidden(c, states, events, k, m);
      AdmissionExactly(c, states, events, k, p, m);
    }
    MerchantQuotaHolds(c, states, events, n, m, quota, globalQuota, window, lo);
  }
}

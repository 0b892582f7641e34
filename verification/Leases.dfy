/** Leases keep two workers off one payment, in every interleaving with everything else
    the protocol does (internal/store/lease.go, settlementwork.go, worker.go). */
module Leases {
  import opened PaymentStates
  import opened Ledger
  import opened Steps
  import opened Protocol
  import opened Runs
  import opened Timeline

  /** Worker `w` is granted a lease on `p` by act `a`: what it will believe it holds. */
  predicate Granted(db: Db, a: Act, w: nat, p: PaymentId)
  {
    || (a.Claim? && a.worker == w && a.p == p && ClaimPayment(db, p, w, a.duration, a.at, a.now).1 == Ok)
    || (a.Renew? && a.worker == w && a.p == p && RenewLease(db, p, w, a.duration, a.at).1 == Ok)
  }

  predicate Released(db: Db, a: Act, w: nat, p: PaymentId) {
    a.Release? && a.worker == w && a.p == p && ReleaseLease(db, p, w, a.now).1 == Ok
  }

  /** The clock of leases: the caller's time in every claim and renewal. */
  predicate Leasing(a: Act) { a.Claim? || a.Renew? }

  /** In state `n`, at time `now`, worker `w` holds an unexpired lease on `p`: its latest
      grant was event `k`, it has not released it, and it has not run out. */
  ghost predicate HoldsBy(states: seq<World>, events: seq<Event>, n: nat, w: nat, p: PaymentId, now: Time, k: nat)
    requires |states| == |events| + 1 && n < |states|
  {
    && k < n && Leasing(events[k].act) && Granted(states[k].db, events[k].act, w, p)
    && events[k].act.at + events[k].act.duration > now
    && forall j | k < j < n ::
      !Granted(states[j].db, events[j].act, w, p) && !Released(states[j].db, events[j].act, w, p)
  }

  ghost predicate Holds(states: seq<World>, events: seq<Event>, n: nat, w: nat, p: PaymentId, now: Time)
    requires |states| == |events| + 1 && n < |states|
  {
    exists k: nat :: HoldsBy(states, events, n, w, p, now, k)
  }

  /** The lease a grant writes, and that nothing but its holder or its expiry undoes. */
  ghost predicate LeaseRecorded(db: Db, w: nat, p: PaymentId, until: Time) {
    p < |db.payments| && (db.payments[p].claim == Some(Ledger.Claim(w, until)) || db.payments[p].redactedAt.Some?)
  }

  lemma GrantRecords(c: Config, seen: Db, w: World, a: Act, who: nat, p: PaymentId)
    requires Granted(w.db, a, who, p)
    ensures LeaseRecorded(Apply(c, seen, w, a).db, who, p, a.at + a.duration)
  {
    hide Store, Signature;
  }

  /** A recorded lease that has not run out survives any step but its holder's own. */
  lemma LeaseSurvives(c: Config, seen: Db, w: World, a: Act, who: nat, p: PaymentId, until: Time)
    requires AllSound(c, w.db) && Enabled(c, seen, w, a) && LeaseRecorded(w.db, who, p, until)
    requires !Granted(w.db, a, who, p) && !Released(w.db, a, who, p) && (Leasing(a) ==> a.at < until)
    requires Extends(w.db, Apply(c, seen, w, a).db)
    ensures LeaseRecorded(Apply(c, seen, w, a).db, who, p, until)
  {
    StepDated(c, seen, w, a);
    hide AllSound, Store, Signature, RowsKept;
    var after := Apply(c, seen, w, a).db;
    assert Kept(w.db.payments[p], after.payments[p]);
    assert Dated(w.db.payments[p], after.payments[p], a);
    if a.Claim? || a.Renew? || a.Release? {
      LeaseActs(c, seen, w, a, p);
    }
  }

  /** A lease act touches no payment but its own. */
  lemma LeaseActs(c: Config, seen: Db, w: World, a: Act, p: PaymentId)
    requires (a.Claim? || a.Renew? || a.Release?) && p < |w.db.payments|
    ensures p < |Apply(c, seen, w, a).db.payments|
    ensures a.p != p || !(Granted(w.db, a, a.worker, p) || Released(w.db, a, a.worker, p)) ==>
      Apply(c, seen, w, a).db.payments[p] == w.db.payments[p]
  {
    hide Store, Signature;
  }

  /** A worker that holds a lease is the one the store names, unless the payment was erased. */
  lemma {:induction false} HolderIsRecorded(c: Config, states: seq<World>, events: seq<Event>, n: nat, w: nat,
                                            p: PaymentId, now: Time, k: nat)
    requires GapRun(c, states, events) && n < |states| && HoldsBy(states, events, n, w, p, now, k)
    requires forall j | 0 <= j < n && Leasing(events[j].act) :: events[j].act.at <= now
    ensures LeaseRecorded(states[n].db, w, p, events[k].act.at + events[k].act.duration)
    decreases n
  {
    hide GapRun, Apply, Granted, Released, LeaseRecorded, Good, AllSound, Extends;
    RunLength(c, states, events);
    RunStep(c, states, events, n - 1);
    var e := events[n - 1];
    if n == k + 1 {
      GrantRecords(c, states[e.read].db, states[k], e.act, w, p);
    } else {
      HolderIsRecorded(c, states, events, n - 1, w, p, now, k);
      LeaseSurvives(c, states[e.read].db, states[n - 1], e.act, w, p, events[k].act.at + events[k].act.duration);
    }
  }

  /** A grant to one worker leaves no other with an unexpired lease. */
  lemma GrantExcludes(db: Db, a: Act, v: nat, w: nat, p: PaymentId, until: Time)
    requires Granted(db, a, v, p) && LeaseRecorded(db, w, p, until) && a.at < until && db.payments[p].redactedAt.None?
    ensures v == w
  {
  }

  lemma GrantNeedsLive(c: Config, db: Db, a: Act, v: nat, p: PaymentId)
    requires AllSound(c, db) && Granted(db, a, v, p)
    ensures p < |db.payments| && db.payments[p].redactedAt.None?
  {
    assert p < |db.payments| ==> Sound(db.payments[p], Owner(p, c.cap));
  }

  /** No two workers ever hold an unexpired lease on one payment. */
  lemma {:induction false} LeaseExclusion(c: Config, states: seq<World>, events: seq<Event>, n: nat, v: nat, w: nat,
                                          p: PaymentId, now: Time)
    requires GapRun(c, states, events) && n < |states|
    requires forall j | 0 <= j < n && Leasing(events[j].act) :: events[j].act.at <= now
    requires Holds(states, events, n, v, p, now) && Holds(states, events, n, w, p, now)
    ensures v == w
    decreases n
  {
    hide GapRun, Granted, HoldsBy;
    RunLength(c, states, events);
    var i: nat :| HoldsBy(states, events, n, v, p, now, i);
    var k: nat :| HoldsBy(states, events, n, w, p, now, k);
    HeldEarlier(states, events, n, v, p, now, i);
    HeldEarlier(states, events, n, w, p, now, k);
    if i == k {
      SameGrant(states[k].db, events[k].act, v, w, p);
    } else if i == n - 1 {
      LastGrantExcludes(c, states, events, n - 1, v, w, p, now, k);
    } else if k == n - 1 {
      LastGrantExcludes(c, states, events, n - 1, w, v, p, now, i);
    } else {
      LeaseExclusion(c, states, events, n - 1, v, w, p, now);
    }
  }

  lemma HeldEarlier(states: seq<World>, events: seq<Event>, n: nat, w: nat, p: PaymentId, now: Time, k: nat)
    requires |states| == |events| + 1 && n < |states| && HoldsBy(states, events, n, w, p, now, k)
    ensures k < n && Leasing(events[k].act) && Granted(states[k].db, events[k].act, w, p)
    ensures k < n - 1 ==> HoldsBy(states, events, n - 1, w, p, now, k)
  {
    hide Granted, Released;
  }

  lemma SameGrant(db: Db, a: Act, v: nat, w: nat, p: PaymentId)
    requires Granted(db, a, v, p) && Granted(db, a, w, p)
    ensures v == w
  {
  }

  lemma LastGrantExcludes(c: Config, states: seq<World>, events: seq<Event>, n: nat, v: nat, w: nat, p: PaymentId,
                          now: Time, k: nat)
    requires GapRun(c, states, events) && n < |events| && k < n
    requires Leasing(events[n].act) && Granted(states[n].db, events[n].act, v, p)
    requires HoldsBy(states, events, n + 1, w, p, now, k)
    requires forall j | 0 <= j < n + 1 && Leasing(events[j].act) :: events[j].act.at <= now
    ensures v == w
  {
    hide GapRun, Granted, Released, LeaseRecorded, Good, AllSound, Extends;
    RunStep(c, states, events, n);
    assert HoldsBy(states, events, n, w, p, now, k);
    HolderIsRecorded(c, states, events, n, w, p, now, k);
    GrantNeedsLive(c, states[n].db, events[n].act, v, p);
    GrantExcludes(states[n].db, events[n].act, v, w, p, events[k].act.at + events[k].act.duration);
  }

  // -------------------------------------------------------- lapsed and reclaimed

  /** The store does not name `w` as the holder of `p`. */
  predicate NotHolder(db: Db, w: nat, p: PaymentId) {
    p >= |db.payments| || db.payments[p].claim.None? || db.payments[p].claim.value.holder != w
  }

  lemma NotHolderStays(c: Config, seen: Db, w: World, a: Act, who: nat, p: PaymentId)
    requires AllSound(c, w.db) && Enabled(c, seen, w, a)
    requires NotHolder(w.db, who, p) && !(a.Claim? && Granted(w.db, a, who, p))
    ensures NotHolder(Apply(c, seen, w, a).db, who, p)
  {
    StepDated(c, seen, w, a);
    hide AllSound, Store, Signature;
    var after := Apply(c, seen, w, a).db;
    if p < |w.db.payments| {
      assert Dated(w.db.payments[p], after.payments[p], a);
      if a.Claim? || a.Renew? || a.Release? { OwnLeaseActs(c, seen, w, a, who, p); }
    }
  }

  lemma OwnLeaseActs(c: Config, seen: Db, w: World, a: Act, who: nat, p: PaymentId)
    requires (a.Claim? || a.Renew? || a.Release?) && p < |w.db.payments|
    requires NotHolder(w.db, who, p) && !(a.Claim? && Granted(w.db, a, who, p))
    ensures NotHolder(Apply(c, seen, w, a).db, who, p)
  {
    hide Store, Signature;
  }

  /** A worker whose lease lapsed and was taken over can neither renew nor release it,
      until it claims the payment afresh. */
  lemma {:induction false} TakenOverForGood(c: Config, states: seq<World>, events: seq<Event>, j: nat, n: nat, v: nat,
                                            w: nat, p: PaymentId)
    requires GapRun(c, states, events) && j < n < |states| && v != w
    requires events[j].act.Claim? && Granted(states[j].db, events[j].act, v, p)
    requires forall k | j < k < n :: !(events[k].act.Claim? && Granted(states[k].db, events[k].act, w, p))
    ensures NotHolder(states[n].db, w, p)
    ensures forall duration: int, at: Time :: RenewLease(states[n].db, p, w, duration, at) == (states[n].db, Race)
    ensures forall at: Time :: ReleaseLease(states[n].db, p, w, at) == (states[n].db, Race)
    decreases n
  {
    hide GapRun, Apply, Granted, Good, AllSound, Extends;
    RunLength(c, states, events);
    RunStep(c, states, events, n - 1);
    var e := events[n - 1];
    if n == j + 1 {
      TakeOver(c, states[e.read].db, states[j], e.act, v, w, p);
    } else {
      TakenOverForGood(c, states, events, j, n - 1, v, w, p);
      NotHolderStays(c, states[e.read].db, states[n - 1], e.act, w, p);
    }
  }

  lemma TakeOver(c: Config, seen: Db, w: World, a: Act, v: nat, who: nat, p: PaymentId)
    requires a.Claim? && Granted(w.db, a, v, p) && v != who
    ensures NotHolder(Apply(c, seen, w, a).db, who, p)
  {
    hide Store, Signature;
  }
}

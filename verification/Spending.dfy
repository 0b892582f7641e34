/** The bound on gas: what the quota and the fee ceiling add up to. */
module Spending {
  import opened Ledger
  import opened Steps
  import opened Protocol
  import opened Runs
  import opened Theorems
  import opened Quotas

  ghost function Pick(slots: set<Slot>): (s: Slot)
    requires slots != {}
    ensures s in slots
  {
    var s :| s in slots; s
  }

  /** What the chain charged for the transactions in `slots`. */
  ghost function Spend(chain: map<Slot, Mined>, slots: set<Slot>): nat
    requires slots <= chain.Keys
  {
    if slots == {} then 0 else
    var s := Pick(slots);
    chain[s].gas.used * chain[s].gas.price + Spend(chain, slots - {s})
  }

  /** The slots that hold a transaction of one of the payments. */
  ghost function SlotsOf(chain: map<Slot, Mined>, payments: set<PaymentId>): set<Slot> {
    set s | s in chain && chain[s].tx.payment in payments
  }

  lemma {:induction false} SpendWithin(chain: map<Slot, Mined>, slots: set<Slot>, cap: Terms)
    requires slots <= chain.Keys
    requires forall s | s in slots :: chain[s].gas.used <= cap.gasLimit && chain[s].gas.price <= cap.maxFee
    ensures Spend(chain, slots) <= |slots| * (cap.gasLimit * cap.maxFee)
  {
    if slots != {} {
      var s := Pick(slots);
      SpendWithin(chain, slots - {s}, cap);
      Product(chain[s].gas.used, chain[s].gas.price, cap.gasLimit, cap.maxFee);
      assert |slots| == |slots - {s}| + 1;
      Distribute(|slots - {s}|, cap.gasLimit * cap.maxFee);
    }
  }

  lemma Product(a: nat, b: nat, x: nat, y: nat)
    requires a <= x && b <= y
    ensures a * b <= x * y
  {
    assert a * b <= a * y;
    assert a * y <= x * y;
  }

  lemma Distribute(n: nat, x: nat)
    ensures (n + 1) * x == n * x + x
  {
  }

  /** Slots that map to payments one to one are no more than the payments. */
  lemma {:induction false} OneSlotEach(chain: map<Slot, Mined>, slots: set<Slot>, payments: set<PaymentId>)
    requires slots <= chain.Keys
    requires forall s | s in slots :: chain[s].tx.payment in payments
    requires forall s, z | s in slots && z in slots && chain[s].tx.payment == chain[z].tx.payment :: s == z
    ensures |slots| <= |payments|
  {
    if slots != {} {
      var s := Pick(slots);
      OneSlotEach(chain, slots - {s}, payments - {chain[s].tx.payment});
    }
  }

  lemma MinedWithin(c: Config, w: World)
    requires Good(c, w)
    ensures forall s | s in w.chain :: w.chain[s].gas.used <= c.cap.gasLimit && w.chain[s].gas.price <= c.cap.maxFee
  {
    forall s | s in w.chain ensures w.chain[s].gas.used <= c.cap.gasLimit && w.chain[s].gas.price <= c.cap.maxFee {
      MinedIsOnRecord(c, w, s);
    }
  }

  lemma SlotsBound(c: Config, states: seq<World>, events: seq<Event>, n: nat, payments: set<PaymentId>)
    requires GapRun(c, states, events) && n < |states|
    ensures var slots := SlotsOf(states[n].chain, payments);
      |slots| <= |payments| && Spend(states[n].chain, slots) <= |slots| * (c.cap.gasLimit * c.cap.maxFee)
  {
    hide GapRun, Good;
    var w := states[n];
    var slots := SlotsOf(w.chain, payments);
    RunsStayGood(c, states, events, n);
    MinedWithin(c, w);
    forall s, z | s in slots && z in slots && w.chain[s].tx.payment == w.chain[z].tx.payment ensures s == z {
      ChainSettlesOnce(c, states, events, n, s, z);
    }
    OneSlotEach(w.chain, slots, payments);
    SpendWithin(w.chain, slots, c.cap);
  }

  /** Whatever was replaced, re-signed or filled in, the gas charged for all intents
      admitted in one window is at most the global quota of full-price transactions. */
  lemma SpendBound(c: Config, states: seq<World>, events: seq<Event>, n: nat, quota: nat, globalQuota: nat, window: nat,
                   lo: Time)
    requires GapRun(c, states, events) && n < |states| && Limited(events, quota, globalQuota, window)
    ensures var w := states[n];
      var admitted := Stamped(w.db.payments, lo, lo + window);
      Spend(w.chain, SlotsOf(w.chain, admitted)) <= globalQuota * (c.cap.gasLimit * c.cap.maxFee)
  {
    hide Run, Stamped, SlotsOf, Spend;
    var w := states[n];
    var admitted := Stamped(w.db.payments, lo, lo + window);
    GlobalQuotaHolds(c, states, events, n, quota, globalQuota, window, lo);
    SlotsBound(c, states, events, n, admitted);
    Product(|SlotsOf(w.chain, admitted)|, c.cap.gasLimit * c.cap.maxFee, globalQuota, c.cap.gasLimit * c.cap.maxFee);
  }
}

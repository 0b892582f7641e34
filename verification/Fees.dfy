/** EIP-1559 fee estimation and replacement bumps (internal/settlement/fees.go). */
module Fees {
  import opened Ledger

  datatype FeePair = FeePair(maxFee: int, tip: int)

  function Min(a: int, b: int): int { if a <= b then a else b }
  function Max(a: int, b: int): int { if a >= b then a else b }

  /** EstimateFees: twice the base fee plus the tip, never above the ceiling. */
  function EstimateFees(baseFee: int, tipCap: int, ceiling: int): (r: Option<FeePair>)
    ensures r.Some? ==> 0 < r.value.maxFee <= ceiling && 0 <= r.value.tip <= r.value.maxFee
    ensures r.Some? <==> ceiling > 0 && baseFee >= 0 && tipCap >= 0 && baseFee + tipCap > 0
    ensures r.Some? ==> r.value.maxFee <= 2 * baseFee + tipCap && r.value.tip <= tipCap
    ensures r.Some? ==> r.value.maxFee in {ceiling, 2 * baseFee + tipCap} && r.value.tip in {tipCap, r.value.maxFee}
  {
    if ceiling <= 0 || baseFee < 0 || tipCap < 0 then None else
    var maxFee := Min(2 * baseFee + tipCap, ceiling);
    if maxFee == 0 then None else Some(FeePair(maxFee, Min(tipCap, maxFee)))
  }

  /** minBump: the smallest integer at least 110% of `n`. */
  function MinBump(n: int): (m: int)
    requires n >= 0
    ensures 10 * m >= 11 * n && (forall k :: 10 * k >= 11 * n ==> m <= k)
  {
    (11 * n + 9) / 10
  }

  /** The tip a bump asks for: 112.5% of the old one, but at least the mempool's
      floor and at least one wei more. */
  function BumpedTip(oldTip: int): int
    requires oldTip >= 0
  {
    Max(oldTip * 9 / 8, Max(MinBump(oldTip), oldTip + 1))
  }

  /** The mempool's price-bump rule and the operator's ceiling, for one fee pair. */
  predicate Outbids(fee: FeePair, prior: FeePair, ceiling: int) {
    fee.tip <= fee.maxFee <= ceiling && 10 * fee.maxFee >= 11 * prior.maxFee && 10 * fee.tip >= 11 * prior.tip
  }

  /** What a tip must reach to replace `prior`: the mempool's floor, one wei more, and the
      12.5% rise, rounded down. */
  predicate Climbs(tip: int, prior: int) { 10 * tip >= 11 * prior && tip > prior && 8 * tip + 7 >= 9 * prior }

  /** The cheapest replacement: the tip is the least that climbs, as far as the ceiling goes,
      and the cap is the least that outbids the old one and covers twice the base fee with
      that tip, as far as the ceiling goes. */
  ghost predicate Cheapest(fee: FeePair, prior: FeePair, baseFee: int, ceiling: int) {
    && fee.tip <= ceiling && (Climbs(fee.tip, prior.tip) || fee.tip == ceiling)
    && (forall k :: Climbs(k, prior.tip) ==> fee.tip <= k)
    && Covers(fee.maxFee, fee.tip, prior, baseFee, ceiling)
    && (forall k :: Covers(k, fee.tip, prior, baseFee, ceiling) ==> fee.maxFee <= k)
  }

  predicate Covers(maxFee: int, tip: int, prior: FeePair, baseFee: int, ceiling: int) {
    10 * maxFee >= 11 * prior.maxFee && (maxFee >= ceiling || maxFee >= 2 * baseFee + tip)
  }

  /** What BumpFees computes, in closed form. */
  function Bump(prior: FeePair, baseFee: int, ceiling: int): (r: Option<FeePair>)
    ensures r.Some? ==> 0 < r.value.maxFee <= ceiling && 0 <= r.value.tip <= r.value.maxFee
  {
    if prior.maxFee <= 0 || prior.tip < 0 || baseFee < 0 || ceiling < MinBump(prior.maxFee)
      || ceiling < MinBump(prior.tip) then None
    else Some(FeePair(Max(MinBump(prior.maxFee), Min(2 * baseFee + BumpedTip(prior.tip), ceiling)),
                      Min(BumpedTip(prior.tip), ceiling)))
  }

  /** BumpFees, with its loop over the two tip floors. */
  method BumpFees(prior: FeePair, baseFee: int, ceiling: int) returns (r: Option<FeePair>)
    ensures r == Bump(prior, baseFee, ceiling)
    ensures r.Some? ==> Cheapest(r.value, prior, baseFee, ceiling)
  {
    hide Cheapest;
    if prior.maxFee <= 0 || prior.tip < 0 {
      return None;
    }
    var minTip := MinBump(prior.tip);
    var bumpedTip := prior.tip * 9 / 8;
    var floors := [minTip, prior.tip + 1];
    for k := 0 to |floors|
      invariant bumpedTip == (if k == 0 then prior.tip * 9 / 8
                              else if k == 1 then Max(prior.tip * 9 / 8, minTip)
                              else BumpedTip(prior.tip))
    {
      if bumpedTip < floors[k] {
        bumpedTip := floors[k];
      }
    }
    var estimate := EstimateFees(baseFee, bumpedTip, ceiling);
    if estimate.None? {
      return None;
    }
    var maxFee, priority := estimate.value.maxFee, estimate.value.tip;
    var minFee := MinBump(prior.maxFee);
    if maxFee < minFee {
      if ceiling < minFee {
        return None;
      }
      maxFee := minFee;
    }
    if priority > maxFee {
      priority := maxFee;
    }
    if priority < minTip || maxFee < MinBump(prior.maxFee) {
      return None;
    }
    BumpIsCheapest(prior, baseFee, ceiling);
    return Some(FeePair(maxFee, priority));
  }

  /** A bump succeeds exactly when some fee pair under the ceiling would be accepted
      as a replacement; the pair it returns is one, and both fields strictly rise. */
  lemma BumpSoundAndComplete(prior: FeePair, baseFee: int, ceiling: int)
    ensures Bump(prior, baseFee, ceiling).Some? <==>
              prior.maxFee > 0 && prior.tip >= 0 && baseFee >= 0 && exists fee: FeePair :: Outbids(fee, prior, ceiling)
    ensures Bump(prior, baseFee, ceiling).Some? ==>
              var fee := Bump(prior, baseFee, ceiling).value;
              Outbids(fee, prior, ceiling) && fee.maxFee > prior.maxFee && fee.tip > prior.tip
  {
    var r := Bump(prior, baseFee, ceiling);
    if r.Some? {
      assert Outbids(r.value, prior, ceiling);
    }
    if fee: FeePair :| prior.maxFee > 0 && prior.tip >= 0 && Outbids(fee, prior, ceiling) {
      assert MinBump(prior.maxFee) <= fee.maxFee && MinBump(prior.tip) <= fee.tip;
    }
  }

  /** A bump is the cheapest one the mempool and the fee policy allow, and wherever the
      ceiling covers the present base fee with its tip, so does the bump. */
  lemma BumpIsCheapest(prior: FeePair, baseFee: int, ceiling: int)
    requires Bump(prior, baseFee, ceiling).Some?
    ensures var fee := Bump(prior, baseFee, ceiling).value;
      && Cheapest(fee, prior, baseFee, ceiling)
      && (fee.maxFee >= baseFee + fee.tip <==> ceiling >= baseFee + fee.tip)
  {
    LeastTip(prior.tip);
  }

  lemma LeastTip(prior: int)
    requires prior >= 0
    ensures Climbs(BumpedTip(prior), prior) && forall k :: Climbs(k, prior) ==> BumpedTip(prior) <= k
  {
  }

  function Pow(b: nat, k: nat): nat { if k == 0 then 1 else b * Pow(b, k - 1) }

  /** `chain` is a stuck transaction's fees after each successive bump. */
  ghost predicate BumpChain(chain: seq<FeePair>, baseFees: seq<int>, ceiling: int)
  {
    && |chain| == |baseFees| + 1
    && 0 < chain[0].maxFee <= ceiling
    && forall k | 0 <= k < |baseFees| :: Bump(chain[k], baseFees[k], ceiling) == Some(chain[k + 1])
  }

  /** Every bump multiplies the cap by at least 11/10 under a fixed ceiling, so a
      transaction can only be bumped boundedly often. */
  lemma {:induction false} BumpingTerminates(chain: seq<FeePair>, baseFees: seq<int>, ceiling: int)
    requires BumpChain(chain, baseFees, ceiling)
    ensures var k := |baseFees|;
      Pow(11, k) * chain[0].maxFee <= Pow(10, k) * chain[k].maxFee <= Pow(10, k) * ceiling
    ensures |baseFees| <= chain[|baseFees|].maxFee - chain[0].maxFee && chain[|baseFees|].maxFee <= ceiling
    decreases |baseFees|
  {
    var k := |baseFees|;
    if k > 0 {
      BumpingTerminates(chain[..k], baseFees[..k - 1], ceiling);
      var last := Bump(chain[k - 1], baseFees[k - 1], ceiling);
      assert last == Some(chain[k]);
      BumpSoundAndComplete(chain[k - 1], baseFees[k - 1], ceiling);
      Compound(Pow(11, k - 1), Pow(10, k - 1), chain[0].maxFee, chain[k - 1].maxFee, chain[k].maxFee);
    }
    Scale(Pow(10, k), chain[k].maxFee, ceiling);
  }

  lemma Compound(p: nat, q: nat, first: int, prior: int, next: int)
    requires p * first <= q * prior && 11 * prior <= 10 * next
    ensures (11 * p) * first <= (10 * q) * next
  {
    Scale(q, 11 * prior, 10 * next);
    assert (11 * p) * first == 11 * (p * first) && (10 * q) * next == q * (10 * next) &&
      q * (11 * prior) == 11 * (q * prior);
  }

  lemma Scale(c: nat, a: int, b: int)
    requires a <= b
    ensures c * a <= c * b
  {
  }
}

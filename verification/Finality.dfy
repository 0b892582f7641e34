/** When a transaction counts as final, for the confirmation worker and for the HTTP
    waiter alike (internal/settlement/service.go, wait.go). */
module Finality {
  import opened Ledger
  import opened Agreement

  datatype Receipt = Receipt(succeeded: bool, block: Block, gas: Gas)

  const UINT64: nat := 0x1_0000_0000_0000_0000

  /** Blocks on top of and including the receipt's, in unsigned 64-bit arithmetic. */
  function Depth(current: nat, number: nat): nat {
    if current >= number then (current - number + 1) % UINT64 else 0
  }

  // ------------------------------------------------------------- the verdicts

  /** The three reads an observation makes, each already reconciled. A read that was not
      needed may be anything. */
  datatype Reads = Reads(receipt: Read<Option<Receipt>>, canonical: Read<nat>, head: Read<nat>)

  datatype Observed = NoVerdict | Pending | SawFinal(receipt: Receipt)

  /** observeSettlement. */
  function ObserveSettlement(got: Reads, confirmations: nat): Observed
  {
    if !got.receipt.Agreed? then NoVerdict
    else if got.receipt.value.None? then Pending
    else
      var receipt := got.receipt.value.value;
      if !got.canonical.Agreed? then NoVerdict
      else if got.canonical.value != receipt.block.hash then Pending
      else if !got.head.Agreed? then NoVerdict
      else if Depth(got.head.value, receipt.block.number) < confirmations then Pending
      else SawFinal(receipt)
  }

  /** What one pass of the confirmation worker asks of the store. */
  datatype Verdict =
    | Failure | Nothing | ReorgedOut | Confirming(block: Block)
    | FinalRevert(gas: Gas) | FinalSuccess(block: Block, gas: Gas)

  /** Confirmation, for a row whose recorded status is (or is not) confirming. */
  function Confirmation(confirming: bool, got: Reads, confirmations: nat): Verdict
  {
    if !got.receipt.Agreed? then Failure
    else if got.receipt.value.None? then if confirming then ReorgedOut else Nothing
    else
      var receipt := got.receipt.value.value;
      if !got.canonical.Agreed? then Failure
      else if got.canonical.value != receipt.block.hash then if confirming then ReorgedOut else Nothing
      else if !got.head.Agreed? then Failure
      else if Depth(got.head.value, receipt.block.number) < confirmations then Confirming(receipt.block)
      else if !receipt.succeeded then FinalRevert(receipt.gas)
      else FinalSuccess(receipt.block, receipt.gas)
  }

  predicate Located(got: Reads) { got.receipt.Agreed? && got.receipt.value.Some? }

  /** All providers agree on a receipt, and that its block is the canonical one. */
  predicate Canonical(got: Reads) {
    Located(got) && got.canonical.Agreed? && got.canonical.value == got.receipt.value.value.block.hash
  }

  /** All providers agree that there is no receipt, or that its block is not the canonical one. */
  predicate Gone(got: Reads) {
    || (got.receipt.Agreed? && got.receipt.value.None?)
    || (Located(got) && got.canonical.Agreed? && got.canonical.value != got.receipt.value.value.block.hash)
  }

  /** The transaction counts `confirmations` blocks on top of and including its own. */
  predicate Buried(got: Reads, confirmations: nat) {
    && Canonical(got) && got.head.Agreed?
    && Depth(got.head.value, got.receipt.value.value.block.number) >= confirmations
  }

  /** What the worker asks of the store, by what the reads agreed on. A row seen before is
      unwound exactly if it is gone. A sighting is recorded exactly if the canonical receipt is
      short of full depth, under its block. An outcome is recorded exactly at full depth, as
      the receipt has it. Without agreement nothing is. */
  lemma VerdictExactly(confirming: bool, got: Reads, confirmations: nat)
    ensures var verdict := Confirmation(confirming, got, confirmations);
      && (verdict == ReorgedOut <==> confirming && Gone(got))
      && (verdict == Nothing <==> !confirming && Gone(got))
      && (verdict == Failure <==> !Gone(got) && !(Canonical(got) && got.head.Agreed?))
      && (verdict.Confirming? <==> Canonical(got) && got.head.Agreed? && !Buried(got, confirmations))
      && (verdict.Confirming? ==> verdict.block == got.receipt.value.value.block)
      && (verdict.FinalRevert? <==> Buried(got, confirmations) && !got.receipt.value.value.succeeded)
      && (verdict.FinalRevert? ==> verdict.gas == got.receipt.value.value.gas)
      && (verdict.FinalSuccess? <==> Buried(got, confirmations) && got.receipt.value.value.succeeded)
      && (verdict.FinalSuccess? ==>
        Receipt(true, verdict.block, verdict.gas) == got.receipt.value.value)
  {
  }

  /** The waiter reports an outcome exactly at full depth, keeps waiting exactly while the
      transaction is gone or shallow, and otherwise has no answer. */
  lemma ObservationExactly(got: Reads, confirmations: nat)
    ensures var seen := ObserveSettlement(got, confirmations);
      && (seen.SawFinal? <==> Buried(got, confirmations))
      && (seen.SawFinal? ==> seen.receipt == got.receipt.value.value)
      && (seen == Pending <==> Gone(got) || (Canonical(got) && got.head.Agreed? && !Buried(got, confirmations)))
  {
  }

  /** Depth counts the blocks of a view from the receipt's own to the head. */
  lemma DepthExactly(view: View, number: nat)
    requires |view| < 0x1_0000_0000_0000_0000
    ensures Depth(|view| - 1, number) == if number < |view| then |view[number..]| else 0
  {
  }

  /** On the same reads the two observers agree on what is final, and on how. */
  lemma ObserversAgree(confirming: bool, got: Reads, confirmations: nat)
    ensures forall block: Block, gas: Gas ::
      Confirmation(confirming, got, confirmations) == FinalSuccess(block, gas) <==>
      ObserveSettlement(got, confirmations) == SawFinal(Receipt(true, block, gas))
    ensures (exists block: Block, gas: Gas ::
             ObserveSettlement(got, confirmations) == SawFinal(Receipt(false, block, gas))) <==>
            Confirmation(confirming, got, confirmations).FinalRevert?
    ensures forall block: Block, gas: Gas ::
      ObserveSettlement(got, confirmations) == SawFinal(Receipt(false, block, gas)) ==>
      Confirmation(confirming, got, confirmations) == FinalRevert(gas)
  {
    if Confirmation(confirming, got, confirmations).FinalRevert? {
      var receipt := got.receipt.value.value;
      assert receipt == Receipt(false, receipt.block, receipt.gas);
    }
  }

  /** waitForSettlement: the first final observation, if one comes before the deadline. */
  method WaitForSettlement(polls: seq<Reads>, confirmations: nat, responseWait: int) returns (seen: Observed)
    ensures seen.SawFinal? ==>
      exists k | 0 <= k < |polls| ::
        && seen == ObserveSettlement(polls[k], confirmations)
        && forall j | 0 <= j < k :: !ObserveSettlement(polls[j], confirmations).SawFinal?
    ensures !seen.SawFinal? ==>
      seen == Pending
        && (responseWait <= 0 || forall k | 0 <= k < |polls| :: !ObserveSettlement(polls[k], confirmations).SawFinal?)
    ensures responseWait <= 0 ==> seen == Pending
  {
    if responseWait <= 0 { return Pending; }
    for i := 0 to |polls|
      invariant forall k | 0 <= k < i :: !ObserveSettlement(polls[k], confirmations).SawFinal?
    {
      seen := ObserveSettlement(polls[i], confirmations);
      if seen.SawFinal? { return; }
    }
    return Pending;
  }

  // --------------------------------------------------------- what it rests on

  /** A provider's canonical chain: block hashes, and which transactions each mined. */
  datatype ChainBlock = ChainBlock(hash: nat, mined: map<Signed, Inclusion>)
  datatype Inclusion = Inclusion(succeeded: bool, gas: Gas)
  type View = v: seq<ChainBlock> | v != [] witness [ChainBlock(0, map[])]

  /** Block `n` of the view mined `h` with this receipt. */
  predicate MinedIn(view: seq<ChainBlock>, h: Signed, r: Receipt) {
    && r.block.number < |view| && view[r.block.number].hash == r.block.hash
    && h in view[r.block.number].mined && view[r.block.number].mined[h] == Inclusion(r.succeeded, r.gas)
  }

  /** The honest answers from a view, at the time of each read. */
  ghost predicate HonestReceipt(a: Answer<Option<Receipt>>, view: View, h: Signed) {
    && a.Value?
    && (a.value.Some? ==> MinedIn(view, h, a.value.value))
    && (a.value.None? ==> forall n | 0 <= n < |view| :: h !in view[n].mined)
  }

  ghost predicate HonestBlock(a: Answer<nat>, view: View, number: nat) {
    if number < |view| then a == Value(view[number].hash) else a == Invalid
  }

  ghost predicate HonestHead(a: Answer<nat>, view: View) { a == Value(|view| - 1) }

  /** The view may be reorganized between the first read and the second, but only grows
      from the second to the third. A block's hash identifies its contents. */
  ghost predicate Settles(first: View, second: View, third: View) {
    && second <= third
    && forall n | 0 <= n < |first| && n < |third| && first[n].hash == third[n].hash :: first[n] == third[n]
  }

  /** The view has the block where it was. */
  predicate Unmoved(view: View, block: Block) {
    block.number < |view| && view[block.number].hash == block.hash
  }

  /** The transaction is mined on the canonical chain of the view, `confirmations` deep. */
  ghost predicate FinalIn(view: View, h: Signed, r: Receipt, confirmations: nat) {
    MinedIn(view, h, r) && |view| - r.block.number >= confirmations
  }

  /** What ReadClientAgreement leaves of three reads. */
  ghost predicate Reconciles(got: Reads, receipts: seq<Answer<Option<Receipt>>>, blocks: seq<Answer<nat>>,
                             heads: seq<Answer<nat>>)
  {
    && (got.receipt.Agreed? ==> AllValues(receipts) && Exact(Values(receipts)) == Some(got.receipt.value))
    && (got.canonical.Agreed? ==> AllValues(blocks) && Exact(Values(blocks)) == Some(got.canonical.value))
    && (got.head.Agreed? ==> AllValues(heads) && Head(Values(heads)) == Some(got.head.value))
  }

  /** The three reads of one observation, in order, each reconciled over all providers; a
      read is skipped once the observation is decided. `blocks` are the answers for the
      height the agreed receipt names. */
  method ReadChain(receipts: seq<Answer<Option<Receipt>>>, blocks: seq<Answer<nat>>, heads: seq<Answer<nat>>)
      returns (got: Reads)
    requires receipts != [] && blocks != [] && heads != []
    ensures Reconciles(got, receipts, blocks, heads)
    ensures got.receipt.Agreed? <==> AllValues(receipts) && Exact(Values(receipts)).Some?
    ensures Located(got) ==> (got.canonical.Agreed? <==> AllValues(blocks) && Exact(Values(blocks)).Some?)
    ensures Canonical(got) ==> (got.head.Agreed? <==> AllValues(heads) && Head(Values(heads)).Some?)
  {
    got := Reads(ProviderFailed, ProviderFailed, ProviderFailed);
    var receipt := ReadClientAgreement(receipts, values => Exact(values));
    got := got.(receipt := receipt);
    if !receipt.Agreed? || receipt.value.None? { return; }
    var canonical := ReadClientAgreement(blocks, values => Exact(values));
    got := got.(canonical := canonical);
    if !canonical.Agreed? || canonical.value != receipt.value.value.block.hash { return; }
    var head := ReadClientAgreement(heads, values => Head(values));
    got := got.(head := head);
  }

  /** One honest provider is enough: whatever the others answer, and whichever provider
      is the honest one, an outcome is reported as final only if that provider's chain
      holds it at the required depth. */
  lemma FinalWithOneHonestProvider(got: Reads, confirmations: nat, h: Signed, i: nat,
                                   receipts: seq<Answer<Option<Receipt>>>, blocks: seq<Answer<nat>>,
                                   heads: seq<Answer<nat>>,
                                   first: View, second: View, third: View)
    requires Reconciles(got, receipts, blocks, heads) && Settles(first, second, third)
    requires i < |receipts| && i < |blocks| && i < |heads|
    requires ObserveSettlement(got, confirmations).SawFinal?
    requires HonestReceipt(receipts[i], first, h) && HonestHead(heads[i], third)
    requires HonestBlock(blocks[i], second, ObserveSettlement(got, confirmations).receipt.block.number)
    ensures FinalIn(third, h, ObserveSettlement(got, confirmations).receipt, confirmations)
  {
    var r := ObserveSettlement(got, confirmations).receipt;
    assert Values(receipts)[i] in Values(receipts) && Values(blocks)[i] in Values(blocks) &&
      Values(heads)[i] in Values(heads);
    assert receipts[i].value == Some(r) && blocks[i] == Value(r.block.hash);
    assert first[r.block.number] == second[r.block.number] == third[r.block.number];
    DepthIsHonest(got.head.value, r.block.number);
  }

  /** Wrap-around can only hide depth. */
  lemma DepthIsHonest(current: nat, number: nat)
    ensures Depth(current, number) <= if current >= number then current - number + 1 else 0
  {
    if current >= number { ModAtMost(current - number + 1); }
  }

  lemma ModAtMost(x: nat)
    ensures x % UINT64 <= x
  {
    if x >= UINT64 { assert x % UINT64 < UINT64; }
  }

  /** The answers an observation got, what is left of them, and a provider that was honest. */
  datatype Evidence = Evidence(
    receipts: seq<Answer<Option<Receipt>>>, blocks: seq<Answer<nat>>, heads: seq<Answer<nat>>, got: Reads,
    honest: nat, first: View, second: View, third: View)

  /** Among the answers about `h` are those of one provider whose view settled. */
  ghost predicate Honest(e: Evidence, h: Signed)
  {
    && Reconciles(e.got, e.receipts, e.blocks, e.heads) && Settles(e.first, e.second, e.third)
    && e.honest < |e.receipts| && e.honest < |e.blocks| && e.honest < |e.heads|
    && HonestReceipt(e.receipts[e.honest], e.first, h) && HonestHead(e.heads[e.honest], e.third)
    && (e.got.receipt.Agreed? && e.got.receipt.value.Some? ==>
          HonestBlock(e.blocks[e.honest], e.second, e.got.receipt.value.value.block.number))
  }

  /** The confirmation worker, too, finalizes an outcome of either kind only if the honest
      provider's canonical chain holds it at full depth. */
  lemma WorkerFinalWithOneHonestProvider(confirming: bool, e: Evidence, h: Signed, confirmations: nat)
    requires Honest(e, h)
    requires var v := Confirmation(confirming, e.got, confirmations); v.FinalSuccess? || v.FinalRevert?
    ensures e.got.receipt.Agreed? && e.got.receipt.value.Some?
    ensures var v, r := Confirmation(confirming, e.got, confirmations), e.got.receipt.value.value;
      && FinalIn(e.third, h, r, confirmations)
      && (v.FinalSuccess? ==> r == Receipt(true, v.block, v.gas))
      && (v.FinalRevert? ==> !r.succeeded && r.gas == v.gas)
  {
    FinalWithOneHonestProvider(e.got, confirmations, h, e.honest, e.receipts, e.blocks, e.heads, e.first, e.second,
                               e.third);
  }

  /** What the worker unwinds is gone from the honest provider's chain: it has no block with
      the transaction, or not the block the receipt names. */
  lemma UnwoundIsGone(e: Evidence, h: Signed)
    requires Honest(e, h) && Gone(e.got)
    ensures Located(e.got) ==> !Unmoved(e.second, e.got.receipt.value.value.block)
    ensures Located(e.got) ==>
      forall r: Receipt | r.block == e.got.receipt.value.value.block :: !MinedIn(e.second, h, r)
    ensures !Located(e.got) ==> forall n | 0 <= n < |e.first| :: h !in e.first[n].mined
  {
    assert Values(e.receipts)[e.honest] in Values(e.receipts);
    if Located(e.got) {
      assert Values(e.blocks)[e.honest] in Values(e.blocks);
    }
  }

  /** What the providers' answers say about a replaced original: mined, if they all agree on a
      receipt, and in the reverted case also on a head that buries it at full depth. */
  ghost function OriginalLanded(receipts: seq<Answer<Option<Receipt>>>, heads: seq<Answer<nat>>,
                                confirmations: nat): Option<Receipt>
  {
    if !AllValues(receipts) || Exact(Values(receipts)).None? then None else
    var r := Exact(Values(receipts)).value;
    if r.None? || r.value.succeeded then r
    else if AllValues(heads) && Head(Values(heads)).Some? &&
      Depth(Head(Values(heads)).value, r.value.block.number) >= confirmations
    then r else None
  }

  /** The reads of observeReplacements: the head is asked for only behind a reverted receipt. */
  method ReadOriginal(receipts: seq<Answer<Option<Receipt>>>, heads: seq<Answer<nat>>, confirmations: nat)
      returns (landed: Option<Receipt>)
    requires receipts != [] && heads != []
    ensures landed == OriginalLanded(receipts, heads, confirmations)
  {
    var receipt := ReadClientAgreement(receipts, values => Exact(values));
    if !receipt.Agreed? || receipt.value.None? { return None; }
    if !receipt.value.value.succeeded {
      var head := ReadClientAgreement(heads, values => Head(values));
      if !head.Agreed? || Depth(head.value, receipt.value.value.block.number) < confirmations { return None; }
    }
    return receipt.value;
  }

  /** What observeReplacements asks of a reverted original: an agreed receipt at full depth. */
  ghost predicate SaysReverted(e: Evidence, h: Signed, r: Receipt, confirmations: nat) {
    && Honest(e, h) && e.got.receipt == Agreed(Some(r)) && !r.succeeded
    && e.got.head.Agreed? && Depth(e.got.head.value, r.block.number) >= confirmations
  }

  /** It does not read the block again. The original is final exactly if that read, which
      the confirmation worker does make, would still have shown the receipt's block. */
  lemma RevertedOriginalExactly(e: Evidence, h: Signed, r: Receipt, confirmations: nat)
    requires SaysReverted(e, h, r, confirmations)
    ensures FinalIn(e.third, h, r, confirmations) <==> Unmoved(e.third, r.block)
  {
    assert Values(e.receipts)[e.honest] in Values(e.receipts) && Values(e.heads)[e.honest] in Values(e.heads);
    assert e.receipts[e.honest].value == Some(r);
    if Unmoved(e.third, r.block) { assert e.first[r.block.number] == e.third[r.block.number]; }
    DepthIsHonest(e.got.head.value, r.block.number);
  }

  /** A reorganization between the two reads is taken for a final revert, though the only
      provider is honest: the transaction is nowhere on its chain. */
  lemma ReorgPassesForRevert(h: Signed, gas: Gas) returns (e: Evidence, r: Receipt)
    ensures SaysReverted(e, h, r, 2) && OriginalLanded(e.receipts, e.heads, 2) == Some(r)
    ensures forall n | 0 <= n < |e.third| :: h !in e.third[n].mined
  {
    r := Receipt(false, Block(1, 11), gas);
    var genesis := ChainBlock(10, map[]);
    var first: View := [genesis, ChainBlock(11, map[h := Inclusion(false, gas)])];
    var second: View := [genesis, ChainBlock(21, map[])];
    var third: View := second + [ChainBlock(22, map[])];
    var receipts := [Value(Some(r))];
    var blocks, heads := [Value(21)], [Value(2)];
    assert Values(receipts) == [Some(r)] && Values(blocks) == [21] && Values(heads) == [2];
    e := Evidence(receipts, blocks, heads, Reads(Agreed(Some(r)), Agreed(21), Agreed(2)), 0, first, second, third);
  }
}

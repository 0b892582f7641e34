/** Reads from several providers, reconciled into one answer (internal/ethereum/rpc.go). */
module Agreement {
  import opened Ledger

  /** One provider's outcome: a decoded value, data that does not decode, an executed
      JSON-RPC error, or no usable response. */
  datatype Answer<T> = Value(value: T) | Invalid | RpcError(code: int, message: string) | Unavailable

  /** ChainError is a JSON-RPC error every provider returned: evidence about the chain. */
  datatype Read<T> = Agreed(value: T) | ChainError(code: int, message: string) | ProviderFailed | Disagreement

  predicate Failed<T>(a: Answer<T>) { a.RpcError? || a.Unavailable? }

  ghost predicate AllValues<T>(answers: seq<Answer<T>>) {
    forall i | 0 <= i < |answers| :: answers[i].Value?
  }

  function Values<T>(answers: seq<Answer<T>>): (values: seq<T>)
    requires AllValues(answers)
    ensures |values| == |answers| && forall i | 0 <= i < |answers| :: values[i] == answers[i].value
  {
    seq(|answers|, i requires 0 <= i < |answers| => answers[i].value)
  }

  ghost predicate SameError<T>(answers: seq<Answer<T>>) {
    && (forall i | 0 <= i < |answers| :: answers[i].RpcError?)
    && (forall i | 0 <= i < |answers| :: answers[i].code == answers[0].code && answers[i].message == answers[0].message)
  }

  /** `i` is the first provider that failed. */
  ghost predicate FirstFailure<T>(answers: seq<Answer<T>>, i: int) {
    0 <= i < |answers| && Failed(answers[i]) && forall k | 0 <= k < i :: !Failed(answers[k])
  }

  /** A value is agreed only if every provider returned one and they reconcile; an error
      is the chain's only if every provider returned that same error. */
  method ReadClientAgreement<T(==)>(answers: seq<Answer<T>>, reconcile: seq<T> -> Option<T>) returns (read: Read<T>)
    requires |answers| > 0
    ensures read.Agreed? <==> AllValues(answers) && reconcile(Values(answers)).Some?
    ensures read.Agreed? ==> Some(read.value) == reconcile(Values(answers))
    ensures read.ChainError? <==> SameError(answers)
    ensures read.ChainError? ==> read.code == answers[0].code && read.message == answers[0].message
    ensures read.Disagreement? <==>
      || (AllValues(answers) && reconcile(Values(answers)).None?)
      || ((exists i | 0 <= i < |answers| :: !Failed(answers[i]))
          && exists i :: FirstFailure(answers, i) && answers[i].RpcError?)
      || ((forall i | 0 <= i < |answers| :: answers[i].RpcError?) && !SameError(answers))
  {
    var failed, succeeded := -1, 0;
    for i := 0 to |answers|
      invariant failed == -1 ==> forall k | 0 <= k < i :: !Failed(answers[k])
      invariant failed != -1 ==> FirstFailure(answers, failed)
      invariant succeeded >= 0
      invariant succeeded > 0 <==> exists k | 0 <= k < i :: !Failed(answers[k])
    {
      if Failed(answers[i]) {
        if failed == -1 { failed := i; }
      } else {
        succeeded := succeeded + 1;
      }
    }
    if failed >= 0 {
      if succeeded > 0 {
        return if answers[failed].RpcError? then Disagreement else ProviderFailed;
      }
      read := ReadErrors(answers);
      return;
    }
    var values := [];
    for i := 0 to |answers|
      invariant forall k | 0 <= k < i :: answers[k].Value?
      invariant |values| == i && forall k | 0 <= k < i :: values[k] == answers[k].value
    {
      if answers[i].Invalid? { return ProviderFailed; }
      values := values + [answers[i].value];
    }
    assert values == Values(answers) && answers[0].Value?;
    var value := reconcile(values);
    return if value.Some? then Agreed(value.value) else Disagreement;
  }

  /** Every provider failed: one unavailable provider hides everyone's errors. */
  method ReadErrors<T(==)>(answers: seq<Answer<T>>) returns (read: Read<T>)
    requires |answers| > 0 && forall i | 0 <= i < |answers| :: Failed(answers[i])
    ensures read.ChainError? <==> SameError(answers)
    ensures read.ChainError? ==> read.code == answers[0].code && read.message == answers[0].message
    ensures read.Disagreement? <==> (forall i | 0 <= i < |answers| :: answers[i].RpcError?) && !SameError(answers)
    ensures !read.Agreed?
  {
    for i := 0 to |answers|
      invariant forall k | 0 <= k < i :: answers[k].RpcError?
    {
      if !answers[i].RpcError? { return ProviderFailed; }
    }
    for i := 1 to |answers|
      invariant forall k | 0 <= k < i :: answers[k].code == answers[0].code && answers[k].message == answers[0].message
    {
      if answers[i].code != answers[0].code || answers[i].message != answers[0].message { return Disagreement; }
    }
    return ChainError(answers[0].code, answers[0].message);
  }

  // ------------------------------------------------------------- reconcilers

  /** The value all providers returned, if there is one; receipts may be absent in agreement. */
  function Exact<T(==)>(values: seq<T>): (agreed: Option<T>)
    ensures agreed.None? <==> values == [] || exists u, v | u in values && v in values :: u != v
    ensures agreed.Some? ==> agreed.value in values && forall v | v in values :: v == agreed.value
  {
    if values == [] then None
    else if |values| == 1 then Some(values[0])
    else
      var rest := Exact(values[1..]);
      assert values[0] in values && forall v | v in values :: v in values[1..] || v == values[0];
      assert forall v | v in values[1..] :: v in values;
      if rest == Some(values[0]) then rest else None
  }

  /** The loop of exactComparable. Whoever is asked first, and in whatever order the others
      answer, the outcome is the same. */
  method ReconcileExact<T(==)>(values: seq<T>) returns (first: T, agreed: bool)
    requires values != []
    ensures agreed <==> Exact(values).Some?
    ensures agreed ==> first == Exact(values).value && forall v | v in values :: v == first
    ensures agreed <==> |set v | v in values| == 1
  {
    first := values[0];
    for i := 1 to |values|
      invariant forall k | 0 <= k < i :: values[k] == first
    {
      if values[i] != first {
        assert values[0] in values && values[i] in values;
        TwoValues(values, 0, i);
        return first, false;
      }
    }
    assert (set v | v in values) == {first};
    return first, true;
  }

  lemma TwoValues<T>(values: seq<T>, i: nat, j: nat)
    requires i < |values| && j < |values| && values[i] != values[j]
    ensures |set v | v in values| > 1
  {
    var all := set v | v in values;
    assert {values[i], values[j]} <= all;
    assert all == {values[i], values[j]} + (all - {values[i], values[j]});
  }

  const MAX_SKEW: nat := 2

  function Lowest(values: seq<nat>): (low: nat)
    requires values != []
    ensures low in values && forall v | v in values :: low <= v
  {
    var n := |values| - 1;
    if n == 0 then values[0] else
    var low := Lowest(values[..n]);
    assert forall v | v in values :: v in values[..n] || v == values[n];
    if values[n] < low then values[n] else low
  }

  function Highest(values: seq<nat>): (high: nat)
    requires values != []
    ensures high in values && forall v | v in values :: v <= high
  {
    var n := |values| - 1;
    if n == 0 then values[0] else
    var high := Highest(values[..n]);
    assert forall v | v in values :: v in values[..n] || v == values[n];
    if values[n] > high then values[n] else high
  }

  /** The lower head, if no two providers are more than the tolerated skew apart. */
  function Head(values: seq<nat>): (head: Option<nat>)
    ensures values != [] ==> (head.Some? <==> forall u, v | u in values && v in values :: u <= v + 2)
    ensures head.Some? ==> head.value in values && forall v | v in values :: head.value <= v <= head.value + MAX_SKEW
  {
    if values == [] || Highest(values) - Lowest(values) > MAX_SKEW then None else Some(Lowest(values))
  }

  /** The loop BlockNumber runs over the heads. */
  method ReconcileHeads(values: seq<nat>) returns (lowest: nat, agreed: bool)
    requires values != []
    ensures agreed <==> Head(values).Some?
    ensures agreed ==> lowest == Head(values).value
  {
    var highest := values[0];
    lowest := values[0];
    for i := 1 to |values|
      invariant lowest in values[..i] && forall k | 0 <= k < i :: lowest <= values[k]
      invariant highest in values[..i] && forall k | 0 <= k < i :: values[k] <= highest
    {
      if values[i] < lowest { lowest := values[i]; }
      if values[i] > highest { highest := values[i]; }
    }
    assert values[..|values|] == values;
    agreed := highest - lowest <= MAX_SKEW;
  }
}

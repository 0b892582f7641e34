/** One payment's way through the protocol, from verification to a settled answer: the
    theorems about runs speak about runs like this one. */
module Walkthrough {
  import opened PaymentStates
  import opened Ledger
  import opened Steps
  import opened Admission
  import opened Protocol
  import opened Outcomes

  const C := Config(7, Terms(100, 50, 10), 2)

  /** Acting on a reading of `seen`, `a` takes the world from `w` to `next`. */
  ghost predicate Leads(seen: World, w: World, a: Act, next: World) {
    Enabled(C, seen.db, w, a) && Apply(C, seen.db, w, a) == next
  }

  /** One more event on a reading of state `read`. */
  lemma Goes(states: seq<World>, events: seq<Event>, read: nat, seen: World, w: World, a: Act, next: World)
      returns (more: seq<World>, longer: seq<Event>)
    requires Run(C, states, events) && read < |states| && states[read] == seen && states[|states| - 1] == w
    requires Leads(seen, w, a, next)
    ensures more == states + [next] && longer == events + [Event(read, a)] && Run(C, more, longer)
    ensures |more| == |states| + 1 && more[|states|] == next && forall k | 0 <= k < |states| :: more[k] == states[k]
    ensures |longer| == |events| + 1 && longer[|events|] == Event(read, a) &&
      forall k | 0 <= k < |events| :: longer[k] == events[k]
  {
    hide Enabled, Apply;
    more, longer := states + [next], events + [Event(read, a)];
  }

  // ------------------------------------------------------------- the payment

  const REQUEST := IntentRequest(1, 7, 6, 10, 1, 1, 60, 0, 1)
  const INTENT := TxRef(0, 0)
  const TX := Signed(7, 3, Terms(100, 22, 2), 0, 9)
  const HELD := Held(8, INTENT, TX, true)
  const CHARGED := Gas(90, 21)
  const SEEN := Block(5, 11)
  const SLOT := Slot(7, 3)

  const NEW := Payment(1, Verified, Some(4), Some(5), Some(1000), None, None, None, 0, None, None, [],
                       [Edge(Received, Verified, Http)])
  const ADMITTED := Admitted(NEW, REQUEST, 3)
  const ROW := IntentRow(7, 3, 1)
  const SIGNED_ROW := SignedRow(ROW, TX, 2)
  const SENT_ROW := BroadcastRow(SIGNED_ROW, TX, 3)
  const LOGGED := [Attempt(Some(0), Accepted)]

  function WithRows(P: Payment, rows: seq<Row>): Payment { P.(rows := rows) }

  const SIGNED := WithRows(ADMITTED, [SIGNED_ROW])
  const BROADCAST := Move(WithRows(ADMITTED, [SENT_ROW]), Broadcast, Http, 3)
  const SETTLED := Move(WithRows(BROADCAST, [ConfirmedRow(SENT_ROW, SEEN, CHARGED, 4)]), Confirmed, Worker, 4)
                   .(confirmedAt := Some(4))

  // -------------------------------------------------------------- the worlds

  /** The database that holds just the payment `P`. */
  function Just(P: Payment): Db { Db([P], map[7 := 4], {4}, LOGGED) }

  const W1 := World(Db([], map[], {4}, []), {}, {}, map[])
  const W2 := World(Db([], map[7 := 3], {4}, []), {}, {}, map[])
  const W3 := World(Db([NEW], map[7 := 3], {4}, []), {}, {}, map[])
  const W4 := World(Just(ADMITTED), {}, {}, map[])
  const W5 := World(Just(SIGNED), {HELD}, {}, map[])
  const W6 := World(Just(SIGNED), {HELD}, {TX}, map[])
  const W7 := World(Just(BROADCAST), {HELD}, {TX}, map[])
  const W8 := World(Just(BROADCAST), {HELD}, {TX}, map[SLOT := Mined(TX, CHARGED)])
  const W9 := World(Just(SETTLED), {HELD}, {TX}, map[SLOT := Mined(TX, CHARGED)])

  const VERIFY := Verify(1, 5, Some(4), 1000, 0)
  const SIGN := Sign(8, INTENT, 10, 9, 2)
  const SETTLE := Finalize(INTENT, SEEN, CHARGED, Worker, 4)

  lemma Opens()
    ensures Leads(INIT, INIT, SetMerchants({4}), W1) && Leads(W1, W1, Seed(7, 3), W2)
  {
  }

  lemma Verifies()
    ensures Leads(W2, W2, VERIFY, W3)
  {
    assert Lookup([], 1).None?;
  }

  lemma Admits()
    ensures Leads(W3, W3, Admit(REQUEST), W4)
  {
    var db := W3.db;
    assert Lookup(db.payments, 1) == Some(0);
    assert Requested(db.payments, 1 - 60) == {} && RequestedFor(db.payments, 4, 1 - 60) == {};
    assert Refusal(db, NEW, REQUEST).None? && FirstActive([]).None?;
    assert Terminal(NEW).None? && Signable(db, NEW, REQUEST) && ValidRequest(REQUEST);
    assert Accepting(db, 0, REQUEST) == Just(ADMITTED) by {
      assert db.payments[0 := ADMITTED] == [ADMITTED];
      assert db.nextNonce[7 := 4] == map[7 := 4];
      assert db.attempts + [Attempt(Some(0), Accepted)] == LOGGED;
    }
    assert CreateIntent(db, REQUEST) == (Just(ADMITTED), Accept(INTENT, 3));
  }

  /** Rewriting the only row of the only payment. */
  lemma OneRow(P: Payment, r: Row, s: Row)
    requires P.rows == [r]
    ensures Put(P, 0, s) == WithRows(P, [s]) && forall Q: Payment :: [P][0 := Q] == [Q]
  {
    assert [r][0 := s] == [s];
  }

  lemma Signs()
    ensures Leads(W4, W4, SIGN, W5) && Leads(W5, W5, Send(HELD), W6)
  {
    assert ADMITTED.rows == [ROW];
    assert Signature(C, W4.db, SIGN) == Some(TX);
    OneRow(ADMITTED, ROW, SIGNED_ROW);
    assert Admissible(W4.db.payments, INTENT, SIGNED_ROW);
    assert MarkTxSigned(W4.db, INTENT, TX, 2) == (Just(SIGNED), Ok);
  }

  lemma Broadcasts()
    ensures Leads(W6, W6, RecordBroadcast(HELD, Http, 3), W7)
  {
    OneRow(SIGNED, SIGNED_ROW, SENT_ROW);
    assert Admissible(W6.db.payments, INTENT, SENT_ROW);
    assert MarkTxBroadcast(W6.db, INTENT, TX, Http, 3) == (Just(BROADCAST), Ok);
  }

  lemma Settles()
    ensures Leads(W7, W7, Mine(TX, CHARGED), W8) && Leads(W8, W8, SETTLE, W9)
  {
    var r := ConfirmedRow(SENT_ROW, SEEN, CHARGED, 4);
    OneRow(BROADCAST, SENT_ROW, r);
    assert Admissible(W8.db.payments, INTENT, r);
    assert MarkTxConfirmed(W8.db, INTENT, SEEN, CHARGED, Worker, 4) == (Just(SETTLED), Ok);
  }

  // ----------------------------------------------------------------- the run

  /** Up to the signed intent. */
  lemma Signed5() returns (states: seq<World>, events: seq<Event>)
    ensures Run(C, states, events) && |states| == 6 && |events| == 5
    ensures states[3] == W3 && states[4] == W4 && states[5] == W5
    ensures events[3].act == Admit(REQUEST) && forall k | 0 <= k < 5 && k != 3 :: !events[k].act.Admit?
    ensures forall k | 0 <= k < 5 :: !events[k].act.Prepare?
  {
    Opens();
    Verifies();
    Admits();
    Signs();
    Starts();
    hide Leads, Run, Just;
    states, events := [INIT], [];
    states, events := Goes(states, events, 0, INIT, INIT, SetMerchants({4}), W1);
    states, events := Goes(states, events, 1, W1, W1, Seed(7, 3), W2);
    states, events := Goes(states, events, 2, W2, W2, VERIFY, W3);
    states, events := Goes(states, events, 3, W3, W3, Admit(REQUEST), W4);
    states, events := Goes(states, events, 4, W4, W4, SIGN, W5);
  }

  /** Up to the recorded broadcast. */
  lemma Reaches() returns (states: seq<World>, events: seq<Event>)
    ensures Run(C, states, events) && |states| == 8 && |events| == 7
    ensures states[3] == W3 && states[4] == W4 && states[7] == W7
    ensures events[3].act == Admit(REQUEST) && forall k | 0 <= k < 7 && k != 3 :: !events[k].act.Admit?
    ensures forall k | 0 <= k < 7 :: !events[k].act.Prepare?
  {
    Signs();
    Broadcasts();
    hide Leads, Run, Just;
    states, events := Signed5();
    states, events := Goes(states, events, 5, W5, W5, Send(HELD), W6);
    states, events := Goes(states, events, 6, W6, W6, RecordBroadcast(HELD, Http, 3), W7);
  }

  lemma Starts()
    ensures Run(C, [INIT], [])
  {
  }

  /** The hypothesis of the theorems is met by a run that ends with the payment settled
      by the transaction the chain holds, and a retry would be told so. */
  lemma PaymentSettles() returns (states: seq<World>, events: seq<Event>)
    ensures GapRun(C, states, events) && |states| == 10 && |events| == 9
    ensures states[9] == W9 && SettledBy(W9.db, 0, TX) && SLOT in W9.chain && W9.chain[SLOT].tx == TX
    ensures states[3] == W3 && events[3].act == Admit(REQUEST) && forall k | 0 <= k < 9 &&
      k != 3 :: !events[k].act.Admit?
    ensures forall k | 0 <= k < 9 :: !events[k].act.Prepare?
  {
    Settles();
    EndsSettled();
    hide Leads, Run, Just, SettledBy;
    states, events := Reaches();
    states, events := Goes(states, events, 7, W7, W7, Mine(TX, CHARGED), W8);
    states, events := Goes(states, events, 8, W8, W8, SETTLE, W9);
    NothingPrepared(states, events);
  }

  lemma EndsSettled()
    ensures SettledBy(W9.db, 0, TX) && SLOT in W9.chain && W9.chain[SLOT].tx == TX
  {
    assert LiveAt(SETTLED.rows, 0, TxConfirmed, SUPERSEDED);
  }

  /** Without a filler to prepare, every run is one on current listings. */
  lemma NothingPrepared(states: seq<World>, events: seq<Event>)
    requires Run(C, states, events) && forall k | 0 <= k < |events| :: !events[k].act.Prepare?
    ensures GapRun(C, states, events)
  {
    hide Apply, Enabled;
  }
}

/** Runs that end where a guarantee needs its condition: each is a concrete input, reached
    from the empty database by steps the program takes. */
module Cases {
  import opened PaymentStates
  import opened Ledger
  import opened Steps
  import opened Admission
  import opened Protocol
  import opened Runs
  import opened Outcomes
  import opened Guards
  import opened Preservation
  import opened Quotas
  import opened Theorems
  import opened Walkthrough
  import A = Attempts
  import S = SettlementService

  // ------------------------------------------------------ a stale sighting

  const TX1 := Signed(7, 3, Terms(100, 25, 3), 0, 1)
  const HEIR := TxRef(0, 1)
  const HELD1 := Held(8, HEIR, TX1, false)
  const BUMP := Replace(8, INTENT, 4, 10, 1, Worker, 4)
  const GONE_ROW := StatusRow(SENT_ROW, TxReplaced, 4).(replacedBy := Some(1))
  const HEIR_ROW := Heir(SENT_ROW, TX1, None, None, 4)
  const REPLACED := Move(WithRows(BROADCAST, [GONE_ROW, HEIR_ROW]), Replaced, Worker, 4)
  const BLIND := Move(REPLACED, Confirming, Worker, 5)
  const R8 := World(Just(REPLACED), {HELD, HELD1}, {TX}, map[])
  const R9 := World(Just(BLIND), {HELD, HELD1}, {TX}, map[])

  lemma Replaces()
    ensures Leads(W7, W7, BUMP, R8)
  {
    assert BROADCAST.rows == [SENT_ROW];
    assert Signature(C, W7.db, BUMP) == Some(TX1);
    var gone := StatusRow(SENT_ROW, TxReplaced, 4);
    OneRow(BROADCAST, SENT_ROW, gone);
    assert CanSupersede(W7.db, INTENT, gone, HEIR_ROW) by {
      var mid := Commit(W7.db, 0, WithRows(BROADCAST, [gone]));
      assert mid.payments == [WithRows(BROADCAST, [gone])];
    }
    assert [SENT_ROW][0 := GONE_ROW] + [HEIR_ROW] == [GONE_ROW, HEIR_ROW];
    assert Supersede(BROADCAST, 0, gone, HEIR_ROW) == WithRows(BROADCAST, [GONE_ROW, HEIR_ROW]);
    assert MarkTxReplaced(W7.db, INTENT, TX1, Worker, 4) == (Just(REPLACED), Ok);
  }

  lemma SightsBlindly()
    ensures Leads(W7, R8, Sight(INTENT, SEEN, Worker, 5), R9)
  {
    assert [REPLACED][0 := BLIND] == [BLIND];
  }

  /** A sighting read before the row was replaced moves the payment alone. */
  lemma StaleSighting() returns (states: seq<World>, events: seq<Event>)
    ensures GapRun(C, states, events) && states[|states| - 1] == R9
    ensures BLIND.state == Confirming && !Sighted(BLIND.state, BLIND.rows)
  {
    Replaces();
    SightsBlindly();
    NotSighted();
    hide Leads, Run, Just, Sighted;
    states, events := Reaches();
    states, events := Goes(states, events, 7, W7, W7, BUMP, R8);
    states, events := Goes(states, events, 7, W7, R8, Sight(INTENT, SEEN, Worker, 5), R9);
    NothingPrepared(states, events);
  }

  lemma NotSighted()
    ensures BLIND.state == Confirming && !Sighted(BLIND.state, BLIND.rows)
  {
    assert forall i | 0 <= i < |BLIND.rows| :: BLIND.rows[i].status != TxConfirming;
  }

  lemma BlindRow()
    ensures Hit(R9.db, HEIR, {TxBroadcast}) && RowAt(R9.db, HEIR).attemptedAt.Some?
    ensures R9.db.payments[0].state == Confirming && Bumped(C, RowAt(R9.db, HEIR), 0, 10, 0).Some?
  {
    assert R9.db.payments == [BLIND] && BLIND.rows == [GONE_ROW, HEIR_ROW];
  }

  /** And the live row, attempted and with room for a bump, can no longer be replaced. */
  lemma BlindRowIsNeverBumped() returns (states: seq<World>, events: seq<Event>)
    ensures GapRun(C, states, events) && states[|states| - 1] == R9
    ensures Hit(R9.db, HEIR, {TxBroadcast}) && RowAt(R9.db, HEIR).attemptedAt.Some?
    ensures Bumped(C, RowAt(R9.db, HEIR), 0, 10, 0).Some? && !Replaceable(C, R9.db, HEIR, 10)
  {
    BlindRow();
    hide GapRun, Bumped, Replaceable, Hit, Just;
    states, events := StaleSighting();
    RunLength(C, states, events);
    BumpedExactly(C, states, events, |states| - 1, HEIR, 10);
  }

  // ------------------------------------------- a success under another row's id

  const LANDED_ROW := ConfirmingRow(GONE_ROW, SEEN, 5)
  const LOST_ROW := StatusRow(HEIR_ROW, TxDropped, 5)
  const FINAL_ROW := ConfirmedRow(LANDED_ROW, SEEN, CHARGED, 6)
  const LANDED := Move(WithRows(REPLACED, [LANDED_ROW, LOST_ROW]), Confirming, Worker, 5)
  const OUTCOME := Move(WithRows(LANDED, [FINAL_ROW, LOST_ROW]), Confirmed, Worker, 6).(confirmedAt := Some(6))
  const LAND := Land(INTENT, true, SEEN, CHARGED, Worker, 5)
  const END := Finalize(INTENT, SEEN, CHARGED, Worker, 6)
  const HANDS: set<Held> := {HELD, HELD1}
  const M9 := World(Just(REPLACED), HANDS, {TX, TX1}, map[])
  const M10 := World(Just(REPLACED), HANDS, {TX, TX1}, map[SLOT := Mined(TX, CHARGED)])
  const M11 := World(Just(LANDED), HANDS, {TX, TX1}, map[SLOT := Mined(TX, CHARGED)])
  const M12 := World(Just(OUTCOME), HANDS, {TX, TX1}, map[SLOT := Mined(TX, CHARGED)])
  const M13 := World(Just(OUTCOME), HANDS, {TX, TX1}, map[])
  const M14 := World(Just(OUTCOME), HANDS, {TX, TX1}, map[SLOT := Mined(TX1, CHARGED)])

  lemma SendsBoth()
    ensures Leads(R8, R8, Send(HELD1), M9) && Leads(M9, M9, Mine(TX, CHARGED), M10)
  {
  }

  lemma Lands()
    ensures Leads(M10, M10, LAND, M11)
  {
    assert DropActive(REPLACED.rows, 5) == [GONE_ROW, LOST_ROW];
    assert [GONE_ROW, LOST_ROW][0 := LANDED_ROW] == [LANDED_ROW, LOST_ROW];
    assert ExactlyOneActive(REPLACED.rows) by {
      assert Active(REPLACED.rows[1]) && NoOtherActive(REPLACED.rows, 1);
    }
    assert [REPLACED][0 := LANDED] == [LANDED];
    assert MarkReplacementLanded(M10.db, INTENT, true, SEEN, CHARGED, Worker, 5) == (Just(LANDED), Ok);
  }

  lemma Ends()
    ensures Leads(M11, M11, END, M12)
  {
    assert [LANDED_ROW, LOST_ROW][0 := FINAL_ROW] == [FINAL_ROW, LOST_ROW];
    assert Admissible(M11.db.payments, INTENT, FINAL_ROW);
    assert [LANDED][0 := OUTCOME] == [OUTCOME];
    assert MarkTxConfirmed(M11.db, INTENT, SEEN, CHARGED, Worker, 6) == (Just(OUTCOME), Ok);
  }

  lemma Reorganizes()
    ensures Leads(M12, M12, Unmine(SLOT), M13) && Leads(M13, M13, Mine(TX1, CHARGED), M14)
  {
    assert M12.chain - {SLOT} == map[];
  }

  /** What the HTTP waiter answers when it waited for the replacement under the original's
      row id, with the chain bearing it out: a success the record does not carry. */
  lemma WrongHash()
    ensures RespondWithTx(M14.db, INTENT, TX1, SawConfirmed(SEEN, CHARGED), 4) == Settled(TX1)
    ensures SettledBy(M14.db, 0, TX) && !SettledBy(M14.db, 0, TX1)
    ensures SLOT in M14.chain && M14.chain[SLOT].tx == TX1
  {
    assert LiveAt(OUTCOME.rows, 0, TxConfirmed, SUPERSEDED);
  }

  /** The request that admitted the intent gets its lease only after a worker has sent and
      replaced it, and finds the replacement's hash. */
  const TRY := A.Try(0, 0, A.Succeeds, 10, 0, A.Delivery(true, true, true), Http, 4)
  const LEASE := Protocol.Claim(0, 0, 5, 0, 4)
  const LEASED := REPLACED.(claim := Some(Ledger.Claim(0, 5)))
  const R8L := World(Just(LEASED), {HELD, HELD1}, {TX}, map[])
  const CONFIRMED := SawConfirmed(SEEN, CHARGED)

  lemma Leases()
    ensures Leads(R8, R8, LEASE, R8L) && Leads(R8L, R8L, Release(0, 0, 4), R8)
    ensures ClaimPayment(R8.db, 0, 0, 5, 0, 4).1 == Ok
  {
    assert [REPLACED][0 := LEASED] == [LEASED] && [LEASED][0 := REPLACED] == [REPLACED];
    assert REPLACED.(claim := Some(Ledger.Claim(0, 5)), updatedAt := 4) == LEASED;
    assert LEASED.(claim := None, updatedAt := 4) == REPLACED;
  }

  lemma FindsHeir(states: seq<World>, events: seq<Event>)
    requires |states| == |events| + 1 && |states| > 9 && states[9] == R8L
    ensures A.Loads(C, 5, states, events, [], 9, 0, TRY, HEIR, A.Sent(TX1))
  {
    assert R8L.db.payments == [LEASED] && LEASED.rows == [GONE_ROW, HEIR_ROW];
    assert FirstActive([GONE_ROW, HEIR_ROW]) == Some(1);
  }

  lemma AnswersHeir(states: seq<World>, events: seq<Event>)
    requires |states| == 17 && |events| == 16 && states[3] == W3 && states[8] == R8 && states[9] == R8L
    requires states[16] == M14 && events[3].act == Admit(REQUEST) && events[8].act == LEASE
    requires events[9].act == Release(0, 0, 4) && ClaimPayment(R8.db, 0, 0, 5, 0, 4).1 == Ok
    requires CreateIntent(W3.db, REQUEST).1 == Accept(INTENT, 3)
    requires RespondWithTx(M14.db, INTENT, TX1, CONFIRMED, 4) == Settled(TX1)
    ensures S.Settling(C, 5, states, events, [3, 8, 9], REQUEST, 5, TRY, CONFIRMED, Some(A.Sent(TX1)), Settled(TX1),
                       INTENT)
  {
    hide Just, CreateIntent, ClaimPayment, RespondWithTx, A.Loads;
    FindsHeir(states, events);
    var mine := [3, 8, 9][1..];
    assert mine == [8, 9] && mine[1..|mine| - 1] == [];
    assert A.Broadcasts(C, 5, states, events, mine, 0, 5, TRY, HEIR, A.Sent(TX1));
    assert S.AnswerOf(states[10].db, M14.db, INTENT, A.Sent(TX1), CONFIRMED, 4) == (Settled(TX1), INTENT);
  }

  /** A finalized original that the chain later gives up for its replacement: the one way
      an observation of the chain can contradict the recorded outcome. The settle request
      that holds the original's row id and the replacement's hash answers with a success the
      record does not carry. */
  lemma ContradictedOutcome() returns (states: seq<World>, events: seq<Event>)
    ensures GapRun(C, states, events) && |states| == |events| + 1 && states[|states| - 1] == M14
    ensures S.Settling(C, 5, states, events, [3, 8, 9], REQUEST, 5, TRY, CONFIRMED, Some(A.Sent(TX1)), Settled(TX1),
                       INTENT)
    ensures SettledBy(M14.db, 0, TX) && !SettledBy(M14.db, 0, TX1) && SLOT in M14.chain && M14.chain[SLOT].tx == TX1
  {
    Replaces();
    Leases();
    SendsBoth();
    Lands();
    Ends();
    Reorganizes();
    WrongHash();
    FirstAccepted();
    hide Leads, Run, Just, SettledBy, RespondWithTx, CreateIntent, ClaimPayment, S.Settling;
    states, events := Reaches();
    states, events := Goes(states, events, 7, W7, W7, BUMP, R8);
    states, events := Goes(states, events, 8, R8, R8, LEASE, R8L);
    states, events := Goes(states, events, 9, R8L, R8L, Release(0, 0, 4), R8);
    states, events := Goes(states, events, 10, R8, R8, Send(HELD1), M9);
    states, events := Goes(states, events, 11, M9, M9, Mine(TX, CHARGED), M10);
    states, events := Goes(states, events, 12, M10, M10, LAND, M11);
    states, events := Goes(states, events, 13, M11, M11, END, M12);
    states, events := Goes(states, events, 14, M12, M12, Unmine(SLOT), M13);
    states, events := Goes(states, events, 15, M13, M13, Mine(TX1, CHARGED), M14);
    NothingPrepared(states, events);
    AnswersHeir(states, events);
  }

  // -------------------------------------------- an answer from another's work

  const HELD_UP := BROADCAST.(claim := Some(Ledger.Claim(1, 5)))
  const W7L := World(Just(HELD_UP), {HELD}, {TX}, map[])
  const WAIT := A.Try(0, 0, A.Succeeds, 10, 0, A.Delivery(true, true, true), Http, 3)

  lemma WorkerLeases()
    ensures Leads(W7, W7, Protocol.Claim(0, 1, 5, 0, 3), W7L) && Leads(W7L, W7L, Release(0, 1, 3), W7)
    ensures Leads(W7L, W7L, Protocol.Claim(0, 0, 5, 0, 3), W7L) && ClaimPayment(W7L.db, 0, 0, 5, 0, 3).1 == Race
  {
    hide ClaimPayment, ReleaseLease, Just;
    LeasesWork();
  }

  lemma LeasesWork()
    ensures ClaimPayment(Just(BROADCAST), 0, 1, 5, 0, 3) == (Just(HELD_UP), Ok)
    ensures ClaimPayment(Just(HELD_UP), 0, 0, 5, 0, 3) == (Just(HELD_UP), Race)
    ensures ReleaseLease(Just(HELD_UP), 0, 1, 3) == (Just(BROADCAST), Ok)
  {
    assert [BROADCAST][0 := HELD_UP] == [HELD_UP] && [HELD_UP][0 := BROADCAST] == [BROADCAST];
    assert BROADCAST.(claim := Some(Ledger.Claim(1, 5)), updatedAt := 3) == HELD_UP;
    assert HELD_UP.(claim := None, updatedAt := 3) == BROADCAST;
  }

  lemma Reloads()
    ensures S.AnswerOf(W7L.db, W9.db, INTENT, A.InProgress, CONFIRMED, 3) == (Settled(TX), INTENT)
  {
    assert W7L.db.payments == [HELD_UP] && HELD_UP.rows == [SENT_ROW];
    assert FirstActive([SENT_ROW]) == Some(0);
  }

  lemma AnswersReloaded(states: seq<World>, events: seq<Event>)
    requires |states| == 13 && |events| == 12 && states[3] == W3 && states[8] == W7L && states[9] == W7L
    requires states[12] == W9 && events[3].act == Admit(REQUEST) && events[8].act == Protocol.Claim(0, 0, 5, 0, 3)
    requires ClaimPayment(W7L.db, 0, 0, 5, 0, 3).1 == Race && CreateIntent(W3.db, REQUEST).1 == Accept(INTENT, 3)
    requires S.AnswerOf(W7L.db, W9.db, INTENT, A.InProgress, CONFIRMED, 3) == (Settled(TX), INTENT)
    ensures S.Settling(C, 5, states, events, [3, 8], REQUEST, 5, WAIT, CONFIRMED, Some(A.InProgress), Settled(TX),
                       INTENT)
  {
    hide Just, CreateIntent, ClaimPayment, S.AnswerOf;
    assert [3, 8][1..] == [8];
    assert A.Broadcasts(C, 5, states, events, [8], 0, 5, WAIT, INTENT, A.InProgress);
  }

  /** A request that finds a worker at work reads the worker's hash, waits, and answers with
      the outcome the worker recorded meanwhile. */
  lemma AnswersAnothersWork() returns (states: seq<World>, events: seq<Event>)
    ensures GapRun(C, states, events) && |states| == |events| + 1 && states[|states| - 1] == W9
    ensures S.Settling(C, 5, states, events, [3, 8], REQUEST, 5, WAIT, CONFIRMED, Some(A.InProgress), Settled(TX),
                       INTENT)
    ensures SettledBy(W9.db, 0, TX)
  {
    WorkerLeases();
    Settles();
    EndsSettled();
    Reloads();
    FirstAccepted();
    hide Leads, Run, Just, SettledBy, CreateIntent, ClaimPayment, S.Settling, S.AnswerOf;
    states, events := Reaches();
    states, events := Goes(states, events, 7, W7, W7, Protocol.Claim(0, 1, 5, 0, 3), W7L);
    states, events := Goes(states, events, 8, W7L, W7L, Protocol.Claim(0, 0, 5, 0, 3), W7L);
    states, events := Goes(states, events, 9, W7L, W7L, Release(0, 1, 3), W7);
    states, events := Goes(states, events, 10, W7, W7, Mine(TX, CHARGED), W8);
    states, events := Goes(states, events, 11, W8, W8, SETTLE, W9);
    NothingPrepared(states, events);
    AnswersReloaded(states, events);
  }

  /** The block a wait saw is not compared with the one on record: whichever it was, the
      recorded success is answered. */
  lemma AnyBlockIsAnswered(block: Block, gas: Gas)
    ensures RespondWithTx(W9.db, INTENT, TX, SawConfirmed(block, gas), 5) == Settled(TX)
    ensures RowAt(W9.db, INTENT).block == Some(SEEN)
  {
    assert W9.db.payments == [SETTLED];
  }

  // ------------------------------------------------ a dropped signature, mined

  const LOST_BACK := Move(WithRows(LANDED, [ReorgedRow(LANDED_ROW, 6), LOST_ROW]), Broadcast, Worker, 6)
  const B12 := World(Just(LANDED), HANDS, {TX, TX1}, map[])
  const B13 := World(Just(LOST_BACK), HANDS, {TX, TX1}, map[])
  const B14 := World(Just(LOST_BACK), HANDS, {TX, TX1}, map[SLOT := Mined(TX1, CHARGED)])

  lemma GivesUp()
    ensures Leads(M11, M11, Unmine(SLOT), B12) && Leads(B13, B13, Mine(TX1, CHARGED), B14)
  {
    assert M11.chain - {SLOT} == map[];
  }

  lemma FallsBack()
    ensures Leads(B12, B12, ReorgOut(INTENT, Worker, 6), B13)
  {
    ReorgsLanded();
    hide MarkTxReorgedOut, Just;
  }

  lemma ReorgsLanded()
    ensures MarkTxReorgedOut(B12.db, INTENT, Worker, 6) == (Just(LOST_BACK), Ok)
  {
    assert [LANDED_ROW, LOST_ROW][0 := ReorgedRow(LANDED_ROW, 6)] == [ReorgedRow(LANDED_ROW, 6), LOST_ROW];
    assert Admissible(B12.db.payments, INTENT, ReorgedRow(LANDED_ROW, 6));
    assert [LANDED][0 := LOST_BACK] == [LOST_BACK];
  }

  lemma LostRow()
    ensures Hit(B14.db, HEIR, {TxDropped}) && RowAt(B14.db, HEIR).rawHash == Some(TX1)
    ensures B14.db.payments[0].state == Broadcast && SLOT in B14.chain && B14.chain[SLOT].tx == TX1
  {
    assert B14.db.payments == [LOST_BACK] && LOST_BACK.rows == [ReorgedRow(LANDED_ROW, 6), LOST_ROW];
  }

  /** A landed original is recorded at any depth. Where the chain gives it up for the
      replacement that was dropped, the chain pays and the payment waits: the transaction
      that was mined is recorded by no row that any query lists, now or later. */
  lemma DroppedIsMined() returns (states: seq<World>, events: seq<Event>)
    ensures GapRun(C, states, events) && states[|states| - 1] == B14
    ensures Hit(B14.db, HEIR, {TxDropped}) && RowAt(B14.db, HEIR).rawHash == Some(TX1) && Unlisted(B14.db, HEIR)
    ensures B14.db.payments[0].state == Broadcast && SLOT in B14.chain && B14.chain[SLOT].tx == TX1
  {
    Replaces();
    SendsBoth();
    Lands();
    GivesUp();
    FallsBack();
    LostRow();
    hide Leads, Run, Just, Hit, Unlisted;
    states, events := Reaches();
    states, events := Goes(states, events, 7, W7, W7, BUMP, R8);
    states, events := Goes(states, events, 8, R8, R8, Send(HELD1), M9);
    states, events := Goes(states, events, 9, M9, M9, Mine(TX, CHARGED), M10);
    states, events := Goes(states, events, 10, M10, M10, LAND, M11);
    states, events := Goes(states, events, 11, M11, M11, Unmine(SLOT), B12);
    states, events := Goes(states, events, 12, B12, B12, ReorgOut(INTENT, Worker, 6), B13);
    states, events := Goes(states, events, 13, B13, B13, Mine(TX1, CHARGED), B14);
    NothingPrepared(states, events);
    DroppedForGood(C, states, events, |states| - 1, |states| - 1, HEIR, TX1);
  }

  // ------------------------------------------ a re-signed original, reorganized out

  const TX2 := Signed(7, 3, Terms(100, 22, 2), 0, 5)
  const HELD2 := Held(8, HEIR, TX2, false)
  const DOUBT_ROW := StatusRow(SIGNED_ROW, TxAmbiguous, 3)
  const ORIGINAL := DOUBT_ROW.(status := TxReplaced, txHash := Some(TX), updatedAt := 4)
  const LINKED := ORIGINAL.(replacedBy := Some(1))
  const AGAIN_ROW := Heir(DOUBT_ROW, TX2, Some(Sighash(TX)), None, 4)
  const DOUBTED := Move(WithRows(ADMITTED, [DOUBT_ROW]), ManualReview, Worker, 3)
  const RESIGNED := Move(WithRows(DOUBTED, [LINKED, AGAIN_ROW]), Replaced, Worker, 4)
  const LANDED2 := Move(WithRows(RESIGNED, [ConfirmingRow(LINKED, SEEN, 5), StatusRow(AGAIN_ROW, TxDropped, 5)]),
                        Confirming, Worker, 5)
  const BACK_ROW := ReorgedRow(ConfirmingRow(LINKED, SEEN, 5), 6)
  const BACK := Move(WithRows(LANDED2, [BACK_ROW, StatusRow(AGAIN_ROW, TxDropped, 5)]), Broadcast, Worker, 6)
  const RESIGN := Resign(8, INTENT, 5, Worker, 4)
  const HANDS2: set<Held> := {HELD, HELD2}
  const D6 := World(Just(DOUBTED), {HELD}, {}, map[])
  const D7 := World(Just(RESIGNED), HANDS2, {}, map[])
  const D8 := World(Just(LANDED2), HANDS2, {}, map[])
  const D9 := World(Just(BACK), HANDS2, {}, map[])

  lemma Doubts()
    ensures Leads(W5, W5, RecordAmbiguous(INTENT, Worker, 3), D6)
  {
    OneRow(SIGNED, SIGNED_ROW, DOUBT_ROW);
    assert Admissible(W5.db.payments, INTENT, DOUBT_ROW);
    assert MarkTxAmbiguous(W5.db, INTENT, Worker, 3) == (Just(DOUBTED), Ok);
  }

  lemma SignsAgain()
    ensures Leads(D6, D6, RESIGN, D7)
  {
    assert DOUBTED.rows == [DOUBT_ROW];
    assert Signature(C, D6.db, RESIGN) == Some(TX2);
    OneRow(DOUBTED, DOUBT_ROW, ORIGINAL);
    assert CanSupersede(D6.db, INTENT, ORIGINAL, AGAIN_ROW) by {
      var mid := Commit(D6.db, 0, WithRows(DOUBTED, [ORIGINAL]));
      assert mid.payments == [WithRows(DOUBTED, [ORIGINAL])];
    }
    assert [DOUBT_ROW][0 := LINKED] + [AGAIN_ROW] == [LINKED, AGAIN_ROW];
    assert Supersede(DOUBTED, 0, ORIGINAL, AGAIN_ROW) == WithRows(DOUBTED, [LINKED, AGAIN_ROW]);
    assert MarkTxAmbiguousReplaced(D6.db, INTENT, TX2, Worker, 4) == (Just(RESIGNED), Ok);
  }

  lemma LandsAgain()
    ensures Leads(D7, D7, LAND, D8)
  {
    var gone := StatusRow(AGAIN_ROW, TxDropped, 5);
    assert DropActive(RESIGNED.rows, 5) == [LINKED, gone];
    assert [LINKED, gone][0 := ConfirmingRow(LINKED, SEEN, 5)] == [ConfirmingRow(LINKED, SEEN, 5), gone];
    assert ExactlyOneActive(RESIGNED.rows) by {
      assert Active(RESIGNED.rows[1]) && NoOtherActive(RESIGNED.rows, 1);
    }
    assert [RESIGNED][0 := LANDED2] == [LANDED2];
    assert MarkReplacementLanded(D7.db, INTENT, true, SEEN, CHARGED, Worker, 5) == (Just(LANDED2), Ok);
  }

  lemma FallsOut()
    ensures Leads(D8, D8, ReorgOut(INTENT, Worker, 6), D9)
  {
    var r, gone := ConfirmingRow(LINKED, SEEN, 5), StatusRow(AGAIN_ROW, TxDropped, 5);
    assert [r, gone][0 := BACK_ROW] == [BACK_ROW, gone];
    assert Admissible(D8.db.payments, INTENT, BACK_ROW);
    assert [LANDED2][0 := BACK] == [BACK];
    assert MarkTxReorgedOut(D8.db, INTENT, Worker, 6) == (Just(BACK), Ok);
  }

  lemma HasRoom()
    ensures Hit(D9.db, INTENT, {TxBroadcast}) && |D9.db.payments| == 1 && D9.db.payments[0] == BACK
    ensures BACK.state == Broadcast && RowAt(D9.db, INTENT).attemptedAt.None?
    ensures Bumped(C, RowAt(D9.db, INTENT), 0, 10, 0).Some?
  {
  }

  /** Signed, doubted, re-signed, landed after all and reorganized out: the original is the
      live row again, with room for a bump, and no cutoff ever selects it. */
  lemma ReorgedOriginalIsNeverBumped() returns (states: seq<World>, events: seq<Event>)
    ensures GapRun(C, states, events) && states[|states| - 1] == D9
    ensures Hit(D9.db, INTENT, {TxBroadcast}) && BACK.state == Broadcast &&
      Bumped(C, RowAt(D9.db, INTENT), 0, 10, 0).Some?
    ensures !Replaceable(C, D9.db, INTENT, 10)
  {
    Doubts();
    SignsAgain();
    LandsAgain();
    FallsOut();
    HasRoom();
    hide Leads, Run, Just, Bumped, Replaceable, Hit;
    states, events := Signed5();
    states, events := Goes(states, events, 5, W5, W5, RecordAmbiguous(INTENT, Worker, 3), D6);
    states, events := Goes(states, events, 6, D6, D6, RESIGN, D7);
    states, events := Goes(states, events, 7, D7, D7, LAND, D8);
    states, events := Goes(states, events, 8, D8, D8, ReorgOut(INTENT, Worker, 6), D9);
    NothingPrepared(states, events);
    BumpedExactly(C, states, events, |states| - 1, INTENT, 10);
  }

  // --------------------------------------------------- a gap filled twice over

  const ASK0 := IntentRequest(1, 7, 6, 10, 2, 2, 60, 0, 1)
  const ASK1 := IntentRequest(2, 7, 16, 10, 2, 2, 60, 0, 1)
  const OTHER := NEW.(identity := 2, authorization := Some(15))
  const TAKEN0 := Admitted(NEW, ASK0, 3)
  const TAKEN1 := Admitted(OTHER, ASK1, 4)
  const LOG1 := [Attempt(Some(0), Accepted)]
  const LOG2 := [Attempt(Some(0), Accepted), Attempt(Some(1), Accepted)]

  /** The first payment in some stage, the second admitted behind it. */
  function Behind(P: Payment): Db { Db([P, TAKEN1], map[7 := 5], {4}, LOG2) }

  const G4 := World(Db([NEW, OTHER], map[7 := 3], {4}, []), {}, {}, map[])
  const G5 := World(Db([TAKEN0, OTHER], map[7 := 4], {4}, LOG1), {}, {}, map[])
  const G6 := World(Behind(TAKEN0), {}, {}, map[])

  lemma VerifiesOther()
    ensures Leads(W3, W3, Verify(2, 15, Some(4), 1000, 0), G4)
  {
    assert Lookup([NEW][1..], 2).None?;
    assert [NEW] + [OTHER] == [NEW, OTHER];
  }

  lemma AdmitsFirst()
    ensures Leads(G4, G4, Admit(ASK0), G5)
  {
    var db := G4.db;
    assert Lookup(db.payments, 1) == Some(0);
    assert Requested(db.payments, 1 - 60) == {} && RequestedFor(db.payments, 4, 1 - 60) == {};
    assert Refusal(db, NEW, ASK0).None? && FirstActive([]).None?;
    assert Terminal(NEW).None? && Signable(db, NEW, ASK0) && ValidRequest(ASK0);
    assert Accepting(db, 0, ASK0) == G5.db by {
      assert db.payments[0 := TAKEN0] == [TAKEN0, OTHER];
      assert db.nextNonce[7 := 4] == map[7 := 4];
      assert db.attempts + [Attempt(Some(0), Accepted)] == LOG1;
    }
    assert CreateIntent(db, ASK0) == (G5.db, Accept(INTENT, 3));
  }

  lemma AdmitsSecond()
    ensures Leads(G5, G5, Admit(ASK1), G6)
  {
    var db := G5.db;
    assert Lookup(db.payments[1..], 2) == Some(0);
    assert Lookup(db.payments, 2) == Some(1);
    assert Requested(db.payments, 1 - 60) == {0} && RequestedFor(db.payments, 4, 1 - 60) == {0};
    assert Refusal(db, OTHER, ASK1).None? && FirstActive([]).None?;
    assert Terminal(OTHER).None? && Signable(db, OTHER, ASK1) && ValidRequest(ASK1);
    assert Accepting(db, 1, ASK1) == G6.db by {
      assert db.payments[1 := TAKEN1] == [TAKEN0, TAKEN1];
      assert db.nextNonce[7 := 5] == map[7 := 5];
      assert db.attempts + [Attempt(Some(1), Accepted)] == LOG2;
    }
    assert CreateIntent(db, ASK1) == (G6.db, Accept(TxRef(1, 0), 4));
  }

  const F0 := Signed(7, 3, Terms(100, 22, 2), 0, 1)
  const F1 := Signed(7, 3, Terms(100, 25, 3), 0, 1)
  const F2 := Signed(7, 3, Terms(100, 22, 2), 0, 2)
  const GAP_ROW := StatusRow(ROW, TxDropped, 2)
  const FILL_ROW := FillerRow(GAP_ROW, F0, 3)
  const STALE_ROW := StatusRow(FILL_ROW, TxReplaced, 4).(replacedBy := Some(1))
  const NEXT_ROW := Heir(FILL_ROW, F1, None, Some(F1), 4)
  const MINED_ROW := RevertedRow(NEXT_ROW, CHARGED, 5)
  const FREED_ROW := StatusRow(STALE_ROW, TxDropped, 5)
  const LATE_ROW := FillerRow(FREED_ROW, F2, 6)
  /** The first payment, retired before anything was signed. */
  function Lapsed(to: State): Payment { Move(WithRows(TAKEN0, [GAP_ROW]), to, Worker, 2) }

  function Filled(to: State): Payment { WithRows(Lapsed(to), [FILL_ROW]) }

  const LAPSED := Lapsed(Expired)
  const FILLED := Filled(Expired)
  const REFILLED := WithRows(LAPSED, [STALE_ROW, NEXT_ROW])
  const CLOSED := WithRows(LAPSED, [FREED_ROW, MINED_ROW])
  const OVERWRITTEN := WithRows(LAPSED, [LATE_ROW, MINED_ROW])
  const HOLD0 := Held(8, INTENT, F0, false)
  const HOLD1 := Held(8, HEIR, F1, false)
  const HOLD2 := Held(8, INTENT, F2, false)
  const FILL := Prepare(8, INTENT, 1000, 10, 1, 3)
  const REFILL := BumpFiller(8, INTENT, 4, 10, 1, 4)
  const LATE := Prepare(8, INTENT, 1000, 10, 2, 6)
  const G7 := World(Behind(LAPSED), {}, {}, map[])
  const G8 := World(Behind(FILLED), {HOLD0}, {}, map[])
  const G9 := World(Behind(FILLED), {HOLD0}, {F0}, map[])
  const G10 := World(Behind(REFILLED), {HOLD0, HOLD1}, {F0}, map[])
  const G11 := World(Behind(CLOSED), {HOLD0, HOLD1}, {F0}, map[])
  const G12 := World(Behind(OVERWRITTEN), {HOLD0, HOLD1, HOLD2}, {F0}, map[])

  lemma Swaps(P: Payment, Q: Payment)
    ensures Commit(Behind(P), 0, Q) == Behind(Q)
  {
    assert [P, TAKEN1][0 := Q] == [Q, TAKEN1];
  }

  /** The three worlds around filling the gap. */
  function Retired0(to: State): World { World(Behind(Lapsed(to)), {}, {}, map[]) }

  function Prepared0(to: State): World { World(Behind(Filled(to)), {HOLD0}, {}, map[]) }

  function Sent0(to: State): World { World(Behind(Filled(to)), {HOLD0}, {F0}, map[]) }

  lemma Lapses(to: State)
    requires to in {Expired, State.Failed}
    ensures Leads(G6, G6, Retire(INTENT, to, Worker, 2), Retired0(to))
  {
    hide RetireIntent, Behind;
    Retires(to);
  }

  lemma Retires(to: State)
    ensures RetireIntent(Behind(TAKEN0), INTENT, to, Worker, 2) == (Behind(Lapsed(to)), Ok)
  {
    assert TAKEN0.rows == [ROW] && [ROW][0 := GAP_ROW] == [GAP_ROW];
    assert Admissible(Behind(TAKEN0).payments, INTENT, GAP_ROW);
    Swaps(TAKEN0, Lapsed(to));
  }

  lemma IsBlocking(to: State)
    requires to in {Expired, State.Failed}
    ensures BlockingGap(Behind(Lapsed(to)), 7, 1000, INTENT)
  {
    var db := Behind(Lapsed(to));
    assert TAKEN1.rows == [IntentRow(7, 4, 1)];
    assert Active(db.payments[1].rows[0]) && LaterInFlight(db, 7, 3);
  }

  lemma Fills(to: State)
    requires to in {Expired, State.Failed}
    ensures Leads(Retired0(to), Retired0(to), FILL, Prepared0(to))
    ensures Leads(Prepared0(to), Prepared0(to), Send(HOLD0), Sent0(to))
  {
    hide BlockingGap, MarkGapFillerPrepared, Signature, Behind, Lapsed, Filled;
    IsBlocking(to);
    PreparesFiller(to);
  }

  lemma PreparesFiller(to: State)
    requires BlockingGap(Behind(Lapsed(to)), 7, 1000, INTENT)
    ensures Signature(C, Behind(Lapsed(to)), FILL) == Some(F0)
    ensures MarkGapFillerPrepared(Behind(Lapsed(to)), INTENT, F0, 3) == (Behind(Filled(to)), Ok)
  {
    hide BlockingGap;
    var db := Behind(Lapsed(to));
    assert [GAP_ROW][0 := FILL_ROW] == [FILL_ROW] && TAKEN1.rows == [IntentRow(7, 4, 1)];
    assert Admissible(db.payments, INTENT, FILL_ROW);
    Swaps(Lapsed(to), Filled(to));
  }

  lemma Refills()
    ensures Leads(G9, G9, REFILL, G10)
  {
    var gone := StatusRow(FILL_ROW, TxReplaced, 4);
    assert StuckFiller(G9.db, 7, 4, INTENT) && Signature(C, G9.db, REFILL) == Some(F1);
    CanRefill();
    hide CanSupersede;
    assert [FILL_ROW][0 := STALE_ROW] + [NEXT_ROW] == [STALE_ROW, NEXT_ROW];
    assert Supersede(FILLED, 0, gone, NEXT_ROW) == REFILLED;
    Swaps(FILLED, REFILLED);
    assert MarkGapFillerReplaced(G9.db, INTENT, F1, 4) == (G10.db, Ok);
  }

  lemma CanRefill()
    ensures CanSupersede(G9.db, INTENT, StatusRow(FILL_ROW, TxReplaced, 4), NEXT_ROW)
  {
    var gone := StatusRow(FILL_ROW, TxReplaced, 4);
    assert TAKEN1.rows == [IntentRow(7, 4, 1)] && [FILL_ROW][0 := gone] == [gone];
    Swaps(FILLED, WithRows(FILLED, [gone]));
  }

  lemma Closes()
    ensures Leads(G10, G10, Resolve(HEIR, CHARGED, 5), G11)
  {
    assert WatchedFiller(G10.db, HEIR);
    assert [STALE_ROW, NEXT_ROW][1 := MINED_ROW] == [STALE_ROW, MINED_ROW];
    assert TAKEN1.rows == [IntentRow(7, 4, 1)];
    assert Admissible(G10.db.payments, HEIR, MINED_ROW);
    assert DropSiblings([STALE_ROW, MINED_ROW], 1, 5) == [FREED_ROW, MINED_ROW];
    Swaps(REFILLED, CLOSED);
    assert MarkGapFillerResolved(G10.db, HEIR, CHARGED, 5) == (G11.db, Ok);
  }

  lemma Overwrites()
    ensures Leads(G7, G11, LATE, G12)
  {
    IsBlocking(Expired);
    hide BlockingGap;
    assert Signature(C, G7.db, LATE) == Some(F2);
    assert [FREED_ROW, MINED_ROW][0 := LATE_ROW] == [LATE_ROW, MINED_ROW];
    assert TAKEN1.rows == [IntentRow(7, 4, 1)];
    assert Admissible(G11.db.payments, INTENT, LATE_ROW);
    Swaps(CLOSED, OVERWRITTEN);
    assert MarkGapFillerPrepared(G11.db, INTENT, F2, 6) == (G12.db, Ok);
  }

  /** Two intents, one behind the other. */
  lemma GapOpens() returns (states: seq<World>, events: seq<Event>)
    ensures Run(C, states, events) && |states| == 7 && |events| == 6 && states[6] == G6
    ensures forall k | 0 <= k < 6 :: !events[k].act.Prepare?
  {
    Opens();
    Verifies();
    VerifiesOther();
    AdmitsFirst();
    AdmitsSecond();
    Starts();
    hide Leads, Run, Behind, Just;
    states, events := [INIT], [];
    states, events := Goes(states, events, 0, INIT, INIT, SetMerchants({4}), W1);
    states, events := Goes(states, events, 1, W1, W1, Seed(7, 3), W2);
    states, events := Goes(states, events, 2, W2, W2, VERIFY, W3);
    states, events := Goes(states, events, 3, W3, W3, Verify(2, 15, Some(4), 1000, 0), G4);
    states, events := Goes(states, events, 4, G4, G4, Admit(ASK0), G5);
    states, events := Goes(states, events, 5, G5, G5, Admit(ASK1), G6);
  }

  /** The first one retired, and its gap filled. */
  lemma GapFills(to: State) returns (states: seq<World>, events: seq<Event>)
    requires to in {Expired, State.Failed}
    ensures Run(C, states, events) && |states| == 10 && |events| == 9
    ensures states[7] == Retired0(to) && states[9] == Sent0(to)
    ensures events[7] == Event(7, FILL) && forall k | 0 <= k < 9 && k != 7 :: !events[k].act.Prepare?
  {
    hide Leads, Run, Behind, Retired0, Prepared0, Sent0;
    Lapses(to);
    Fills(to);
    states, events := GapOpens();
    var a, b, d := Retired0(to), Prepared0(to), Sent0(to);
    states, events := Goes(states, events, 6, G6, G6, Retire(INTENT, to, Worker, 2), a);
    states, events := Goes(states, events, 7, a, a, FILL, b);
    states, events := Goes(states, events, 8, b, b, Send(HOLD0), d);
  }

  /** And bumped. */
  lemma GapRefills() returns (states: seq<World>, events: seq<Event>)
    ensures Run(C, states, events) && |states| == 11 && |events| == 10
    ensures states[7] == G7 && states[10] == G10
    ensures events[7] == Event(7, FILL) && forall k | 0 <= k < 10 && k != 7 :: !events[k].act.Prepare?
  {
    Refills();
    states, events := GapFills(Expired);
    assert states[7] == G7 && states[9] == G9;
    hide Leads, Run, Behind, Just;
    states, events := Goes(states, events, 9, G9, G9, REFILL, G10);
  }

  /** And closed. */
  lemma GapCloses() returns (states: seq<World>, events: seq<Event>)
    ensures Run(C, states, events) && |states| == 12 && |events| == 11
    ensures states[7] == G7 && states[10] == G10 && states[11] == G11
    ensures events[7] == Event(7, FILL) && forall k | 0 <= k < 11 && k != 7 :: !events[k].act.Prepare?
  {
    Closes();
    hide Leads, Run, Behind, Just;
    states, events := GapRefills();
    states, events := Goes(states, events, 10, G10, G10, Resolve(HEIR, CHARGED, 5), G11);
  }

  /** A retired payment whose gap took two fillers: long after every date has passed it is
      still not erasable, at any cutoff. */
  lemma TwoFillersKeepThePayment() returns (states: seq<World>, events: seq<Event>)
    ensures GapRun(C, states, events) && states[|states| - 1] == G11 && G11.db.payments[0] == CLOSED
    ensures Retired(CLOSED) && Overdue(CLOSED, 2000) && forall cutoff: Time :: !Redactable(CLOSED, cutoff)
  {
    states, events := GapCloses();
    assert RowAt(G7.db, INTENT).rawHash.None?;
    hide Run, Just;
    OneFillPrepared(states, events);
    assert CLOSED.rows[0].status == TxDropped;
  }

  lemma OneFillPrepared(states: seq<World>, events: seq<Event>)
    requires Run(C, states, events) && |events| > 7 && |states| > 7 && Hit(states[7].db, INTENT, {TxDropped})
    requires events[7] == Event(7, FILL) && forall k | 0 <= k < |events| && k != 7 :: !events[k].act.Prepare?
    requires RowAt(states[7].db, INTENT).rawHash.None?
    ensures GapRun(C, states, events)
  {
    hide Apply, Enabled, Behind;
  }

  const GM := World(Behind(REFILLED), {HOLD0, HOLD1}, {F0}, map[SLOT := Mined(F0, CHARGED)])

  lemma MinesSuperseded()
    ensures Leads(G10, G10, Mine(F0, CHARGED), GM)
  {
  }

  lemma RefusesSuperseded(block: Block, gas: Gas, actor: Actor, now: Time)
    ensures WatchedFiller(GM.db, INTENT) && RowAt(GM.db, INTENT).rawHash == Some(F0)
    ensures MarkGapFillerSucceeded(GM.db, INTENT, block, gas, actor, now) == (GM.db, Constraint)
  {
    assert GM.db.payments[0].rows == [STALE_ROW, NEXT_ROW] && Active(GM.db.payments[0].rows[1]);
    assert !NoOtherActive(GM.db.payments[0].rows, 0);
  }

  /** The filler the chain took was superseded before it was seen: escalating it is refused
      for good, though the payment expired and is watched. */
  lemma SupersededFillerIsRefused() returns (states: seq<World>, events: seq<Event>)
    ensures GapRun(C, states, events) && states[|states| - 1] == GM && SLOT in GM.chain && GM.chain[SLOT].tx == F0
    ensures WatchedFiller(GM.db, INTENT) && RowAt(GM.db, INTENT).rawHash == Some(F0)
    ensures forall block: Block, gas: Gas, actor: Actor, now: Time ::
      MarkGapFillerSucceeded(GM.db, INTENT, block, gas, actor, now) == (GM.db, Constraint)
  {
    hide Leads, Run, Behind, WatchedFiller, MarkGapFillerSucceeded;
    forall block: Block, gas: Gas, actor: Actor, now: Time
      ensures MarkGapFillerSucceeded(GM.db, INTENT, block, gas, actor, now) == (GM.db, Constraint)
    {
      RefusesSuperseded(block, gas, actor, now);
    }
    RefusesSuperseded(SEEN, CHARGED, Worker, 0);
    MinesSuperseded();
    GapIsThere(Expired);
    states, events := GapRefills();
    states, events := Goes(states, events, 10, G10, G10, Mine(F0, CHARGED), GM);
    OneFillPrepared(states, events);
  }

  lemma GapIsThere(to: State)
    ensures Hit(Retired0(to).db, INTENT, {TxDropped}) && RowAt(Retired0(to).db, INTENT).rawHash.None?
  {
  }

  const FM := World(Behind(Filled(State.Failed)), {HOLD0}, {F0}, map[SLOT := Mined(F0, CHARGED)])

  lemma MinesFailed()
    ensures Leads(Sent0(State.Failed), Sent0(State.Failed), Mine(F0, CHARGED), FM)
  {
  }

  lemma RefusesFailed(block: Block, gas: Gas, actor: Actor, now: Time)
    ensures WatchedFiller(FM.db, INTENT) && RowAt(FM.db, INTENT).rawHash == Some(F0)
    ensures MarkGapFillerSucceeded(FM.db, INTENT, block, gas, actor, now) == (FM.db, Race)
  {
    assert FM.db.payments[0].rows == [FILL_ROW] && TAKEN1.rows == [IntentRow(7, 4, 1)];
  }

  /** The same for the only filler of a failed payment. */
  lemma FailedFillerIsRefused() returns (states: seq<World>, events: seq<Event>)
    ensures GapRun(C, states, events) && states[|states| - 1] == FM && SLOT in FM.chain && FM.chain[SLOT].tx == F0
    ensures WatchedFiller(FM.db, INTENT) && RowAt(FM.db, INTENT).rawHash == Some(F0)
    ensures forall block: Block, gas: Gas, actor: Actor, now: Time ::
      MarkGapFillerSucceeded(FM.db, INTENT, block, gas, actor, now) == (FM.db, Race)
  {
    hide Leads, Run, Behind, WatchedFiller, MarkGapFillerSucceeded, Retired0, Sent0, Lapsed, Filled, Hit;
    forall block: Block, gas: Gas, actor: Actor, now: Time
      ensures MarkGapFillerSucceeded(FM.db, INTENT, block, gas, actor, now) == (FM.db, Race)
    {
      RefusesFailed(block, gas, actor, now);
    }
    RefusesFailed(SEEN, CHARGED, Worker, 0);
    MinesFailed();
    GapIsThere(State.Failed);
    states, events := GapFills(State.Failed);
    states, events := Goes(states, events, 9, Sent0(State.Failed), Sent0(State.Failed), Mine(F0, CHARGED), FM);
    OneFillPrepared(states, events);
  }

  // -------------------------------------------------- a closed gap, open again

  const O11 := World(Behind(REFILLED), {HOLD0, HOLD1}, {F0, F1}, map[])
  const O12 := World(Behind(REFILLED), {HOLD0, HOLD1}, {F0, F1}, map[SLOT := Mined(F1, CHARGED)])
  const O13 := World(Behind(CLOSED), {HOLD0, HOLD1}, {F0, F1}, map[SLOT := Mined(F1, CHARGED)])
  const O14 := World(Behind(CLOSED), {HOLD0, HOLD1}, {F0, F1}, map[])

  lemma Reopens()
    ensures Leads(G10, G10, Send(HOLD1), O11) && Leads(O11, O11, Mine(F1, CHARGED), O12)
    ensures Leads(O13, O13, Unmine(SLOT), O14)
  {
    assert O13.chain - {SLOT} == map[];
  }

  lemma ClosesMined()
    requires Leads(G10, G10, Resolve(HEIR, CHARGED, 5), G11)
    ensures Leads(O12, O12, Resolve(HEIR, CHARGED, 5), O13)
  {
    hide Behind, MarkGapFillerResolved;
    assert O12.db == G10.db && O13.db == G11.db;
  }

  lemma NothingLeft()
    ensures O14.db.payments[0] == CLOSED && Consumed(CLOSED.rows) && PaymentSlot(CLOSED) == SLOT
    ensures LaterInFlight(O14.db, 7, 3)
  {
    assert CLOSED.rows[1].status == TxReverted;
    assert TAKEN1.rows == [IntentRow(7, 4, 1)];
    assert Active(O14.db.payments[1].rows[0]);
  }

  /** A gap is closed on a receipt of any depth. Where the chain gives the filler up, the
      nonce is free again, another intent waits behind it, and no query lists it any more. */
  lemma ClosedGapReopens() returns (states: seq<World>, events: seq<Event>)
    ensures GapRun(C, states, events) && states[|states| - 1] == O14 && O14.db.payments[0] == CLOSED
    ensures PaymentSlot(CLOSED) !in O14.chain && LaterInFlight(O14.db, 7, 3)
    ensures Consumed(CLOSED.rows) && forall i: nat :: Unlisted(O14.db, TxRef(0, i))
  {
    Reopens();
    Closes();
    ClosesMined();
    NothingLeft();
    GapIsThere(Expired);
    hide Leads, Run, Behind, Just, Consumed, Unlisted, LaterInFlight;
    states, events := GapRefills();
    states, events := Goes(states, events, 10, G10, G10, Send(HOLD1), O11);
    states, events := Goes(states, events, 11, O11, O11, Mine(F1, CHARGED), O12);
    states, events := Goes(states, events, 12, O12, O12, Resolve(HEIR, CHARGED, 5), O13);
    states, events := Goes(states, events, 13, O13, O13, Unmine(SLOT), O14);
    OneFillPrepared(states, events);
    ConsumedForGood(C, states, events, |states| - 1, |states| - 1, 0);
  }

  lemma RecordIsGone()
    ensures F0 in G12.sent && !OnRecord(G12.db, F0)
  {
    assert TAKEN1.rows == [IntentRow(7, 4, 1)];
  }

  /** An actor that listed the gap before it was filled prepares it once more after it was
      closed: the call commits, and a transaction that was sent is no longer on record. */
  lemma LatePreparationLosesRecord() returns (states: seq<World>, events: seq<Event>)
    ensures Run(C, states, events) && states[|states| - 1] == G12
    ensures F0 in G12.sent && !OnRecord(G12.db, F0)
  {
    Overwrites();
    RecordIsGone();
    hide Leads, Run, Behind, OnRecord;
    states, events := GapCloses();
    states, events := Goes(states, events, 7, G7, G11, LATE, G12);
  }

  // ------------------------------------------------------------ a skewed clock

  const LATER := IntentRequest(2, 7, 16, 10, 1, 2, 60, 0, 10)
  const FRESH := OTHER.(validBefore := Some(5000), updatedAt := 5)
  const ERASED := Redact(SETTLED, 3000)
  const ADDED := Admitted(FRESH, LATER, 4)
  const CHAIN: map<Slot, Mined> := map[SLOT := Mined(TX, CHARGED)]
  const S10 := World(Db([SETTLED, FRESH], map[7 := 4], {4}, LOGGED), {HELD}, {TX}, CHAIN)
  const S11 := World(Db([ERASED, FRESH], map[7 := 4], {4}, LOGGED), {HELD}, {TX}, CHAIN)
  const S12 := World(Db([ERASED, ADDED], map[7 := 5], {4}, LOG2), {HELD}, {TX}, CHAIN)

  lemma VerifiesLater()
    ensures Leads(W9, W9, Verify(2, 15, Some(4), 5000, 5), S10)
  {
    assert Lookup([SETTLED][1..], 2).None?;
    assert [SETTLED] + [FRESH] == [SETTLED, FRESH];
  }

  lemma ErasesEarly()
    ensures Leads(S10, S10, Erase(0, 2000, 3000), S11)
  {
    assert [SETTLED, FRESH][0 := ERASED] == [ERASED, FRESH];
  }

  lemma AdmitsAgain()
    ensures Leads(S11, S11, Admit(LATER), S12)
  {
    var db := S11.db;
    assert Lookup(db.payments[1..], 2) == Some(0);
    assert Lookup(db.payments, 2) == Some(1);
    assert Requested(db.payments, 10 - 60) == {0} && RequestedFor(db.payments, 4, 10 - 60) == {};
    assert Refusal(db, FRESH, LATER).None? && FirstActive([]).None?;
    assert Terminal(FRESH).None? && Signable(db, FRESH, LATER) && ValidRequest(LATER);
    assert Accepting(db, 1, LATER) == S12.db by {
      assert db.payments[1 := ADDED] == [ERASED, ADDED];
      assert db.nextNonce[7 := 5] == map[7 := 5];
      assert db.attempts + [Attempt(Some(1), Accepted)] == LOG2;
    }
    assert CreateIntent(db, LATER) == (S12.db, Accept(TxRef(1, 0), 4));
  }

  /** Where erasure runs on a clock ahead of admission's, it can hide a payment from its
      merchant's count: two intents of one merchant are accepted inside one window, with a
      quota of one. */
  lemma SkewedClockOverfills() returns (states: seq<World>, events: seq<Event>)
    ensures GapRun(C, states, events) && |states| == 13 && |events| == 12 && Limited(events, 1, 2, 60)
    ensures AcceptedFor(states, events, 12, 4, 0, 60) == {0, 1} && Hidden(states, events, 11, 4, 10 - 60) == {0}
  {
    VerifiesLater();
    ErasesEarly();
    AdmitsAgain();
    Admits();
    FirstAccepted();
    SecondAccepted();
    hide Leads, Run, Just, CreateIntent;
    states, events := PaymentSettles();
    states, events := Goes(states, events, 9, W9, W9, Verify(2, 15, Some(4), 5000, 5), S10);
    states, events := Goes(states, events, 10, S10, S10, Erase(0, 2000, 3000), S11);
    states, events := Goes(states, events, 11, S11, S11, Admit(LATER), S12);
    NothingPrepared(states, events);
    BothAccepted(states, events);
  }

  lemma BothAccepted(states: seq<World>, events: seq<Event>)
    requires |states| == 13 && |events| == 12 && states[3] == W3 && states[11] == S11 && states[12] == S12
    requires events[3].act == Admit(REQUEST) && events[11].act == Admit(LATER)
    requires CreateIntent(W3.db, REQUEST).1 == Accept(INTENT, 3)
    requires CreateIntent(S11.db, LATER).1 == Accept(TxRef(1, 0), 4)
    requires forall k | 0 <= k < 12 && k != 3 && k != 11 :: !events[k].act.Admit?
    ensures AcceptedFor(states, events, 12, 4, 0, 60) == {0, 1} && Hidden(states, events, 11, 4, 10 - 60) == {0}
  {
    hide CreateIntent;
    assert AcceptedAt(states, events, 3, 0, 4) && AcceptedAt(states, events, 11, 1, 4);
    assert AcceptedWithin(states, events, 12, 0, 4, 0, 60) && AcceptedWithin(states, events, 12, 1, 4, 0, 60);
    assert AcceptedAfter(states, events, 11, 0, 4, 10 - 60);
  }

  lemma FirstAccepted()
    ensures CreateIntent(W3.db, REQUEST).1 == Accept(INTENT, 3) && |W3.db.payments| == 1 &&
      W3.db.payments[0].merchant == Some(4)
  {
    assert Requested(W3.db.payments, 1 - 60) == {} && RequestedFor(W3.db.payments, 4, 1 - 60) == {};
    assert Lookup(W3.db.payments, 1) == Some(0) && FirstActive([]).None?;
  }

  lemma SecondAccepted()
    ensures CreateIntent(S11.db, LATER).1 == Accept(TxRef(1, 0), 4) && |S12.db.payments| == 2 &&
      S11.db.payments[1].merchant == Some(4)
  {
    var db := S11.db;
    assert Lookup(db.payments[1..], 2) == Some(0);
    assert Requested(db.payments, 10 - 60) == {0} && RequestedFor(db.payments, 4, 10 - 60) == {};
    assert Lookup(db.payments, 2) == Some(1) && FirstActive([]).None?;
  }
}

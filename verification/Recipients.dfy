/** A merchant's recipient address, the wallet proofs behind it and the panel sessions
    that rest on them (internal/merchant/service.go, admin.go). */
module Recipients {
  import opened Ledger

  datatype Standing = Pending | Active | Suspended
  datatype Action = VerifyRecipient | ChangeRecipient | AuthenticateAdmin
  datatype Outcome = Done | NotFound | Invalid | Forbidden | Conflict | Throttled | Unauthorized

  datatype Challenge = Challenge(address: Address, action: Action, requestedAt: Time, expiresAt: Time,
                                 consumedAt: Option<Time>)
  datatype Session = Session(expiresAt: Time, revoked: bool, walletVerifiedAt: Option<Time>)
  datatype Proof = Proof(previous: Option<Address>, address: Address, requestedAt: Time, verifiedAt: Time,
                         challenge: nat)

  /** What a request proves: the message is the one issued, and who signed it. */
  datatype Evidence = Evidence(intact: bool, signedBy: Address)

  // --------------------------------------------------------------- invariants

  /** Each proof takes over from the address of the one before. */
  ghost predicate Unbroken(history: seq<Proof>)
  {
    && (history != [] ==> history[0].previous.None?)
    && (forall i | 0 < i < |history| ::
      history[i].previous == Some(history[i - 1].address) && history[i].address != history[i - 1].address)
  }

  ghost predicate Spaced(history: seq<Proof>, cooldown: nat) {
    forall i | 0 < i < |history| :: history[i - 1].verifiedAt + cooldown <= history[i].verifiedAt
  }

  /** Every proof rests on its own challenge, for its address, consumed by it. */
  ghost predicate Founded(history: seq<Proof>, challenges: map<nat, Challenge>)
  {
    && (forall i | 0 <= i < |history| ::
          && history[i].challenge in challenges
          && challenges[history[i].challenge].address == history[i].address
          && challenges[history[i].challenge].consumedAt == Some(history[i].verifiedAt))
    && (forall i, j | 0 <= i < j < |history| :: history[i].challenge != history[j].challenge)
  }

  /** The time of the last proof: max(verified_at). */
  function Latest(history: seq<Proof>): (latest: Option<Time>)
    ensures latest.None? <==> history == []
    ensures latest.Some? ==> forall i | 0 <= i < |history| :: history[i].verifiedAt <= latest.value
    ensures latest.Some? ==> exists i | 0 <= i < |history| :: history[i].verifiedAt == latest.value
  {
    if history == [] then None else
    var n := |history| - 1;
    var before := Latest(history[..n]);
    if before.Some? && before.value > history[n].verifiedAt then before else Some(history[n].verifiedAt)
  }

  predicate CoolingDown(history: seq<Proof>, cooldown: nat, now: Time) {
    Latest(history).Some? && now - Latest(history).value < cooldown
  }

  /** In a spaced history the cooldown runs from its last proof, and is over from its end on. */
  lemma CoolingExactly(history: seq<Proof>, cooldown: nat, now: Time)
    requires history != [] && Spaced(history, cooldown)
    ensures CoolingDown(history, cooldown, now) <==> now < history[|history| - 1].verifiedAt + cooldown
  {
    var i :| 0 <= i < |history| && history[i].verifiedAt == Latest(history).value;
    ProofsApart(history, cooldown, i, |history| - 1);
    assert (|history| - 1 - i) * cooldown >= 0;
  }

  /** Any two proofs are at least as many cooldowns apart as they are positions apart. */
  lemma {:induction false} ProofsApart(history: seq<Proof>, cooldown: nat, i: nat, j: nat)
    requires Spaced(history, cooldown) && i <= j < |history|
    ensures history[j].verifiedAt - history[i].verifiedAt >= (j - i) * cooldown
    decreases j - i
  {
    if i < j {
      ProofsApart(history, cooldown, i, j - 1);
      assert (j - i) * cooldown == (j - 1 - i) * cooldown + cooldown;
    }
  }

  /** An address a merchant left and came back to was proved again, on a later challenge,
      at least two cooldowns after. */
  lemma ReturnsAreProvedAgain(history: seq<Proof>, challenges: map<nat, Challenge>, cooldown: nat, i: nat, j: nat)
    requires Unbroken(history) && Spaced(history, cooldown) && Founded(history, challenges)
    requires i < j < |history| && history[i].address == history[j].address
    ensures history[i].challenge != history[j].challenge &&
      history[j].verifiedAt - history[i].verifiedAt >= 2 * cooldown
  {
    ProofsApart(history, cooldown, i, j);
    assert j >= i + 2 by { assert history[i + 1].address != history[i].address; }
    AtLeastTwice(j - i, cooldown);
  }

  lemma AtLeastTwice(n: nat, cooldown: nat)
    requires n >= 2
    ensures n * cooldown >= 2 * cooldown
  {
  }

  /** A proof on an unconsumed challenge, once the cooldown is over, extends the history. */
  lemma ProofExtends(history: seq<Proof>, challenges: map<nat, Challenge>, cooldown: nat, id: nat, now: Time)
    requires history != [] && Unbroken(history) && Spaced(history, cooldown) && Founded(history, challenges)
    requires !CoolingDown(history, cooldown, now)
    requires id in challenges && challenges[id].consumedAt.None? &&
      challenges[id].address != history[|history| - 1].address
    ensures var more := history +
      [Proof(Some(history[|history| - 1].address), challenges[id].address, challenges[id].requestedAt, now, id)];
      Unbroken(more) && Spaced(more, cooldown) &&
      Founded(more, challenges[id := challenges[id].(consumedAt := Some(now))])
  {
    assert forall i | 0 <= i < |history| :: history[i].challenge != id;
  }

  // ------------------------------------------------------------- one merchant

  class Account {
    const cooldown: nat
    var recipient: Address
    var status: Standing
    var emailVerified: bool
    var walletVerifiedAt: Option<Time>
    var challenges: map<nat, Challenge>
    var nextChallenge: nat
    var sessions: seq<Session>
    var history: seq<Proof>
    /** Whose signature last elevated each session. */
    ghost var provers: seq<Address>

    constructor (recipient: Address, cooldown: nat)
      ensures Recorded() && Rested() && this.recipient == recipient && this.cooldown == cooldown && status == Pending &&
        history == []
    {
      this.cooldown, this.recipient := cooldown, recipient;
      status, emailVerified, walletVerifiedAt := Pending, false, None;
      challenges, nextChallenge, sessions, history, provers := map[], 0, [], [], [];
    }

    /** The history is complete, and ends at the recipient in force. */
    ghost predicate Recorded()
      reads this
    {
      && Unbroken(history) && Spaced(history, cooldown) && Founded(history, challenges)
      && (walletVerifiedAt.Some? <==> history != [])
      && (history != [] ==>
        history[|history| - 1].address == recipient && walletVerifiedAt == Some(history[|history| - 1].verifiedAt))
      && (status == Pending <==> walletVerifiedAt.None?)
      && (forall k | k in challenges :: k < nextChallenge)
    }

    /** Every elevated session rests on a signature by the recipient in force. */
    ghost predicate Rested()
      reads this
    {
      && |provers| == |sessions|
      && forall i | 0 <= i < |sessions| && sessions[i].walletVerifiedAt.Some? ::
        walletVerifiedAt.Some? && provers[i] == recipient
    }

    /** AuthenticateAdmin's test for a wallet-elevated session. */
    predicate Elevated(i: nat)
      requires i < |sessions|
      reads this
    {
      && walletVerifiedAt.Some? && sessions[i].walletVerifiedAt.Some?
      && sessions[i].walletVerifiedAt.value >= walletVerifiedAt.value
    }

    predicate Live(i: nat, now: Time)
      reads this
    {
      i < |sessions| && !sessions[i].revoked && now < sessions[i].expiresAt
    }

    // ------------------------------------------------------------- challenges

    method PersistChallenge(address: Address, action: Action, now: Time, ttl: nat) returns (id: nat)
      requires Recorded() && Rested()
      modifies this`challenges, this`nextChallenge
      ensures Recorded() && Rested()
      ensures id == old(nextChallenge) && id !in old(challenges)
      ensures challenges == old(challenges)[id := Challenge(address, action, now, now + ttl, None)]
    {
      id := nextChallenge;
      challenges := challenges[id := Challenge(address, action, now, now + ttl, None)];
      nextChallenge := nextChallenge + 1;
    }

    /** PendingRecipientChallenge: before activation the address may still be replaced,
        which defeats every older verification challenge. */
    method PendingRecipientChallenge(address: Address, now: Time, ttl: nat) returns (outcome: Outcome, id: nat)
      requires Recorded() && Rested()
      modifies this`challenges, this`nextChallenge, this`recipient
      ensures Recorded() && Rested()
      ensures outcome == if status == Pending && emailVerified && walletVerifiedAt.None? then Done else Forbidden
      ensures outcome != Done ==> recipient == old(recipient) && challenges == old(challenges)
      ensures outcome == Done ==> recipient == address && history == [] && id == old(nextChallenge)
      ensures outcome == Done ==>
        challenges == old(challenges)[id := Challenge(address, Action.VerifyRecipient, now, now + ttl, None)]
    {
      id := 0;
      if status != Pending || !emailVerified || walletVerifiedAt.Some? { return Forbidden, id; }
      if recipient != address { recipient := address; }
      id := PersistChallenge(address, Action.VerifyRecipient, now, ttl);
      return Done, id;
    }

    /** Retention forgets the expired challenges of a batch that no proof rests on. */
    method ForgetChallenges(batch: set<nat>, cutoff: Time)
      requires Recorded() && Rested()
      modifies this`challenges
      ensures Recorded() && Rested()
      ensures forall k :: k in challenges <==>
        (k in old(challenges) && (k !in batch || old(challenges)[k].expiresAt >= cutoff || RestsOn(k)))
      ensures forall k | k in challenges :: challenges[k] == old(challenges)[k]
    {
      challenges := map k |
        k in challenges && (k !in batch || challenges[k].expiresAt >= cutoff || RestsOn(k)) :: challenges[k];
    }

    predicate RestsOn(k: nat)
      reads this
    {
      exists i | 0 <= i < |history| :: history[i].challenge == k
    }

    // ----------------------------------------------------------------- proofs

    /** What verifyWallet checks before it looks at the merchant. */
    predicate Presented(id: nat, evidence: Evidence, action: Action, now: Time)
      reads this
    {
      && id in challenges && challenges[id].consumedAt.None? && evidence.intact
      && challenges[id].action == action && now < challenges[id].expiresAt &&
        evidence.signedBy == challenges[id].address
    }

    /** The first proof activates the merchant. */
    method VerifyRecipient(id: nat, evidence: Evidence, now: Time) returns (outcome: Outcome)
      requires Recorded() && Rested()
      modifies this`challenges, this`history, this`status, this`walletVerifiedAt
      ensures Recorded() && Rested()
      ensures outcome == Done <==>
        && old(Presented(id, evidence, Action.VerifyRecipient, now))
        && old(status) == Pending && emailVerified && old(challenges)[id].address == recipient
      ensures outcome != Done ==>
        challenges == old(challenges) && history == old(history) && status == old(status) &&
        walletVerifiedAt == old(walletVerifiedAt)
      ensures outcome == Done ==>
        evidence.signedBy == recipient && status == Active && history == [Proof(None, recipient, now, now, id)]
      ensures outcome == Done ==>
        && challenges == old(challenges)[id := old(challenges)[id].(consumedAt := Some(now))]
        && walletVerifiedAt == Some(now)
      ensures outcome == NotFound <==> id !in challenges
    {
      if id !in challenges { return NotFound; }
      var challenge := challenges[id];
      if challenge.consumedAt.Some? || !evidence.intact { return Invalid; }
      if challenge.action != Action.VerifyRecipient { return Forbidden; }
      if now >= challenge.expiresAt || evidence.signedBy != challenge.address { return Invalid; }
      if status != Pending || !emailVerified || walletVerifiedAt.Some? || recipient != challenge.address {
        return Forbidden;
      }
      challenges := challenges[id := challenge.(consumedAt := Some(now))];
      walletVerifiedAt, status := Some(now), Active;
      history := history + [Proof(None, challenge.address, now, now, id)];
      return Done;
    }

    /** The writes of a recipient change, with every elevation withdrawn. */
    method ApplyChange(id: nat, now: Time)
      requires Recorded() && Rested() && walletVerifiedAt.Some? && !CoolingDown(history, cooldown, now)
      requires id in challenges && challenges[id].consumedAt.None? && challenges[id].address != recipient
      modifies this`challenges, this`history, this`recipient, this`walletVerifiedAt, this`sessions
      ensures Recorded() && Rested()
      ensures recipient == old(challenges)[id].address && walletVerifiedAt == Some(now)
      ensures challenges == old(challenges)[id := old(challenges)[id].(consumedAt := Some(now))]
      ensures history == old(history) +
        [Proof(Some(old(recipient)), recipient, old(challenges)[id].requestedAt, now, id)]
      ensures |sessions| == |old(sessions)| &&
        forall i | 0 <= i < |sessions| :: sessions[i] == old(sessions)[i].(walletVerifiedAt := None)
    {
      ProofExtends(history, challenges, cooldown, id, now);
      hide Unbroken, Spaced, Founded;
      var challenge := challenges[id];
      challenges := challenges[id := challenge.(consumedAt := Some(now))];
      history := history + [Proof(Some(recipient), challenge.address, challenge.requestedAt, now, id)];
      recipient, walletVerifiedAt := challenge.address, Some(now);
      WithdrawElevations();
    }

    /** UPDATE merchant_admin_sessions SET wallet_verified_at = NULL. */
    method WithdrawElevations()
      modifies this`sessions
      ensures |sessions| == |old(sessions)| &&
        forall i | 0 <= i < |sessions| :: sessions[i] == old(sessions)[i].(walletVerifiedAt := None)
    {
      for i := 0 to |sessions|
        invariant |sessions| == |old(sessions)|
        invariant forall k | 0 <= k < |sessions| ::
          sessions[k] == if k < i then old(sessions)[k].(walletVerifiedAt := None) else old(sessions)[k]
      {
        if sessions[i].walletVerifiedAt.Some? { sessions := sessions[i := sessions[i].(walletVerifiedAt := None)]; }
      }
    }

    /** verifyWallet for change-recipient. */
    method ChangeRecipient(id: nat, evidence: Evidence, now: Time) returns (outcome: Outcome)
      requires Recorded() && Rested()
      modifies this`challenges, this`history, this`recipient, this`walletVerifiedAt, this`sessions
      ensures Recorded() && Rested()
      ensures outcome == Done <==>
        && old(Presented(id, evidence, Action.ChangeRecipient, now))
        && status == Active && old(challenges)[id].address != old(recipient) &&
          !CoolingDown(old(history), cooldown, now)
      ensures outcome != Done ==>
        challenges == old(challenges) && history == old(history) && recipient == old(recipient) &&
        sessions == old(sessions)
      ensures outcome == Done ==>
        && recipient == evidence.signedBy
        && history == old(history) + [Proof(Some(old(recipient)), recipient, old(challenges)[id].requestedAt, now, id)]
        && challenges == old(challenges)[id := old(challenges)[id].(consumedAt := Some(now))]
        && walletVerifiedAt == Some(now) && |sessions| == |old(sessions)|
        && (forall i | 0 <= i < |sessions| :: sessions[i] == old(sessions)[i].(walletVerifiedAt := None))
        && forall i | 0 <= i < |sessions| :: !Elevated(i)
      ensures outcome == NotFound <==> id !in old(challenges)
      ensures outcome == Throttled <==>
        && old(Presented(id, evidence, Action.ChangeRecipient, now))
        && status == Active && old(challenges)[id].address != old(recipient)
        && now < old(history)[|old(history)| - 1].verifiedAt + cooldown
      ensures outcome == Conflict <==>
        && old(Presented(id, evidence, Action.ChangeRecipient, now))
        && status == Active && old(challenges)[id].address == old(recipient)
    {
      if id !in challenges { return NotFound; }
      var challenge := challenges[id];
      if challenge.consumedAt.Some? || !evidence.intact { return Invalid; }
      if challenge.action != Action.ChangeRecipient { return Forbidden; }
      if now >= challenge.expiresAt || evidence.signedBy != challenge.address { return Invalid; }
      if status != Active || walletVerifiedAt.None? { return Forbidden; }
      if recipient == challenge.address { return Conflict; }
      CoolingExactly(history, cooldown, now);
      if CoolingDown(history, cooldown, now) { return Throttled; }
      ApplyChange(id, now);
      return Done;
    }

    // --------------------------------------------------------------- sessions

    method OpenSession(expiresAt: Time) returns (session: nat)
      requires Recorded() && Rested()
      modifies this`sessions, this`provers
      ensures Recorded() && Rested()
      ensures session == |old(sessions)| && sessions == old(sessions) + [Session(expiresAt, false, None)]
    {
      session := |sessions|;
      sessions, provers := sessions + [Session(expiresAt, false, None)], provers + [recipient];
    }

    method RevokeSession(session: nat)
      requires Recorded() && Rested()
      modifies this`sessions
      ensures Recorded() && Rested()
      ensures |sessions| == |old(sessions)| && forall i | 0 <= i < |sessions| ::
        sessions[i] == if i == session then old(sessions)[i].(revoked := true) else old(sessions)[i]
    {
      if session < |sessions| { sessions := sessions[session := sessions[session].(revoked := true)]; }
    }

    /** MarkAdminSessionWalletVerified, on the strength of a proof by `provenBy`. Alone it
        keeps sessions sound exactly when a proof is on record and that is still the recipient. */
    method MarkSession(session: nat, provenBy: Address, now: Time) returns (outcome: Outcome)
      requires Recorded() && Rested()
      modifies this`sessions, this`provers
      ensures outcome == if old(Live(session, now)) then Done else Unauthorized
      ensures outcome == Done <==>
        session < |old(sessions)| && !old(sessions)[session].revoked && now < old(sessions)[session].expiresAt
      ensures outcome != Done ==> sessions == old(sessions) && provers == old(provers)
      ensures Recorded()
      ensures outcome == Done ==>
        sessions == old(sessions)[session := old(sessions)[session].(walletVerifiedAt := Some(now))]
      ensures Rested() <==> outcome != Done || (walletVerifiedAt.Some? && provenBy == recipient)
    {
      if !Live(session, now) { return Unauthorized; }
      sessions := sessions[session := sessions[session].(walletVerifiedAt := Some(now))];
      provers := provers[session := provenBy];
      assert sessions[session].walletVerifiedAt.Some?;
      return Done;
    }

    /** The panel's activation: the proof and the elevation of the session that made it. */
    method ActivateFromPanel(session: nat, id: nat, evidence: Evidence, now: Time) returns (outcome: Outcome)
      requires Recorded() && Rested()
      modifies this
      ensures Recorded() && Rested() && recipient == old(recipient) && |sessions| == |old(sessions)|
      ensures outcome == Done ==> status == Active && evidence.signedBy == recipient
      ensures outcome == Done <==>
        && old(Presented(id, evidence, Action.VerifyRecipient, now))
        && old(status) == Pending && old(emailVerified) && old(challenges)[id].address == recipient
      ensures outcome == Done && old(Live(session, now)) ==> Elevated(session)
      ensures outcome != Done ==> sessions == old(sessions) && history == old(history)
    {
      outcome := VerifyRecipient(id, evidence, now);
      if outcome == Done {
        var marked := MarkSession(session, evidence.signedBy, now);
      }
    }

    /** VerifyAdminWallet: the recipient in force signs for this session. */
    method VerifyAdminWallet(session: nat, id: nat, evidence: Evidence, now: Time) returns (outcome: Outcome)
      requires Recorded() && Rested()
      modifies this`challenges, this`sessions, this`provers
      ensures Recorded() && Rested()
      ensures outcome == Done <==>
        && old(Presented(id, evidence, AuthenticateAdmin, now))
        && status == Active && evidence.signedBy == recipient && old(Live(session, now))
      ensures outcome != Done ==> challenges == old(challenges) && sessions == old(sessions)
      ensures outcome == Done ==>
        && sessions == old(sessions)[session := old(sessions)[session].(walletVerifiedAt := Some(now))]
        && challenges == old(challenges)[id := old(challenges)[id].(consumedAt := Some(now))]
      ensures outcome == NotFound <==> id !in old(challenges)
    {
      hide Unbroken, Spaced;
      if id !in challenges { return NotFound; }
      var challenge := challenges[id];
      if status != Active || recipient != challenge.address { return Forbidden; }
      if challenge.action != AuthenticateAdmin || challenge.consumedAt.Some? || now >= challenge.expiresAt
        || !evidence.intact
      {
        return Invalid;
      }
      if evidence.signedBy != challenge.address { return Invalid; }
      var saved := challenges;
      challenges := challenges[id := challenge.(consumedAt := Some(now))];
      outcome := MarkSession(session, evidence.signedBy, now);
      if outcome != Done { challenges := saved; }
    }

    /** VerifyAdminRecipientChange: an elevated session changes the recipient and is the
        only one left elevated, by the new recipient's signature. */
    method VerifyAdminRecipientChange(session: nat, id: nat, evidence: Evidence, now: Time) returns (outcome: Outcome)
      requires Recorded() && Rested()
      modifies this
      ensures Recorded() && Rested() && status == old(status) && emailVerified == old(emailVerified)
      ensures outcome == Done <==>
        && old(Presented(id, evidence, Action.ChangeRecipient, now))
        && old(Live(session, now)) && old(Elevated(session)) && status == Active
        && old(challenges)[id].address != old(recipient) && !CoolingDown(old(history), cooldown, now)
      ensures outcome != Done ==>
        challenges == old(challenges) && history == old(history) && recipient == old(recipient) &&
        sessions == old(sessions)
      ensures outcome == Done ==>
        && recipient == evidence.signedBy
        && history == old(history) + [Proof(Some(old(recipient)), recipient, old(challenges)[id].requestedAt, now, id)]
        && challenges == old(challenges)[id := old(challenges)[id].(consumedAt := Some(now))]
        && walletVerifiedAt == Some(now)
        && |sessions| == |old(sessions)| && forall i | 0 <= i < |sessions| :: Elevated(i) <==> i == session
      ensures outcome == NotFound <==> id !in old(challenges)
      ensures outcome == Throttled <==>
        && old(Presented(id, evidence, Action.ChangeRecipient, now))
        && old(Live(session, now)) && old(Elevated(session)) && status == Active
        && old(challenges)[id].address != old(recipient)
        && now < old(history)[|old(history)| - 1].verifiedAt + cooldown
    {
      hide Unbroken, Spaced, Founded;
      if id !in challenges { return NotFound; }
      var challenge := challenges[id];
      if !Live(session, now) { return Unauthorized; }
      if challenge.action != Action.ChangeRecipient || challenge.consumedAt.Some? || now >= challenge.expiresAt
        || !evidence.intact
      {
        return Invalid;
      }
      if evidence.signedBy != challenge.address { return Invalid; }
      if status != Active || !Elevated(session) { return Forbidden; }
      if recipient == challenge.address { return Conflict; }
      CoolingExactly(history, cooldown, now);
      if CoolingDown(history, cooldown, now) { return Throttled; }
      ApplyChange(id, now);
      outcome := MarkSession(session, evidence.signedBy, now);
    }

    // ------------------------------------------------------------- suspension

    method VerifyEmail()
      requires Recorded() && Rested()
      modifies this`emailVerified
      ensures Recorded() && Rested() && emailVerified
    {
      emailVerified := true;
    }

    /** Suspend and reinstate: only an active merchant is suspended, only a suspended one
        reinstated, and neither touches the proofs. */
    method Suspend(reinstate: bool) returns (outcome: Outcome)
      requires Recorded() && Rested()
      modifies this`status
      ensures Recorded() && Rested()
      ensures outcome == Done <==> old(status) == if reinstate then Suspended else Active
      ensures status == if outcome != Done then old(status) else if reinstate then Active else Suspended
    {
      if reinstate {
        if status != Suspended { return NotFound; }
        status := Active;
      } else {
        if status != Active { return NotFound; }
        status := Suspended;
      }
      return Done;
    }
  }
}

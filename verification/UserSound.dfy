/** What every step of the user object keeps, whatever the clock does and however
    digests and ids are chosen. */
module UserSound {
  import opened Options
  import opened UserModel

  /** A disabled user holds nothing live. */
  ghost predicate DisabledHoldsNothing(st: Store) {
    st.user.disabledAt.Some? ==>
      && (forall s :: s in st.sessions ==> st.sessions[s].revoked.Some?)
      && (forall f :: f in st.families ==> st.families[f].revoked.Some?)
  }

  /** Families carry a sid exactly when session-bound, and never outlive the revocation of that session. */
  ghost predicate Coupled(st: Store) {
    forall f :: f in st.families ==>
      && (st.families[f].sid.Some? <==> st.families[f].kind.SessionBound?)
      && (st.families[f].sid.Some? && st.families[f].sid.value in st.sessions && st.families[f].revoked.None? ==>
            st.sessions[st.families[f].sid.value].revoked.None?)
  }

  ghost predicate IdleWithinAbsolute(st: Store) {
    && (forall s :: s in st.sessions ==> st.sessions[s].idleExpiresAt <= st.sessions[s].absoluteExpiresAt)
    && (forall f :: f in st.families ==> st.families[f].idleExpiresAt <= st.families[f].absoluteExpiresAt)
  }

  ghost predicate HasSerial(st: Store, f: FamilyId, serial: int) {
    exists k :: k in st.tokens && k.family == f && st.tokens[k].serial == serial
  }

  /** Tokens belong to a stored family and none is ahead of it. */
  ghost predicate TokensOwned(st: Store) {
    forall k :: k in st.tokens ==>
      k.family in st.families && 1 <= st.tokens[k].serial <= st.families[k.family].currentSerial
  }

  ghost predicate SerialsUnique(st: Store) {
    forall k, l ::
      k in st.tokens && l in st.tokens && k.family == l.family && st.tokens[k].serial == st.tokens[l].serial ==> k == l
  }

  ghost predicate CurrentStored(st: Store) {
    forall f :: f in st.families ==> HasSerial(st, f, st.families[f].currentSerial)
  }

  ghost predicate Chained(st: Store) {
    TokensOwned(st) && SerialsUnique(st) && CurrentStored(st)
  }

  ghost predicate Sound(st: Store) {
    DisabledHoldsNothing(st) && Coupled(st) && IdleWithinAbsolute(st) && Chained(st)
  }

  // ---------------------------------------------------------------- one primitive at a time

  lemma PurgeKeepsChained(st: Store, now: Time, window: int)
    requires Chained(st)
    ensures Chained(Purge(st, now, window))
  {
    var p := Purge(st, now, window);
    forall f | f in p.families
      ensures HasSerial(p, f, p.families[f].currentSerial)
    {
      assert HasSerial(st, f, st.families[f].currentSerial);
      var k :| k in st.tokens && k.family == f && st.tokens[k].serial == st.families[f].currentSerial;
      assert k in p.tokens;
    }
  }

  lemma PurgeKeepsSound(st: Store, now: Time, window: int)
    requires Sound(st)
    ensures Sound(Purge(st, now, window))
  {
    hide Chained;
    PurgeKeepsChained(st, now, window);
  }

  lemma PurgeIfDueKeepsSound(st: Store, now: Time, window: int)
    requires Sound(st)
    ensures Sound(PurgeIfDue(st, now, window))
  {
    if PurgeDue(st, now) {
      PurgeKeepsSound(st, now, window);
    }
  }

  lemma TokensUnmoved(st: Store, st': Store)
    requires Chained(st) && st'.tokens == st.tokens && st'.families.Keys == st.families.Keys
    requires forall f :: f in st.families ==> st'.families[f].currentSerial == st.families[f].currentSerial
    ensures Chained(st')
  {
    forall f | f in st'.families
      ensures HasSerial(st', f, st'.families[f].currentSerial)
    {
      assert HasSerial(st, f, st.families[f].currentSerial);
    }
  }

  lemma RevokingFamiliesKeepsSound(st: Store, ids: set<FamilyId>, r: Revocation)
    requires Sound(st)
    ensures Sound(WithFamiliesRevoked(st, ids, r))
  {
    hide Chained;
    TokensUnmoved(st, WithFamiliesRevoked(st, ids, r));
  }

  lemma EndingKeepsSound(st: Store, sids: set<Sid>, r: Revocation)
    requires Sound(st)
    ensures Sound(EndSessions(st, sids, r))
  {
    hide Chained;
    var q := EndSessions(st, sids, r);
    TokensUnmoved(st, q);
    forall f | f in q.families
      ensures q.families[f].sid.Some? && q.families[f].sid.value in q.sessions && q.families[f].revoked.None? ==>
                q.sessions[q.families[f].sid.value].revoked.None?
    {
      assert f in st.families;
    }
  }

  lemma RolledBackKeepsSound(st: Store, reached: Store)
    requires Sound(st)
    ensures Sound(RolledBack(st, reached))
  {
    TokensUnmoved(st, RolledBack(st, reached));
  }

  lemma EnabledKeepsSound(st: Store)
    requires Sound(st)
    ensures Sound(st.(user := st.user.(disabledAt := None)))
  {
    TokensUnmoved(st, st.(user := st.user.(disabledAt := None)));
  }

  /** Disabling leaves nothing unrevoked. */
  lemma DisablingKeepsSound(st: Store, at: Option<Time>, now: Time)
    requires Sound(st)
    ensures Sound(SetDisabled(st, at, now))
  {
    var enabled := st.(user := st.user.(disabledAt := None));
    EnabledKeepsSound(st);
    if at.Some? {
      var r := Revocation(now, "disabled");
      var dead := EverythingRevoked(enabled, r);
      EverythingRevokedKeepsSound(enabled, r);
      DisablingTheRevoked(dead, at);
      assert SetDisabled(st, at, now) == dead.(user := dead.user.(disabledAt := at));
    }
  }

  lemma EverythingRevokedKeepsSound(st: Store, r: Revocation)
    requires Sound(st)
    ensures Sound(EverythingRevoked(st, r))
    ensures forall s :: s in EverythingRevoked(st, r).sessions ==> EverythingRevoked(st, r).sessions[s].revoked.Some?
    ensures forall f :: f in EverythingRevoked(st, r).families ==> EverythingRevoked(st, r).families[f].revoked.Some?
  {
    hide Sound;
    EndingKeepsSound(st, UnrevokedSids(st), r);
    RevokingFamiliesKeepsSound(EndSessions(st, UnrevokedSids(st), r), st.families.Keys, r);
  }

  lemma DisablingTheRevoked(st: Store, at: Option<Time>)
    requires Sound(st)
    requires forall s :: s in st.sessions ==> st.sessions[s].revoked.Some?
    requires forall f :: f in st.families ==> st.families[f].revoked.Some?
    ensures Sound(st.(user := st.user.(disabledAt := at)))
  {
    TokensUnmoved(st, st.(user := st.user.(disabledAt := at)));
  }

  lemma IssueKeepsSound(st: Store, code: CodeInput, sid: Sid, now: Time, idleTtl: int)
    requires Sound(st) && sid in st.sessions
    ensures Sound(IssueCode(st, code, sid, now, idleTtl))
  {
    hide Chained;
    TokensUnmoved(st, IssueCode(st, code, sid, now, idleTtl));
  }

  lemma AuthorizeKeepsSound(st: Store, input: AuthorizeInput)
    requires Sound(st)
    ensures Sound(AuthorizeWithSession(st, input).0)
  {
    hide Sound, PurgeIfDue, IssueCode, RolledBack;
    var p := PurgeIfDue(st, input.now, PURGE_GRACE);
    PurgeIfDueKeepsSound(st, input.now, PURGE_GRACE);
    RolledBackKeepsSound(st, p);
    if input.code.Some? && input.sid in p.sessions {
      IssueKeepsSound(p, input.code.value, input.sid, input.now, input.idleTtl);
    }
  }

  lemma WithSessionKeepsSound(p: Store, input: FinalizeInput)
    requires Sound(p) && p.user.disabledAt.None?
    requires input.session.Rotate? ==> input.session.sid in p.sessions && p.sessions[input.session.sid].revoked.None?
    ensures Sound(WithSession(p, input))
  {
    TokensUnmoved(p, WithSession(p, input));
  }

  lemma PurgeKeepsUser(st: Store, now: Time, window: int)
    ensures PurgeIfDue(st, now, window).user == st.user
  {}

  lemma FinalizeKeepsSound(st: Store, input: FinalizeInput)
    requires Sound(st)
    ensures Sound(FinalizeLogin(st, input).0)
  {
    hide Sound, PurgeIfDue, IssueCode, RolledBack;
    var p := PurgeIfDue(st, input.now, PURGE_GRACE);
    PurgeIfDueKeepsSound(st, input.now, PURGE_GRACE);
    PurgeKeepsUser(st, input.now, PURGE_GRACE);
    RolledBackKeepsSound(st, p);
    var s := input.session;
    if st.user.disabledAt.None? && (s.Rotate? ==> s.sid in p.sessions && p.sessions[s.sid].revoked.None?) {
      WithSessionKeepsSound(p, input);
      if input.code.Some? {
        IssueKeepsSound(WithSession(p, input), input.code.value, s.sid, input.now, input.idleTtl);
      }
    }
  }

  /** One token is written as the current one of its family, new or advanced by one; other families keep their
      serials. */
  ghost predicate Mints(st: Store, q: Store, minted: TokenKey, now: Time) {
    && minted !in st.tokens
    && minted.family in q.families
    && q.tokens == st.tokens[minted := Token(q.families[minted.family].currentSerial, now)]
    && q.families.Keys == st.families.Keys + {minted.family}
    && q.families[minted.family].currentSerial ==
         (if minted.family in st.families then st.families[minted.family].currentSerial + 1 else 1)
    && (forall f :: f in st.families && f != minted.family ==>
         q.families[f].currentSerial == st.families[f].currentSerial)
  }

  lemma MintingKeepsCurrentStored(st: Store, q: Store, minted: TokenKey, now: Time)
    requires CurrentStored(st) && Mints(st, q, minted, now)
    ensures CurrentStored(q)
  {
    assert minted in q.tokens;
    forall g | g in q.families
      ensures HasSerial(q, g, q.families[g].currentSerial)
    {
      if g != minted.family {
        assert HasSerial(st, g, st.families[g].currentSerial);
        var k :| k in st.tokens && k.family == g && st.tokens[k].serial == st.families[g].currentSerial;
        assert k in q.tokens;
      }
    }
  }

  lemma MintingKeepsUnique(st: Store, q: Store, minted: TokenKey, now: Time)
    requires TokensOwned(st) && SerialsUnique(st) && Mints(st, q, minted, now)
    ensures SerialsUnique(q)
  {
    forall k, l | k in q.tokens && l in q.tokens && k.family == l.family && q.tokens[k].serial == q.tokens[l].serial
      ensures k == l
    {
      assert (k == minted || k in st.tokens) && (l == minted || l in st.tokens);
    }
  }

  lemma MintingKeepsOwned(st: Store, q: Store, minted: TokenKey, now: Time)
    requires TokensOwned(st) && CurrentStored(st) && Mints(st, q, minted, now)
    ensures TokensOwned(q)
  {
    assert minted.family in st.families ==> HasSerial(st, minted.family, st.families[minted.family].currentSerial);
  }

  lemma MintingKeepsChained(st: Store, q: Store, minted: TokenKey, now: Time)
    requires Chained(st) && Mints(st, q, minted, now)
    ensures Chained(q)
  {
    hide TokensOwned, SerialsUnique, CurrentStored, Mints;
    MintingKeepsOwned(st, q, minted, now);
    MintingKeepsUnique(st, q, minted, now);
    MintingKeepsCurrentStored(st, q, minted, now);
  }

  lemma NewFamilyKeepsChained(st: Store, family: Family, r: RefreshInput, now: Time)
    requires Chained(st) && r.familyId !in st.families && family.currentSerial == 1
    ensures Chained(WithFamily(st, family, r, now))
  {
    hide CurrentStored, SerialsUnique;
    MintingKeepsChained(st, WithFamily(st, family, r, now), TokenKey(r.familyId, r.secretHash), now);
  }

  lemma NewFamilyKeepsSound(st: Store, family: Family, r: RefreshInput, now: Time)
    requires Sound(st) && r.familyId !in st.families && st.user.disabledAt.None?
    requires family.sid.Some? <==> family.kind.SessionBound?
    requires family.sid.Some? ==> family.sid.value in st.sessions && st.sessions[family.sid.value].revoked.None?
    requires family.idleExpiresAt <= family.absoluteExpiresAt && family.currentSerial == 1
    ensures Sound(WithFamily(st, family, r, now))
  {
    hide Chained;
    NewFamilyKeepsChained(st, family, r, now);
  }

  lemma ConsumingKeepsSound(st: Store, hash: Hash, now: Time)
    requires Sound(st) && hash in st.codes
    ensures Sound(Consumed(st, hash, now))
  {
    TokensUnmoved(st, Consumed(st, hash, now));
  }

  /** The stale user row never matters: an unrevoked session exists, so the user is enabled now. */
  lemma ExchangeableMeansEnabled(st: Store, user: User, expected: Option<string>, input: ExchangeInput)
    requires Sound(st) && Exchangeable(st, user, expected, input)
    ensures st.user.disabledAt.None?
  {
    assert st.sessions[st.codes[input.secretHash].sid].revoked.None?;
  }

  lemma ExchangeKeepsSound(st: Store, user: User, expected: Option<string>, input: ExchangeInput)
    requires Sound(st)
    ensures Sound(ExchangeCommit(st, user, expected, input).0)
  {
    hide Sound, PurgeIfDue, RolledBack, WithFamiliesRevoked, PkceHolds, Allowed, AdminAllowed;
    var p := PurgeIfDue(st, input.now, PURGE_GRACE);
    PurgeIfDueKeepsSound(st, input.now, PURGE_GRACE);
    RolledBackKeepsSound(st, p);
    var h := input.secretHash;
    RevokingFamiliesKeepsSound(p, FamiliesOfCode(p, h), Revocation(input.now, "code_replay"));
    if Exchangeable(p, user, expected, input) {
      ExchangeableMeansEnabled(p, user, expected, input);
      ConsumingKeepsSound(p, h, input.now);
      if input.refresh.Some? && input.refresh.value.familyId !in p.families {
        var r := input.refresh.value;
        var q := Consumed(p, h, input.now);
        var family := NewFamily(p.codes[h], h, p.sessions[p.codes[h].sid], input.client, r, input.now);
        NewFamilyKeepsSound(q, family, r, input.now);
        var w := WithFamily(q, family, r, input.now);
        RevokingFamiliesKeepsSound(w, Overflow(w.families, input.client.clientId, input.now),
          Revocation(input.now, "family_limit"));
      }
    }
  }

  lemma DeletingKeepsChained(st: Store, f: FamilyId)
    requires Chained(st)
    ensures Chained(WithoutFamily(st, f))
  {
    var q := WithoutFamily(st, f);
    forall g | g in q.families
      ensures HasSerial(q, g, q.families[g].currentSerial)
    {
      assert HasSerial(st, g, st.families[g].currentSerial);
      var k :| k in st.tokens && k.family == g && st.tokens[k].serial == st.families[g].currentSerial;
      assert k in q.tokens;
    }
  }

  lemma DeletingFamilyKeepsSound(st: Store, f: FamilyId)
    requires Sound(st)
    ensures Sound(WithoutFamily(st, f))
  {
    hide Chained;
    DeletingKeepsChained(st, f);
  }

  lemma AdvanceKeepsSound(st: Store, input: RotateInput)
    requires Sound(st) && input.familyId in st.families
    requires var sid := st.families[input.familyId].sid; sid.Some? ==> sid.value in st.sessions
    requires TokenKey(input.familyId, input.newSecretHash) !in st.tokens
    requires st.families[input.familyId].revoked.None?
    ensures Sound(Advanced(st, input))
  {
    hide Chained;
    MintingKeepsChained(st, Advanced(st, input), TokenKey(input.familyId, input.newSecretHash), input.now);
  }

  lemma ReuseKeepsSound(st: Store, f: FamilyId, now: Time)
    requires Sound(st) && f in st.families
    ensures Sound(ReuseOf(st, f, now))
  {
    hide Sound;
    var dead := WithFamiliesRevoked(st, {f}, Revocation(now, "reuse"));
    RevokingFamiliesKeepsSound(st, {f}, Revocation(now, "reuse"));
    if st.families[f].sid.Some? {
      EndingKeepsSound(dead, {st.families[f].sid.value}, Revocation(now, "refresh_reuse"));
    }
  }

  lemma RotateKeepsSound(st: Store, input: RotateInput)
    requires Sound(st)
    ensures Sound(RotateRefresh(st, input).0)
  {
    hide Sound, PurgeIfDue, RolledBack, ReuseOf, WithoutFamily;
    var p := PurgeIfDue(st, input.now, input.reuseWindow);
    PurgeIfDueKeepsSound(st, input.now, input.reuseWindow);
    RolledBackKeepsSound(st, p);
    if FamilyAnswers(p, input) {
      DeletingFamilyKeepsSound(p, input.familyId);
      ReuseKeepsSound(p, input.familyId, input.now);
      if RotationError(p, input).None? && TokenKey(input.familyId, input.newSecretHash) !in p.tokens {
        AdvanceKeepsSound(p, input);
      }
    }
  }

  /** The branch for a serial ahead of its family (src/do/UserDO.ts:1279) is never taken. */
  lemma SerialNeverAhead(st: Store, input: RotateInput)
    requires Sound(st)
    ensures
      var p := PurgeIfDue(st, input.now, input.reuseWindow);
      forall k :: k in p.tokens ==> k.family in p.families && p.tokens[k].serial <= p.families[k.family].currentSerial
  {
    PurgeIfDueKeepsSound(st, input.now, input.reuseWindow);
  }
}

/** Properties of identity resolution that relate several calls or single
    out one path through getUser. */
module ResolverProperties {
  import opened Domain
  import opened Security
  import opened Repository
  import opened Resolver

  /** The Kakao mapping reads "properties" only to cast it: once that cast
      succeeds, the user is the one the shared builder makes. */
  lemma KakaoMappingIsModernMapping(claims: Claims, now: Timestamp)
    ensures GetKaKaoUser(claims, now)
         == if MapOrAbsent(claims, "properties") then GetModernUser(KAKAO, claims, now)
            else Throws(ClassCastException)
  {
  }

  /** The clock only stamps createdDate: converting the same claims at
      another time gives the same user otherwise. */
  lemma ConvertUserOnlyStampsDate(isEquals: (SocialType, string) -> bool, authority: string,
                                  claims: Claims, now: Timestamp, later: Timestamp)
    ensures ConvertUser(isEquals, authority, claims, later)
         == match ConvertUser(isEquals, authority, claims, now)
            case Ok(Some(u)) => Ok(Some(u.(createdDate := later)))
            case r => r
  {
  }

  /** The principal the security context must hold for getUser to reach
      the repository: an OAuth2 authentication with a details map and at
      least one authority. */
  predicate OAuth2Principal(a: Authentication, authorities: seq<string>, claims: Claims)
  {
    a == OAuth2Authentication(authorities, DetailsMap(claims)) && |authorities| > 0
  }

  /** A returning user: the record already stored under the converted email
      is returned and cached, and the repository is left as it was.  If that
      record's role has no text, the role sync throws instead and nothing
      changes. */
  lemma ReturningUserGetsStoredRecord(ops: SocialTypeOps, s: State, now: Timestamp,
                                      authorities: seq<string>, claims: Claims, converted: User)
    requires OAuth2Principal(s.authentication, authorities, claims)
    requires ConvertUser(ops.isEquals, authorities[0], claims, now) == Ok(Some(converted))
    requires converted.email in s.users && s.users[converted.email].socialType.Some?
    ensures var step := Resolve(ops, None, s, now);
            var stored := s.users[converted.email];
            && step.state.users == s.users
            && (HasText(ops.roleType(stored.socialType.value)) ==>
                  step.outcome == Ok(Some(stored)) && step.state.sessionUser == Some(stored))
            && (!HasText(ops.roleType(stored.socialType.value)) ==>
                  step == Step(Throws(IllegalArgumentException), s))
  {
  }

  /** A stored record without a social type (one not created by a social
      login) makes the role lookup throw; nothing is cached or changed. */
  lemma StoredUserWithoutSocialTypeThrows(ops: SocialTypeOps, s: State, now: Timestamp,
                                          authorities: seq<string>, claims: Claims, converted: User)
    requires OAuth2Principal(s.authentication, authorities, claims)
    requires ConvertUser(ops.isEquals, authorities[0], claims, now) == Ok(Some(converted))
    requires converted.email in s.users && s.users[converted.email].socialType.None?
    ensures Resolve(ops, None, s, now) == Step(Throws(NullPointerException), s)
  {
  }

  /** A first login: the converted user is saved under its email, returned
      and cached; no other record changes.  If its role has no text, the
      save has already happened when the role sync throws: the new record
      stays, and the session and the context are unchanged. */
  lemma FirstLoginSavesConvertedUser(ops: SocialTypeOps, s: State, now: Timestamp,
                                     authorities: seq<string>, claims: Claims, converted: User)
    requires OAuth2Principal(s.authentication, authorities, claims)
    requires ConvertUser(ops.isEquals, authorities[0], claims, now) == Ok(Some(converted))
    requires converted.email !in s.users
    ensures var step := Resolve(ops, None, s, now);
            && converted.socialType.Some?
            && step.state.users == s.users[converted.email := converted]
            && (HasText(ops.roleType(converted.socialType.value)) ==>
                  step.outcome == Ok(Some(converted)) && step.state.sessionUser == Some(converted))
            && (!HasText(ops.roleType(converted.socialType.value)) ==>
                  && step.outcome == Throws(IllegalArgumentException)
                  && step.state.sessionUser == s.sessionUser
                  && step.state.authentication == s.authentication)
  {
  }

  /** An authority no provider accepts makes convertUser return null, which
      getUser dereferences: the call fails instead of degrading. */
  lemma UnmatchedProviderThrows(ops: SocialTypeOps, s: State, now: Timestamp,
                                authorities: seq<string>, claims: Claims)
    requires OAuth2Principal(s.authentication, authorities, claims)
    requires forall st :: !ops.isEquals(st, authorities[0])
    ensures Resolve(ops, None, s, now) == Step(Throws(NullPointerException), s)
  {
  }

  /** The principal has the wrong shape for one of the casts of getUser. */
  ghost predicate ShapeMismatch(ops: SocialTypeOps, a: Authentication, now: Timestamp)
  {
    match a
    case NoAuthentication => false
    case PasswordToken(_, _, _) => true
    case OtherAuthentication(_) => true
    case OAuth2Authentication(authorities, details) =>
      || details.DetailsOther?
      || (&& details.DetailsMap?
          && |authorities| > 0
          && ConvertUser(ops.isEquals, authorities[0], details.claims, now).Throws?)
  }

  /** On a miss, getUser returns null exactly when a cast fails, and then
      the repository, the session and the context are all unchanged. */
  lemma CastFailureDegradesToNull(ops: SocialTypeOps, s: State, now: Timestamp)
    ensures Resolve(ops, None, s, now).outcome == Ok(None) <==> ShapeMismatch(ops, s.authentication, now)
    ensures ShapeMismatch(ops, s.authentication, now) ==> Resolve(ops, None, s, now).state == s
  {
  }

  /** Role sync after a resolved miss: the live authentication is kept when
      it already grants the user's role and is otherwise replaced by a
      token granting exactly that role. */
  lemma ResolveSyncsLiveRole(ops: SocialTypeOps, s: State, now: Timestamp)
    requires ResolvedOnMiss(None, Resolve(ops, None, s, now))
    ensures var step := Resolve(ops, None, s, now);
            var u := step.outcome.value.value;
            var role := ops.roleType(u.socialType.value);
            && s.authentication.OAuth2Authentication?
            && s.authentication.userAuthentication.DetailsMap?
            && (role in Authorities(s.authentication) ==> step.state.authentication == s.authentication)
            && (role !in Authorities(s.authentication) ==>
                  step.state.authentication
                  == PasswordToken(s.authentication.userAuthentication.claims, "N/A", [role]))
  {
  }

  /** Once a miss has resolved a user, resolving again with the session it
      left returns the same user and touches nothing. */
  lemma ResolutionIsIdempotent(ops: SocialTypeOps, s: State, now: Timestamp, later: Timestamp)
    requires ResolvedOnMiss(None, Resolve(ops, None, s, now))
    ensures var first := Resolve(ops, None, s, now);
            Resolve(ops, first.state.sessionUser, first.state, later) == first
  {
  }

  /** Resolving again after the session slot is cleared: when the role sync
      kept the OAuth2 authentication, the full pipeline finds the same
      record and ends in the same state; when it replaced the
      authentication, the cast of the new token fails and null is
      returned.  So the session cache hides a difference. */
  lemma ResolveAgainWithoutCache(ops: SocialTypeOps, s: State, now: Timestamp, later: Timestamp)
    requires ResolvedOnMiss(None, Resolve(ops, None, s, now))
    ensures var first := Resolve(ops, None, s, now);
            var cleared := first.state.(sessionUser := None);
            var second := Resolve(ops, None, cleared, later);
            && (first.state.authentication == s.authentication ==> second == first)
            && (first.state.authentication != s.authentication ==> second == Step(Ok(None), cleared))
  {
  }
}

/** UserArgumentResolver: supplies the logged-in User to handler methods.
    The claim mapping (convertUser and its two builders) and the role sync
    are functions; getUser is specified by the function Resolve over the
    three pieces of state it touches (repository, session slot, security
    context) and implemented by the class below. */
module Resolver {
  import opened Domain
  import opened Security
  import opened Web
  import opened Repository

  /** supportsParameter: the resolver handles exactly the parameters that
      carry @SocialUser and are declared with class User. */
  predicate SupportsParameter(p: MethodParameter)
  {
    SocialUserAnnotation in p.annotations && p.parameterType == UserClass
  }

  // ---------------------------------------------------------------------
  // Reading the claim map

  /** The value under `key` can be used where a String is expected:
      it is absent (null) or a string. */
  predicate StringOrAbsent(claims: Claims, key: string)
  {
    key !in claims || claims[key].Text?
  }

  /** The value under `key` can be cast to a HashMap: absent or nested. */
  predicate MapOrAbsent(claims: Claims, key: string)
  {
    key !in claims || claims[key].Nested?
  }

  /** `map.get(key)` handed to a String parameter of the User builder. */
  function StringClaim(claims: Claims, key: string): (r: Result<Option<string>>)
    ensures r.Ok? <==> StringOrAbsent(claims, key)
    ensures r.Throws? ==> r.exc == ClassCastException
    ensures r.Ok? ==> (r.value.Some? <==> key in claims)
    ensures r.Ok? && r.value.Some? ==> claims[key] == Text(r.value.value)
  {
    if key !in claims then Ok(None)
    else match claims[key]
      case Text(s) => Ok(Some(s))
      case _ => Throws(ClassCastException)
  }

  /** `(HashMap<String, String>) (Object) map.get(key)`. */
  function MapClaim(claims: Claims, key: string): (r: Result<Option<Claims>>)
    ensures r.Ok? <==> MapOrAbsent(claims, key)
    ensures r.Throws? ==> r.exc == ClassCastException
    ensures r.Ok? ==> (r.value.Some? <==> key in claims)
    ensures r.Ok? && r.value.Some? ==> claims[key] == Nested(r.value.value)
  {
    if key !in claims then Ok(None)
    else match claims[key]
      case Nested(m) => Ok(Some(m))
      case _ => Throws(ClassCastException)
  }

  // ---------------------------------------------------------------------
  // Provider claim mapping

  /** The three claims the User builder takes as strings can be cast. */
  predicate BuilderClaimsCast(claims: Claims)
  {
    && StringOrAbsent(claims, "name")
    && StringOrAbsent(claims, "email")
    && StringOrAbsent(claims, "id")
  }

  /** Every cast the mapping for provider `st` performs succeeds. */
  predicate ClaimsCastFor(st: SocialType, claims: Claims)
  {
    BuilderClaimsCast(claims) && (st == KAKAO ==> MapOrAbsent(claims, "properties"))
  }

  /** `u` is the user built from the claims for provider `st` at time `now`:
      its name, email and principal are the claims "name", "email" and "id"
      (null where absent). */
  predicate BuiltFrom(u: User, st: SocialType, claims: Claims, now: Timestamp)
  {
    && StringClaim(claims, "name") == Ok(u.name)
    && StringClaim(claims, "email") == Ok(u.email)
    && StringClaim(claims, "id") == Ok(u.principal)
    && u.socialType == Some(st)
    && u.createdDate == now
  }

  /** getModernUser: the shared builder of Facebook and Google users. */
  function GetModernUser(st: SocialType, claims: Claims, now: Timestamp): (r: Result<User>)
    ensures r.Ok? <==> BuilderClaimsCast(claims)
    ensures r.Throws? ==> r.exc == ClassCastException
    ensures r.Ok? ==> BuiltFrom(r.value, st, claims, now)
  {
    var name :- StringClaim(claims, "name");
    var email :- StringClaim(claims, "email");
    var principal :- StringClaim(claims, "id");
    Ok(User(name, email, principal, Some(st), now))
  }

  /** getKaKaoUser: casts the "properties" claim, then builds the user from
      the same top-level keys as the other providers. */
  function GetKaKaoUser(claims: Claims, now: Timestamp): (r: Result<User>)
    ensures r.Ok? <==> ClaimsCastFor(KAKAO, claims)
    ensures r.Throws? ==> r.exc == ClassCastException
    ensures r.Ok? ==> BuiltFrom(r.value, KAKAO, claims, now)
  {
    var propertyMap :- MapClaim(claims, "properties");
    var name :- StringClaim(claims, "name");
    var email :- StringClaim(claims, "email");
    var principal :- StringClaim(claims, "id");
    Ok(User(name, email, principal, Some(KAKAO), now))
  }

  /** The order in which convertUser tests the providers. */
  function DispatchRank(st: SocialType): nat
  {
    match st
    case FACEBOOK => 0
    case GOOGLE => 1
    case KAKAO => 2
  }

  /** `st` is the first provider, in dispatch order, whose isEquals accepts
      the authority. */
  ghost predicate FirstMatch(isEquals: (SocialType, string) -> bool, authority: string, st: SocialType)
  {
    && isEquals(st, authority)
    && forall e :: DispatchRank(e) < DispatchRank(st) ==> !isEquals(e, authority)
  }

  /** convertUser: the first matching provider decides how the claims are
      mapped; no match yields null. */
  function ConvertUser(isEquals: (SocialType, string) -> bool, authority: string, claims: Claims, now: Timestamp)
    : (r: Result<Option<User>>)
    ensures r == Ok(None) <==> forall st :: !isEquals(st, authority)
    ensures r.Throws? ==> r.exc == ClassCastException
    ensures forall st :: FirstMatch(isEquals, authority, st) ==>
              && (r.Ok? <==> ClaimsCastFor(st, claims))
              && (r.Ok? ==> r.value.Some? && BuiltFrom(r.value.value, st, claims, now))
  {
    if isEquals(FACEBOOK, authority) then
      var u :- GetModernUser(FACEBOOK, claims, now); Ok(Some(u))
    else if isEquals(GOOGLE, authority) then
      var u :- GetModernUser(GOOGLE, claims, now); Ok(Some(u))
    else if isEquals(KAKAO, authority) then
      var u :- GetKaKaoUser(claims, now); Ok(Some(u))
    else
      assert forall st :: isEquals(st, authority) ==> st == FACEBOOK || st == GOOGLE || st == KAKAO;
      Ok(None)
  }

  // ---------------------------------------------------------------------
  // Role sync

  /** setRoleIfNotSame, as the authentication the context holds afterwards:
      when the OAuth2 authentication lacks the stored user's role, it is
      replaced by a token that grants exactly that role.  A user without a
      social type makes the role lookup throw, and a role without text makes
      the construction of its SimpleGrantedAuthority throw. */
  function RoleSynced(roleType: SocialType -> string, user: User, authentication: Authentication, claims: Claims)
    : (r: Result<Authentication>)
    requires authentication.OAuth2Authentication?
    ensures r.Throws? <==> user.socialType.None? || !HasText(roleType(user.socialType.value))
    ensures user.socialType.None? ==> r == Throws(NullPointerException)
    ensures user.socialType.Some? && !HasText(roleType(user.socialType.value)) ==>
              r == Throws(IllegalArgumentException)
    ensures r.Ok? ==> roleType(user.socialType.value) in Authorities(r.value)
    ensures r.Ok? ==> (r.value == authentication <==> roleType(user.socialType.value) in authentication.authorities)
    ensures r.Ok? && r.value != authentication ==>
              r.value == PasswordToken(claims, "N/A", [roleType(user.socialType.value)])
  {
    match user.socialType
    case None => Throws(NullPointerException)
    case Some(st) =>
      if !HasText(roleType(st)) then Throws(IllegalArgumentException)
      else if roleType(st) in authentication.authorities then Ok(authentication)
      else Ok(PasswordToken(claims, "N/A", [roleType(st)]))
  }

  // ---------------------------------------------------------------------
  // getUser

  /** The state getUser reads and writes. */
  datatype State = State(users: Users, sessionUser: Option<User>, authentication: Authentication)

  /** What getUser returns (or throws), with the state it leaves behind. */
  datatype Step = Step(outcome: Result<Option<User>>, state: State)

  /** The catch clause: a ClassCastException returns the local `user`;
      every other exception propagates. */
  function Caught(e: Exception, user: Option<User>): Result<Option<User>>
  {
    if e == ClassCastException then Ok(user) else Throws(e)
  }

  /** A resolution attempt on a session whose slot was empty returned a user. */
  predicate ResolvedOnMiss(user: Option<User>, step: Step)
  {
    user.None? && step.outcome.Ok? && step.outcome.value.Some?
  }

  /** getUser: on a cache miss, convert the principal's claims, find or
      create the user by email, sync the live role and cache the user in
      the session. */
  function Resolve(ops: SocialTypeOps, user: Option<User>, s: State, now: Timestamp): (step: Step)
    // cache hit: returned unchanged, nothing touched
    ensures user.Some? ==> step == Step(Ok(user), s)
    // session and context change only when a miss resolves a user
    ensures !ResolvedOnMiss(user, step) ==>
              step.state.sessionUser == s.sessionUser && step.state.authentication == s.authentication
    // otherwise the repository changes only when the role sync throws after a save
    ensures !ResolvedOnMiss(user, step) && step.state.users != s.users ==>
              step.outcome == Throws(IllegalArgumentException)
    // no stored record is removed or rewritten
    ensures forall k :: k in s.users ==> k in step.state.users && step.state.users[k] == s.users[k]
    // the only record that may be added is the converted user, under its email:
    // it is returned, unless the role sync throws
    ensures forall k :: k in step.state.users && k !in s.users ==>
              && step.state.users[k].email == k
              && (step.outcome == Ok(Some(step.state.users[k])) || step.outcome == Throws(IllegalArgumentException))
    ensures KeyedByEmail(s.users) ==> KeyedByEmail(step.state.users)
    // a resolved user is cached, stored under its email, and its role is live
    ensures ResolvedOnMiss(user, step) ==>
              var u := step.outcome.value.value;
              && step.state.sessionUser == Some(u)
              && u.socialType.Some?
              && ops.roleType(u.socialType.value) in Authorities(step.state.authentication)
              && (KeyedByEmail(s.users) ==> u.email in step.state.users && step.state.users[u.email] == u)
  {
    if user.Some? then Step(Ok(user), s)
    else match s.authentication
      case NoAuthentication => Step(Caught(NullPointerException, user), s)
      case PasswordToken(_, _, _) => Step(Caught(ClassCastException, user), s)
      case OtherAuthentication(_) => Step(Caught(ClassCastException, user), s)
      case OAuth2Authentication(authorities, details) =>
        match details
        case NoUserAuthentication => Step(Caught(NullPointerException, user), s)
        case DetailsOther => Step(Caught(ClassCastException, user), s)
        case DetailsNull =>
          if |authorities| == 0 then Step(Caught(ArrayIndexOutOfBoundsException, user), s)
          else Step(Caught(NullPointerException, user), s)
        case DetailsMap(claims) =>
          if |authorities| == 0 then Step(Caught(ArrayIndexOutOfBoundsException, user), s)
          else match ConvertUser(ops.isEquals, authorities[0], claims, now)
            case Throws(e) => Step(Caught(e, user), s)
            case Ok(None) => Step(Caught(NullPointerException, user), s)
            case Ok(Some(converted)) =>
              var found := converted.email in s.users;
              var stored := if found then s.users[converted.email] else converted;
              var users := if found then s.users else s.users[converted.email := converted];
              match RoleSynced(ops.roleType, stored, s.authentication, claims)
              case Throws(e) => Step(Caught(e, Some(stored)), State(users, s.sessionUser, s.authentication))
              case Ok(authentication) => Step(Ok(Some(stored)), State(users, Some(stored), authentication))
  }

  /** One inbound request: the session's cached user, the context's
      authentication and the clock. */
  datatype Request = Request(sessionUser: Option<User>, authentication: Authentication, now: Timestamp)

  /** The repository after resolving a series of requests in turn, each
      through resolveArgument (the session's own user is passed to getUser). */
  function Replay(ops: SocialTypeOps, users: Users, requests: seq<Request>): (after: Users)
    ensures forall k :: k in users ==> k in after && after[k] == users[k]
    ensures KeyedByEmail(users) ==> KeyedByEmail(after)
    decreases |requests|
  {
    if requests == [] then users
    else
      var q := requests[0];
      var step := Resolve(ops, q.sessionUser, State(users, q.sessionUser, q.authentication), q.now);
      Replay(ops, step.state.users, requests[1..])
  }

  // ---------------------------------------------------------------------
  // The resolver object

  class UserArgumentResolver {
    const userRepository: UserRepository
    const socialTypes: SocialTypeOps

    constructor (userRepository: UserRepository, socialTypes: SocialTypeOps)
      ensures this.userRepository == userRepository && this.socialTypes == socialTypes
    {
      this.userRepository := userRepository;
      this.socialTypes := socialTypes;
    }

    /** resolveArgument: resolves with the session's cached user. */
    method ResolveArgument(session: HttpSession, context: SecurityContext, now: Timestamp)
      returns (r: Result<Option<User>>)
      modifies userRepository, session, context
      ensures Step(r, State(userRepository.users, session.user, context.authentication))
           == Resolve(socialTypes, old(session.user),
                      State(old(userRepository.users), old(session.user), old(context.authentication)), now)
    {
      r := GetUser(session.user, session, context, now);
    }

    /** getUser, step by step against the repository, the session and the
        security context. */
    method GetUser(user: Option<User>, session: HttpSession, context: SecurityContext, now: Timestamp)
      returns (r: Result<Option<User>>)
      modifies userRepository, session, context
      ensures Step(r, State(userRepository.users, session.user, context.authentication))
           == Resolve(socialTypes, user,
                      State(old(userRepository.users), old(session.user), old(context.authentication)), now)
    {
      if user.Some? {
        return Ok(user);
      }
      var authentication := context.authentication;
      if authentication.NoAuthentication? {
        return Throws(NullPointerException);
      }
      if !authentication.OAuth2Authentication? {
        return Ok(user);
      }
      var claims: Claims;
      match authentication.userAuthentication {
        case NoUserAuthentication =>
          return Throws(NullPointerException);
        case DetailsOther =>
          return Ok(user);
        case DetailsNull =>
          if |authentication.authorities| == 0 {
            return Throws(ArrayIndexOutOfBoundsException);
          }
          return Throws(NullPointerException);
        case DetailsMap(m) =>
          claims := m;
      }
      if |authentication.authorities| == 0 {
        return Throws(ArrayIndexOutOfBoundsException);
      }
      var converted := ConvertUser(socialTypes.isEquals, authentication.authorities[0], claims, now);
      if converted.Throws? {
        return Caught(converted.exc, user);
      }
      if converted.value.None? {
        return Throws(NullPointerException);
      }
      var convertUser := converted.value.value;
      var found := userRepository.FindByEmail(convertUser.email);
      var stored: User;
      if found.None? {
        stored := userRepository.Save(convertUser);
      } else {
        stored := found.value;
      }
      var status := SetRoleIfNotSame(stored, authentication, claims, context);
      if status.Throws? {
        return Caught(status.exc, Some(stored));
      }
      session.user := Some(stored);
      return Ok(Some(stored));
    }

    /** setRoleIfNotSame: installs RoleSynced's authentication in the
        context when it differs from the OAuth2 authentication passed in. */
    method SetRoleIfNotSame(user: User, authentication: Authentication, claims: Claims, context: SecurityContext)
      returns (status: Result<()>)
      requires authentication.OAuth2Authentication?
      modifies context
      ensures match RoleSynced(socialTypes.roleType, user, authentication, claims)
              case Throws(e) =>
                status == Throws(e) && context.authentication == old(context.authentication)
              case Ok(a) =>
                && status == Ok(())
                && (a == authentication ==> context.authentication == old(context.authentication))
                && (a != authentication ==> context.authentication == a)
    {
      if user.socialType.None? {
        return Throws(NullPointerException);
      }
      var role := socialTypes.roleType(user.socialType.value);
      if !HasText(role) {
        return Throws(IllegalArgumentException);
      }
      if role !in authentication.authorities {
        context.authentication := PasswordToken(claims, "N/A", [role]);
      }
      return Ok(());
    }
  }
}

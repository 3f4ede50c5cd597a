# Social-login identity resolution (UserArgumentResolver)

This project models the request-time identity resolution of a Spring Boot community
board with social login (Facebook, Google, Kakao) and proves properties of the model.
`UserArgumentResolver` supplies the logged-in `User` to every handler parameter that is
annotated `@SocialUser`. On each request it runs these steps:

1. It returns the user cached in the HTTP session attribute `"user"` if there is one.
2. Otherwise it casts the security context's authentication to an OAuth2
   authentication and casts its details to a claim map.
3. It maps the claims to a `User` for the provider that the first granted authority
   names.
4. It finds the stored user with that email, or saves the new one.
5. It makes the live authentication grant that user's role.
6. It caches the user in the session.

A `ClassCastException` anywhere on this path makes it give up and return the
(null) incoming user. No other exception is caught.

Files:

- `domain.dfy` (module `Domain`): nullable references (`Option`), the exceptions on the
  path, `Result`, the `SocialType` enum, and the `User` fields the resolver sets.
  `SocialType.isEquals` and `getRoleType` are not part of this model. They stay abstract
  as the two functions of a `SocialTypeOps` value.
- `security.dfy` (module `Security`): claim values, the shapes an authentication and its
  details can take, and the `SecurityContext` slot.
- `web.dfy` (module `Web`): the handler-method parameter and the `HttpSession` slot.
- `repository.dfy` (module `Repository`): the user repository as a map keyed by email.
- `resolver.dfy` (module `Resolver`): the claim mapping and the role sync as functions.
  It also holds `Resolve`, the specification of `getUser` over its three pieces of state,
  and `Replay`, which runs a series of requests. The `UserArgumentResolver` class has
  methods proved equal to `Resolve`.
- `properties.dfy` (module `ResolverProperties`): lemmas about single paths through
  `getUser` and about repeated resolutions.

Modelling choices:

- Java `null` is `None`.
- A details value that is not a string but is passed to a `String` parameter of the
  `User` builder raises `ClassCastException`. This is the checkcast the compiler inserts
  after erasure.
- The cast of `"properties"` fails on any value that is not a nested object.
- The first granted authority is the first element of the authority sequence.
- `LocalDateTime.now()` is an input `now`.
- The session and the security context are passed in explicitly.

Behaviour of the code that the model keeps:

- An unknown provider is not a dedicated error. `convertUser` returns null and `getUser`
  then dereferences it (`NullPointerException`).
- Missing claims are not an error. They become null fields.
- When the live authentication lacks the stored user's role, the role sync replaces the
  authorities with exactly that role. It does
  this on the first-login path and on the returning-user path. It never rewrites the
  stored record.
- On a miss there is no retry and no handling of a create conflict.
- The session cache does not always give the same result as the full pipeline. Once the
  role sync has replaced the OAuth2 authentication with a username-password token, an
  uncached resolution fails the cast at line 57 and returns null
  (`ResolveAgainWithoutCache`).
- A role string with no text (empty or only whitespace) makes the construction of the
  granted authority at line 110 throw `IllegalArgumentException`, which is not caught. On a
  first login the user has already been saved by then, so the new record stays while the
  session and the context are unchanged (`FirstLoginSavesConvertedUser`).
- A stored user without a social type, like the user seeded at start-up, makes the role
  lookup throw `NullPointerException` (`StoredUserWithoutSocialTypeThrows`).

`Resolver.SupportsParameter` is the definition of `supportsParameter` (lines 39-42 of
`src/main/java/com/web/resolver/UserArgumentResolver.java`): a parameter is handled exactly
when it carries `@SocialUser` and is declared with class `User`. It has no contract of its
own. `Resolver.Caught` is the catch clause of lines 68-70: a `ClassCastException` returns
the local user and every other exception propagates. It is a plain helper of `Resolve`.

## Model

| member | source | states |
|---|---|---|
| `Resolver.StringClaim` | src/main/java/com/web/resolver/UserArgumentResolver.java:88-90 | reading a claim as a String succeeds exactly when it is absent or a string; it yields null for an absent key and the string otherwise; any other value raises ClassCastException |
| `Resolver.MapClaim` | src/main/java/com/web/resolver/UserArgumentResolver.java:98 | the cast of a claim to a HashMap succeeds exactly when the claim is absent or a nested object and then yields null or that nested object; otherwise ClassCastException |
| `Resolver.GetModernUser` | src/main/java/com/web/resolver/UserArgumentResolver.java:86-94 | succeeds exactly when name, email and id cast to String; the user's name, email and principal are then those claims, its social type the given one and its date `now`; the only failure is ClassCastException |
| `Resolver.GetKaKaoUser` | src/main/java/com/web/resolver/UserArgumentResolver.java:97-106 | succeeds exactly when "properties" casts to a map and name, email and id cast to String; the user then has the same field mapping as the other providers, with social type KAKAO |
| `Resolver.ConvertUser` | src/main/java/com/web/resolver/UserArgumentResolver.java:77-82 | null exactly when no provider accepts the authority; otherwise the first accepting provider in the order FACEBOOK, GOOGLE, KAKAO decides the result: the user built from the claims for that provider, or ClassCastException when one of its casts fails |
| `Resolver.RoleSynced` | src/main/java/com/web/resolver/UserArgumentResolver.java:109-114 | throws exactly when the user has no social type (NullPointerException) or its role has no text (IllegalArgumentException); otherwise the resulting authentication grants the user's role, and it is the incoming one exactly when that already granted the role; if not, it is a token granting only that role |
| `Resolver.Resolve` | src/main/java/com/web/resolver/UserArgumentResolver.java:54-73 | a cache hit returns the cached user and changes nothing; session and context change only when a miss resolves a user, and the repository otherwise changes only when the role sync throws IllegalArgumentException after a save; no stored record is removed or rewritten; the only record added is the converted user under its email, returned unless that exception is thrown; keying by email is preserved; a resolved user is cached in the session, has a social type, and its role is granted by the live authentication |
| `Resolver.Replay` | src/main/java/com/web/resolver/UserArgumentResolver.java:45-73 | over any series of requests, every record stored beforehand is still stored and unchanged, and the repository stays keyed by email |
| `Resolver.UserArgumentResolver.GetUser` | src/main/java/com/web/resolver/UserArgumentResolver.java:54-73 | its result and the new repository, session and context are those `Resolve` gives for the old state |
| `Resolver.UserArgumentResolver.ResolveArgument` | src/main/java/com/web/resolver/UserArgumentResolver.java:45-51 | resolves with the session's own cached user, as `Resolve` gives |
| `Resolver.UserArgumentResolver.SetRoleIfNotSame` | src/main/java/com/web/resolver/UserArgumentResolver.java:109-114 | leaves the context as `RoleSynced` says: unchanged when the role is already granted or either exception is thrown, replaced by the role token otherwise |
| `ResolverProperties.KakaoMappingIsModernMapping` | src/main/java/com/web/resolver/UserArgumentResolver.java:97-105 | the Kakao mapping equals the shared builder with KAKAO once the "properties" cast succeeds, and is ClassCastException otherwise |
| `ResolverProperties.ConvertUserOnlyStampsDate` | src/main/java/com/web/resolver/UserArgumentResolver.java:86-105 | converting the same claims at another time changes only the created date |
| `ResolverProperties.ReturningUserGetsStoredRecord` | src/main/java/com/web/resolver/UserArgumentResolver.java:61-67 | when the email is already stored, the repository is unchanged and the stored record (not the converted one) is returned and cached; if its role has no text, IllegalArgumentException is thrown and nothing changes |
| `ResolverProperties.StoredUserWithoutSocialTypeThrows` | src/main/java/com/web/resolver/UserArgumentResolver.java:61-66 | a stored record without a social type makes resolution throw NullPointerException with nothing changed |
| `ResolverProperties.FirstLoginSavesConvertedUser` | src/main/java/com/web/resolver/UserArgumentResolver.java:61-67 | when the email is absent, the converted user is saved under its email (no other entry changes), then returned and cached; if its role has no text, IllegalArgumentException is thrown after the save, with session and context unchanged |
| `ResolverProperties.UnmatchedProviderThrows` | src/main/java/com/web/resolver/UserArgumentResolver.java:59-61 | an authority no provider accepts makes resolution throw NullPointerException with nothing changed |
| `ResolverProperties.CastFailureDegradesToNull` | src/main/java/com/web/resolver/UserArgumentResolver.java:56-70 | on a miss the result is null exactly when a cast fails, and then repository, session and context are unchanged |
| `ResolverProperties.ResolveSyncsLiveRole` | src/main/java/com/web/resolver/UserArgumentResolver.java:109-113 | after a resolved miss the context keeps its authentication when it grants the user's role, and otherwise holds a token granting exactly that role |
| `ResolverProperties.ResolutionIsIdempotent` | src/main/java/com/web/resolver/UserArgumentResolver.java:54-67 | resolving again with the session a resolved miss left returns the same user and changes nothing |
| `ResolverProperties.ResolveAgainWithoutCache` | src/main/java/com/web/resolver/UserArgumentResolver.java:57-67 | with the session slot cleared, a second resolution ends exactly as the first when the role sync kept the authentication, and returns null with nothing changed when it replaced it |

## Left out

- `SocialType.isEquals` and `SocialType.getRoleType`: their bodies are not part of this model. They are parameters, so every result holds for any provider matching and any role strings; a role string without text is handled as `IllegalArgumentException`, as Spring's `SimpleGrantedAuthority` constructor does.
- RoleSynced: granted authorities are modelled as their strings, and "contains the role" is string membership. This matches `SimpleGrantedAuthority.equals` when every granted authority is a `SimpleGrantedAuthority`; other `GrantedAuthority` classes, whose equality may differ, are not modelled.
- SetRoleIfNotSame: compares authorities as strings, as `RoleSynced` does.
- `User`, `UserRepository` and `@SocialUser`: only the behaviour the resolver relies on is modelled. Users carry the fields the resolver sets. The repository is a map from email (possibly null) to user, `findByEmail` is a key lookup, and `save` stores the user under its email and returns it. Database identifiers, the password field and persistence errors are not modelled.
- The cast of the session attribute at line 49 of the resolver is not modelled: the session slot always holds a `User` or null.
- `getAuthorities().toArray()[0]`: the order of the authorities is an input sequence, and its first element is the authority used.
- A concurrent first login for the same email, and any retry on a uniqueness conflict, are not modelled. The code has no such logic, and concurrency is out of scope.
- `LocalDateTime.now()`, `RequestContextHolder` and `SecurityContextHolder`: the clock is an input, and the session and the security context are passed explicitly.
- `SecurityConfig.java` (the filter chain, the OAuth2 client wiring and the redirect handlers), `SpringBootCommunityWebApplication.java` (bootstrap, resolver registration and database seeding) and `Board.java` (a plain entity) are HTTP, configuration or persistence plumbing.

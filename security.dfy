/** The part of the security layer the resolver touches: the provider's
    claim map, the shapes an authentication object can take, and the
    security context holding the current authentication. */
module Security {
  import opened Domain

  /** A value in the provider's details map.  The map is declared as
      Map<String, String>, but after erasure a value may be any JSON value:
      a string, a number or a nested object (a hash map). */
  datatype ClaimValue =
    | Text(text: string)
    | Number(number: int)
    | Nested(fields: map<string, ClaimValue>)

  type Claims = map<string, ClaimValue>

  /** What `getUserAuthentication().getDetails()` yields. */
  datatype Details =
    | DetailsMap(claims: Claims)   // a HashMap: the cast at line 58 succeeds
    | DetailsOther                 // an object of another class: the cast fails
    | DetailsNull                  // null details: the cast succeeds, later uses fail
    | NoUserAuthentication         // getUserAuthentication() is null

  /** The authentication held by the security context. */
  datatype Authentication =
    | OAuth2Authentication(authorities: seq<string>, userAuthentication: Details)
    | PasswordToken(principal: Claims, credentials: string, authorities: seq<string>)
    | OtherAuthentication(authorities: seq<string>)
    | NoAuthentication

  /** Java's Character.isWhitespace: the ASCII controls that separate
      text, and the Unicode space, line and paragraph separators other than
      the non-breaking ones. */
  predicate IsWhitespace(c: char)
  {
    || c == ' ' || '\t' <= c <= '\r' || '\U{001C}' <= c <= '\U{001F}'
    || c == '\U{1680}' || '\U{2000}' <= c <= '\U{2006}' || '\U{2008}' <= c <= '\U{200A}'
    || c == '\U{2028}' || c == '\U{2029}' || c == '\U{205F}' || c == '\U{3000}'
  }

  /** Spring's StringUtils.hasText: some character is not whitespace.
      A SimpleGrantedAuthority can only be built from such a string. */
  predicate HasText(s: string)
  {
    exists i :: 0 <= i < |s| && !IsWhitespace(s[i])
  }

  /** The granted authorities of an authentication, in iteration order. */
  function Authorities(a: Authentication): seq<string>
  {
    if a.NoAuthentication? then [] else a.authorities
  }

  /** The security context: the one slot holding the current authentication. */
  class SecurityContext {
    var authentication: Authentication

    constructor (authentication: Authentication)
      ensures this.authentication == authentication
    {
      this.authentication := authentication;
    }
  }
}

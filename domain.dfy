/** Value types shared by the identity-resolution model: Java's nullable
    references, the exceptions the resolver can raise, the social-login
    providers and the User entity as the resolver builds and stores it. */
module Domain {

  /** A Java reference that may be null. */
  datatype Option<+T> = None | Some(value: T)

  /** The runtime exceptions the resolution path can raise.  Only
      ClassCastException is caught by the resolver. */
  datatype Exception =
    | ClassCastException
    | NullPointerException
    | ArrayIndexOutOfBoundsException
    | IllegalArgumentException

  /** A value returned normally, or an exception thrown instead. */
  datatype Result<+T> = Ok(value: T) | Throws(exc: Exception) {

    predicate IsFailure() {
      Throws?
    }

    function PropagateFailure<U>(): Result<U>
      requires Throws?
    {
      Throws(exc)
    }

    function Extract(): T
      requires Ok?
    {
      value
    }
  }

  /** The closed set of social-login providers (the SocialType enum). */
  datatype SocialType = FACEBOOK | GOOGLE | KAKAO

  /** The behaviour of the SocialType enum that the resolver relies on but
      whose bodies are not part of this model: `isEquals(st, authority)`
      decides whether a granted-authority string names provider `st`, and
      `roleType(st)` is the role string of `st`.  Both are left abstract
      by passing them around as values. */
  datatype SocialTypeOps = SocialTypeOps(
    isEquals: (SocialType, string) -> bool,
    roleType: SocialType -> string)

  /** LocalDateTime.now(), taken as an opaque input. */
  type Timestamp = nat

  /** The User entity, restricted to the fields the resolver sets or reads.
      Every field may be null: a missing claim is stored as null, and users
      created elsewhere may have no social type. */
  datatype User = User(
    name: Option<string>,
    email: Option<string>,
    principal: Option<string>,
    socialType: Option<SocialType>,
    createdDate: Timestamp)
}

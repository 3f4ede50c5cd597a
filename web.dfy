/** The web-layer collaborators of the resolver: the handler-method parameter
    it is asked about and the HTTP session that caches the resolved user. */
module Web {
  import opened Domain

  /** The annotation and the class a handler-method parameter carries, by
      their fully qualified names. */
  const SocialUserAnnotation: string := "com.web.annotation.SocialUser"
  const UserClass: string := "com.web.domain.User"

  datatype MethodParameter = MethodParameter(annotations: set<string>, parameterType: string)

  /** The HTTP session, reduced to its attribute "user". */
  class HttpSession {
    var user: Option<User>

    constructor (user: Option<User>)
      ensures this.user == user
    {
      this.user := user;
    }
  }
}

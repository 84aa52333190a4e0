/** Values issued by the identity provider. The provider itself (credential
    checks, token storage, the event stream) is outside the model: its answers
    reach the model as parameters. */
module Provider {
  import opened Base

  datatype User = User(id: string, email: Option<string>)

  /** A session is opaque to the application apart from the user it carries. */
  datatype Session = Session(user: User, accessToken: string)

  /** `session?.user ?? null` */
  function UserOf(session: Option<Session>): (u: Option<User>)
    ensures u.Some? <==> session.Some?
    ensures u.Some? ==> u.value == session.value.user
  {
    if session.Some? then Some(session.value.user) else None
  }
}

/** The session guard: what the external auth provider hands back to a handler. */
module Auth {
  import opened Wrappers

  /** A resolved session; `userId` is `None` when the session carries no user or no user id. */
  datatype Session = Session(userId: Option<string>)

  /** `!!session?.user?.id`: a session whose user id is present and non-empty. */
  predicate HasUserId(session: Option<Session>) {
    session.Some? && session.value.userId.Some? && session.value.userId.value != ""
  }
}

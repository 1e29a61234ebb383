/**
 * The service's own routes and its terminal error handler, which turns every
 * fault a handler forwards into the HTTP reply the client sees.
 */
module UsersApp {
  import opened Wrappers
  import opened Users
  import opened Http
  import opened Credentials
  import opened UserActions

  const DefaultMessage := "Something went wrong."
  const UserHealthMessage := "user-Api 정상 운영중"

  /**
   * The terminal error handler: status and message start at 500 and the
   * generic text, and each is replaced by the error's own when it has one.
   */
  function ErrorResponse(err: Fault): (r: Response)
    ensures r.body.MessageBody?
    ensures r.status != 0 && r.body.message != ""
    ensures err.code != 0 ==> r.status == err.code
    ensures err.code == 0 ==> r.status == 500
    ensures err.message != "" ==> r.body.message == err.message
    ensures err.message == "" ==> r.body.message == DefaultMessage
  {
    var code := if err.code != 0 then err.code else 500;
    var message := if err.message != "" then err.message else DefaultMessage;
    Response(code, MessageBody(message))
  }

  /** GET /user-health: always 200 with a fixed message; it touches nothing. */
  method UserHealth() returns (r: Response)
    ensures r.status == 200 && r.body == MessageBody(UserHealthMessage)
  {
    r := Response(200, MessageBody(UserHealthMessage));
  }

  /** What the client receives for a handler's outcome. */
  function Reply(outcome: Outcome): (r: Response)
    ensures outcome.Sent? ==> r == outcome.response
    ensures outcome.Next? ==> r.body.MessageBody? && r.status != 0 && r.body.message != ""
    ensures outcome.Next? && outcome.fault.code != 0 ==> r.status == outcome.fault.code
    ensures outcome.Next? && outcome.fault.message != "" ==> r.body.message == outcome.fault.message
  {
    match outcome
    case Sent(response) => response
    case Next(fault) => ErrorResponse(fault)
  }

  /** A fault that has both a code and a message reaches the client exactly as raised. */
  lemma FaultRelayed(f: Fault)
    requires f.code != 0 && f.message != ""
    ensures ErrorResponse(f) == Response(f.code, MessageBody(f.message))
  {
  }

  /** A malformed signup or login is answered 422 with the shape-check message. */
  lemma MalformedRequestReply(store: Store, email: Option<string>, password: Option<string>,
                              auth: AuthService, faults: DbFaults, freshId: Id)
    requires ValidateCredentials(email, password).Reject?
    ensures Reply(SignUp(store, email, password, auth, faults, freshId).outcome)
         == Response(422, MessageBody(InvalidCredentialsMessage))
    ensures Reply(LogIn(store, email, password, auth, faults).outcome)
         == Response(422, MessageBody(InvalidCredentialsMessage))
  {
  }

  /**
   * The statuses a signup can end with: 201, 422 and 500, or the status the
   * auth service gave for a failed hashing.
   */
  lemma SignUpReplyStatus(store: Store, email: Option<string>, password: Option<string>,
                          auth: AuthService, faults: DbFaults, freshId: Id)
    ensures var st := SignUp(store, email, password, auth, faults, freshId);
            var r := Reply(st.outcome);
            && (r.status == 201 && r.body.UserBody? <==> st.outcome.Sent?)
            && (r.status !in {201, 422, 500} ==>
                  && password.Some? && auth.hash(password.value).Err?
                  && r.status == auth.hash(password.value).error.status)
  {
  }

  /** A hashing failure without a message reaches the client with the generic text. */
  lemma SilentHashFailureReply(store: Store, email: Option<string>, password: Option<string>,
                               auth: AuthService, faults: DbFaults, freshId: Id)
    requires ValidateCredentials(email, password).Pass?
    requires faults.find.None? && email.value !in store
    requires auth.hash(password.value).Err? && auth.hash(password.value).error.message == ""
    ensures Reply(SignUp(store, email, password, auth, faults, freshId).outcome)
         == Response(RemoteCode(auth.hash(password.value).error), MessageBody(DefaultMessage))
  {
  }

  /**
   * The statuses a login can end with: 200 carrying a token, 422 and 500, or
   * the status the auth service gave for a refused token.
   */
  lemma LogInReplyStatus(store: Store, email: Option<string>, password: Option<string>,
                         auth: AuthService, faults: DbFaults)
    ensures var st := LogIn(store, email, password, auth, faults);
            var r := Reply(st.outcome);
            && (r.body.TokenBody? <==> st.outcome.Sent?)
            && (st.outcome.Sent? ==> r.status == 200)
            && (r.status !in {200, 422, 500} ==>
                  && password.Some? && email.Some? && email.value in store
                  && auth.issueToken(password.value, store[email.value].password).Err?
                  && r.status == auth.issueToken(password.value, store[email.value].password).error.status)
  {
  }

  /**
   * The statuses a delete can end with: 200, 422 and 500, or whatever code
   * the database's own error carries.
   */
  lemma UnregisterReplyStatus(store: Store, email: string, faults: DbFaults)
    ensures var st := Unregister(store, email, faults);
            var r := Reply(st.outcome);
            && (st.outcome.Sent? ==> r == Response(200, MessageBody(DeletedMessage)))
            && (r.status !in {200, 422, 500} ==> faults.delete.Some? && r.status == faults.delete.value.code)
  {
  }
}

/**
 * The signup, login and delete handlers. Each handler is a pipeline of stages
 * (shape check, lookup, auth-service call, write); the first stage that fails
 * forwards a fault to the error responder and nothing after it runs.
 *
 * The functions SignUp, LogIn and Unregister say what one request does to the
 * collection; the class UserAccounts runs the same pipelines step by step on
 * a collection it holds, and each method is proved to agree with its function.
 */
module UserActions {
  import opened Wrappers
  import opened Users
  import opened Http
  import opened Credentials

  const InternalErrorMessage := "예기치 못한 오류로 요청을 수행하지 못했습니다."
  const DuplicateEmailMessage := "동일한 이메일을 사용하는 사용자가 있습니다."
  const UnknownUserMessage := "존재하지 않는 사용자입니다."
  const CreatedMessage := "사용자 정보를 생성했습니다."
  const DeletedMessage := "사용자 정보를 삭제했습니다."
  const TokenFailureMessage := "Failed to verify user."

  /** The collaborator calls a request can make, in the order it makes them. */
  datatype Call = FindOne | HashPassword | SaveUser | IssueToken | DeleteOne

  /**
   * A failed call to the auth service: the HTTP status of the reply, 0 when
   * there was no reply, and the error's message, "" when it has none.
   */
  datatype RemoteFault = RemoteFault(status: int, message: string)

  /** The auth service: hashing a password, and issuing a token for a password and a stored hash. */
  datatype AuthService = AuthService(
    hash: string -> Result<string, RemoteFault>,
    issueToken: (string, string) -> Result<string, RemoteFault>)

  /**
   * Which database calls of one request throw: the message of a failing
   * lookup or save ("" for none), and the error a failing delete raises.
   */
  datatype DbFaults = DbFaults(find: Option<string>, save: Option<string>, delete: Option<Fault>)

  /** What one request does: how it ends, the collection afterwards, and the calls it made. */
  datatype Step = Step(outcome: Outcome, store: Store, calls: seq<Call>)

  /** JavaScript's `s || fallback` on strings. */
  function Or(s: string, fallback: string): (r: string)
    ensures r != "" <==> s != "" || fallback != ""
    ensures s != "" ==> r == s
    ensures s == "" ==> r == fallback
  {
    if s != "" then s else fallback
  }

  /** The status forwarded for a failed auth-service call: the reply's status, or 500 without one. */
  function RemoteCode(rf: RemoteFault): (code: int)
    ensures code != 0
    ensures rf.status != 0 ==> code == rf.status
    ensures rf.status == 0 ==> code == 500
  {
    if rf.status != 0 then rf.status else 500
  }

  /** The fault getHashedPassword throws: the message may be empty. */
  function HashFailure(rf: RemoteFault): (f: Fault)
    ensures f.code != 0
    ensures rf.status != 0 ==> f.code == rf.status
    ensures rf.status == 0 ==> f.code == 500
    ensures f.message == rf.message
  {
    Fault(RemoteCode(rf), rf.message)
  }

  /** The fault getTokenForUser throws: an empty message becomes a fixed one. */
  function TokenFailure(rf: RemoteFault): (f: Fault)
    ensures f.code != 0 && f.message != ""
    ensures rf.status != 0 ==> f.code == rf.status
    ensures rf.status == 0 ==> f.code == 500
    ensures rf.message != "" ==> f.message == rf.message
    ensures rf.message == "" ==> f.message == TokenFailureMessage
  {
    Fault(RemoteCode(rf), Or(rf.message, TokenFailureMessage))
  }

  /** createUser: check the shape, check the email is new, hash the password, save the record, reply 201. */
  function SignUp(store: Store, email: Option<string>, password: Option<string>,
                  auth: AuthService, faults: DbFaults, freshId: Id): (r: Step)
    // a request that fails leaves the collection as it was
    ensures r.outcome.Next? ==> r.store == store
    // no existing record is ever replaced
    ensures forall e :: e in store ==> e in r.store && r.store[e] == store[e]
    // success adds exactly the new record, holding the hash and not the password, and echoes it with 201
    ensures r.outcome.Sent? <==>
              && ValidateCredentials(email, password).Pass?
              && faults.find.None? && email.value !in store
              && auth.hash(password.value).Ok? && faults.save.None?
    ensures r.outcome.Sent? ==>
              var rec := Record(freshId, email.value, auth.hash(password.value).value);
              && r.store == store[email.value := rec]
              && |r.store| == |store| + 1
              && r.outcome.response == Response(201, UserBody(CreatedMessage, rec))
    // nothing is looked up for a malformed request, nothing hashed for a known email
    ensures r.calls == [] <==> ValidateCredentials(email, password).Reject?
    ensures HashPassword in r.calls ==>
              ValidateCredentials(email, password).Pass? && faults.find.None? && email.value !in store
    ensures WellFormed(store) && freshId !in Ids(store) ==> WellFormed(r.store)
  {
    match ValidateCredentials(email, password)
    case Reject(fault) => Step(Next(fault), store, [])
    case Pass =>
      var e, p := email.value, password.value;
      if faults.find.Some? then
        Step(Next(Fault(500, InternalErrorMessage)), store, [FindOne])
      else if e in store then
        Step(Next(Fault(422, DuplicateEmailMessage)), store, [FindOne])
      else match auth.hash(p)
        case Err(rf) => Step(Next(HashFailure(rf)), store, [FindOne, HashPassword])
        case Ok(hashed) =>
          if faults.save.Some? then
            Step(Next(Fault(500, Or(faults.save.value, InternalErrorMessage))), store,
                 [FindOne, HashPassword, SaveUser])
          else
            var rec := Record(freshId, e, hashed);
            InsertKeepsWellFormed(store, rec);
            Step(Sent(Response(201, UserBody(CreatedMessage, rec))), store[e := rec],
                 [FindOne, HashPassword, SaveUser])
  }

  /** verifyUser: check the shape, look the email up, ask the auth service for a token, reply 200. */
  function LogIn(store: Store, email: Option<string>, password: Option<string>,
                 auth: AuthService, faults: DbFaults): (r: Step)
    ensures r.store == store
    ensures r.outcome.Sent? <==>
              && ValidateCredentials(email, password).Pass?
              && faults.find.None? && email.value in store
              && auth.issueToken(password.value, store[email.value].password).Ok?
    // the token is the one issued for the submitted password and the stored hash
    ensures r.outcome.Sent? ==>
              r.outcome.response ==
                Response(200, TokenBody(auth.issueToken(password.value, store[email.value].password).value,
                                        store[email.value].id))
    ensures r.calls == [] <==> ValidateCredentials(email, password).Reject?
    ensures IssueToken in r.calls ==>
              ValidateCredentials(email, password).Pass? && faults.find.None? && email.value in store
  {
    match ValidateCredentials(email, password)
    case Reject(fault) => Step(Next(fault), store, [])
    case Pass =>
      var e, p := email.value, password.value;
      if faults.find.Some? then
        Step(Next(Fault(500, Or(faults.find.value, InternalErrorMessage))), store, [FindOne])
      else if e !in store then
        Step(Next(Fault(422, UnknownUserMessage)), store, [FindOne])
      else match auth.issueToken(p, store[e].password)
        case Err(rf) => Step(Next(TokenFailure(rf)), store, [FindOne, IssueToken])
        case Ok(token) => Step(Sent(Response(200, TokenBody(token, store[e].id))), store, [FindOne, IssueToken])
  }

  /** deleteUser: look the email up (no shape check), delete its record, reply 200. */
  function Unregister(store: Store, email: string, faults: DbFaults): (r: Step)
    ensures r.outcome.Next? ==> r.store == store
    ensures r.outcome.Sent? <==> faults.find.None? && email in store && faults.delete.None?
    // success removes exactly the record of that email
    ensures r.outcome.Sent? ==>
              && r.store == store - {email}
              && |r.store| == |store| - 1
              && r.outcome.response == Response(200, MessageBody(DeletedMessage))
    ensures forall e :: e in store && e != email ==> e in r.store && r.store[e] == store[e]
    ensures email !in r.store <==> r.outcome.Sent? || email !in store
    ensures DeleteOne in r.calls ==> faults.find.None? && email in store
    ensures WellFormed(store) ==> WellFormed(r.store)
  {
    if faults.find.Some? then
      Step(Next(Fault(500, Or(faults.find.value, InternalErrorMessage))), store, [FindOne])
    else if email !in store then
      Step(Next(Fault(422, UnknownUserMessage)), store, [FindOne])
    else if faults.delete.Some? then
      Step(Next(faults.delete.value), store, [FindOne, DeleteOne])
    else
      RemoveKeepsWellFormed(store, email);
      Step(Sent(Response(200, MessageBody(DeletedMessage))), store - {email}, [FindOne, DeleteOne])
  }

  // ---- The individual failure paths of the pipelines ----

  /** A malformed signup is refused with 422 before any lookup or hashing, and nothing changes. */
  lemma SignUpRejectsMalformed(store: Store, email: Option<string>, password: Option<string>,
                               auth: AuthService, faults: DbFaults, freshId: Id)
    requires ValidateCredentials(email, password).Reject?
    ensures SignUp(store, email, password, auth, faults, freshId)
         == Step(Next(Fault(422, InvalidCredentialsMessage)), store, [])
  {
  }

  /** A signup for a known email is refused with 422 after the lookup alone: no hashing, nothing changes. */
  lemma SignUpRejectsKnownEmail(store: Store, email: Option<string>, password: Option<string>,
                                auth: AuthService, faults: DbFaults, freshId: Id)
    requires ValidateCredentials(email, password).Pass?
    requires faults.find.None? && email.value in store
    ensures SignUp(store, email, password, auth, faults, freshId)
         == Step(Next(Fault(422, DuplicateEmailMessage)), store, [FindOne])
  {
  }

  /** A lookup that throws during the existence check gives 500 with the fixed internal message. */
  lemma SignUpLookupFails(store: Store, email: Option<string>, password: Option<string>,
                          auth: AuthService, faults: DbFaults, freshId: Id)
    requires ValidateCredentials(email, password).Pass? && faults.find.Some?
    ensures SignUp(store, email, password, auth, faults, freshId)
         == Step(Next(Fault(500, InternalErrorMessage)), store, [FindOne])
  {
  }

  /** A hashing failure forwards the remote status (500 without one) and the remote message as it is. */
  lemma SignUpHashFails(store: Store, email: Option<string>, password: Option<string>,
                        auth: AuthService, faults: DbFaults, freshId: Id)
    requires ValidateCredentials(email, password).Pass?
    requires faults.find.None? && email.value !in store && auth.hash(password.value).Err?
    ensures (var rf := auth.hash(password.value).error;
             SignUp(store, email, password, auth, faults, freshId)
             == Step(Next(Fault(if rf.status != 0 then rf.status else 500, rf.message)), store,
                     [FindOne, HashPassword]))
  {
  }

  /** A save that throws gives 500 with its message, or the internal one without it. */
  lemma SignUpSaveFails(store: Store, email: Option<string>, password: Option<string>,
                        auth: AuthService, faults: DbFaults, freshId: Id)
    requires ValidateCredentials(email, password).Pass?
    requires faults.find.None? && email.value !in store && auth.hash(password.value).Ok?
    requires faults.save.Some?
    ensures SignUp(store, email, password, auth, faults, freshId)
         == Step(Next(Fault(500, if faults.save.value != "" then faults.save.value else InternalErrorMessage)),
                 store, [FindOne, HashPassword, SaveUser])
  {
  }

  /** A lookup that throws during login gives 500 with its own message, or the internal one without it. */
  lemma LogInLookupFails(store: Store, email: Option<string>, password: Option<string>,
                         auth: AuthService, faults: DbFaults)
    requires ValidateCredentials(email, password).Pass? && faults.find.Some?
    ensures LogIn(store, email, password, auth, faults)
         == Step(Next(Fault(500, if faults.find.value != "" then faults.find.value else InternalErrorMessage)),
                 store, [FindOne])
  {
  }

  /** A login for an unknown email is refused with 422 and no token is asked for. */
  lemma LogInRejectsUnknownEmail(store: Store, email: Option<string>, password: Option<string>,
                                 auth: AuthService, faults: DbFaults)
    requires ValidateCredentials(email, password).Pass?
    requires faults.find.None? && email.value !in store
    ensures LogIn(store, email, password, auth, faults)
         == Step(Next(Fault(422, UnknownUserMessage)), store, [FindOne])
  {
  }

  /** A failing token request forwards the remote status (500 without one) and message (a fixed one without it). */
  lemma LogInTokenFails(store: Store, email: Option<string>, password: Option<string>,
                        auth: AuthService, faults: DbFaults)
    requires ValidateCredentials(email, password).Pass?
    requires faults.find.None? && email.value in store
    requires auth.issueToken(password.value, store[email.value].password).Err?
    ensures (var rf := auth.issueToken(password.value, store[email.value].password).error;
             LogIn(store, email, password, auth, faults)
             == Step(Next(Fault(if rf.status != 0 then rf.status else 500,
                                if rf.message != "" then rf.message else TokenFailureMessage)),
                     store, [FindOne, IssueToken]))
  {
  }

  /** A lookup that throws during a delete gives 500 with its own message, or the internal one without it. */
  lemma UnregisterLookupFails(store: Store, email: string, faults: DbFaults)
    requires faults.find.Some?
    ensures Unregister(store, email, faults)
         == Step(Next(Fault(500, if faults.find.value != "" then faults.find.value else InternalErrorMessage)),
                 store, [FindOne])
  {
  }

  /** Deleting an unknown email is refused with 422; a malformed email is not rejected beforehand. */
  lemma UnregisterRejectsUnknownEmail(store: Store, email: string, faults: DbFaults)
    requires faults.find.None? && email !in store
    ensures Unregister(store, email, faults) == Step(Next(Fault(422, UnknownUserMessage)), store, [FindOne])
  {
  }

  /** A delete that throws forwards the database's own error unchanged. */
  lemma UnregisterDeleteFails(store: Store, email: string, faults: DbFaults)
    requires faults.find.None? && email in store && faults.delete.Some?
    ensures Unregister(store, email, faults) == Step(Next(faults.delete.value), store, [FindOne, DeleteOne])
  {
  }

  /**
   * The user collection with the three handlers. Each handler runs its stages
   * in order and returns at the first failing one.
   */
  class UserAccounts {
    var users: Store

    ghost predicate Valid()
      reads this
    {
      WellFormed(users)
    }

    constructor ()
      ensures Valid() && users == map[]
    {
      users := map[];
    }

    /** createUser. The database assigns `freshId`, an identifier no stored record carries. */
    method CreateUser(email: Option<string>, password: Option<string>, auth: AuthService,
                      faults: DbFaults, freshId: Id) returns (outcome: Outcome, calls: seq<Call>)
      requires Valid() && freshId !in Ids(users)
      modifies this
      ensures Valid()
      ensures Step(outcome, users, calls) == SignUp(old(users), email, password, auth, faults, freshId)
    {
      calls := [];
      var check := ValidateCredentials(email, password);
      if check.Reject? {
        return Next(check.fault), calls;
      }
      var e, p := email.value, password.value;

      // checkUserExistence
      calls := calls + [FindOne];
      if faults.find.Some? {
        return Next(Fault(500, InternalErrorMessage)), calls;
      }
      if e in users {
        return Next(Fault(422, DuplicateEmailMessage)), calls;
      }

      // getHashedPassword
      calls := calls + [HashPassword];
      var hashed := auth.hash(p);
      if hashed.Err? {
        return Next(HashFailure(hashed.error)), calls;
      }

      var newUser := Record(freshId, e, hashed.value);
      calls := calls + [SaveUser];
      if faults.save.Some? {
        return Next(Fault(500, Or(faults.save.value, InternalErrorMessage))), calls;
      }
      users := users[e := newUser];
      outcome := Sent(Response(201, UserBody(CreatedMessage, newUser)));
    }

    /** verifyUser: reads the collection and never changes it. */
    method VerifyUser(email: Option<string>, password: Option<string>, auth: AuthService,
                      faults: DbFaults) returns (outcome: Outcome, calls: seq<Call>)
      ensures Step(outcome, users, calls) == LogIn(users, email, password, auth, faults)
    {
      calls := [];
      var check := ValidateCredentials(email, password);
      if check.Reject? {
        return Next(check.fault), calls;
      }
      var e, p := email.value, password.value;

      calls := calls + [FindOne];
      if faults.find.Some? {
        return Next(Fault(500, Or(faults.find.value, InternalErrorMessage))), calls;
      }
      if e !in users {
        return Next(Fault(422, UnknownUserMessage)), calls;
      }
      var existingUser := users[e];

      // getTokenForUser
      calls := calls + [IssueToken];
      var token := auth.issueToken(p, existingUser.password);
      if token.Err? {
        return Next(TokenFailure(token.error)), calls;
      }
      outcome := Sent(Response(200, TokenBody(token.value, existingUser.id)));
    }

    /** deleteUser. */
    method DeleteUser(email: string, faults: DbFaults) returns (outcome: Outcome, calls: seq<Call>)
      requires Valid()
      modifies this
      ensures Valid()
      ensures Step(outcome, users, calls) == Unregister(old(users), email, faults)
    {
      calls := [FindOne];
      if faults.find.Some? {
        return Next(Fault(500, Or(faults.find.value, InternalErrorMessage))), calls;
      }
      if email !in users {
        return Next(Fault(422, UnknownUserMessage)), calls;
      }
      calls := calls + [DeleteOne];
      if faults.delete.Some? {
        return Next(faults.delete.value), calls;
      }
      users := users - {email};
      outcome := Sent(Response(200, MessageBody(DeletedMessage)));
    }
  }
}

/** Sequences of requests against one user collection. */
module Sessions {
  import opened Wrappers
  import opened Users
  import opened Http
  import opened UserActions

  /** One request to a handler, together with how its collaborators behave during it. */
  datatype Request =
    | SignUpRequest(email: Option<string>, password: Option<string>, auth: AuthService,
                    faults: DbFaults, freshId: Id)
    | LogInRequest(email: Option<string>, password: Option<string>, auth: AuthService, faults: DbFaults)
    | DeleteRequest(userEmail: string, faults: DbFaults)

  function Handle(store: Store, req: Request): Step
  {
    match req
    case SignUpRequest(email, password, auth, faults, freshId) => SignUp(store, email, password, auth, faults, freshId)
    case LogInRequest(email, password, auth, faults) => LogIn(store, email, password, auth, faults)
    case DeleteRequest(email, faults) => Unregister(store, email, faults)
  }

  /** The collection after handling `reqs` one after the other. */
  function Run(store: Store, reqs: seq<Request>): Store
    decreases |reqs|
  {
    if reqs == [] then store else Run(Handle(store, reqs[0]).store, reqs[1..])
  }

  /** The database hands every signup an identifier no record carries at that moment. */
  ghost predicate FreshIdsAlong(store: Store, reqs: seq<Request>)
    decreases |reqs|
  {
    reqs == [] ||
    (&& (reqs[0].SignUpRequest? ==> reqs[0].freshId !in Ids(store))
     && FreshIdsAlong(Handle(store, reqs[0]).store, reqs[1..]))
  }

  /** One request keeps the collection well formed. */
  lemma HandleKeepsWellFormed(store: Store, req: Request)
    requires WellFormed(store)
    requires req.SignUpRequest? ==> req.freshId !in Ids(store)
    ensures WellFormed(Handle(store, req).store)
  {
  }

  /**
   * No sequence of signups, logins and deletes ever leaves two records with
   * one email, or two records with one identifier.
   */
  lemma {:induction false} RunKeepsWellFormed(store: Store, reqs: seq<Request>)
    requires WellFormed(store) && FreshIdsAlong(store, reqs)
    ensures WellFormed(Run(store, reqs))
    ensures forall e :: |RecordsWithEmail(Run(store, reqs), e)| <= 1
    decreases |reqs|
  {
    if reqs != [] {
      HandleKeepsWellFormed(store, reqs[0]);
      RunKeepsWellFormed(Handle(store, reqs[0]).store, reqs[1..]);
    }
    forall e {
      OneRecordPerEmail(Run(store, reqs), e);
    }
  }

  /**
   * A stored record survives any sequence of requests unchanged unless one of
   * them deletes its email: signups never replace it (the existence check
   * refuses a known email), and logins never write.
   */
  lemma {:induction false} RecordKeptUnlessDeleted(store: Store, reqs: seq<Request>, e: string)
    requires e in store
    requires forall i :: 0 <= i < |reqs| ==> !(reqs[i].DeleteRequest? && reqs[i].userEmail == e)
    ensures e in Run(store, reqs) && Run(store, reqs)[e] == store[e]
    decreases |reqs|
  {
    if reqs != [] {
      RecordKeptUnlessDeleted(Handle(store, reqs[0]).store, reqs[1..], e);
    }
  }

  /**
   * After a signup succeeds, logging in with the same email and password
   * asks the auth service for a token for that password and the hash the
   * signup stored, and returns it with the new record's identifier.
   */
  lemma LogInAfterSignUp(store: Store, email: string, password: string, auth: AuthService,
                         faults: DbFaults, freshId: Id, loginFaults: DbFaults)
    requires SignUp(store, Some(email), Some(password), auth, faults, freshId).outcome.Sent?
    requires loginFaults.find.None?
    requires auth.issueToken(password, auth.hash(password).value).Ok?
    ensures var after := SignUp(store, Some(email), Some(password), auth, faults, freshId).store;
            var token := auth.issueToken(password, auth.hash(password).value).value;
            LogIn(after, Some(email), Some(password), auth, loginFaults).outcome
              == Sent(Response(200, TokenBody(token, freshId)))
  {
  }

  /** Deleting the account a signup just created restores the collection as it was. */
  lemma UnregisterUndoesSignUp(store: Store, email: string, password: string, auth: AuthService,
                               faults: DbFaults, freshId: Id, deleteFaults: DbFaults)
    requires SignUp(store, Some(email), Some(password), auth, faults, freshId).outcome.Sent?
    requires deleteFaults.find.None? && deleteFaults.delete.None?
    ensures var after := SignUp(store, Some(email), Some(password), auth, faults, freshId).store;
            Unregister(after, email, deleteFaults)
              == Step(Sent(Response(200, MessageBody(DeletedMessage))), store, [FindOne, DeleteOne])
  {
  }

  /** Signing up a second time with the same email is refused and changes nothing. */
  lemma SecondSignUpRefused(store: Store, email: string, password: string, auth: AuthService,
                            faults: DbFaults, freshId: Id,
                            password': string, auth': AuthService, faults': DbFaults, freshId': Id)
    requires SignUp(store, Some(email), Some(password), auth, faults, freshId).outcome.Sent?
    requires faults'.find.None?
    ensures var after := SignUp(store, Some(email), Some(password), auth, faults, freshId).store;
            var again := SignUp(after, Some(email), Some(password'), auth', faults', freshId');
            again.store == after && again.outcome.Next? && again.outcome.fault.code == 422
  {
  }
}

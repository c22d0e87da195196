/**
 * The request handlers of the service: an append-only, in-memory user store
 * behind a registration handler and a login handler, plus a constant version
 * handler. HTTP routing, body parsing and transmission are outside the model;
 * a handler takes the parsed body and gives back a Response.
 */
module Server {
  import opened Wrappers
  import opened Values
  import opened Validation

  const AlphaMessage := "Name must have only alphabetical characters."
  const LengthMessage := "Name must be between 2 and 50 characters."
  const NumericMessage := "Authentication requires a number."
  const ExistMessage := "That user does not exist."

  const AlphaError := ValidationError("name", AlphaMessage)
  const LengthError := ValidationError("name", LengthMessage)
  const NumericError := ValidationError("userID", NumericMessage)
  const ExistError := ValidationError("userID", ExistMessage)

  /** The rule set of the registration handler for field `name`. */
  const RegisterSchema := FieldSchema("name", [Check(IsAlpha, None), Check(IsLength(2, 50), Some(LengthMessage))], AlphaMessage)

  /** The rule set of the login handler for field `userID`. */
  const LoginSchema := FieldSchema("userID", [Check(IsNumeric, None), Check(IsExistingUser, Some(ExistMessage))], NumericMessage)

  /** A 200 response with a JSON body, or a 400 response with the error list. */
  datatype Response = Ok(record: Record) | BadRequest(errors: seq<ValidationError>)

  /** One request to the service, with its parsed body. */
  datatype Request = RegisterRequest(body: Record) | LoginRequest(body: Record) | VersionRequest

  /** What registration demands of a name. */
  predicate ValidName(name: Option<Value>) {
    IsAlphaText(AsText(name)) && 2 <= |AsText(name)| <= 50
  }

  /** The errors of a registration body: the alphabetic failure first, then the length failure. */
  function RegisterErrors(users: seq<Record>, body: Record): (errs: seq<ValidationError>)
    ensures errs == (if IsAlphaText(AsText(Field(body, "name"))) then [] else [AlphaError])
                  + (if 2 <= |AsText(Field(body, "name"))| <= 50 then [] else [LengthError])
    ensures errs == [] <==> ValidName(Field(body, "name"))
  {
    ValidateTwo(RegisterSchema, Field(body, "name"), users);
    Validate(RegisterSchema, Field(body, "name"), users)
  }

  /** The errors of a login body: the numeric failure first, then the existence failure. */
  function LoginErrors(users: seq<Record>, body: Record): (errs: seq<ValidationError>)
    ensures errs == (if IsNumericText(AsText(Field(body, "userID"))) then [] else [NumericError])
                  + (if UserIndex(users, Field(body, "userID")).Some? then [] else [ExistError])
  {
    ValidateTwo(LoginSchema, Field(body, "userID"), users);
    Validate(LoginSchema, Field(body, "userID"), users)
  }

  /** The response to a login: the record at the named position, else the errors. */
  function LoginOutcome(users: seq<Record>, body: Record): (r: Response)
    ensures r.Ok? <==> UserIndex(users, Field(body, "userID")).Some?
    ensures r.Ok? ==> r.record == users[UserIndex(users, Field(body, "userID")).value]
    ensures r.BadRequest? ==> r.errors == LoginErrors(users, body) && r.errors != []
  {
    var userID := Field(body, "userID");
    var errors := LoginErrors(users, body);
    IndexKeyIsNumeric(userID);
    if errors != [] then BadRequest(errors) else Ok(users[UserIndex(users, userID).value])
  }

  /** The response to `GET /api`. */
  function Version(): (r: Response)
    ensures r.Ok? && r.record.Keys == {"version"} && r.record["version"] == Text("1.0.0")
  {
    Ok(map["version" := Text("1.0.0")])
  }

  /** The store after one request is handled. */
  function Step(users: seq<Record>, req: Request): (after: seq<Record>) {
    match req
    case RegisterRequest(body) => if RegisterErrors(users, body) == [] then users + [body] else users
    case LoginRequest(_) => users
    case VersionRequest => users
  }

  /** The response to one request against a store. */
  function Respond(users: seq<Record>, req: Request): (r: Response) {
    match req
    case RegisterRequest(body) =>
      var errors := RegisterErrors(users, body);
      if errors == [] then Ok(body) else BadRequest(errors)
    case LoginRequest(body) => LoginOutcome(users, body)
    case VersionRequest => Version()
  }

  /** The store after a sequence of requests is handled in order. */
  function Run(users: seq<Record>, reqs: seq<Request>): (after: seq<Record>)
    decreases |reqs|
  {
    if reqs == [] then users else Run(Step(users, reqs[0]), reqs[1..])
  }

  /** The process-wide user list; a record's position is its only identity. */
  class UserStore {
    var users: seq<Record>

    /** The store is created empty when the process starts. */
    constructor ()
      ensures users == []
    {
      users := [];
    }

    /** `POST /api/register`. */
    method Register(body: Record) returns (r: Response)
      modifies this
      ensures r.Ok? <==> ValidName(Field(body, "name"))
      ensures r.Ok? ==> r.record == body && users == old(users) + [body] && users[|old(users)|] == body
      ensures r.BadRequest? ==> r.errors == RegisterErrors(old(users), body) && r.errors != [] && users == old(users)
      ensures r == Respond(old(users), RegisterRequest(body)) && users == Step(old(users), RegisterRequest(body))
    {
      var errors := Validate(RegisterSchema, Field(body, "name"), users);
      assert errors == RegisterErrors(users, body);
      if errors != [] {
        return BadRequest(errors);
      }
      users := users + [body];
      var userIndex := |users| - 1;
      r := Ok(users[userIndex]);
    }

    /** `POST /api/login`: reads the store and never changes it. */
    method Login(body: Record) returns (r: Response)
      ensures r == LoginOutcome(users, body) && r == Respond(users, LoginRequest(body))
    {
      var userID := Field(body, "userID");
      var errors := Validate(LoginSchema, userID, users);
      assert errors == LoginErrors(users, body);
      if errors != [] {
        return BadRequest(errors);
      }
      var position := UserIndex(users, userID);
      r := Ok(users[position.value]);
    }
  }

  // Registration

  /** A one-letter name passes the alphabetic rule, so the length message comes first. */
  lemma RegisterTooShort(users: seq<Record>)
    ensures RegisterErrors(users, map["name" := Text("J")]) == [LengthError]
  {
  }

  /** "J0$#" is long enough, so the alphabetic message is the only one. */
  lemma RegisterNonAlphabetic(users: seq<Record>)
    ensures RegisterErrors(users, map["name" := Text("J0$#")]) == [AlphaError]
  {
    assert !IsLetter("J0$#"[1]);
  }

  /** A body without a name fails both rules, alphabetic first. */
  lemma RegisterMissingName(users: seq<Record>, body: Record)
    requires "name" !in body
    ensures RegisterErrors(users, body) == [AlphaError, LengthError]
  {
  }

  /** A name sent as a JSON number prints with a digit or a sign and is never alphabetic. */
  lemma RegisterNumberName(users: seq<Record>, body: Record, n: SafeInteger)
    requires "name" in body && body["name"] == Number(n)
    ensures RegisterErrors(users, body) != [] && RegisterErrors(users, body)[0] == AlphaError
  {
  }

  /** A successful registration echoes the body and stores it at the next position. */
  lemma RegisterAppends(users: seq<Record>, body: Record)
    requires ValidName(Field(body, "name"))
    ensures Respond(users, RegisterRequest(body)) == Ok(body)
    ensures Step(users, RegisterRequest(body)) == users + [body]
  {
  }

  // Login

  /** A missing or non-numeric userID: the numeric message first; the existence rule fails too. */
  lemma LoginNotNumeric(users: seq<Record>, body: Record)
    requires !IsNumericText(AsText(Field(body, "userID")))
    ensures LoginErrors(users, body) == [NumericError, ExistError]
  {
  }

  /** A userID sent as a number finds the record at that position, or reports that none exists. */
  lemma LoginByNumber(users: seq<Record>, n: SafeInteger)
    ensures LoginOutcome(users, map["userID" := Number(n)])
            == if 0 <= n < |users| then Ok(users[n]) else BadRequest([ExistError])
  {
    NumberKeyIndex(n);
    DecimalTextIsNumeric(n);
  }

  /** A userID sent as a string names a position exactly when it is that position's canonical numeral. */
  lemma LoginByText(users: seq<Record>, s: string, i: nat)
    ensures UserIndex(users, Some(Text(s))) == Some(i) <==> s == Digits(i) && i < |users|
  {
    ParseIndexExactly(s, i);
  }

  // Sequences of requests

  /** Handling any requests keeps every stored record at its position. */
  lemma {:induction false} RunAppendOnly(users: seq<Record>, reqs: seq<Request>)
    ensures |users| <= |Run(users, reqs)| && Run(users, reqs)[..|users|] == users
    decreases |reqs|
  {
    if reqs != [] {
      var next := Step(users, reqs[0]);
      assert |users| <= |next| && next[..|users|] == users;
      RunAppendOnly(next, reqs[1..]);
      assert Run(users, reqs)[..|users|] == Run(users, reqs)[..|next|][..|users|];
    }
  }

  /** A position filled once is found by login after any later requests. */
  lemma LoginAfterRun(users: seq<Record>, reqs: seq<Request>, i: SafeInteger)
    requires 0 <= i < |users|
    ensures LoginOutcome(Run(users, reqs), map["userID" := Number(i)]) == Ok(users[i])
  {
    RunAppendOnly(users, reqs);
    LoginByNumber(Run(users, reqs), i);
    assert Run(users, reqs)[i] == Run(users, reqs)[..|users|][i];
  }

  /** The registration requests of a list of bodies. */
  function Registrations(bodies: seq<Record>): (reqs: seq<Request>)
    ensures |reqs| == |bodies|
    ensures forall k :: 0 <= k < |bodies| ==> reqs[k] == RegisterRequest(bodies[k])
  {
    seq(|bodies|, k requires 0 <= k < |bodies| => RegisterRequest(bodies[k]))
  }

  /** Registering valid bodies one after another stores exactly those bodies, in order. */
  lemma {:induction false} RegisterAll(users: seq<Record>, bodies: seq<Record>)
    requires forall k :: 0 <= k < |bodies| ==> ValidName(Field(bodies[k], "name"))
    ensures Run(users, Registrations(bodies)) == users + bodies
    decreases |bodies|
  {
    if bodies != [] {
      var reqs := Registrations(bodies);
      var rest := bodies[1..];
      assert reqs[1..] == Registrations(rest);
      RegisterAppends(users, bodies[0]);
      assert Run(users, reqs) == Run(users + [bodies[0]], Registrations(rest));
      RegisterAll(users + [bodies[0]], rest);
      assert users + [bodies[0]] + rest == users + bodies;
    }
  }

  /** After N valid registrations into an empty store, positions 0..N-1 log in and position N does not. */
  lemma RegisteredPositions(bodies: seq<Record>, n: SafeInteger)
    requires forall k :: 0 <= k < |bodies| ==> ValidName(Field(bodies[k], "name"))
    ensures 0 <= n < |bodies| ==> LoginOutcome(Run([], Registrations(bodies)), map["userID" := Number(n)]) == Ok(bodies[n])
    ensures n == |bodies| ==> LoginOutcome(Run([], Registrations(bodies)), map["userID" := Number(n)]) == BadRequest([ExistError])
  {
    RegisterAll([], bodies);
    assert [] + bodies == bodies;
    LoginByNumber(bodies, n);
  }

  /** The registration requests of a trace, in their order. */
  function RegisterRequests(reqs: seq<Request>): (regs: seq<Request>)
    ensures |regs| <= |reqs|
    ensures forall k :: 0 <= k < |regs| ==> regs[k].RegisterRequest? && regs[k] in reqs
    decreases |reqs|
  {
    if reqs == [] then []
    else (if reqs[0].RegisterRequest? then [reqs[0]] else []) + RegisterRequests(reqs[1..])
  }

  /** The store after any trace is the store after its registrations alone: logins and version requests never change it. */
  lemma {:induction false} RunIgnoresReads(users: seq<Record>, reqs: seq<Request>)
    ensures Run(users, reqs) == Run(users, RegisterRequests(reqs))
    decreases |reqs|
  {
    if reqs != [] {
      var rest := reqs[1..];
      if reqs[0].RegisterRequest? {
        var regs := [reqs[0]] + RegisterRequests(rest);
        assert RegisterRequests(reqs) == regs;
        assert regs[0] == reqs[0] && regs[1..] == RegisterRequests(rest);
        RunIgnoresReads(Step(users, reqs[0]), rest);
      } else {
        assert RegisterRequests(reqs) == RegisterRequests(rest);
        RunIgnoresReads(users, rest);
      }
    }
  }

  /** The suite of request tests, run in order against one fresh store. */
  method TestSuite() returns (version: Response, registered: Response, missing: Response, short: Response,
                              special: Response, login: Response, noUser: Response, symbols: Response, unknown: Response)
    ensures version.Ok? && "version" in version.record && version.record["version"] == Text("1.0.0")
    ensures registered.Ok? && "name" in registered.record && registered.record["name"] == Text("JoshMatz")
    ensures missing.BadRequest? && missing.errors != []
    ensures short.BadRequest? && |short.errors| > 0 && short.errors[0].msg == LengthMessage
    ensures special.BadRequest? && |special.errors| > 0 && special.errors[0].msg == AlphaMessage
    ensures login.Ok? && "name" in login.record && login.record["name"] == Text("JoshMatz")
    ensures noUser.BadRequest? && |noUser.errors| > 0 && noUser.errors[0].msg == NumericMessage
    ensures symbols.BadRequest? && |symbols.errors| > 0 && symbols.errors[0].msg == NumericMessage
    ensures unknown.BadRequest? && |unknown.errors| > 0 && unknown.errors[0].msg == ExistMessage
  {
    var josh: Record := map["name" := Text("JoshMatz")];
    var store := new UserStore();
    version := Version();
    assert ValidName(Field(josh, "name")) by {
      assert IsAlphaText("JoshMatz");
    }
    registered := store.Register(josh);
    assert store.users == [josh];
    RegisterMissingName(store.users, map[]);
    missing := store.Register(map[]);
    RegisterTooShort(store.users);
    short := store.Register(map["name" := Text("J")]);
    RegisterNonAlphabetic(store.users);
    special := store.Register(map["name" := Text("J0$#")]);
    assert store.users == [josh];
    LoginByNumber(store.users, 0);
    login := store.Login(map["userID" := Number(0)]);
    LoginNotNumeric(store.users, map[]);
    noUser := store.Login(map[]);
    assert !IsNumericText("@#$");
    LoginNotNumeric(store.users, map["userID" := Text("@#$")]);
    symbols := store.Login(map["userID" := Text("@#$")]);
    LoginByNumber(store.users, 5);
    unknown := store.Login(map["userID" := Number(5)]);
  }
}

/** The session context: the signed-in `user`, the `isLoading` flag of the
    start-up restore, and the one persisted `"@user"` slot of device storage.
    Each operation is first given as a step function over a `Session` value;
    the `AuthProvider` class performs the same steps on its fields, in the
    order the provider writes them. */
module AuthContext {
  import opened Common

  datatype User = User(id: int, name: string, email: string, token: string)

  /** What `JSON.parse` makes of the stored text: it throws, or it yields a
      user record or `null`. */
  datatype Parsed = Malformed | Value(user: Option<User>)

  /** The error that escapes an operation. */
  datatype Failure =
    | Rejected(message: string)   // the login endpoint answered non-ok
    | RequestFailed               // the login request or its body parse threw
    | StorageFailed               // device storage threw
    | ParseFailed                 // the stored text is not JSON

  /** The text thrown on a non-ok login answer, with the characters exactly as
      the provider spells them ("inválidas" mis-encoded as "invÃ¡lidas"). */
  const InvalidCredentialsMessage: string := "Credenciais inv\U{00C3}\U{00A1}lidas"

  datatype Session = Session(user: Option<User>, isLoading: bool, stored: Option<string>)

  /** The state after one operation, and what it threw. */
  datatype Step = Step(next: Session, thrown: Option<Failure>)

  /** A freshly mounted provider over whatever the device has stored. */
  function Initial(stored: Option<string>): (s: Session)
    ensures s.user == None && s.isLoading && s.stored == stored
  {
    Session(None, true, stored)
  }

  // ---------------------------------------------------------------------------
  // Step functions
  // ---------------------------------------------------------------------------

  /** `loadUser`: read the slot; a non-empty value is parsed and becomes
      `user`; then `isLoading` is cleared. A read or parse error escapes
      before `isLoading` is cleared and leaves everything as it was. */
  function LoadUserStep(s: Session, readOk: bool, parse: string -> Parsed): (r: Step)
    ensures r.next.stored == s.stored
    ensures r.thrown.Some? ==> r.next == s
    ensures r.thrown.None? ==> !r.next.isLoading
    ensures r.thrown.None? <==>
      readOk && (s.stored.Some? && Truthy(s.stored.value) ==> parse(s.stored.value).Value?)
    ensures r.thrown.None? ==>
      r.next.user == if s.stored.Some? && Truthy(s.stored.value) then parse(s.stored.value).user else s.user
  {
    if !readOk then Step(s, Some(StorageFailed))
    else if s.stored.Some? && Truthy(s.stored.value) then
      match parse(s.stored.value)
      case Malformed => Step(s, Some(ParseFailed))
      case Value(u) => Step(s.(user := u, isLoading := false), None)
    else Step(s.(isLoading := false), None)
  }

  /** `login`: a failed request or a non-ok answer throws and changes
      nothing. An ok answer becomes `user` first; then its `token` (not the
      whole record) is written to the slot, and a failed write is rethrown
      with `user` already replaced. `isLoading` is never touched. */
  function LoginStep(s: Session, response: Response<User>, writeOk: bool): (r: Step)
    ensures r.next.isLoading == s.isLoading
    ensures !response.Ok? ==> r.next == s
    ensures response.NotOk? ==> r.thrown == Some(Rejected(InvalidCredentialsMessage))
    ensures response.Ok? ==> r.next.user == Some(response.body)
    ensures r.thrown.None? <==> response.Ok? && writeOk
    ensures r.next.stored == if response.Ok? && writeOk then Some(response.body.token) else s.stored
  {
    match response
    case Threw => Step(s, Some(RequestFailed))
    case NotOk(_) => Step(s, Some(Rejected(InvalidCredentialsMessage)))
    case Ok(data) =>
      var signedIn := s.(user := Some(data));
      if writeOk then Step(signedIn.(stored := Some(data.token)), None)
      else Step(signedIn, Some(StorageFailed))
  }

  /** `logout`: remove the slot, then clear `user`. A failed removal escapes
      before `user` is cleared. */
  function LogoutStep(s: Session, removeOk: bool): (r: Step)
    ensures r.next.isLoading == s.isLoading
    ensures removeOk ==> r.next.user == None && r.next.stored == None && r.thrown == None
    ensures !removeOk ==> r.next == s && r.thrown == Some(StorageFailed)
  {
    if removeOk then Step(s.(stored := None, user := None), None)
    else Step(s, Some(StorageFailed))
  }

  // ---------------------------------------------------------------------------
  // Runs of operations
  // ---------------------------------------------------------------------------

  /** One operation with the outcomes of its storage and network calls. */
  datatype Event =
    | LoadUser(readOk: bool, parse: string -> Parsed)
    | Login(response: Response<User>, writeOk: bool)
    | Logout(removeOk: bool)

  function Apply(s: Session, e: Event): Session {
    match e
    case LoadUser(readOk, parse) => LoadUserStep(s, readOk, parse).next
    case Login(response, writeOk) => LoginStep(s, response, writeOk).next
    case Logout(removeOk) => LogoutStep(s, removeOk).next
  }

  /** The session after the operations `events`, in order. */
  function Run(s: Session, events: seq<Event>): Session
    decreases |events|
  {
    if events == [] then s else Run(Apply(s, events[0]), events[1..])
  }

  /** Once cleared, `isLoading` stays cleared whatever happens next. */
  lemma {:induction false} LoadingNeverReturns(s: Session, events: seq<Event>)
    requires !s.isLoading
    ensures !Run(s, events).isLoading
    decreases |events|
  {
    if events != [] {
      LoadingNeverReturns(Apply(s, events[0]), events[1..]);
    }
  }

  /** Only `loadUser` writes `isLoading`: runs of logins and logouts keep it. */
  lemma {:induction false} OnlyLoadUserClearsLoading(s: Session, events: seq<Event>)
    requires forall i :: 0 <= i < |events| ==> !events[i].LoadUser?
    ensures Run(s, events).isLoading == s.isLoading
    decreases |events|
  {
    if events != [] {
      OnlyLoadUserClearsLoading(Apply(s, events[0]), events[1..]);
    }
  }

  /** Logins that the server rejects, however many, leave the session as it
      was: in particular they never produce a signed-in user. */
  lemma {:induction false} RejectedLoginsChangeNothing(s: Session, events: seq<Event>)
    requires forall i :: 0 <= i < |events| ==> events[i].Login? && !events[i].response.Ok?
    ensures Run(s, events) == s
    decreases |events|
  {
    if events != [] {
      RejectedLoginsChangeNothing(Apply(s, events[0]), events[1..]);
    }
  }

  /** A second successful logout gives the same state as the first. */
  lemma LogoutIdempotent(s: Session)
    ensures LogoutStep(LogoutStep(s, true).next, true) == LogoutStep(s, true)
  {
  }

  /** After a successful logout and a restart, the restore finds nothing and
      the provider comes up signed out and loaded. */
  lemma LogoutThenRestart(s: Session, parse: string -> Parsed)
    ensures var restarted := Initial(LogoutStep(s, true).next.stored);
            LoadUserStep(restarted, true, parse) == Step(Session(None, false, None), None)
  {
  }

  /** After a successful login and a restart, the restore parses the stored
      token as if it were a user record: the restored user is whatever the
      token parses to, and when it is not JSON (a JWT is not) the restore
      throws and the provider stays loading and signed out. */
  lemma LoginThenRestart(s: Session, u: User, parse: string -> Parsed)
    requires Truthy(u.token)
    ensures var restarted := Initial(LoginStep(s, Ok(u), true).next.stored);
            var restore := LoadUserStep(restarted, true, parse);
            && (parse(u.token).Malformed? ==>
                  restore.thrown == Some(ParseFailed) && restore.next.isLoading && restore.next.user == None)
            && (parse(u.token).Value? ==>
                  restore.thrown == None && restore.next.user == parse(u.token).user)
  {
  }

  // ---------------------------------------------------------------------------
  // The provider
  // ---------------------------------------------------------------------------

  class AuthProvider {
    var user: Option<User>
    var isLoading: bool
    var stored: Option<string>

    function State(): Session
      reads this
    {
      Session(user, isLoading, stored)
    }

    /** `useState(null)` and `useState(true)`, over the device's slot. */
    constructor (slot: Option<string>)
      ensures State() == Initial(slot)
    {
      user := None;
      isLoading := true;
      stored := slot;
    }

    method LoadUser(readOk: bool, parse: string -> Parsed) returns (thrown: Option<Failure>)
      modifies this
      ensures Step(State(), thrown) == LoadUserStep(old(State()), readOk, parse)
    {
      if !readOk {
        return Some(StorageFailed);
      }
      if stored.Some? && Truthy(stored.value) {
        match parse(stored.value)
        case Malformed =>
          return Some(ParseFailed);
        case Value(u) =>
          user := u;
      }
      isLoading := false;
      thrown := None;
    }

    method Login(response: Response<User>, writeOk: bool) returns (thrown: Option<Failure>)
      modifies this
      ensures Step(State(), thrown) == LoginStep(old(State()), response, writeOk)
    {
      match response
      case Threw =>
        thrown := Some(RequestFailed);
      case NotOk(_) =>
        thrown := Some(Rejected(InvalidCredentialsMessage));
      case Ok(data) =>
        user := Some(data);
        if !writeOk {
          return Some(StorageFailed);
        }
        stored := Some(data.token);
        thrown := None;
    }

    method Logout(removeOk: bool) returns (thrown: Option<Failure>)
      modifies this
      ensures Step(State(), thrown) == LogoutStep(old(State()), removeOk)
    {
      if !removeOk {
        return Some(StorageFailed);
      }
      stored := None;
      user := None;
      thrown := None;
    }
  }
}

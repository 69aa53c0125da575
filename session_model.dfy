/**
 * The records the session manager works on, and the model-layer queries and updates it
 * calls.  The model layer itself is not part of this model; its queries are defined here
 * from the two facts the manager relies on: a session is "active" until it is marked for
 * stopping, and the active sessions are the available (reserved, unowned) ones plus the
 * allocated (owned) ones.
 */
module SessionModel {
  import opened Wrappers

  datatype SessionState = Starting | Waiting | Running | Stopping

  type User = string

  datatype EnvVar = EnvVar(name: string, value: string)

  /** A workshop session record, with the client secret and redirect URIs of its OAuth application. */
  datatype Session = Session(
    name: string,
    id: string,
    environment: string,
    state: SessionState,
    owner: Option<User>,
    token: Option<string>,
    created: int,
    clientSecret: string,
    redirectUris: seq<string>)

  /** A workshop environment record; `ingresses` are the names of the workshop's extra ingresses. */
  datatype Environment = Environment(
    name: string,
    uid: string,
    capacity: nat,
    reserved: nat,
    tally: nat,
    duration: nat,
    inactivity: nat,
    env: seq<EnvVar>,
    ingresses: seq<string>)

  /** Which sessions a count ranges over: the whole portal or one environment. */
  datatype Scope = WholePortal | InEnvironment(name: string)

  /** Which sessions a count selects: active, available (reserved) or allocated. */
  datatype Category = Active | Available | Allocated

  /** Python truthiness of an optional string: present and not empty. */
  predicate Truthy(s: Option<string>) {
    s.Some? && s.value != []
  }

  predicate IsActive(s: Session) {
    s.state != Stopping
  }

  predicate IsAvailable(s: Session) {
    IsActive(s) && s.owner.None?
  }

  predicate IsAllocated(s: Session) {
    IsActive(s) && s.owner.Some?
  }

  /** A session waiting for activation with a token. */
  predicate IsPending(s: Session)
    ensures IsPending(s) ==> IsActive(s) && s.state != Running
  {
    Truthy(s.token) && (s.state == Starting || s.state == Waiting)
  }

  predicate InScope(s: Session, scope: Scope) {
    scope.WholePortal? || s.environment == scope.name
  }

  predicate Counted(s: Session, c: Category, scope: Scope) {
    InScope(s, scope)
    && match c
       case Active => IsActive(s)
       case Available => IsAvailable(s)
       case Allocated => IsAllocated(s)
  }

  function Indicator(b: bool): nat {
    if b then 1 else 0
  }

  /** `active_sessions_count`, `available_sessions_count` and `allocated_sessions_count` of an environment or the portal. */
  function Count(ss: seq<Session>, c: Category, scope: Scope): (n: nat)
    ensures n <= |ss|
  {
    if ss == [] then 0 else Indicator(Counted(ss[0], c, scope)) + Count(ss[1..], c, scope)
  }

  /** Active sessions are exactly the available ones plus the allocated ones. */
  lemma {:induction false} ActiveIsAvailablePlusAllocated(ss: seq<Session>, scope: Scope)
    ensures Count(ss, Active, scope) == Count(ss, Available, scope) + Count(ss, Allocated, scope)
  {
    if ss != [] {
      ActiveIsAvailablePlusAllocated(ss[1..], scope);
    }
  }

  lemma {:induction false} CountAppend(ss: seq<Session>, x: Session, c: Category, scope: Scope)
    ensures Count(ss + [x], c, scope) == Count(ss, c, scope) + Indicator(Counted(x, c, scope))
  {
    if ss == [] {
      assert [] + [x] == [x];
      assert [x][1..] == [];
    } else {
      assert (ss + [x])[1..] == ss[1..] + [x];
      CountAppend(ss[1..], x, c, scope);
    }
  }

  lemma {:induction false} CountUpdate(ss: seq<Session>, i: nat, x: Session, c: Category, scope: Scope)
    requires i < |ss|
    ensures Count(ss[i := x], c, scope) + Indicator(Counted(ss[i], c, scope))
         == Count(ss, c, scope) + Indicator(Counted(x, c, scope))
  {
    if i == 0 {
      assert ss[i := x][1..] == ss[1..];
    } else {
      assert ss[i := x][1..] == ss[1..][i - 1 := x];
      CountUpdate(ss[1..], i - 1, x, c, scope);
    }
  }

  /** `environment.available_session()`: the first available session of the environment, if any. */
  function AvailableSession(ss: seq<Session>, env: string): (r: Option<nat>)
    ensures r.Some? ==> r.value < |ss| && Counted(ss[r.value], Available, InEnvironment(env))
    ensures r.None? <==> Count(ss, Available, InEnvironment(env)) == 0
  {
    if ss == [] then None
    else if Counted(ss[0], Available, InEnvironment(env)) then Some(0)
    else match AvailableSession(ss[1..], env)
      case None => None
      case Some(i) => Some(i + 1)
  }

  /** `environment.allocated_session_for_user(user)`: the user's allocated session in the environment, if any. */
  function AllocatedSessionForUser(ss: seq<Session>, env: string, user: User): (r: Option<nat>)
    ensures r.Some? ==> r.value < |ss| && Counted(ss[r.value], Allocated, InEnvironment(env)) && ss[r.value].owner == Some(user)
    ensures r.None? ==> forall j :: 0 <= j < |ss| && Counted(ss[j], Allocated, InEnvironment(env)) ==> ss[j].owner != Some(user)
  {
    if ss == [] then None
    else if Counted(ss[0], Allocated, InEnvironment(env)) && ss[0].owner == Some(user) then Some(0)
    else match AllocatedSessionForUser(ss[1..], env, user)
      case None => None
      case Some(i) => Some(i + 1)
  }

  /**
   * `portal.available_sessions().order_by("created")[0]`: the available session of the portal
   * created first; among sessions created at the same time, the earliest record.
   */
  function OldestAvailable(ss: seq<Session>): (r: Option<nat>)
    ensures r.None? <==> Count(ss, Available, WholePortal) == 0
    ensures r.None? ==> forall j :: 0 <= j < |ss| ==> !IsAvailable(ss[j])
    ensures r.Some? ==> r.value < |ss| && IsAvailable(ss[r.value])
    ensures r.Some? ==> forall j :: 0 <= j < |ss| && IsAvailable(ss[j]) ==> ss[r.value].created <= ss[j].created
    ensures r.Some? ==> forall j :: 0 <= j < r.value && IsAvailable(ss[j]) ==> ss[r.value].created < ss[j].created
  {
    if ss == [] then None
    else
      var rest := OldestAvailable(ss[1..]);
      if !IsAvailable(ss[0]) then
        (match rest case None => None case Some(i) => Some(i + 1))
      else
        (match rest
         case None => Some(0)
         case Some(i) => if ss[i + 1].created < ss[0].created then Some(i + 1) else Some(0))
  }

  /** The first session record with the given name (`Session.objects.get(name=name)`). */
  function FindSession(ss: seq<Session>, name: string): (r: Option<nat>)
    ensures r.Some? ==> r.value < |ss| && ss[r.value].name == name
    ensures r.None? ==> forall j :: 0 <= j < |ss| ==> ss[j].name != name
  {
    if ss == [] then None
    else if ss[0].name == name then Some(0)
    else match FindSession(ss[1..], name)
      case None => None
      case Some(i) => Some(i + 1)
  }

  // The model-layer updates: `mark_as_pending`, `mark_as_running` and `mark_as_stopping`.
  // Marking pending records the owner and the token and leaves the state alone: a session
  // created fresh is marked pending while still starting, and is deployed afterwards.

  /** The fields a record keeps for its whole life: its name, id, environment, creation time and OAuth client. */
  predicate SameRecord(a: Session, b: Session) {
    && a.name == b.name && a.id == b.id && a.environment == b.environment
    && a.created == b.created && a.clientSecret == b.clientSecret && a.redirectUris == b.redirectUris
  }

  function MarkedPending(s: Session, user: User, token: Option<string>): (m: Session)
    ensures SameRecord(m, s) && m.owner == Some(user) && m.token == token && m.state == s.state
    ensures IsActive(m) == IsActive(s) && (IsActive(s) ==> IsAllocated(m))
    ensures IsPending(m) <==> Truthy(token) && (s.state == Starting || s.state == Waiting)
  {
    s.(owner := Some(user), token := token)
  }

  function MarkedRunning(s: Session, user: User): (m: Session)
    ensures SameRecord(m, s) && m.owner == Some(user) && m.token == s.token
    ensures m.state == Running && IsAllocated(m) && !IsPending(m)
  {
    s.(owner := Some(user), state := Running)
  }

  function MarkedStopping(s: Session): (m: Session)
    ensures SameRecord(m, s) && m.owner == s.owner && m.token == s.token
    ensures !IsActive(m) && !IsAvailable(m) && !IsAllocated(m) && !IsPending(m)
  {
    s.(state := Stopping)
  }

  /** The sessions with the oldest available one marked for stopping; unchanged when none is available. */
  function StopOldestAvailable(ss: seq<Session>): (r: seq<Session>)
    ensures |r| == |ss|
  {
    match OldestAvailable(ss)
    case None => ss
    case Some(o) => ss[o := MarkedStopping(ss[o])]
  }
}

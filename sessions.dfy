/**
 * The training portal's session manager: naming and recording new workshop sessions,
 * deploying them as WorkshopSession resources, and the scheduling policy that hands a
 * session to a user (reuse the user's own, claim a reserved one, or create one within the
 * environment's capacity and the portal's session maximum, evicting the oldest reserved
 * session when the portal is full of reserves).
 */
module Sessions {
  import opened Wrappers
  import opened Strings
  import opened SessionModel

  /** The portal's deployment settings the manager reads. */
  datatype Settings = Settings(
    ingressProtocol: string,
    ingressDomain: string,
    portalHostname: string,
    portalName: string,
    frameAncestors: string)

  // ---------------------------------------------------------------------------------------
  // Session names

  /** `s{tally:03}`: the letter s and the tally in decimal, zero-padded to three digits. */
  function SessionId(tally: nat): (id: string)
    ensures |id| >= 4 && id[0] == 's'
  {
    "s" + ZeroPad(Decimal(tally), 3)
  }

  /** After the letter s, a session id holds only decimal digits. */
  lemma SessionIdDigits(tally: nat)
    ensures forall k :: 1 <= k < |SessionId(tally)| ==> IsDigit(SessionId(tally)[k])
  {
    var id := SessionId(tally);
    var digits := ZeroPad(Decimal(tally), 3);
    var pad := |digits| - |Decimal(tally)|;
    assert id[1..] == digits;
    forall k | 1 <= k < |id|
      ensures IsDigit(id[k])
    {
      assert id[k] == digits[k - 1];
      if k - 1 >= pad {
        assert digits[k - 1] == digits[pad..][k - 1 - pad];
      }
    }
  }

  function SessionName(env: string, tally: nat): string {
    env + "-" + SessionId(tally)
  }

  /** The tally can be read back from the session id. */
  lemma SessionIdRoundTrip(tally: nat)
    ensures ParseDecimal(SessionId(tally)[1..]) == tally
  {
    assert SessionId(tally)[1..] == ZeroPad(Decimal(tally), 3);
    PaddedDecimalRoundTrip(tally, 3);
  }

  /**
   * Session names never collide: the environment name and the tally can both be read back
   * from a session name, because the id after the last hyphen holds no hyphen.
   */
  lemma SessionNameInjective(env1: string, tally1: nat, env2: string, tally2: nat)
    requires SessionName(env1, tally1) == SessionName(env2, tally2)
    ensures env1 == env2 && tally1 == tally2
  {
    var id1, id2 := SessionId(tally1), SessionId(tally2);
    var n := SessionName(env1, tally1);
    assert n == env1 + "-" + id1 && n == env2 + "-" + id2;
    NoHyphenInId(tally1);
    NoHyphenInId(tally2);
    if |id1| < |id2| {
      HyphenBeforeId(env1, id1);
      assert false;
    } else if |id2| < |id1| {
      HyphenBeforeId(env2, id2);
      assert false;
    }
    assert id1 == n[|n| - |id1|..] == id2;
    assert env1 == n[..|env1|] == env2;
    SessionIdRoundTrip(tally1);
    SessionIdRoundTrip(tally2);
  }

  lemma HyphenBeforeId(env: string, id: string)
    ensures (env + "-" + id)[|env|] == '-'
  {
  }

  lemma NoHyphenInId(tally: nat)
    ensures forall k :: 0 <= k < |SessionId(tally)| ==> SessionId(tally)[k] != '-'
  {
    var id := SessionId(tally);
    forall k | 0 <= k < |id|
      ensures id[k] != '-'
    {
      SessionIdDigits(tally);
    }
  }

  // ---------------------------------------------------------------------------------------
  // OAuth redirect URIs

  /** The host of a callback: the session name, with `-suffix` appended when the suffix is truthy. */
  function CallbackHost(name: string, suffix: Option<string>): (h: string)
    ensures |h| >= |name| && h[..|name|] == name
    ensures |h| == |name| <==> !Truthy(suffix)
  {
    if Truthy(suffix) then name + "-" + suffix.value else name
  }

  /** `redirect_uri_for_oauth_callback(suffix)`. */
  function RedirectUri(name: string, suffix: Option<string>, st: Settings): (u: string)
    ensures |u| > |st.ingressProtocol| + 3 + |name| && u[..|st.ingressProtocol|] == st.ingressProtocol
  {
    st.ingressProtocol + "://" + CallbackHost(name, suffix) + "." + st.ingressDomain + "/oauth_callback"
  }

  /** The callbacks of the ingresses, in the order the workshop lists them. */
  function IngressUris(name: string, ingresses: seq<string>, st: Settings): (r: seq<string>)
    ensures |r| == |ingresses|
    ensures forall k :: 0 <= k < |r| ==> r[k] == RedirectUri(name, Some(ingresses[k]), st)
  {
    if ingresses == [] then []
    else IngressUris(name, ingresses[..|ingresses| - 1], st) + [RedirectUri(name, Some(ingresses[|ingresses| - 1]), st)]
  }

  const EmbeddedApps: seq<string> := ["console", "editor", "slides", "terminal"]

  /** The redirect URIs of a session's OAuth application: the workshop, its embedded applications, then its ingresses. */
  function CallbackUris(name: string, ingresses: seq<string>, st: Settings): (uris: seq<string>)
    ensures |uris| == 5 + |ingresses| && uris[0] == RedirectUri(name, None, st)
  {
    [RedirectUri(name, None, st)]
    + [RedirectUri(name, Some("console"), st), RedirectUri(name, Some("editor"), st),
       RedirectUri(name, Some("slides"), st), RedirectUri(name, Some("terminal"), st)]
    + IngressUris(name, ingresses, st)
  }

  /** Builds the redirect URIs of a session step by step, as `setup_workshop_session` does. */
  method RedirectUris(name: string, ingresses: seq<string>, st: Settings) returns (uris: seq<string>)
    ensures uris == CallbackUris(name, ingresses, st)
  {
    uris := [
      RedirectUri(name, None, st),
      RedirectUri(name, Some("console"), st),
      RedirectUri(name, Some("editor"), st),
      RedirectUri(name, Some("slides"), st),
      RedirectUri(name, Some("terminal"), st)
    ];
    for i := 0 to |ingresses|
      invariant uris == CallbackUris(name, ingresses[..i], st)
    {
      assert ingresses[..i + 1][..i] == ingresses[..i];
      uris := uris + [RedirectUri(name, Some(ingresses[i]), st)];
    }
    assert ingresses[..|ingresses|] == ingresses;
  }

  /** The suffix the callback at position `a` of `CallbackUris` is built from. */
  function SuffixAt(ingresses: seq<string>, a: nat): Option<string>
    requires a < 5 + |ingresses|
  {
    if a == 0 then None else if a < 5 then Some(EmbeddedApps[a - 1]) else Some(ingresses[a - 5])
  }

  lemma CallbackUriAt(name: string, ingresses: seq<string>, st: Settings, a: nat)
    requires a < 5 + |ingresses|
    ensures |CallbackUris(name, ingresses, st)| == 5 + |ingresses|
    ensures CallbackUris(name, ingresses, st)[a] == RedirectUri(name, SuffixAt(ingresses, a), st)
  {
  }

  /** Different callback hosts give different redirect URIs. */
  lemma RedirectUriInjective(name: string, a: Option<string>, b: Option<string>, st: Settings)
    requires RedirectUri(name, a, st) == RedirectUri(name, b, st)
    ensures CallbackHost(name, a) == CallbackHost(name, b)
  {
    var p := st.ingressProtocol + "://";
    var ha, hb := CallbackHost(name, a), CallbackHost(name, b);
    SuffixCancel(p + ha + "." + st.ingressDomain, p + hb + "." + st.ingressDomain, "/oauth_callback");
    SuffixCancel(p + ha + ".", p + hb + ".", st.ingressDomain);
    SuffixCancel(p + ha, p + hb, ".");
    PrefixCancel(p, ha, hb);
  }

  /** The callback host determines the suffix, up to truthiness. */
  lemma CallbackHostInjective(name: string, a: Option<string>, b: Option<string>)
    requires CallbackHost(name, a) == CallbackHost(name, b)
    ensures Truthy(a) == Truthy(b)
    ensures Truthy(a) ==> a.value == b.value
  {
    if Truthy(a) && Truthy(b) {
      assert a.value == CallbackHost(name, a)[|name| + 1..];
      assert b.value == CallbackHost(name, b)[|name| + 1..];
    }
  }

  /**
   * When the workshop's ingress names are non-empty, distinct, and none is the name of an
   * embedded application, the OAuth application trusts each redirect URI once.
   */
  lemma CallbackUrisDistinct(name: string, ingresses: seq<string>, st: Settings)
    requires forall k :: 0 <= k < |ingresses| ==> ingresses[k] != [] && ingresses[k] !in EmbeddedApps
    requires forall k, l :: 0 <= k < l < |ingresses| ==> ingresses[k] != ingresses[l]
    ensures var uris := CallbackUris(name, ingresses, st);
      forall a, b :: 0 <= a < b < |uris| ==> uris[a] != uris[b]
  {
    var uris := CallbackUris(name, ingresses, st);
    forall a, b | 0 <= a < b < |uris|
      ensures uris[a] != uris[b]
    {
      CallbackUriAt(name, ingresses, st, a);
      CallbackUriAt(name, ingresses, st, b);
      if uris[a] == uris[b] {
        RedirectUriInjective(name, SuffixAt(ingresses, a), SuffixAt(ingresses, b), st);
        CallbackHostInjective(name, SuffixAt(ingresses, a), SuffixAt(ingresses, b));
      }
    }
  }

  // ---------------------------------------------------------------------------------------
  // The WorkshopSession resource

  function PortalApiUrl(st: Settings): string {
    st.ingressProtocol + "://" + st.portalHostname
  }

  /** Where the workshop's restart button leads: the session's delete page when it can expire, else the catalog. */
  function RestartUrl(e: Environment, s: Session, st: Settings): (u: string)
    ensures |u| > |PortalApiUrl(st)| && u[..|PortalApiUrl(st)|] == PortalApiUrl(st)
  {
    if e.duration != 0 || e.inactivity != 0 then PortalApiUrl(st) + "/workshops/session/" + s.name + "/delete/"
    else PortalApiUrl(st) + "/workshops/catalog/"
  }

  /** The variables a session adds on top of the workshop's own environment. */
  function SessionEnvFor(e: Environment, s: Session, st: Settings): (r: seq<EnvVar>)
    ensures |r| > |e.env| + 4 && r[..|e.env|] == e.env
    ensures r[|e.env| + 3] == EnvVar("SESSION_NAME", s.name) && r[|e.env| + 4] == EnvVar("TRAINING_PORTAL", st.portalName)
  {
    e.env
    + [EnvVar("PORTAL_CLIENT_ID", s.name),
       EnvVar("PORTAL_CLIENT_SECRET", s.clientSecret),
       EnvVar("PORTAL_API_URL", PortalApiUrl(st)),
       EnvVar("SESSION_NAME", s.name),
       EnvVar("TRAINING_PORTAL", st.portalName),
       EnvVar("FRAME_ANCESTORS", st.frameAncestors)]
    + (if e.duration != 0 then [EnvVar("ENABLE_COUNTDOWN", "true")] else [])
    + [EnvVar("RESTART_URL", RestartUrl(e, s, st))]
  }

  /** Builds a session's environment variables by appending to the workshop's, as `create_workshop_session` does. */
  method SessionEnv(e: Environment, s: Session, st: Settings) returns (r: seq<EnvVar>)
    ensures r == SessionEnvFor(e, s, st)
  {
    r := e.env;
    r := r + [EnvVar("PORTAL_CLIENT_ID", s.name)];
    r := r + [EnvVar("PORTAL_CLIENT_SECRET", s.clientSecret)];
    var apiUrl := st.ingressProtocol + "://" + st.portalHostname;
    r := r + [EnvVar("PORTAL_API_URL", apiUrl)];
    r := r + [EnvVar("SESSION_NAME", s.name)];
    r := r + [EnvVar("TRAINING_PORTAL", st.portalName)];
    r := r + [EnvVar("FRAME_ANCESTORS", st.frameAncestors)];
    var restartUrl;
    if e.duration != 0 || e.inactivity != 0 {
      restartUrl := apiUrl + "/workshops/session/" + s.name + "/delete/";
    } else {
      restartUrl := apiUrl + "/workshops/catalog/";
    }
    if e.duration != 0 {
      r := r + [EnvVar("ENABLE_COUNTDOWN", "true")];
    }
    r := r + [EnvVar("RESTART_URL", restartUrl)];
  }

  /**
   * The workshop's own variables come first and are kept; the session's client credentials
   * follow; the countdown is enabled exactly when the workshop has a duration; the restart
   * URL comes last.
   */
  lemma SessionEnvOverlay(e: Environment, s: Session, st: Settings)
    ensures var r := SessionEnvFor(e, s, st);
      && |r| == |e.env| + 7 + Indicator(e.duration != 0)
      && r[..|e.env|] == e.env
      && r[|e.env|] == EnvVar("PORTAL_CLIENT_ID", s.name)
      && r[|e.env| + 1] == EnvVar("PORTAL_CLIENT_SECRET", s.clientSecret)
      && (EnvVar("ENABLE_COUNTDOWN", "true") in r[|e.env|..] <==> e.duration != 0)
      && r[|r| - 1] == EnvVar("RESTART_URL", RestartUrl(e, s, st))
  {
    var r := SessionEnvFor(e, s, st);
    var overlay := r[|e.env|..];
    assert r == e.env + overlay;
    if e.duration == 0 {
      assert overlay == [EnvVar("PORTAL_CLIENT_ID", s.name),
        EnvVar("PORTAL_CLIENT_SECRET", s.clientSecret),
        EnvVar("PORTAL_API_URL", PortalApiUrl(st)),
        EnvVar("SESSION_NAME", s.name),
        EnvVar("TRAINING_PORTAL", st.portalName),
        EnvVar("FRAME_ANCESTORS", st.frameAncestors),
        EnvVar("RESTART_URL", RestartUrl(e, s, st))];
    } else {
      assert overlay[6] == EnvVar("ENABLE_COUNTDOWN", "true");
    }
  }

  /** A session restarts into its own delete page exactly when it can expire. */
  lemma RestartUrlChoice(e: Environment, s: Session, st: Settings)
    ensures (e.duration != 0 || e.inactivity != 0) <==>
      RestartUrl(e, s, st) == PortalApiUrl(st) + "/workshops/session/" + s.name + "/delete/"
  {
    var api := PortalApiUrl(st);
    if e.duration == 0 && e.inactivity == 0 {
      var del := api + "/workshops/session/" + s.name + "/delete/";
      var cat := api + "/workshops/catalog/";
      assert del[|api| + 11] == 's';
      assert cat[|api| + 11] == 'c';
    }
  }

  datatype WorkshopSessionResource = WorkshopSessionResource(
    name: string,
    portal: string,
    environment: string,
    environmentUid: string,
    id: string,
    domain: string,
    env: seq<EnvVar>)

  /** What `create_workshop_session` submits to the cluster for a session. */
  function ResourceFor(e: Environment, s: Session, st: Settings): (res: WorkshopSessionResource)
    ensures res.name == s.name && res.id == s.id && res.environment == e.name && res.portal == st.portalName
    ensures |res.env| > |e.env| && res.env[..|e.env|] == e.env
  {
    WorkshopSessionResource(s.name, st.portalName, e.name, e.uid, s.id, st.ingressDomain, SessionEnvFor(e, s, st))
  }

  /** A deployed session runs at once when it belongs to a user who came with no token; otherwise it waits. */
  function DeployedState(s: Session): (r: SessionState)
    ensures r == Running <==> s.owner.Some? && !Truthy(s.token)
    ensures r != Running ==> r == Waiting
  {
    if s.owner.Some? then (if Truthy(s.token) then Waiting else Running) else Waiting
  }

  datatype DeployOutcome = Missing | Skipped | CreateFailed | Deployed

  // ---------------------------------------------------------------------------------------
  // Records of a new session

  function Bumped(e: Environment): Environment {
    e.(tally := e.tally + 1)
  }

  /** The record `setup_workshop_session` creates for the next session of `e`. */
  function NewSession(e: Environment, now: int, secret: string, st: Settings): (s: Session)
    ensures IsAvailable(s) && s.environment == e.name && s.state == Starting
  {
    var name := SessionName(e.name, e.tally + 1);
    Session(name, SessionId(e.tally + 1), e.name, Starting, None, None, now, secret,
      CallbackUris(name, e.ingresses, st))
  }

  /**
   * The record-building part of `setup_workshop_session`: the id and name from the next
   * tally, the redirect URIs built by appends, and the new record.
   */
  method BuildSession(e: Environment, now: int, secret: string, st: Settings) returns (s: Session)
    ensures s == NewSession(e, now, secret, st)
  {
    var tally := e.tally + 1;
    var sessionId := SessionId(tally);
    var sessionName := SessionName(e.name, tally);
    var uris := RedirectUris(sessionName, e.ingresses, st);
    s := Session(sessionName, sessionId, e.name, Starting, None, None, now, secret, uris);
    NewSessionIs(e, now, secret, st, s);
  }

  lemma NewSessionIs(e: Environment, now: int, secret: string, st: Settings, s: Session)
    requires s.name == SessionName(e.name, e.tally + 1) && s.id == SessionId(e.tally + 1)
    requires s.environment == e.name && s.state == Starting && s.owner == None && s.token == None
    requires s.created == now && s.clientSecret == secret && s.redirectUris == CallbackUris(s.name, e.ingresses, st)
    ensures s == NewSession(e, now, secret, st)
  {
  }

  // ---------------------------------------------------------------------------------------
  // Scheduling policy

  /** `create_reserved_session` tops up the reserve: reserves wanted, too few of them, room in the environment and the portal. */
  predicate ReserveWanted(e: Environment, ss: seq<Session>, maximum: nat)
    ensures ReserveWanted(e, ss, maximum) ==> !CreationRefused(e, ss, maximum) && !EvictionNeeded(ss, maximum)
  {
    ActiveIsAvailablePlusAllocated(ss, WholePortal);
    && e.reserved != 0
    && Count(ss, Available, InEnvironment(e.name)) < e.reserved
    && Count(ss, Active, InEnvironment(e.name)) < e.capacity
    && (maximum != 0 ==> Count(ss, Allocated, WholePortal) + Count(ss, Available, WholePortal) < maximum)
  }

  /** `create_session_for_user` gives up: the environment is at capacity, or the portal's maximum is all allocated. */
  predicate CreationRefused(e: Environment, ss: seq<Session>, maximum: nat)
    ensures !CreationRefused(e, ss, maximum) && EvictionNeeded(ss, maximum) ==> OldestAvailable(ss).Some?
  {
    ActiveIsAvailablePlusAllocated(ss, WholePortal);
    Count(ss, Active, InEnvironment(e.name)) >= e.capacity
    || (maximum != 0 && Count(ss, Allocated, WholePortal) >= maximum)
  }

  /** The portal is full, so a reserved session has to make room. */
  predicate EvictionNeeded(ss: seq<Session>, maximum: nat)
    ensures EvictionNeeded(ss, maximum) ==>
      0 < maximum <= Count(ss, Available, WholePortal) + Count(ss, Allocated, WholePortal)
  {
    ActiveIsAvailablePlusAllocated(ss, WholePortal);
    maximum != 0 && Count(ss, Active, WholePortal) >= maximum
  }

  /** When the portal is full but not all allocated, there is a reserved session to evict. */
  lemma EvictionHasVictim(ss: seq<Session>, maximum: nat)
    requires EvictionNeeded(ss, maximum)
    requires Count(ss, Allocated, WholePortal) < maximum
    ensures OldestAvailable(ss).Some?
  {
    ActiveIsAvailablePlusAllocated(ss, WholePortal);
  }

  /** No environment has more active sessions than its capacity, and the portal no more than its maximum (0: unlimited). */
  ghost predicate WithinCapacity(envs: map<string, Environment>, ss: seq<Session>, maximum: nat) {
    && (forall n :: n in envs ==> Count(ss, Active, InEnvironment(n)) <= envs[n].capacity)
    && (maximum != 0 ==> Count(ss, Active, WholePortal) <= maximum)
  }

  /** No user holds two allocated sessions of the same environment. */
  ghost predicate SingleAllocation(ss: seq<Session>) {
    forall i, j ::
      (0 <= i < |ss| && 0 <= j < |ss| && i != j && IsAllocated(ss[i]) && IsAllocated(ss[j])
       && ss[i].environment == ss[j].environment) ==> ss[i].owner != ss[j].owner
  }

  /** Nobody but session `except` holds an allocated session of `env` for `owner`. */
  ghost predicate NoOtherAllocation(ss: seq<Session>, except: int, env: string, owner: Option<User>) {
    forall j :: 0 <= j < |ss| && j != except && IsAllocated(ss[j]) && ss[j].environment == env ==> ss[j].owner != owner
  }

  /** A session may be added when it is inactive or there is room for it. */
  lemma AppendKeepsWithinCapacity(envs: map<string, Environment>, ss: seq<Session>, maximum: nat, x: Session)
    requires WithinCapacity(envs, ss, maximum)
    requires IsActive(x) && x.environment in envs ==> Count(ss, Active, InEnvironment(x.environment)) < envs[x.environment].capacity
    requires IsActive(x) && maximum != 0 ==> Count(ss, Active, WholePortal) < maximum
    ensures WithinCapacity(envs, ss + [x], maximum)
  {
    forall n | n in envs
      ensures Count(ss + [x], Active, InEnvironment(n)) <= envs[n].capacity
    {
      CountAppend(ss, x, Active, InEnvironment(n));
    }
    CountAppend(ss, x, Active, WholePortal);
  }

  /** Updating a session in place without activating it keeps every count within bounds. */
  lemma UpdateKeepsWithinCapacity(envs: map<string, Environment>, ss: seq<Session>, maximum: nat, i: nat, x: Session)
    requires WithinCapacity(envs, ss, maximum)
    requires i < |ss| && x.environment == ss[i].environment
    requires IsActive(x) ==> IsActive(ss[i])
    ensures WithinCapacity(envs, ss[i := x], maximum)
  {
    forall n | n in envs
      ensures Count(ss[i := x], Active, InEnvironment(n)) <= envs[n].capacity
    {
      CountUpdate(ss, i, x, Active, InEnvironment(n));
    }
    CountUpdate(ss, i, x, Active, WholePortal);
  }

  lemma AppendKeepsSingleAllocation(ss: seq<Session>, x: Session)
    requires SingleAllocation(ss)
    requires IsAllocated(x) ==> NoOtherAllocation(ss, -1, x.environment, x.owner)
    ensures SingleAllocation(ss + [x])
  {
    var ss' := ss + [x];
    forall i, j | 0 <= i < |ss'| && 0 <= j < |ss'| && i != j && IsAllocated(ss'[i]) && IsAllocated(ss'[j])
        && ss'[i].environment == ss'[j].environment
      ensures ss'[i].owner != ss'[j].owner
    {
      if i == |ss| {
        assert ss'[j] == ss[j];
      } else if j == |ss| {
        assert ss'[i] == ss[i];
      } else {
        assert ss'[i] == ss[i] && ss'[j] == ss[j];
      }
    }
  }

  lemma UpdateKeepsSingleAllocation(ss: seq<Session>, i: nat, x: Session)
    requires SingleAllocation(ss) && i < |ss|
    requires IsAllocated(x) ==> NoOtherAllocation(ss, i, x.environment, x.owner)
    ensures SingleAllocation(ss[i := x])
  {
    var ss' := ss[i := x];
    forall a, b | 0 <= a < |ss'| && 0 <= b < |ss'| && a != b && IsAllocated(ss'[a]) && IsAllocated(ss'[b])
        && ss'[a].environment == ss'[b].environment
      ensures ss'[a].owner != ss'[b].owner
    {
      if a == i {
        assert ss'[b] == ss[b];
      } else if b == i {
        assert ss'[a] == ss[a];
      } else {
        assert ss'[a] == ss[a] && ss'[b] == ss[b];
      }
    }
  }

  /** Under `SingleAllocation`, the user's one allocated session of an environment is the one the lookup finds. */
  lemma AllocationFound(ss: seq<Session>, env: string, user: User, k: nat)
    requires SingleAllocation(ss)
    requires k < |ss| && IsAllocated(ss[k]) && ss[k].environment == env && ss[k].owner == Some(user)
    ensures AllocatedSessionForUser(ss, env, user) == Some(k)
  {
    var r := AllocatedSessionForUser(ss, env, user);
    assert Counted(ss[k], Allocated, InEnvironment(env));
  }

  // ---------------------------------------------------------------------------------------
  // The portal's session store

  /** Every session belongs to a known environment, and environments are keyed by their names. */
  ghost predicate Consistent(envs: map<string, Environment>, ss: seq<Session>) {
    && (forall n :: n in envs ==> envs[n].name == n)
    && (forall i :: 0 <= i < |ss| ==> ss[i].environment in envs)
  }

  /** The tally a session id was made from: the number after its leading letter. */
  function IdTally(id: string): nat {
    if id == [] then 0 else ParseDecimal(id[1..])
  }

  /**
   * Every session is named after its environment and a tally that environment has already
   * reached, its id is made from that tally, and no two sessions share a name.
   */
  ghost predicate NamedByTally(envs: map<string, Environment>, ss: seq<Session>) {
    TalliedNames(envs, ss) && DistinctNames(ss)
  }

  /** Every session is named after its environment and a tally that environment has already reached. */
  ghost predicate TalliedNames(envs: map<string, Environment>, ss: seq<Session>) {
    forall i {:trigger IdTally(ss[i].id)} :: 0 <= i < |ss| ==>
      && ss[i].environment in envs
      && ss[i].id == SessionId(IdTally(ss[i].id))
      && ss[i].name == SessionName(ss[i].environment, IdTally(ss[i].id))
      && IdTally(ss[i].id) <= envs[ss[i].environment].tally
  }

  /** No two sessions share a name. */
  ghost predicate DistinctNames(ss: seq<Session>) {
    forall i, j {:trigger ss[i].name, ss[j].name} :: 0 <= i < j < |ss| ==> ss[i].name != ss[j].name
  }

  /** The records the scheduler changes: environments (with their tallies), sessions and the deployment queue. */
  datatype Records = Records(environments: map<string, Environment>, sessions: seq<Session>, deployQueue: seq<string>)

  /** A reserved session handed to a user: pending activation with a truthy token, running otherwise. */
  function Claimed(s: Session, user: User, token: Option<string>): (c: Session)
    ensures SameRecord(c, s) && c.owner == Some(user) && (IsActive(s) ==> IsAllocated(c))
    ensures Truthy(token) ==> c.token == token && c.state == s.state
    ensures !Truthy(token) ==> c.token == s.token && c.state == Running
  {
    if Truthy(token) then MarkedPending(s, user, token) else MarkedRunning(s, user)
  }

  /** The user's own session after a retrieve: the new token is applied only while it awaits activation. */
  function Reused(s: Session, user: User, token: Option<string>): (u: Session)
    ensures SameRecord(u, s) && u.state == s.state
    ensures s.owner == Some(user) ==> u.owner == s.owner
    ensures u.token != s.token ==> Truthy(token) && IsPending(s) && u.token == token
  {
    if Truthy(token) && IsPending(s) then MarkedPending(s, user, token) else s
  }

  /** `create_new_session`: the tally is bumped, the new record appended and its deployment queued. */
  function WithNewSession(rec: Records, envName: string, now: int, secret: string, st: Settings): Records
    requires envName in rec.environments
  {
    var e := rec.environments[envName];
    var s := NewSession(e, now, secret, st);
    Records(rec.environments[envName := Bumped(e)], rec.sessions + [s], rec.deployQueue + [s.name])
  }

  /** `create_reserved_session`: one new session exactly when the reserve is wanted, else no change. */
  function AfterReserve(rec: Records, envName: string, maximum: nat, now: int, secret: string, st: Settings): (r: Records)
    requires envName in rec.environments
    ensures r.environments.Keys == rec.environments.Keys
    ensures |r.sessions| == |rec.sessions| + Indicator(ReserveWanted(rec.environments[envName], rec.sessions, maximum))
    ensures r.sessions[..|rec.sessions|] == rec.sessions
    ensures |r.deployQueue| - |rec.deployQueue| == |r.sessions| - |rec.sessions|
    ensures r.deployQueue[..|rec.deployQueue|] == rec.deployQueue
  {
    if ReserveWanted(rec.environments[envName], rec.sessions, maximum) then WithNewSession(rec, envName, now, secret, st)
    else rec
  }

  /** `allocate_session_for_user`: the first reserve is claimed, then one top-up is attempted on the claimed records. */
  function AfterAllocate(rec: Records, envName: string, user: User, token: Option<string>, maximum: nat,
                         now: int, secret: string, st: Settings): (r: Records)
    requires envName in rec.environments
    ensures AvailableSession(rec.sessions, envName).None? ==> r == rec
    ensures r.environments.Keys == rec.environments.Keys
    ensures |rec.sessions| <= |r.sessions| <= |rec.sessions| + 1
    ensures AvailableSession(rec.sessions, envName).Some? ==>
      var k := AvailableSession(rec.sessions, envName).value;
      r.sessions[k].owner == Some(user) && IsAllocated(r.sessions[k])
  {
    match AvailableSession(rec.sessions, envName)
    case None => rec
    case Some(k) => AfterReserve(rec.(sessions := rec.sessions[k := Claimed(rec.sessions[k], user, token)]), envName, maximum, now, secret, st)
  }

  /** `create_session_for_user`: nothing when refused; else the eviction when the portal is full, then one pending session. */
  function AfterCreateForUser(rec: Records, envName: string, user: User, token: Option<string>, maximum: nat,
                              now: int, secret: string, st: Settings): (r: Records)
    requires envName in rec.environments
    ensures CreationRefused(rec.environments[envName], rec.sessions, maximum) ==> r == rec
    ensures r.environments.Keys == rec.environments.Keys
    ensures !CreationRefused(rec.environments[envName], rec.sessions, maximum) ==>
      var n := |rec.sessions|;
      && |r.sessions| == n + 1
      && r.sessions[n].owner == Some(user) && r.sessions[n].token == token && r.sessions[n].environment == rec.environments[envName].name
      && r.deployQueue == rec.deployQueue + [r.sessions[n].name]
  {
    var e := rec.environments[envName];
    if CreationRefused(e, rec.sessions, maximum) then rec
    else
      var kept := if EvictionNeeded(rec.sessions, maximum) then StopOldestAvailable(rec.sessions) else rec.sessions;
      var s := NewSession(e, now, secret, st);
      Records(rec.environments[envName := Bumped(e)], kept + [MarkedPending(s, user, token)], rec.deployQueue + [s.name])
  }

  /** `retrieve_session_for_user`: reuse, else the permission gate, else claim a reserve, else create. */
  function AfterRetrieve(rec: Records, envName: string, user: User, token: Option<string>, permitted: bool, maximum: nat,
                         now: int, secret: string, st: Settings): (r: Records)
    requires envName in rec.environments
    ensures r.environments.Keys == rec.environments.Keys
    ensures AllocatedSessionForUser(rec.sessions, envName, user).Some? ==>
      r.environments == rec.environments && |r.sessions| == |rec.sessions| && r.deployQueue == rec.deployQueue
    ensures AllocatedSessionForUser(rec.sessions, envName, user).None? && !permitted ==> r == rec
  {
    match AllocatedSessionForUser(rec.sessions, envName, user)
    case Some(k) => rec.(sessions := rec.sessions[k := Reused(rec.sessions[k], user, token)])
    case None =>
      if !permitted then rec
      else if AvailableSession(rec.sessions, envName).Some? then AfterAllocate(rec, envName, user, token, maximum, now, secret, st)
      else AfterCreateForUser(rec, envName, user, token, maximum, now, secret, st)
  }

  /**
   * The database records of one training portal, and the deployment tasks scheduled on
   * commit.  `resources` are the WorkshopSession resources submitted to the cluster.
   */
  class Store {
    const sessionsMaximum: nat
    const settings: Settings
    var environments: map<string, Environment>
    var sessions: seq<Session>
    var deployQueue: seq<string>
    var resources: seq<WorkshopSessionResource>

    ghost predicate Valid()
      reads this
    {
      Consistent(environments, sessions)
    }

    ghost function Snapshot(): Records
      reads this
    {
      Records(environments, sessions, deployQueue)
    }

    constructor (maximum: nat, st: Settings, envs: map<string, Environment>)
      requires forall n :: n in envs ==> envs[n].name == n
      ensures Valid() && WithinCapacity(environments, sessions, sessionsMaximum) && SingleAllocation(sessions)
      ensures sessionsMaximum == maximum && settings == st && environments == envs
      ensures sessions == [] && deployQueue == [] && resources == []
    {
      sessionsMaximum := maximum;
      settings := st;
      environments := envs;
      sessions := [];
      deployQueue := [];
      resources := [];
    }

    /**
     * `create_workshop_session`: deploys a session that is still starting and records the
     * state it moves to.  A missing session, a failed submission and a session that left the
     * starting state leave every record alone.
     */
    method CreateWorkshopSession(name: string, submitted: bool) returns (outcome: DeployOutcome)
      requires Valid()
      modifies this
      ensures Valid()
      ensures environments == old(environments) && deployQueue == old(deployQueue)
      ensures var k := FindSession(old(sessions), name);
        outcome == (if k.None? then Missing
                    else if old(sessions)[k.value].state != Starting then Skipped
                    else if !submitted then CreateFailed
                    else Deployed)
      ensures outcome != Deployed ==> sessions == old(sessions) && resources == old(resources)
      ensures old(NamedByTally(environments, sessions)) ==> NamedByTally(environments, sessions)
      ensures outcome == Deployed ==> FindSession(old(sessions), name).Some?
      ensures outcome == Deployed ==>
        var k := FindSession(old(sessions), name).value;
        var s := old(sessions)[k];
        && resources == old(resources) + [ResourceFor(old(environments)[s.environment], s, settings)]
        && sessions == old(sessions)[k := s.(state := DeployedState(s))]
      ensures outcome == Deployed && old(NamedByTally(environments, sessions)) ==>
        FindSession(sessions, name) == FindSession(old(sessions), name) && sessions[FindSession(sessions, name).value].state != Starting
    {
      var found := FindSession(sessions, name);
      if found.None? {
        return Missing;
      }
      var k := found.value;
      var session := sessions[k];
      if session.state != Starting {
        return Skipped;
      }
      var environment := environments[session.environment];
      var env := SessionEnv(environment, session, settings);
      var resource := WorkshopSessionResource(session.name, settings.portalName, environment.name,
        environment.uid, session.id, settings.ingressDomain, env);
      if !submitted {
        return CreateFailed;
      }
      resources := resources + [resource];
      var state;
      if session.owner.Some? {
        if Truthy(session.token) {
          state := Waiting;
        } else {
          state := Running;
        }
      } else {
        state := Waiting;
      }
      if NamedByTally(environments, sessions) {
        UpdateKeepsNames(environments, sessions, k, session.(state := state));
        RedeployIsSkipped(environments, sessions, name);
      }
      sessions := sessions[k := session.(state := state)];
      outcome := Deployed;
    }

    /**
     * `setup_workshop_session`: counts the session in the environment's tally, names it
     * after the tally and records it as starting with its OAuth client secret and redirect URIs.
     */
    method SetupWorkshopSession(envName: string, now: int, secret: string) returns (i: nat)
      requires Valid() && envName in environments
      modifies this
      ensures Valid()
      ensures var e := old(environments)[envName];
        && environments == old(environments)[envName := Bumped(e)]
        && sessions == old(sessions) + [NewSession(e, now, secret, settings)]
      ensures i == |old(sessions)|
      ensures deployQueue == old(deployQueue) && resources == old(resources)
      ensures old(NamedByTally(environments, sessions)) ==> NamedByTally(environments, sessions)
    {
      ghost var envs, ss := environments, sessions;
      var environment := environments[envName];
      environments := environments[envName := environment.(tally := environment.tally + 1)];
      var session := BuildSession(environment, now, secret, settings);
      BumpedConsistent(envs, ss, envName, session);
      i := |sessions|;
      sessions := sessions + [session];
      if NamedByTally(envs, ss) {
        AppendKeepsNames(envs, ss, envName, now, secret, settings);
      }
    }

    /** `create_new_session`: sets up the session and schedules its deployment. */
    method CreateNewSession(envName: string, now: int, secret: string) returns (i: nat)
      requires Valid() && envName in environments
      modifies this
      ensures Valid()
      ensures var e := old(environments)[envName];
        && environments == old(environments)[envName := Bumped(e)]
        && sessions == old(sessions) + [NewSession(e, now, secret, settings)]
        && deployQueue == old(deployQueue) + [NewSession(e, now, secret, settings).name]
      ensures i == |old(sessions)|
      ensures resources == old(resources)
    {
      i := SetupWorkshopSession(envName, now, secret);
      deployQueue := deployQueue + [sessions[i].name];
    }

    /** `create_reserved_session`: adds a reserved session when the reserve is short and there is room. */
    method CreateReservedSession(envName: string, now: int, secret: string) returns (created: bool)
      requires Valid() && envName in environments
      modifies this
      ensures Valid()
      ensures var e := old(environments)[envName];
        created == ReserveWanted(e, old(sessions), sessionsMaximum)
      ensures created ==> var e := old(environments)[envName];
        && environments == old(environments)[envName := Bumped(e)]
        && sessions == old(sessions) + [NewSession(e, now, secret, settings)]
        && deployQueue == old(deployQueue) + [NewSession(e, now, secret, settings).name]
      ensures !created ==> environments == old(environments) && sessions == old(sessions) && deployQueue == old(deployQueue)
      ensures Snapshot() == AfterReserve(old(Snapshot()), envName, sessionsMaximum, now, secret, settings)
      ensures resources == old(resources)
      ensures old(WithinCapacity(environments, sessions, sessionsMaximum)) ==> WithinCapacity(environments, sessions, sessionsMaximum)
      ensures old(SingleAllocation(sessions)) ==> SingleAllocation(sessions)
    {
      var environment := environments[envName];
      if environment.reserved == 0 {
        return false;
      }
      var activeSessions := Count(sessions, Active, InEnvironment(envName));
      var reservedSessions := Count(sessions, Available, InEnvironment(envName));
      if reservedSessions >= environment.reserved {
        return false;
      }
      if activeSessions >= environment.capacity {
        return false;
      }
      if sessionsMaximum != 0 {
        var totalSessions := Count(sessions, Allocated, WholePortal) + Count(sessions, Available, WholePortal);
        if totalSessions >= sessionsMaximum {
          return false;
        }
      }
      ghost var envs, ss := environments, sessions;
      ActiveIsAvailablePlusAllocated(ss, WholePortal);
      var _ := CreateNewSession(envName, now, secret);
      created := true;
      ReserveKeepsInvariants(envs, ss, sessionsMaximum, envName, NewSession(environment, now, secret, settings));
    }

    /**
     * `allocate_session_for_user`: hands the environment's first reserved session to the
     * user, pending activation when the user came with a token and running otherwise, then
     * tops up the reserve.
     */
    method AllocateSessionForUser(envName: string, user: User, token: Option<string>, now: int, secret: string)
      returns (r: Option<nat>)
      requires Valid() && envName in environments
      modifies this
      ensures Valid()
      ensures r == AvailableSession(old(sessions), envName)
      ensures r.None? ==> environments == old(environments) && sessions == old(sessions) && deployQueue == old(deployQueue)
      ensures r.Some? ==> |old(sessions)| <= |sessions| <= |old(sessions)| + 1
      ensures r.Some? ==> sessions[..|old(sessions)|] == old(sessions)[r.value := Claimed(old(sessions)[r.value], user, token)]
      ensures r.Some? ==> sessions[r.value] == Claimed(old(sessions)[r.value], user, token)
      ensures Snapshot() == AfterAllocate(old(Snapshot()), envName, user, token, sessionsMaximum, now, secret, settings)
      ensures resources == old(resources)
      ensures old(WithinCapacity(environments, sessions, sessionsMaximum)) ==> WithinCapacity(environments, sessions, sessionsMaximum)
      ensures old(SingleAllocation(sessions)) && AllocatedSessionForUser(old(sessions), envName, user).None? ==> SingleAllocation(sessions)
    {
      r := AvailableSession(sessions, envName);
      if r.None? {
        return;
      }
      var k := r.value;
      ghost var ss, rec := sessions, Snapshot();
      var claimed := if Truthy(token) then MarkedPending(sessions[k], user, token) else MarkedRunning(sessions[k], user);
      sessions := sessions[k := claimed];
      ClaimKeepsInvariants(environments, ss, sessionsMaximum, envName, user, k, claimed);
      assert claimed == Claimed(ss[k], user, token);
      var _ := CreateReservedSession(envName, now, secret);
      assert sessions[k] == sessions[..|ss|][k];
    }

    /**
     * `create_session_for_user`: creates a session for the user when the environment has
     * room and the portal's maximum is not all allocated; when the portal is full, the
     * oldest reserved session is first marked for stopping.
     */
    method CreateSessionForUser(envName: string, user: User, token: Option<string>, now: int, secret: string)
      returns (r: Option<nat>)
      requires Valid() && envName in environments
      modifies this
      ensures Valid()
      ensures r.None? <==> CreationRefused(old(environments)[envName], old(sessions), sessionsMaximum)
      ensures r.None? ==> environments == old(environments) && sessions == old(sessions) && deployQueue == old(deployQueue)
      ensures r.Some? ==> EvictionNeeded(old(sessions), sessionsMaximum) ==> OldestAvailable(old(sessions)).Some?
      ensures r.Some? ==> var e := old(environments)[envName]; var newSession := NewSession(e, now, secret, settings);
        && r.value == |old(sessions)|
        && environments == old(environments)[envName := Bumped(e)]
        && sessions == (if EvictionNeeded(old(sessions), sessionsMaximum) then StopOldestAvailable(old(sessions)) else old(sessions))
             + [MarkedPending(newSession, user, token)]
        && deployQueue == old(deployQueue) + [newSession.name]
      ensures Snapshot() == AfterCreateForUser(old(Snapshot()), envName, user, token, sessionsMaximum, now, secret, settings)
      ensures r.Some? ==>
        && r.value < |sessions|
        && sessions[r.value] == MarkedPending(NewSession(old(environments)[envName], now, secret, settings), user, token)
        && IsAllocated(sessions[r.value]) && sessions[r.value].environment == envName && sessions[r.value].owner == Some(user)
      ensures resources == old(resources)
      ensures old(WithinCapacity(environments, sessions, sessionsMaximum)) ==> WithinCapacity(environments, sessions, sessionsMaximum)
      ensures old(SingleAllocation(sessions)) && AllocatedSessionForUser(old(sessions), envName, user).None? ==> SingleAllocation(sessions)
    {
      var environment := environments[envName];
      if Count(sessions, Active, InEnvironment(envName)) >= environment.capacity {
        return None;
      }
      ghost var envs, ss := environments, sessions;
      if sessionsMaximum == 0 {
        var k := CreatePendingSession(envName, user, token, now, secret);
        FreshKeepsInvariants(envs, ss, ss, sessionsMaximum, envName, user, sessions[k]);
        return Some(k);
      }
      if Count(sessions, Allocated, WholePortal) >= sessionsMaximum {
        return None;
      }
      if Count(sessions, Active, WholePortal) < sessionsMaximum {
        var k := CreatePendingSession(envName, user, token, now, secret);
        FreshKeepsInvariants(envs, ss, ss, sessionsMaximum, envName, user, sessions[k]);
        return Some(k);
      }
      EvictionHasVictim(sessions, sessionsMaximum);
      EvictOldestAvailable(envName);
      ghost var evicted := sessions;
      var k := CreatePendingSession(envName, user, token, now, secret);
      FreshKeepsInvariants(envs, ss, evicted, sessionsMaximum, envName, user, sessions[k]);
      r := Some(k);
    }

    /** `portal.available_sessions().order_by("created")[0].mark_as_stopping()`. */
    method EvictOldestAvailable(envName: string)
      requires Valid() && envName in environments && OldestAvailable(sessions).Some?
      modifies this
      ensures Valid()
      ensures sessions == StopOldestAvailable(old(sessions))
      ensures environments == old(environments) && deployQueue == old(deployQueue) && resources == old(resources)
      ensures |sessions| == |old(sessions)|
      ensures Count(sessions, Active, InEnvironment(envName)) <= old(Count(sessions, Active, InEnvironment(envName)))
      ensures Count(sessions, Active, WholePortal) + 1 == old(Count(sessions, Active, WholePortal))
      ensures old(WithinCapacity(environments, sessions, sessionsMaximum)) ==> WithinCapacity(environments, sessions, sessionsMaximum)
      ensures old(SingleAllocation(sessions)) ==> SingleAllocation(sessions)
      ensures forall j :: 0 <= j < |sessions| && IsAllocated(sessions[j]) ==> IsAllocated(old(sessions)[j]) && sessions[j] == old(sessions)[j]
    {
      var oldest := OldestAvailable(sessions).value;
      EvictionKeepsInvariants(environments, sessions, sessionsMaximum, envName, oldest);
      sessions := sessions[oldest := MarkedStopping(sessions[oldest])];
    }

    /** `create_new_session(environment).mark_as_pending(user, token)`. */
    method CreatePendingSession(envName: string, user: User, token: Option<string>, now: int, secret: string)
      returns (k: nat)
      requires Valid() && envName in environments
      modifies this
      ensures Valid()
      ensures var e := old(environments)[envName]; var newSession := NewSession(e, now, secret, settings);
        && environments == old(environments)[envName := Bumped(e)]
        && sessions == old(sessions) + [MarkedPending(newSession, user, token)]
        && deployQueue == old(deployQueue) + [newSession.name]
      ensures k == |old(sessions)| && k < |sessions|
      ensures sessions[k].environment == envName && IsActive(sessions[k]) && sessions[k].owner == Some(user)
      ensures resources == old(resources)
    {
      ghost var e := environments[envName];
      k := CreateNewSession(envName, now, secret);
      sessions := sessions[k := MarkedPending(sessions[k], user, token)];
      assert sessions == old(sessions) + [MarkedPending(NewSession(e, now, secret, settings), user, token)];
    }

    /** The first branch of `retrieve_session_for_user`: renews the token of the user's own session while it awaits activation. */
    method ReuseAllocatedSession(envName: string, user: User, token: Option<string>, k: nat)
      requires Valid() && AllocatedSessionForUser(sessions, envName, user) == Some(k)
      modifies this
      ensures Valid()
      ensures sessions == old(sessions)[k := Reused(old(sessions)[k], user, token)]
      ensures environments == old(environments) && deployQueue == old(deployQueue) && resources == old(resources)
      ensures k < |sessions| && IsAllocated(sessions[k]) && sessions[k].environment == envName && sessions[k].owner == Some(user)
      ensures old(WithinCapacity(environments, sessions, sessionsMaximum)) ==> WithinCapacity(environments, sessions, sessionsMaximum)
      ensures old(SingleAllocation(sessions)) ==> SingleAllocation(sessions)
      ensures old(SingleAllocation(sessions)) ==> AllocatedSessionForUser(sessions, envName, user) == Some(k)
    {
      ghost var ss := sessions;
      if Truthy(token) && IsPending(sessions[k]) {
          sessions := sessions[k := MarkedPending(sessions[k], user, token)];
      }
      ReuseKeepsInvariants(environments, ss, sessionsMaximum, envName, user, k, sessions[k]);
      if SingleAllocation(sessions) {
        AllocationFound(sessions, envName, user, k);
      }
    }

    /**
     * `retrieve_session_for_user`: returns the user's allocated session of the environment,
     * renewing its token when it still awaits activation and a token was given; otherwise,
     * if the portal lets the user have a session, claims a reserved one or creates one.
     */
    method RetrieveSessionForUser(envName: string, user: User, token: Option<string>, permitted: bool, now: int, secret: string)
      returns (r: Option<nat>)
      requires Valid() && envName in environments
      modifies this
      ensures Valid()
      ensures resources == old(resources)
      ensures Snapshot() == AfterRetrieve(old(Snapshot()), envName, user, token, permitted, sessionsMaximum, now, secret, settings)
      ensures var found := AllocatedSessionForUser(old(sessions), envName, user);
        found.Some? ==>
          && r == found
          && sessions == old(sessions)[found.value := Reused(old(sessions)[found.value], user, token)]
          && environments == old(environments) && deployQueue == old(deployQueue)
      ensures AllocatedSessionForUser(old(sessions), envName, user).None? && !permitted ==>
        r.None? && sessions == old(sessions) && environments == old(environments) && deployQueue == old(deployQueue)
      ensures (AllocatedSessionForUser(old(sessions), envName, user).None? && permitted
        && Count(old(sessions), Available, InEnvironment(envName)) > 0) ==>
        r == AvailableSession(old(sessions), envName)
      ensures (AllocatedSessionForUser(old(sessions), envName, user).None? && permitted
        && Count(old(sessions), Available, InEnvironment(envName)) == 0) ==>
        && (r.None? <==> CreationRefused(old(environments)[envName], old(sessions), sessionsMaximum))
        && (r.Some? ==> r.value == |old(sessions)|)
      ensures r.Some? ==>
        && r.value < |sessions| && IsAllocated(sessions[r.value])
        && sessions[r.value].environment == envName && sessions[r.value].owner == Some(user)
      ensures |old(sessions)| <= |sessions| <= |old(sessions)| + 1
      ensures old(WithinCapacity(environments, sessions, sessionsMaximum)) ==> WithinCapacity(environments, sessions, sessionsMaximum)
      ensures old(SingleAllocation(sessions)) ==> SingleAllocation(sessions)
      ensures old(SingleAllocation(sessions)) && r.Some? ==> AllocatedSessionForUser(sessions, envName, user) == r
      ensures var a := AvailableSession(old(sessions), envName);
        AllocatedSessionForUser(old(sessions), envName, user).None? && permitted && a.Some? ==>
          r == a && sessions[..|old(sessions)|] == old(sessions)[a.value := Claimed(old(sessions)[a.value], user, token)]
      ensures (AllocatedSessionForUser(old(sessions), envName, user).None? && permitted
               && AvailableSession(old(sessions), envName).None? && r.Some?) ==>
        && sessions[r.value] == MarkedPending(NewSession(old(environments)[envName], now, secret, settings), user, token)
        && sessions[..|old(sessions)|] ==
             if EvictionNeeded(old(sessions), sessionsMaximum) then StopOldestAvailable(old(sessions)) else old(sessions)
      ensures old(WellNamed(Snapshot())) ==> WellNamed(Snapshot())
    {
      ghost var rec := Snapshot();
      if WellNamed(rec) {
        RetrieveKeepsNames(rec, envName, user, token, permitted, sessionsMaximum, now, secret, settings);
      }
      var found := AllocatedSessionForUser(sessions, envName, user);
      if found.Some? {
        ReuseAllocatedSession(envName, user, token, found.value);
        return found;
      }
      if !permitted {
        return None;
      }
      r := ClaimOrCreate(envName, user, token, now, secret);
    }

    /** The last steps of `retrieve_session_for_user`: claim a reserved session, else create one if there is room. */
    method ClaimOrCreate(envName: string, user: User, token: Option<string>, now: int, secret: string)
      returns (r: Option<nat>)
      requires Valid() && envName in environments
      requires AllocatedSessionForUser(sessions, envName, user).None?
      modifies this
      ensures Valid()
      ensures resources == old(resources)
      ensures Snapshot() == if AvailableSession(old(sessions), envName).Some?
        then AfterAllocate(old(Snapshot()), envName, user, token, sessionsMaximum, now, secret, settings)
        else AfterCreateForUser(old(Snapshot()), envName, user, token, sessionsMaximum, now, secret, settings)
      ensures Count(old(sessions), Available, InEnvironment(envName)) > 0 ==> r == AvailableSession(old(sessions), envName)
      ensures Count(old(sessions), Available, InEnvironment(envName)) == 0 ==>
        && (r.None? <==> CreationRefused(old(environments)[envName], old(sessions), sessionsMaximum))
        && (r.Some? ==> r.value == |old(sessions)|)
      ensures r.None? ==> sessions == old(sessions) && environments == old(environments) && deployQueue == old(deployQueue)
      ensures r.Some? ==>
        && r.value < |sessions| && IsAllocated(sessions[r.value])
        && sessions[r.value].environment == envName && sessions[r.value].owner == Some(user)
      ensures |old(sessions)| <= |sessions| <= |old(sessions)| + 1
      ensures old(WithinCapacity(environments, sessions, sessionsMaximum)) ==> WithinCapacity(environments, sessions, sessionsMaximum)
      ensures old(SingleAllocation(sessions)) ==> SingleAllocation(sessions)
      ensures old(SingleAllocation(sessions)) && r.Some? ==> AllocatedSessionForUser(sessions, envName, user) == r
      ensures var a := AvailableSession(old(sessions), envName);
        a.Some? ==> r == a && sessions[..|old(sessions)|] == old(sessions)[a.value := Claimed(old(sessions)[a.value], user, token)]
      ensures AvailableSession(old(sessions), envName).None? && r.Some? ==>
        && sessions[r.value] == MarkedPending(NewSession(old(environments)[envName], now, secret, settings), user, token)
        && sessions[..|old(sessions)|] ==
             if EvictionNeeded(old(sessions), sessionsMaximum) then StopOldestAvailable(old(sessions)) else old(sessions)
    {
      ghost var ss := sessions;
      r := AllocateSessionForUser(envName, user, token, now, secret);
      if r.Some? {
        AvailableSessionOfEnv(ss, envName);
        if SingleAllocation(sessions) {
          AllocationFound(sessions, envName, user, r.value);
        }
        return;
      }
      r := CreateSessionForUser(envName, user, token, now, secret);
      if r.Some? && SingleAllocation(sessions) {
        AllocationFound(sessions, envName, user, r.value);
      }
    }
  }

  // ---------------------------------------------------------------------------------------
  // Invariant steps of the scheduler, one per kind of change

  lemma AvailableSessionOfEnv(ss: seq<Session>, env: string)
    ensures AvailableSession(ss, env).Some? ==> ss[AvailableSession(ss, env).value].environment == env
  {
  }

  /** Topping up the reserve keeps both invariants. */
  lemma ReserveKeepsInvariants(envs: map<string, Environment>, ss: seq<Session>, maximum: nat, envName: string, x: Session)
    requires Consistent(envs, ss) && envName in envs
    requires ReserveWanted(envs[envName], ss, maximum)
    requires IsAvailable(x) && x.environment == envName
    ensures WithinCapacity(envs, ss, maximum) ==> WithinCapacity(envs[envName := Bumped(envs[envName])], ss + [x], maximum)
    ensures SingleAllocation(ss) ==> SingleAllocation(ss + [x])
  {
    ActiveIsAvailablePlusAllocated(ss, WholePortal);
    if WithinCapacity(envs, ss, maximum) {
      AppendKeepsWithinCapacity(envs, ss, maximum, x);
      assert WithinCapacity(envs[envName := Bumped(envs[envName])], ss + [x], maximum);
    }
    if SingleAllocation(ss) {
      AppendKeepsSingleAllocation(ss, x);
    }
  }

  /** Claiming a reserved session keeps the counts, and keeps single allocation when the user had none. */
  lemma ClaimKeepsInvariants(envs: map<string, Environment>, ss: seq<Session>, maximum: nat, envName: string, user: User, k: nat, x: Session)
    requires k < |ss| && Counted(ss[k], Available, InEnvironment(envName))
    requires x.environment == envName && IsActive(x) && x.owner == Some(user)
    ensures WithinCapacity(envs, ss, maximum) ==> WithinCapacity(envs, ss[k := x], maximum)
    ensures SingleAllocation(ss) && AllocatedSessionForUser(ss, envName, user).None? ==> SingleAllocation(ss[k := x])
  {
    if WithinCapacity(envs, ss, maximum) {
      UpdateKeepsWithinCapacity(envs, ss, maximum, k, x);
    }
    if SingleAllocation(ss) && AllocatedSessionForUser(ss, envName, user).None? {
      assert forall j :: 0 <= j < |ss| && IsAllocated(ss[j]) && ss[j].environment == envName ==>
        Counted(ss[j], Allocated, InEnvironment(envName));
      UpdateKeepsSingleAllocation(ss, k, x);
    }
  }

  /** Renewing the token of the user's own session keeps both invariants. */
  lemma ReuseKeepsInvariants(envs: map<string, Environment>, ss: seq<Session>, maximum: nat, envName: string, user: User, k: nat, x: Session)
    requires k < |ss| && IsAllocated(ss[k])
    requires x == ss[k] || x == MarkedPending(ss[k], user, x.token)
    requires ss[k].owner == Some(user)
    ensures WithinCapacity(envs, ss, maximum) ==> WithinCapacity(envs, ss[k := x], maximum)
    ensures SingleAllocation(ss) ==> SingleAllocation(ss[k := x])
  {
    if WithinCapacity(envs, ss, maximum) {
      UpdateKeepsWithinCapacity(envs, ss, maximum, k, x);
    }
    if SingleAllocation(ss) {
      UpdateKeepsSingleAllocation(ss, k, x);
    }
  }

  /** Marking the oldest reserved session for stopping frees a place in the portal. */
  lemma EvictionKeepsInvariants(envs: map<string, Environment>, ss: seq<Session>, maximum: nat, envName: string, oldest: nat)
    requires Consistent(envs, ss) && envName in envs
    requires OldestAvailable(ss) == Some(oldest)
    ensures var ss' := ss[oldest := MarkedStopping(ss[oldest])];
      && Consistent(envs, ss')
      && Count(ss', Active, InEnvironment(envName)) <= Count(ss, Active, InEnvironment(envName))
      && Count(ss', Active, WholePortal) + 1 == Count(ss, Active, WholePortal)
      && Count(ss', Allocated, WholePortal) == Count(ss, Allocated, WholePortal)
      && (WithinCapacity(envs, ss, maximum) ==> WithinCapacity(envs, ss', maximum))
      && (SingleAllocation(ss) ==> SingleAllocation(ss'))
      && (forall j :: 0 <= j < |ss'| && IsAllocated(ss'[j]) ==> IsAllocated(ss[j]) && ss'[j] == ss[j])
  {
    var x := MarkedStopping(ss[oldest]);
    var ss' := ss[oldest := x];
    CountUpdate(ss, oldest, x, Active, InEnvironment(envName));
    CountUpdate(ss, oldest, x, Active, WholePortal);
    CountUpdate(ss, oldest, x, Allocated, WholePortal);
    if WithinCapacity(envs, ss, maximum) {
      UpdateKeepsWithinCapacity(envs, ss, maximum, oldest, x);
    }
    if SingleAllocation(ss) {
      UpdateKeepsSingleAllocation(ss, oldest, x);
    }
  }

  /** Adding the user's fresh session after the checks of `create_session_for_user` keeps both invariants. */
  lemma FreshKeepsInvariants(envs: map<string, Environment>, ss: seq<Session>, evicted: seq<Session>, maximum: nat,
                             envName: string, user: User, x: Session)
    requires Consistent(envs, ss) && envName in envs
    requires WithinCapacity(envs, ss, maximum) ==> WithinCapacity(envs, evicted, maximum)
    requires SingleAllocation(ss) ==> SingleAllocation(evicted)
    requires |evicted| == |ss|
    requires forall j :: 0 <= j < |evicted| && IsAllocated(evicted[j]) ==> IsAllocated(ss[j]) && evicted[j] == ss[j]
    requires x.environment == envName && IsActive(x) && x.owner == Some(user)
    requires Count(evicted, Active, InEnvironment(envName)) < envs[envName].capacity
    requires maximum != 0 && WithinCapacity(envs, ss, maximum) ==> Count(evicted, Active, WholePortal) < maximum
    ensures WithinCapacity(envs, ss, maximum) ==> WithinCapacity(envs[envName := Bumped(envs[envName])], evicted + [x], maximum)
    ensures SingleAllocation(ss) && AllocatedSessionForUser(ss, envName, user).None? ==> SingleAllocation(evicted + [x])
  {
    if WithinCapacity(envs, ss, maximum) {
      AppendKeepsWithinCapacity(envs, evicted, maximum, x);
      assert WithinCapacity(envs[envName := Bumped(envs[envName])], evicted + [x], maximum);
    }
    if SingleAllocation(ss) && AllocatedSessionForUser(ss, envName, user).None? {
      assert forall j :: 0 <= j < |ss| && IsAllocated(ss[j]) && ss[j].environment == envName ==>
        Counted(ss[j], Allocated, InEnvironment(envName));
      assert NoOtherAllocation(evicted, -1, envName, Some(user));
      AppendKeepsSingleAllocation(evicted, x);
    }
  }

  // ---------------------------------------------------------------------------------------
  // Session names stay unique

  /** An update that keeps a record's name, id and environment keeps the naming invariant. */
  lemma UpdateKeepsNames(envs: map<string, Environment>, ss: seq<Session>, k: nat, x: Session)
    requires NamedByTally(envs, ss) && k < |ss|
    requires x.name == ss[k].name && x.id == ss[k].id && x.environment == ss[k].environment
    ensures NamedByTally(envs, ss[k := x])
  {
    var ss' := ss[k := x];
    forall i | 0 <= i < |ss'|
      ensures ss'[i].name == ss[i].name && ss'[i].id == ss[i].id && ss'[i].environment == ss[i].environment
      ensures IdTally(ss'[i].id) <= envs[ss'[i].environment].tally
    {
      assert IdTally(ss[i].id) <= envs[ss[i].environment].tally;
    }
    forall i, j | 0 <= i < j < |ss'|
      ensures ss'[i].name != ss'[j].name
    {
      assert ss[i].name != ss[j].name;
    }
  }

  /** The tally read back from a session id is the one it was made from. */
  lemma IdTallyOfSessionId(t: nat)
    ensures IdTally(SessionId(t)) == t
  {
    SessionIdRoundTrip(t);
  }

  /** A name made from a tally past the environment's own is taken by no session. */
  lemma FreshName(envs: map<string, Environment>, ss: seq<Session>, envName: string, t: nat)
    requires TalliedNames(envs, ss) && envName in envs && envs[envName].tally < t
    ensures forall i :: 0 <= i < |ss| ==> ss[i].name != SessionName(envName, t)
  {
    forall i | 0 <= i < |ss|
      ensures ss[i].name != SessionName(envName, t)
    {
      var n, u := ss[i].environment, IdTally(ss[i].id);
      assert ss[i].name == SessionName(n, u) && u <= envs[n].tally;
      if ss[i].name == SessionName(envName, t) {
        SessionNameInjective(n, u, envName, t);
      }
    }
  }

  /** A session named after a reached tally may be appended, while no tally goes back. */
  lemma TalliedAppend(envs: map<string, Environment>, envs': map<string, Environment>, ss: seq<Session>, x: Session)
    requires TalliedNames(envs, ss)
    requires forall n :: n in envs ==> n in envs' && envs[n].tally <= envs'[n].tally
    requires x.environment in envs' && x.id == SessionId(IdTally(x.id))
    requires x.name == SessionName(x.environment, IdTally(x.id)) && IdTally(x.id) <= envs'[x.environment].tally
    ensures TalliedNames(envs', ss + [x])
  {
    var ss' := ss + [x];
    forall i | 0 <= i < |ss'|
      ensures ss'[i].environment in envs'
      ensures ss'[i].id == SessionId(IdTally(ss'[i].id))
      ensures ss'[i].name == SessionName(ss'[i].environment, IdTally(ss'[i].id))
      ensures IdTally(ss'[i].id) <= envs'[ss'[i].environment].tally
    {
      if i < |ss| {
        assert ss'[i] == ss[i];
        assert IdTally(ss[i].id) <= envs[ss[i].environment].tally;
      }
    }
  }

  /** A session whose name no other session has may be appended. */
  lemma DistinctAppend(ss: seq<Session>, x: Session)
    requires DistinctNames(ss)
    requires forall i :: 0 <= i < |ss| ==> ss[i].name != x.name
    ensures DistinctNames(ss + [x])
  {
    var ss' := ss + [x];
    forall i, j | 0 <= i < j < |ss'|
      ensures ss'[i].name != ss'[j].name
    {
      assert ss'[i] == ss[i];
      if j < |ss| {
        assert ss'[j] == ss[j];
      }
    }
  }

  /** The session `setup_workshop_session` adds keeps the names unique and within the tallies. */
  lemma AppendKeepsNames(envs: map<string, Environment>, ss: seq<Session>, envName: string, now: int, secret: string, st: Settings)
    requires Consistent(envs, ss) && NamedByTally(envs, ss) && envName in envs
    ensures NamedByTally(envs[envName := Bumped(envs[envName])], ss + [NewSession(envs[envName], now, secret, st)])
  {
    NextNamed(envs, ss, envName, NewSession(envs[envName], now, secret, st));
  }

  /** A session named and numbered after the environment's next tally may be appended as the tally is bumped. */
  lemma NextNamed(envs: map<string, Environment>, ss: seq<Session>, envName: string, x: Session)
    requires NamedByTally(envs, ss) && envName in envs
    requires x.environment == envName && x.id == SessionId(envs[envName].tally + 1)
    requires x.name == SessionName(envName, envs[envName].tally + 1)
    ensures NamedByTally(envs[envName := Bumped(envs[envName])], ss + [x])
  {
    var t := envs[envName].tally + 1;
    IdTallyOfSessionId(t);
    TalliedAppend(envs, envs[envName := Bumped(envs[envName])], ss, x);
    FreshName(envs, ss, envName, t);
    DistinctAppend(ss, x);
  }

  /** With unique names, looking a session up by its name finds that session. */
  lemma FindSessionUnique(ss: seq<Session>, k: nat)
    requires k < |ss|
    requires forall i, j :: 0 <= i < j < |ss| ==> ss[i].name != ss[j].name
    ensures FindSession(ss, ss[k].name) == Some(k)
  {
    var r := FindSession(ss, ss[k].name);
    if r.value != k {
      assert false;
    }
  }

  /**
   * Under the marking assumptions, a reserve claimed without a token while it is still
   * starting is marked Running before its deployment runs; the deployment then finds a
   * session that is no longer starting and submits nothing.
   */
  lemma ClaimedWhileStartingIsNotDeployed(envs: map<string, Environment>, ss: seq<Session>, envName: string,
                                          user: User, token: Option<string>)
    requires NamedByTally(envs, ss)
    requires AvailableSession(ss, envName).Some? && !Truthy(token)
    requires ss[AvailableSession(ss, envName).value].state == Starting
    ensures var k := AvailableSession(ss, envName).value;
      var claimed := ss[k := Claimed(ss[k], user, token)];
      && FindSession(claimed, ss[k].name) == Some(k)
      && claimed[k].state == Running
  {
    var k := AvailableSession(ss, envName).value;
    var claimed := ss[k := Claimed(ss[k], user, token)];
    UpdateKeepsNames(envs, ss, k, Claimed(ss[k], user, token));
    FindSessionUnique(claimed, k);
  }

  /**
   * Deploying a session is idempotent: once `create_workshop_session` has moved a starting
   * session to its deployed state, a second run for the same name finds that session again
   * and, as it is no longer starting, submits nothing.
   */
  lemma RedeployIsSkipped(envs: map<string, Environment>, ss: seq<Session>, name: string)
    requires NamedByTally(envs, ss)
    requires FindSession(ss, name).Some? && ss[FindSession(ss, name).value].state == Starting
    ensures var k := FindSession(ss, name).value;
      var deployed := ss[k := ss[k].(state := DeployedState(ss[k]))];
      && FindSession(deployed, name) == Some(k)
      && deployed[k].state != Starting
  {
    var k := FindSession(ss, name).value;
    var deployed := ss[k := ss[k].(state := DeployedState(ss[k]))];
    UpdateKeepsNames(envs, ss, k, ss[k].(state := DeployedState(ss[k])));
    FindSessionUnique(deployed, k);
  }

  // ---------------------------------------------------------------------------------------
  // Whole scheduler steps, on the records

  /** Every session belongs to a known environment, and its name and id come from that environment's tally. */
  ghost predicate WellNamed(rec: Records) {
    Consistent(rec.environments, rec.sessions) && NamedByTally(rec.environments, rec.sessions)
  }

  /** `create_reserved_session` keeps every session named after its environment's tally, and the names unique. */
  lemma ReserveKeepsNames(rec: Records, envName: string, maximum: nat, now: int, secret: string, st: Settings)
    requires envName in rec.environments && WellNamed(rec)
    ensures WellNamed(AfterReserve(rec, envName, maximum, now, secret, st))
  {
    if ReserveWanted(rec.environments[envName], rec.sessions, maximum) {
      AppendKeepsNames(rec.environments, rec.sessions, envName, now, secret, st);
    }
  }

  /** `allocate_session_for_user` keeps every session named after its environment's tally, and the names unique. */
  lemma AllocateKeepsNames(rec: Records, envName: string, user: User, token: Option<string>, maximum: nat,
                           now: int, secret: string, st: Settings)
    requires envName in rec.environments && WellNamed(rec)
    ensures WellNamed(AfterAllocate(rec, envName, user, token, maximum, now, secret, st))
  {
    match AvailableSession(rec.sessions, envName)
    case None =>
    case Some(k) =>
      var x := Claimed(rec.sessions[k], user, token);
      UpdateKeepsNames(rec.environments, rec.sessions, k, x);
      ReserveKeepsNames(rec.(sessions := rec.sessions[k := x]), envName, maximum, now, secret, st);
  }

  /** `create_session_for_user` keeps every session named after its environment's tally, and the names unique. */
  lemma CreateForUserKeepsNames(rec: Records, envName: string, user: User, token: Option<string>, maximum: nat,
                                now: int, secret: string, st: Settings)
    requires envName in rec.environments && WellNamed(rec)
    ensures WellNamed(AfterCreateForUser(rec, envName, user, token, maximum, now, secret, st))
  {
    var envs, ss := rec.environments, rec.sessions;
    if !CreationRefused(envs[envName], ss, maximum) {
      var kept := if EvictionNeeded(ss, maximum) then StopOldestAvailable(ss) else ss;
      var x := MarkedPending(NewSession(envs[envName], now, secret, st), user, token);
      var r := AfterCreateForUser(rec, envName, user, token, maximum, now, secret, st);
      assert r.environments == envs[envName := Bumped(envs[envName])] && r.sessions == kept + [x];
      StopKeepsNames(envs, ss);
      PendingAppendKeepsNames(envs, kept, envName, user, token, now, secret, st);
      BumpedConsistent(envs, kept, envName, x);
    }
  }

  /** Bumping a tally and appending a session of a known environment keeps the records consistent. */
  lemma BumpedConsistent(envs: map<string, Environment>, ss: seq<Session>, envName: string, x: Session)
    requires Consistent(envs, ss) && envName in envs && x.environment in envs
    ensures Consistent(envs[envName := Bumped(envs[envName])], ss + [x])
  {
    var ss' := ss + [x];
    forall i | 0 <= i < |ss'|
      ensures ss'[i].environment in envs
    {
      if i < |ss| {
        assert ss'[i] == ss[i];
      }
    }
  }

  /** Marking the oldest reserve for stopping keeps the naming invariant. */
  lemma StopKeepsNames(envs: map<string, Environment>, ss: seq<Session>)
    requires Consistent(envs, ss) && NamedByTally(envs, ss)
    ensures Consistent(envs, StopOldestAvailable(ss)) && NamedByTally(envs, StopOldestAvailable(ss))
  {
    if OldestAvailable(ss).Some? {
      var o := OldestAvailable(ss).value;
      UpdateKeepsNames(envs, ss, o, MarkedStopping(ss[o]));
    }
  }

  /** Appending a new session marked pending for a user keeps the naming invariant. */
  lemma PendingAppendKeepsNames(envs: map<string, Environment>, ss: seq<Session>, envName: string, user: User,
                                token: Option<string>, now: int, secret: string, st: Settings)
    requires Consistent(envs, ss) && NamedByTally(envs, ss) && envName in envs
    ensures var x := MarkedPending(NewSession(envs[envName], now, secret, st), user, token);
      NamedByTally(envs[envName := Bumped(envs[envName])], ss + [x])
  {
    var x := NewSession(envs[envName], now, secret, st);
    AppendKeepsNames(envs, ss, envName, now, secret, st);
    UpdateKeepsNames(envs[envName := Bumped(envs[envName])], ss + [x], |ss|, MarkedPending(x, user, token));
    assert (ss + [x])[|ss| := MarkedPending(x, user, token)] == ss + [MarkedPending(x, user, token)];
  }

  /** `retrieve_session_for_user` keeps every session named after its environment's tally, and the names unique. */
  lemma RetrieveKeepsNames(rec: Records, envName: string, user: User, token: Option<string>, permitted: bool,
                           maximum: nat, now: int, secret: string, st: Settings)
    requires envName in rec.environments && WellNamed(rec)
    ensures WellNamed(AfterRetrieve(rec, envName, user, token, permitted, maximum, now, secret, st))
  {
    match AllocatedSessionForUser(rec.sessions, envName, user)
    case Some(k) =>
      UpdateKeepsNames(rec.environments, rec.sessions, k, Reused(rec.sessions[k], user, token));
    case None =>
      if permitted && AvailableSession(rec.sessions, envName).Some? {
        AllocateKeepsNames(rec, envName, user, token, maximum, now, secret, st);
      } else if permitted {
        CreateForUserKeepsNames(rec, envName, user, token, maximum, now, secret, st);
      }
  }

  /**
   * What `allocate_session_for_user` does with a reserve: the claimed record becomes the
   * user's, pending with the new token when it is truthy and running otherwise; the reserve
   * is then topped up by one session exactly when the claimed records want it.
   */
  lemma AllocateClaimsReserve(rec: Records, envName: string, user: User, token: Option<string>, maximum: nat,
                              now: int, secret: string, st: Settings)
    requires envName in rec.environments && AvailableSession(rec.sessions, envName).Some?
    ensures var k := AvailableSession(rec.sessions, envName).value;
      var s := rec.sessions[k];
      var e := rec.environments[envName];
      var claimed := rec.sessions[k := Claimed(s, user, token)];
      var r := AfterAllocate(rec, envName, user, token, maximum, now, secret, st);
      && |rec.sessions| <= |r.sessions|
      && r.sessions[..|rec.sessions|] == claimed
      && r.sessions[k].name == s.name && r.sessions[k].owner == Some(user)
      && (Truthy(token) ==> r.sessions[k].token == token && r.sessions[k].state == s.state)
      && (!Truthy(token) ==> r.sessions[k].token == s.token && r.sessions[k].state == Running)
      && (ReserveWanted(e, claimed, maximum) ==>
            && r.environments == rec.environments[envName := Bumped(e)]
            && r.sessions == claimed + [NewSession(e, now, secret, st)]
            && r.deployQueue == rec.deployQueue + [NewSession(e, now, secret, st).name])
      && (!ReserveWanted(e, claimed, maximum) ==>
            r.environments == rec.environments && r.sessions == claimed && r.deployQueue == rec.deployQueue)
  {
  }

  /**
   * What `create_session_for_user` does when it does not give up: the records before it are
   * kept, except that the oldest reserve is stopped when the portal is full, and one new
   * session pending for the user with the given token is appended and queued for deployment.
   */
  lemma CreateForUserAppendsPending(rec: Records, envName: string, user: User, token: Option<string>, maximum: nat,
                                    now: int, secret: string, st: Settings)
    requires envName in rec.environments
    ensures var e := rec.environments[envName];
      var r := AfterCreateForUser(rec, envName, user, token, maximum, now, secret, st);
      var n := |rec.sessions|;
      && (CreationRefused(e, rec.sessions, maximum) ==> r == rec)
      && (!CreationRefused(e, rec.sessions, maximum) ==>
            && |r.sessions| == n + 1
            && r.sessions[..n] == (if EvictionNeeded(rec.sessions, maximum) then StopOldestAvailable(rec.sessions) else rec.sessions)
            && r.sessions[n] == MarkedPending(NewSession(e, now, secret, st), user, token)
            && r.sessions[n].owner == Some(user) && r.sessions[n].token == token && r.sessions[n].state == Starting
            && r.environments[envName].tally == e.tally + 1
            && r.deployQueue == rec.deployQueue + [r.sessions[n].name])
      && (!CreationRefused(e, rec.sessions, maximum) && EvictionNeeded(rec.sessions, maximum) ==>
            && OldestAvailable(rec.sessions).Some?
            && r.sessions[OldestAvailable(rec.sessions).value].state == Stopping)
  {
    var e := rec.environments[envName];
    if !CreationRefused(e, rec.sessions, maximum) && EvictionNeeded(rec.sessions, maximum) {
      EvictionHasVictim(rec.sessions, maximum);
    }
  }
}

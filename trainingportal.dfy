/**
 * The training-portal create handler of the session manager operator.
 *
 * On a create event for a TrainingPortal the handler derives the portal namespace,
 * hostname, URL and credentials, arbitrates ownership of a namespace that already
 * exists, creates the namespace, sweeps away LimitRange/ResourceQuota objects that
 * namespace templating may have injected, and then creates the supporting objects
 * with the Deployment last.  Every failure that the handler catches writes a phase
 * into the status patch and asks the operator framework to retry in 30 seconds.
 *
 * The cluster is represented by the outcomes its calls would have (`Cluster`); the
 * handler's observable effects are the phase it writes into the patch, the mutating
 * cluster calls it issues in order, and what it returns or raises.
 */
module TrainingPortal {
  import opened Wrappers

  import Strings

  datatype Phase = Pending | Running | Error | Retrying

  /** What the namespace query returns: not found, another cluster error, or the namespace. */
  datatype Lookup = NotFound | QueryError | Found(owned: bool)

  /** Outcome of deleting one injected object: deleted, already gone (not found), or another error. */
  datatype DeleteOutcome = Deleted | Gone | DeleteFailed

  /** The supporting objects created inside the portal namespace. */
  datatype Kind =
    | ServiceAccount | ClusterRoleBinding | PersistentVolumeClaim | ConfigMap
    | Service | Ingress | RoleBinding | Deployment

  /** The kinds of injected object the handler sweeps away. */
  datatype Injected = LimitRange | ResourceQuota

  /** A mutating cluster call the handler issues. */
  datatype Call =
    | CreateNamespace
    | DeleteNamespace
    | DeleteInjected(what: Injected, index: nat)
    | Create(kind: Kind)

  /**
   * The outcomes the cluster would give: the namespace query, the delete issued in the
   * Retrying branch, the namespace create together with its re-fetch, one outcome per
   * listed LimitRange and ResourceQuota, and the kinds whose create would fail.
   */
  datatype Cluster = Cluster(
    lookup: Lookup,
    namespaceDeleted: bool,
    namespaceCreated: bool,
    limitRanges: seq<DeleteOutcome>,
    resourceQuotas: seq<DeleteOutcome>,
    failing: set<Kind>)

  /** Process-wide operator configuration. */
  datatype Config = Config(
    ingressDomain: string,
    ingressProtocol: string,
    securityPolicyEngine: string,
    adminUsername: string,
    adminPassword: string,
    robotUsername: string,
    robotPassword: string,
    robotClientId: string,
    robotClientSecret: string)

  /** The fields of the portal spec this handler reads; `None` is a field left out. */
  datatype PortalSpec = PortalSpec(
    hostname: Option<string>,
    adminUsername: Option<string>,
    adminPassword: Option<string>,
    robotUsername: Option<string>,
    robotPassword: Option<string>,
    robotClientId: Option<string>,
    robotClientSecret: Option<string>)

  datatype Credentials = Credentials(username: string, password: string)

  datatype Client = Client(id: string, secret: string)

  /** The status record returned on success. */
  datatype PortalStatus = PortalStatus(
    phase: Phase,
    namespace: string,
    url: string,
    admin: Credentials,
    robot: Credentials,
    robotClient: Client)

  /** What the handler hands back to the framework: a status, a temporary error with a delay, or an uncaught error. */
  datatype Outcome = Done(status: PortalStatus) | Retry(delay: nat) | Raised

  /** The effects of one handler run. */
  datatype Reaction = Reaction(patch: Option<Phase>, calls: seq<Call>, outcome: Outcome)

  const RetryDelay: nat := 30

  function PortalNamespace(name: string): string {
    name + "-ui"
  }

  /** The hostname: `<name>-ui.<domain>` without an override, `<override>.<domain>` for a bare label, else the override. */
  function PortalHostname(name: string, hostname: Option<string>, domain: string): (h: string)
    ensures hostname.Some? && '.' in hostname.value ==> h == hostname.value
    ensures !(hostname.Some? && '.' in hostname.value) ==> |h| > |domain| && h[|h| - |domain| - 1..] == "." + domain
  {
    if hostname.None? || hostname.value == [] then name + "-ui." + domain
    else if '.' !in hostname.value then hostname.value + "." + domain
    else hostname.value
  }

  /** The portal URL: the protocol, then `://`, then the hostname. */
  function PortalUrl(protocol: string, hostname: string): (u: string)
    ensures |u| == |protocol| + 3 + |hostname|
    ensures u[..|protocol|] == protocol && u[|protocol|..|protocol| + 3] == "://" && u[|protocol| + 3..] == hostname
  {
    protocol + "://" + hostname
  }

  /** The status returned on success: Running, with each credential taken from the spec when given, else the default. */
  function RunningStatus(name: string, spec: PortalSpec, config: Config): (s: PortalStatus)
    ensures s.phase == Running && s.namespace == name + "-ui"
    ensures s.url == PortalUrl(config.ingressProtocol, PortalHostname(name, spec.hostname, config.ingressDomain))
    ensures s.admin.username == (if spec.adminUsername.Some? then spec.adminUsername.value else config.adminUsername)
    ensures s.admin.password == (if spec.adminPassword.Some? then spec.adminPassword.value else config.adminPassword)
    ensures s.robot.username == (if spec.robotUsername.Some? then spec.robotUsername.value else config.robotUsername)
    ensures s.robot.password == (if spec.robotPassword.Some? then spec.robotPassword.value else config.robotPassword)
    ensures s.robotClient.id == (if spec.robotClientId.Some? then spec.robotClientId.value else config.robotClientId)
    ensures s.robotClient.secret == (if spec.robotClientSecret.Some? then spec.robotClientSecret.value else config.robotClientSecret)
  {
    PortalStatus(
      Running,
      PortalNamespace(name),
      PortalUrl(config.ingressProtocol, PortalHostname(name, spec.hostname, config.ingressDomain)),
      Credentials(spec.adminUsername.GetOr(config.adminUsername), spec.adminPassword.GetOr(config.adminPassword)),
      Credentials(spec.robotUsername.GetOr(config.robotUsername), spec.robotPassword.GetOr(config.robotPassword)),
      Client(spec.robotClientId.GetOr(config.robotClientId), spec.robotClientSecret.GetOr(config.robotClientSecret)))
  }

  /** The supporting objects in creation order; the RoleBinding only under the "psp" policy engine. */
  function CreationOrder(engine: string): (plan: seq<Kind>)
    ensures |plan| >= 7 && plan[|plan| - 1] == Deployment
  {
    [ServiceAccount, ClusterRoleBinding, PersistentVolumeClaim, ConfigMap, Service, Ingress]
    + (if engine == "psp" then [RoleBinding] else [])
    + [Deployment]
  }

  /**
   * How many creates of `order` are attempted when each is issued only after all
   * earlier ones succeeded: up to and including the first failing one.
   */
  function AttemptCount(order: seq<Kind>, failing: set<Kind>): (m: nat)
    ensures order == [] ==> m == 0
    ensures order != [] ==> 1 <= m <= |order|
    ensures forall i :: 0 <= i < m - 1 ==> order[i] !in failing
    ensures m < |order| ==> order[m - 1] in failing
  {
    if order == [] then 0
    else if order[0] in failing then 1
    else 1 + AttemptCount(order[1..], failing)
  }

  function CreateCalls(kinds: seq<Kind>): (calls: seq<Call>)
    ensures |calls| == |kinds|
  {
    if kinds == [] then [] else CreateCalls(kinds[..|kinds| - 1]) + [Create(kinds[|kinds| - 1])]
  }

  /** Index of the first delete that fails with an error other than not-found, or the length when none does. */
  function FirstError(items: seq<DeleteOutcome>): (n: nat)
    ensures n <= |items|
    ensures forall j :: 0 <= j < n ==> items[j] != DeleteFailed
    ensures n < |items| ==> items[n] == DeleteFailed
  {
    if items == [] then 0
    else if items[0] == DeleteFailed then 0
    else 1 + FirstError(items[1..])
  }

  function Deletes(what: Injected, n: nat): (calls: seq<Call>)
    ensures |calls| == n
  {
    if n == 0 then [] else Deletes(what, n - 1) + [DeleteInjected(what, n - 1)]
  }

  lemma {:induction false} DeletesAt(what: Injected, n: nat)
    ensures forall j :: 0 <= j < n ==> Deletes(what, n)[j] == DeleteInjected(what, j)
  {
    if n > 0 {
      DeletesAt(what, n - 1);
    }
  }

  /** The deletes issued when sweeping `items` in turn; an error other than not-found ends the sweep. */
  function SweepCalls(what: Injected, items: seq<DeleteOutcome>): seq<Call> {
    var n := FirstError(items);
    Deletes(what, if n < |items| then n + 1 else n)
  }

  lemma SweepCallsDelete(what: Injected, items: seq<DeleteOutcome>)
    ensures forall j :: 0 <= j < |SweepCalls(what, items)| ==> SweepCalls(what, items)[j] == DeleteInjected(what, j)
  {
    var n := FirstError(items);
    DeletesAt(what, if n < |items| then n + 1 else n);
  }

  predicate SweepOk(items: seq<DeleteOutcome>) {
    FirstError(items) == |items|
  }

  /** The effects of `training_portal_create`, as a function of its inputs and the cluster's outcomes. */
  function Reconcile(name: string, spec: PortalSpec, prior: Option<Phase>, config: Config, cluster: Cluster): (r: Reaction)
    ensures r.outcome.Retry? ==> r.outcome.delay == RetryDelay
    ensures r.outcome.Done? ==> r.patch.None? && r.outcome.status.phase == Running
    ensures r.patch != Some(Running)
    ensures cluster.lookup != NotFound ==> r.calls == [] || r.calls == [DeleteNamespace]
    ensures cluster.lookup == NotFound ==> r.calls != [] && r.calls[0] == CreateNamespace
  {
    match cluster.lookup
    case QueryError => Reaction(Some(Error), [], Retry(RetryDelay))
    case Found(owned) =>
      if !owned then Reaction(Some(Pending), [], Retry(RetryDelay))
      else if prior == Some(Retrying) then
        Reaction(None, [DeleteNamespace], if cluster.namespaceDeleted then Retry(RetryDelay) else Raised)
      else Reaction(Some(Error), [], Retry(RetryDelay))
    case NotFound => ProvisionReaction(name, spec, config, cluster)
  }

  /** The effects of `training_portal_create` when the portal's namespace does not exist yet. */
  function ProvisionReaction(name: string, spec: PortalSpec, config: Config, cluster: Cluster): (r: Reaction)
    ensures r.calls != [] && r.calls[0] == CreateNamespace
    ensures r.patch == None || r.patch == Some(Retrying)
    ensures r.outcome.Retry? ==> r.patch == Some(Retrying) && r.outcome.delay == RetryDelay
    ensures r.outcome.Raised? <==>
      cluster.namespaceCreated && (!SweepOk(cluster.limitRanges) || !SweepOk(cluster.resourceQuotas))
  {
    if !cluster.namespaceCreated then Reaction(Some(Retrying), [CreateNamespace], Retry(RetryDelay))
    else
      var limits := [CreateNamespace] + SweepCalls(LimitRange, cluster.limitRanges);
      if !SweepOk(cluster.limitRanges) then Reaction(None, limits, Raised)
      else
        var quotas := limits + SweepCalls(ResourceQuota, cluster.resourceQuotas);
        if !SweepOk(cluster.resourceQuotas) then Reaction(None, quotas, Raised)
        else CreationReaction(name, spec, config, cluster, quotas)
  }

  /** The effects of the creates of the supporting objects, after the calls `pre`. */
  function CreationReaction(name: string, spec: PortalSpec, config: Config, cluster: Cluster, pre: seq<Call>): (r: Reaction)
    ensures |r.calls| > |pre| && r.calls[..|pre|] == pre
    ensures r.outcome.Done? || (r.patch == Some(Retrying) && r.outcome == Retry(RetryDelay))
    ensures r.outcome.Done? ==> r.patch.None? && r.calls[|r.calls| - 1] == Create(Deployment)
    ensures var plan := CreationOrder(config.securityPolicyEngine);
      r.outcome.Done? <==> forall k :: 0 <= k < |plan| ==> plan[k] !in cluster.failing
  {
    var plan := CreationOrder(config.securityPolicyEngine);
    var m := AttemptCount(plan, cluster.failing);
    var calls := pre + CreateCalls(plan[..m]);
    if plan[m - 1] in cluster.failing then Reaction(Some(Retrying), calls, Retry(RetryDelay))
    else Reaction(None, calls, Done(RunningStatus(name, spec, config)))
  }

  lemma CreationOrderAt(engine: string)
    ensures var plan := CreationOrder(engine);
      && plan[0] == ServiceAccount && plan[1] == ClusterRoleBinding && plan[2] == PersistentVolumeClaim
      && plan[3] == ConfigMap && plan[4] == Service && plan[5] == Ingress
      && (engine == "psp" ==> |plan| == 8 && plan[6] == RoleBinding && plan[7] == Deployment)
      && (engine != "psp" ==> |plan| == 7 && plan[6] == Deployment)
  {
  }

  lemma AttemptedOneMore(plan: seq<Kind>, k: nat)
    requires k < |plan|
    ensures CreateCalls(plan[..k + 1]) == CreateCalls(plan[..k]) + [Create(plan[k])]
  {
    assert plan[..k + 1][..k] == plan[..k];
  }

  /** The attempt count is pinned down by where the first failure is. */
  lemma AttemptCountIs(plan: seq<Kind>, failing: set<Kind>, k: nat)
    requires 1 <= k <= |plan|
    requires forall i :: 0 <= i < k - 1 ==> plan[i] !in failing
    requires k < |plan| ==> plan[k - 1] in failing
    ensures AttemptCount(plan, failing) == k
  {
  }

  /** One run of the handler: the status patch it writes and the cluster calls it has issued. */
  class Reconciler {
    var patch: Option<Phase>
    var calls: seq<Call>

    constructor ()
      ensures patch == None && calls == []
    {
      patch := None;
      calls := [];
    }

    /** Issues the create of one object. */
    method CreateObject(kind: Kind, failing: set<Kind>) returns (ok: bool)
      modifies this
      ensures ok == (kind !in failing)
      ensures calls == old(calls) + [Create(kind)] && patch == old(patch)
    {
      calls := calls + [Create(kind)];
      ok := kind !in failing;
    }

    /** Deletes each listed injected object in turn; not-found is ignored, any other error stops the sweep. */
    method Sweep(what: Injected, items: seq<DeleteOutcome>) returns (ok: bool)
      modifies this
      ensures ok == SweepOk(items)
      ensures calls == old(calls) + SweepCalls(what, items) && patch == old(patch)
    {
      var i := 0;
      while i < |items|
        invariant 0 <= i <= |items|
        invariant forall j :: 0 <= j < i ==> items[j] != DeleteFailed
        invariant calls == old(calls) + Deletes(what, i) && patch == old(patch)
      {
        calls := calls + [DeleteInjected(what, i)];
        if items[i] == DeleteFailed {
          assert FirstError(items) == i;
          return false;
        }
        i := i + 1;
      }
      assert FirstError(items) == |items|;
      ok := true;
    }

    /** The sweeps of LimitRange, then ResourceQuota objects; the second runs only when the first succeeded. */
    method SweepInjected(cluster: Cluster) returns (ok: bool)
      modifies this
      ensures ok == (SweepOk(cluster.limitRanges) && SweepOk(cluster.resourceQuotas))
      ensures patch == old(patch)
      ensures calls == old(calls) + SweepCalls(LimitRange, cluster.limitRanges)
        + (if SweepOk(cluster.limitRanges) then SweepCalls(ResourceQuota, cluster.resourceQuotas) else [])
    {
      ok := Sweep(LimitRange, cluster.limitRanges);
      if !ok {
        return;
      }
      ok := Sweep(ResourceQuota, cluster.resourceQuotas);
    }

    /** One create of the sequence, issued after the creates of `plan[..k]` all succeeded. */
    method CreateNext(kind: Kind, failing: set<Kind>, ghost plan: seq<Kind>, ghost k: nat, ghost base: seq<Call>)
      returns (ok: bool)
      requires k < |plan| && plan[k] == kind
      requires calls == base + CreateCalls(plan[..k])
      requires forall i :: 0 <= i < k ==> plan[i] !in failing
      modifies this
      ensures ok == (kind !in failing)
      ensures calls == base + CreateCalls(plan[..k + 1]) && patch == old(patch)
      ensures ok ==> forall i :: 0 <= i < k + 1 ==> plan[i] !in failing
      ensures !ok || k + 1 == |plan| ==> AttemptCount(plan, failing) == k + 1
    {
      ok := CreateObject(kind, failing);
      AttemptedOneMore(plan, k);
      if !ok || k + 1 == |plan| {
        AttemptCountIs(plan, failing, k + 1);
      }
    }

    /** The straight-line creation of the supporting objects, the Deployment last. */
    method CreateObjects(engine: string, failing: set<Kind>) returns (ok: bool)
      modifies this
      ensures var plan := CreationOrder(engine);
        var m := AttemptCount(plan, failing);
        && ok == (plan[m - 1] !in failing)
        && calls == old(calls) + CreateCalls(plan[..m])
        && patch == old(patch)
    {
      ghost var plan := CreationOrder(engine);
      ghost var base := calls;
      CreationOrderAt(engine);
      assert plan[..0] == [];
      ok := CreateNext(ServiceAccount, failing, plan, 0, base);
      if !ok {
        return;
      }
      ok := CreateNext(ClusterRoleBinding, failing, plan, 1, base);
      if !ok {
        return;
      }
      ok := CreateNext(PersistentVolumeClaim, failing, plan, 2, base);
      if !ok {
        return;
      }
      ok := CreateNext(ConfigMap, failing, plan, 3, base);
      if !ok {
        return;
      }
      ok := CreateNext(Service, failing, plan, 4, base);
      if !ok {
        return;
      }
      ok := CreateNext(Ingress, failing, plan, 5, base);
      if !ok {
        return;
      }
      ghost var k := 6;
      if engine == "psp" {
        ok := CreateNext(RoleBinding, failing, plan, 6, base);
        if !ok {
          return;
        }
        k := 7;
      }
      ok := CreateNext(Deployment, failing, plan, k, base);
    }

    /** `training_portal_create`. */
    method TrainingPortalCreate(name: string, spec: PortalSpec, prior: Option<Phase>, config: Config, cluster: Cluster)
      returns (outcome: Outcome)
      modifies this
      ensures var e := Reconcile(name, spec, prior, config, cluster);
        && outcome == e.outcome
        && calls == old(calls) + e.calls
        && patch == (if e.patch.Some? then e.patch else old(patch))
    {
      if cluster.lookup.QueryError? {
        patch := Some(Error);
        return Retry(RetryDelay);
      }
      if cluster.lookup.Found? {
        if !cluster.lookup.owned {
          patch := Some(Pending);
          return Retry(RetryDelay);
        }
        if prior == Some(Retrying) {
          calls := calls + [DeleteNamespace];
          if !cluster.namespaceDeleted {
            return Raised;
          }
          return Retry(RetryDelay);
        }
        patch := Some(Error);
        return Retry(RetryDelay);
      }

      outcome := Provision(name, spec, config, cluster);
    }

    /** The part of `training_portal_create` that runs when the namespace does not exist yet. */
    method Provision(name: string, spec: PortalSpec, config: Config, cluster: Cluster) returns (outcome: Outcome)
      modifies this
      ensures var e := ProvisionReaction(name, spec, config, cluster);
        && outcome == e.outcome
        && calls == old(calls) + e.calls
        && patch == (if e.patch.Some? then e.patch else old(patch))
    {
      calls := calls + [CreateNamespace];
      if !cluster.namespaceCreated {
        patch := Some(Retrying);
        return Retry(RetryDelay);
      }
      var ok := SweepInjected(cluster);
      if !ok {
        return Raised;
      }

      ghost var quotas := [CreateNamespace] + SweepCalls(LimitRange, cluster.limitRanges)
        + SweepCalls(ResourceQuota, cluster.resourceQuotas);
      outcome := CreateAndReport(name, spec, config, cluster, old(calls), quotas);
    }

    /** The creates of the supporting objects, then the phase and the status the handler reports. */
    method CreateAndReport(name: string, spec: PortalSpec, config: Config, cluster: Cluster,
                           ghost base: seq<Call>, ghost pre: seq<Call>)
      returns (outcome: Outcome)
      requires calls == base + pre
      modifies this
      ensures var e := CreationReaction(name, spec, config, cluster, pre);
        && outcome == e.outcome
        && calls == base + e.calls
        && patch == (if e.patch.Some? then e.patch else old(patch))
    {
      ghost var plan := CreationOrder(config.securityPolicyEngine);
      ghost var m := AttemptCount(plan, cluster.failing);
      var ok := CreateObjects(config.securityPolicyEngine, cluster.failing);
      assert calls == base + (pre + CreateCalls(plan[..m]));
      if !ok {
        patch := Some(Retrying);
        return Retry(RetryDelay);
      }
      outcome := Done(RunningStatus(name, spec, config));
    }

    /** `training_portal_delete`: owner references clean up, so the handler does nothing. */
    method TrainingPortalDelete()
      ensures patch == old(patch) && calls == old(calls)
    {
    }
  }

  // ---------------------------------------------------------------------------
  // Properties of the handler

  /** The hostname override changes only the URL: namespace, patch and calls are the same. */
  lemma NamespaceIgnoresHostname(name: string, spec: PortalSpec, hostname: Option<string>, prior: Option<Phase>,
                                 config: Config, cluster: Cluster)
    ensures var a := Reconcile(name, spec, prior, config, cluster);
      var b := Reconcile(name, spec.(hostname := hostname), prior, config, cluster);
      && a.patch == b.patch && a.calls == b.calls && a.outcome.Done? == b.outcome.Done?
      && (a.outcome.Done? ==> a.outcome.status.namespace == b.outcome.status.namespace == name + "-ui")
  {
  }

  /** Without an override (or with an empty one) the hostname is `<name>-ui` under the ingress domain. */
  lemma DefaultHostname(name: string, hostname: Option<string>, domain: string)
    requires hostname.None? || hostname.value == []
    requires '.' !in name
    ensures Strings.SplitAtFirst(PortalHostname(name, hostname, domain), '.') == (name + "-ui", domain)
  {
    assert name + "-ui." + domain == (name + "-ui") + ['.'] + domain;
    Strings.SplitAtFirstConcat(name + "-ui", '.', domain);
  }

  /** A bare label is qualified with the ingress domain; a name containing a dot is used verbatim. */
  lemma OverriddenHostname(name: string, override: string, domain: string)
    requires override != []
    ensures '.' !in override ==> Strings.SplitAtFirst(PortalHostname(name, Some(override), domain), '.') == (override, domain)
    ensures '.' in override ==> PortalHostname(name, Some(override), domain) == override
  {
    if '.' !in override {
      assert override + "." + domain == override + ['.'] + domain;
      Strings.SplitAtFirstConcat(override, '.', domain);
    }
  }

  /** The URL is the protocol, then "://", then the hostname. */
  lemma UrlSplits(protocol: string, hostname: string)
    requires ':' !in protocol
    ensures Strings.SplitAtFirst(PortalUrl(protocol, hostname), ':') == (protocol, "//" + hostname)
  {
    assert protocol + "://" + hostname == protocol + [':'] + ("//" + hostname);
    Strings.SplitAtFirstConcat(protocol, ':', "//" + hostname);
  }

  /** A failed namespace query marks the portal Error, asks for a retry in 30s and issues no call. */
  lemma QueryErrorCreatesNothing(name: string, spec: PortalSpec, prior: Option<Phase>, config: Config, cluster: Cluster)
    requires cluster.lookup == QueryError
    ensures Reconcile(name, spec, prior, config, cluster) == Reaction(Some(Error), [], Retry(30))
  {
  }

  /** A namespace owned by someone else marks the portal Pending; it is neither deleted nor reused. */
  lemma ForeignNamespaceUntouched(name: string, spec: PortalSpec, prior: Option<Phase>, config: Config, cluster: Cluster)
    requires cluster.lookup == Found(false)
    ensures var r := Reconcile(name, spec, prior, config, cluster);
      && r.patch == Some(Pending) && r.outcome == Retry(30)
      && r.calls == []
  {
  }

  /**
   * An owned namespace is deleted, without a status patch, only when the previous run left
   * the phase Retrying; in any other phase the portal is marked Error and nothing is deleted.
   */
  lemma OwnedNamespace(name: string, spec: PortalSpec, prior: Option<Phase>, config: Config, cluster: Cluster)
    requires cluster.lookup == Found(true)
    ensures var r := Reconcile(name, spec, prior, config, cluster);
      && (prior == Some(Retrying) ==>
            r.patch == None && r.calls == [DeleteNamespace]
            && r.outcome == (if cluster.namespaceDeleted then Retry(30) else Raised))
      && (prior != Some(Retrying) ==> r == Reaction(Some(Error), [], Retry(30)))
  {
  }

  /** Re-running on a portal already Running, whose namespace exists, issues no call but marks it Error. */
  lemma RerunOnRunningPortal(name: string, spec: PortalSpec, config: Config, cluster: Cluster)
    requires cluster.lookup == Found(true)
    ensures var r := Reconcile(name, spec, Some(Running), config, cluster);
      r.calls == [] && r.patch == Some(Error)
  {
  }

  /** Either the namespace create or a supporting object's create failing marks the portal Retrying. */
  lemma CreateFailureMarksRetrying(name: string, spec: PortalSpec, prior: Option<Phase>, config: Config, cluster: Cluster,
                                   kind: Kind)
    requires cluster.lookup == NotFound
    requires !cluster.namespaceCreated
      || (SweepOk(cluster.limitRanges) && SweepOk(cluster.resourceQuotas)
          && kind in CreationOrder(config.securityPolicyEngine) && kind in cluster.failing)
    ensures var r := Reconcile(name, spec, prior, config, cluster);
      r.patch == Some(Retrying) && r.outcome == Retry(30) && r.calls[0] == CreateNamespace
  {
    if cluster.namespaceCreated {
      var plan := CreationOrder(config.securityPolicyEngine);
      var m := AttemptCount(plan, cluster.failing);
      var i :| 0 <= i < |plan| && plan[i] == kind;
      assert m <= i + 1;
    }
  }

  /** The kinds created by `calls`, in the order they are created. */
  function CreatesOf(calls: seq<Call>): seq<Kind> {
    if calls == [] then [] else CreatedBy(calls[0]) + CreatesOf(calls[1..])
  }

  function CreatedBy(call: Call): seq<Kind> {
    if call.Create? then [call.kind] else []
  }

  lemma {:induction false} CreatesOfConcat(a: seq<Call>, b: seq<Call>)
    ensures CreatesOf(a + b) == CreatesOf(a) + CreatesOf(b)
  {
    if a == [] {
      assert a + b == b;
    } else {
      var rest := CreatesOf(a[1..] + b);
      assert (a + b)[0] == a[0];
      assert (a + b)[1..] == a[1..] + b;
      assert CreatesOf(a + b) == CreatedBy(a[0]) + rest;
      CreatesOfConcat(a[1..], b);
      assert rest == CreatesOf(a[1..]) + CreatesOf(b);
      assert CreatedBy(a[0]) + (CreatesOf(a[1..]) + CreatesOf(b)) == (CreatedBy(a[0]) + CreatesOf(a[1..])) + CreatesOf(b);
    }
  }

  lemma {:induction false} CreatesOfNone(calls: seq<Call>)
    requires forall i :: 0 <= i < |calls| ==> !calls[i].Create?
    ensures CreatesOf(calls) == []
  {
    if calls != [] {
      CreatesOfNone(calls[1..]);
    }
  }

  lemma {:induction false} CreatesOfDeletes(what: Injected, n: nat)
    ensures CreatesOf(Deletes(what, n)) == []
  {
    if n > 0 {
      CreatesOfConcat(Deletes(what, n - 1), [DeleteInjected(what, n - 1)]);
      CreatesOfDeletes(what, n - 1);
      assert CreatesOf([DeleteInjected(what, n - 1)]) == [];
    }
  }

  lemma {:induction false} CreatesOfCreateCalls(kinds: seq<Kind>)
    ensures CreatesOf(CreateCalls(kinds)) == kinds
  {
    if kinds != [] {
      var init := kinds[..|kinds| - 1];
      CreatesOfConcat(CreateCalls(init), [Create(kinds[|kinds| - 1])]);
      CreatesOfCreateCalls(init);
      assert CreatesOf([Create(kinds[|kinds| - 1])]) == [kinds[|kinds| - 1]];
      assert init + [kinds[|kinds| - 1]] == kinds;
    }
  }

  /** The calls of a run that got past both sweeps: namespace, deletes, then the attempted creates. */
  lemma ProvisionCalls(name: string, spec: PortalSpec, prior: Option<Phase>, config: Config, cluster: Cluster)
    requires cluster.lookup == NotFound && cluster.namespaceCreated
    requires SweepOk(cluster.limitRanges) && SweepOk(cluster.resourceQuotas)
    ensures var r := Reconcile(name, spec, prior, config, cluster);
      var plan := CreationOrder(config.securityPolicyEngine);
      var pre := [CreateNamespace] + Deletes(LimitRange, |cluster.limitRanges|) + Deletes(ResourceQuota, |cluster.resourceQuotas|);
      var m := AttemptCount(plan, cluster.failing);
      && r.calls == pre + CreateCalls(plan[..m])
      && CreatesOf(r.calls) == plan[..m]
  {
    var plan := CreationOrder(config.securityPolicyEngine);
    var m := AttemptCount(plan, cluster.failing);
    var pre := [CreateNamespace] + Deletes(LimitRange, |cluster.limitRanges|) + Deletes(ResourceQuota, |cluster.resourceQuotas|);
    CreatesOfDeletes(LimitRange, |cluster.limitRanges|);
    CreatesOfDeletes(ResourceQuota, |cluster.resourceQuotas|);
    CreatesOfConcat([CreateNamespace], Deletes(LimitRange, |cluster.limitRanges|));
    CreatesOfConcat([CreateNamespace] + Deletes(LimitRange, |cluster.limitRanges|), Deletes(ResourceQuota, |cluster.resourceQuotas|));
    assert CreatesOf([CreateNamespace]) == [];
    CreatesOfConcat(pre, CreateCalls(plan[..m]));
    CreatesOfCreateCalls(plan[..m]);
  }

  /**
   * The objects created by any run are a prefix of `CreationOrder`: each create is issued only
   * after every earlier one, in that order, and the sequence stops at the first failure.
   */
  lemma CreatesFollowOrder(name: string, spec: PortalSpec, prior: Option<Phase>, config: Config, cluster: Cluster)
    ensures var r := Reconcile(name, spec, prior, config, cluster);
      var plan := CreationOrder(config.securityPolicyEngine);
      var created := CreatesOf(r.calls);
      && |created| <= |plan| && created == plan[..|created|]
      && (forall i :: 0 <= i < |created| - 1 ==> created[i] !in cluster.failing)
      && (0 < |created| < |plan| ==> created[|created| - 1] in cluster.failing && r.patch == Some(Retrying))
  {
    var r := Reconcile(name, spec, prior, config, cluster);
    var plan := CreationOrder(config.securityPolicyEngine);
    if cluster.lookup == NotFound && cluster.namespaceCreated && SweepOk(cluster.limitRanges) && SweepOk(cluster.resourceQuotas) {
      ProvisionCalls(name, spec, prior, config, cluster);
    } else {
      CreatesOfRun(name, spec, prior, config, cluster);
    }
  }

  /** Only the last object of the order is the Deployment; the RoleBinding appears only under "psp". */
  lemma CreationOrderKinds(engine: string)
    ensures var plan := CreationOrder(engine);
      && (forall i :: 0 <= i < |plan| - 1 ==> plan[i] != Deployment)
      && (forall i :: 0 <= i < |plan| ==> plan[i] == RoleBinding ==> engine == "psp")
  {
    CreationOrderAt(engine);
  }

  /** The run got past the namespace checks, its create and both sweeps. */
  predicate Provisioning(cluster: Cluster) {
    cluster.lookup == NotFound && cluster.namespaceCreated
    && SweepOk(cluster.limitRanges) && SweepOk(cluster.resourceQuotas)
  }

  /** The kinds a run creates: the attempted prefix of the order once provisioning started, none otherwise. */
  lemma CreatesOfRun(name: string, spec: PortalSpec, prior: Option<Phase>, config: Config, cluster: Cluster)
    ensures var plan := CreationOrder(config.securityPolicyEngine);
      CreatesOf(Reconcile(name, spec, prior, config, cluster).calls)
        == if Provisioning(cluster) then plan[..AttemptCount(plan, cluster.failing)] else []
  {
    if Provisioning(cluster) {
      ProvisionCalls(name, spec, prior, config, cluster);
    } else {
      SweepCallsDelete(LimitRange, cluster.limitRanges);
      SweepCallsDelete(ResourceQuota, cluster.resourceQuotas);
      CreatesOfNone(Reconcile(name, spec, prior, config, cluster).calls);
    }
  }

  /** The attempted prefix of the order reaches the Deployment exactly when nothing before it fails. */
  lemma DeploymentAttempted(engine: string, failing: set<Kind>)
    ensures var plan := CreationOrder(engine);
      Deployment in plan[..AttemptCount(plan, failing)] <==> forall i :: 0 <= i < |plan| - 1 ==> plan[i] !in failing
  {
    var plan := CreationOrder(engine);
    var m := AttemptCount(plan, failing);
    CreationOrderKinds(engine);
    if Deployment in plan[..m] {
      var d :| 0 <= d < m && plan[..m][d] == Deployment;
      assert d == |plan| - 1;
    }
    if forall i :: 0 <= i < |plan| - 1 ==> plan[i] !in failing {
      assert m == |plan|;
      assert plan[..m][m - 1] == Deployment;
    }
  }

  /** The Deployment is created exactly when every object before it in the order was created successfully. */
  lemma DeploymentOnlyAfterAllElse(name: string, spec: PortalSpec, prior: Option<Phase>, config: Config, cluster: Cluster)
    ensures var r := Reconcile(name, spec, prior, config, cluster);
      var plan := CreationOrder(config.securityPolicyEngine);
      Deployment in CreatesOf(r.calls) <==>
        Provisioning(cluster) && forall i :: 0 <= i < |plan| - 1 ==> plan[i] !in cluster.failing
  {
    CreatesOfRun(name, spec, prior, config, cluster);
    DeploymentAttempted(config.securityPolicyEngine, cluster.failing);
  }

  /** When the Deployment is created it is the handler's last call. */
  lemma DeploymentIsLastCall(name: string, spec: PortalSpec, prior: Option<Phase>, config: Config, cluster: Cluster)
    ensures var r := Reconcile(name, spec, prior, config, cluster);
      Deployment in CreatesOf(r.calls) ==> r.calls[|r.calls| - 1] == Create(Deployment)
  {
    var r := Reconcile(name, spec, prior, config, cluster);
    var plan := CreationOrder(config.securityPolicyEngine);
    if Deployment in CreatesOf(r.calls) {
      DeploymentOnlyAfterAllElse(name, spec, prior, config, cluster);
      ProvisionCalls(name, spec, prior, config, cluster);
      var m := AttemptCount(plan, cluster.failing);
      assert m == |plan|;
      var pre := [CreateNamespace] + Deletes(LimitRange, |cluster.limitRanges|) + Deletes(ResourceQuota, |cluster.resourceQuotas|);
      assert r.calls[|r.calls| - 1] == CreateCalls(plan[..m])[m - 1];
    }
  }

  /** The RoleBinding is created only under the "psp" policy engine. */
  lemma RoleBindingOnlyUnderPsp(name: string, spec: PortalSpec, prior: Option<Phase>, config: Config, cluster: Cluster)
    ensures var r := Reconcile(name, spec, prior, config, cluster);
      RoleBinding in CreatesOf(r.calls) ==> config.securityPolicyEngine == "psp"
  {
    var r := Reconcile(name, spec, prior, config, cluster);
    var plan := CreationOrder(config.securityPolicyEngine);
    CreationOrderKinds(config.securityPolicyEngine);
    CreatesFollowOrder(name, spec, prior, config, cluster);
    var created := CreatesOf(r.calls);
    if RoleBinding in created {
      var d :| 0 <= d < |created| && created[d] == RoleBinding;
      assert plan[d] == RoleBinding;
    }
  }

  /**
   * The handler succeeds exactly when the namespace was absent, its create succeeded, both sweeps
   * met no error other than not-found, and no supporting object's create failed; it then returns a
   * Running status with the derived namespace and URL and each credential taken from the spec when
   * present, else from the configured default, and writes no phase into the patch.
   */
  lemma SuccessIff(name: string, spec: PortalSpec, prior: Option<Phase>, config: Config, cluster: Cluster)
    ensures var r := Reconcile(name, spec, prior, config, cluster);
      var plan := CreationOrder(config.securityPolicyEngine);
      r.outcome.Done? <==>
        && cluster.lookup == NotFound && cluster.namespaceCreated
        && SweepOk(cluster.limitRanges) && SweepOk(cluster.resourceQuotas)
        && forall k :: k in plan ==> k !in cluster.failing
  {
    var plan := CreationOrder(config.securityPolicyEngine);
    if Provisioning(cluster) {
      var m := AttemptCount(plan, cluster.failing);
      if forall k :: k in plan ==> k !in cluster.failing {
        assert plan[m - 1] in plan;
      } else {
        var k :| k in plan && k in cluster.failing;
        var i :| 0 <= i < |plan| && plan[i] == k;
        assert m <= i + 1;
      }
    }
  }

  /**
   * A successful run writes no phase patch and reports the Running status with the derived
   * namespace, URL and credentials, after issuing the namespace create, both sweeps and every
   * create of the order.
   */
  lemma SuccessStatus(name: string, spec: PortalSpec, prior: Option<Phase>, config: Config, cluster: Cluster)
    requires Reconcile(name, spec, prior, config, cluster).outcome.Done?
    ensures var r := Reconcile(name, spec, prior, config, cluster);
      var plan := CreationOrder(config.securityPolicyEngine);
      var st := r.outcome.status;
      && r.patch == None
      && st.phase == Running
      && st.namespace == name + "-ui"
      && st.url == config.ingressProtocol + "://" + PortalHostname(name, spec.hostname, config.ingressDomain)
      && st.admin == Credentials(spec.adminUsername.GetOr(config.adminUsername), spec.adminPassword.GetOr(config.adminPassword))
      && st.robot == Credentials(spec.robotUsername.GetOr(config.robotUsername), spec.robotPassword.GetOr(config.robotPassword))
      && st.robotClient == Client(spec.robotClientId.GetOr(config.robotClientId), spec.robotClientSecret.GetOr(config.robotClientSecret))
      && r.calls == [CreateNamespace] + Deletes(LimitRange, |cluster.limitRanges|)
           + Deletes(ResourceQuota, |cluster.resourceQuotas|) + CreateCalls(plan)
  {
    var plan := CreationOrder(config.securityPolicyEngine);
    var m := AttemptCount(plan, cluster.failing);
    assert m == |plan|;
    assert plan[..m] == plan;
  }

  /**
   * No object is left created without a phase marker, except when a sweep raises: then the
   * namespace exists and no phase is written, so the next run sees the same prior phase and an
   * owned namespace.  Unless that phase is Retrying, the next run stops in Error; when it is
   * Retrying, the next run only deletes the namespace.
   */
  lemma CreatedObjectsAreMarked(name: string, spec: PortalSpec, prior: Option<Phase>, config: Config, cluster: Cluster)
    ensures var r := Reconcile(name, spec, prior, config, cluster);
      CreateNamespace in r.calls && r.outcome.Retry? ==> r.patch == Some(Retrying)
    ensures var r := Reconcile(name, spec, prior, config, cluster);
      var next := Reconcile(name, spec, prior, config, cluster.(lookup := Found(true)));
      cluster.lookup == NotFound && cluster.namespaceCreated && !SweepOk(cluster.limitRanges) ==>
        && r.outcome == Raised && r.patch == None && CreateNamespace in r.calls
        && (prior != Some(Retrying) ==> next.patch == Some(Error) && next.calls == [])
        && (prior == Some(Retrying) ==> next.patch == None && next.calls == [DeleteNamespace])
  {
    var r := Reconcile(name, spec, prior, config, cluster);
    if cluster.lookup != NotFound {
      assert CreateNamespace !in r.calls;
    }
  }

  /**
   * Retry then heal: a Retrying portal with an owned namespace has it deleted; once it is gone,
   * a run in which every create succeeds reaches Running.
   */
  lemma RetryThenHeal(name: string, spec: PortalSpec, config: Config, cluster: Cluster)
    requires cluster.lookup == Found(true) && cluster.namespaceDeleted
    requires cluster.namespaceCreated && SweepOk(cluster.limitRanges) && SweepOk(cluster.resourceQuotas)
    requires cluster.failing == {}
    ensures Reconcile(name, spec, Some(Retrying), config, cluster) == Reaction(None, [DeleteNamespace], Retry(30))
    ensures var r := Reconcile(name, spec, Some(Retrying), config, cluster.(lookup := NotFound));
      r.outcome == Done(RunningStatus(name, spec, config)) && r.outcome.status.phase == Running
  {
    SuccessIff(name, spec, Some(Retrying), config, cluster.(lookup := NotFound));
  }
}

# Training portal: reconciler and session scheduler

This project models two parts of the eduk8s training portal.

**The training-portal create handler** is the operator's reaction to a new TrainingPortal
resource. It works in three steps:
- It derives the portal's namespace (`<name>-ui`), hostname, URL and credentials.
- It decides what to do about a namespace that may already exist.
- It creates the namespace, sweeps away injected LimitRange and ResourceQuota objects, and creates the supporting objects, with the Deployment last.

Each failure it catches writes a phase into the status patch and asks for a retry in 30 seconds. The cluster is a `Cluster` value that holds the outcome of each call. The `TrainingPortal.Reconciler` class holds the status patch and the list of mutating calls issued so far. Its `TrainingPortalCreate` method makes the handler's steps. It is proved equal to the pure function `TrainingPortal.Reconcile`, and every property of the handler is a lemma about that function.

**The session manager** is the portal's bookkeeping for workshop sessions:
- naming a new session after the environment's tally;
- building its OAuth redirect URIs and its environment overlay;
- deploying it as a WorkshopSession resource;
- the admission policy that gives a user a session. The policy reuses the user's own session, then applies the permission gate, then claims a reserved session, then creates a fresh one. Creation is bounded by the environment's capacity and the portal's session maximum, and evicts the oldest reserved session when the portal is full.

The `Sessions.Store` class holds the records:
- `environments`: the workshop environments, with their tallies;
- `sessions`: the session records, in creation order;
- `deployQueue`: the deployments scheduled on commit;
- `resources`: the WorkshopSession resources submitted.

Its methods follow the source functions one by one. Each state-changing method states its whole new state, either field by field or as `Snapshot() == After…(old(Snapshot()), …)` for a pure function of the records. Three invariants are tracked:
- `WithinCapacity`: no environment above its capacity, and the portal not above its maximum. `CreateReservedSession`, `AllocateSessionForUser`, `CreateSessionForUser`, `EvictOldestAvailable`, `ReuseAllocatedSession`, `ClaimOrCreate` and `RetrieveSessionForUser` keep it. `SetupWorkshopSession`, `CreateNewSession` and `CreatePendingSession` leave the capacity checks to their callers and state nothing about it.
- `SingleAllocation`: no user holds two allocated sessions of one environment. `allocate_session_for_user` and `create_session_for_user` keep it only when the user holds no allocated session of that environment, and they do not check this themselves. `retrieve_session_for_user` checks it first, so `RetrieveSessionForUser` keeps it unconditionally. `CreateReservedSession`, `EvictOldestAvailable` and `ReuseAllocatedSession` keep it unconditionally.
- `NamedByTally` (with `Consistent`, together `WellNamed`): every session is named and numbered after a tally its environment has reached, and no two sessions share a name. `CreateWorkshopSession`, `SetupWorkshopSession` and `RetrieveSessionForUser` keep it, and so does each `After…` function of the records.

The model layer's counting and marking methods are not part of this model. `SessionModel` defines them from the two facts the manager relies on:
- a session is active until it is marked for stopping;
- the active sessions are the available (reserved, unowned) ones plus the allocated ones.

Inputs that the source draws from outside the model are parameters:
- the random client secret (`secret`);
- the creation time (`now`);
- the result of `session_permitted_for_user` (`permitted`);
- whether the WorkshopSession resource create succeeded (`submitted`);
- every cluster outcome of the reconciler (`Cluster`).

## Model

| member | source | states |
|---|---|---|
| TrainingPortal.Reconciler.TrainingPortalCreate | session-manager/handlers/trainingportal.py:47-634 | The outcome, the status patch and the sequence of cluster calls are those of `Reconcile` for the same spec, prior phase, configuration and cluster outcomes. |
| TrainingPortal.Reconciler.Provision | session-manager/handlers/trainingportal.py:186-634 | With the namespace absent: create it; on failure, patch Retrying and retry in 30s; otherwise run both sweeps, then the creates, as `ProvisionReaction` says. |
| TrainingPortal.Reconciler.Sweep | session-manager/handlers/trainingportal.py:208-226 | Deletes the listed objects in order. Not-found is ignored. The first other error ends the sweep and reports failure. |
| TrainingPortal.Reconciler.SweepInjected | session-manager/handlers/trainingportal.py:208-226 | The ResourceQuota sweep runs only after the LimitRange sweep succeeded; success means both succeeded. |
| TrainingPortal.Reconciler.CreateObjects | session-manager/handlers/trainingportal.py:601-612 | Issues the creates of `CreationOrder` one by one, each only after the earlier ones succeeded. It stops at the first failure and reports success iff the last attempted create succeeded. |
| TrainingPortal.Reconciler.CreateNext | session-manager/handlers/trainingportal.py:601-614 | One create of the order extends the calls by that create; a failure, or reaching the end, pins down the attempt count. |
| TrainingPortal.Reconciler.CreateObject | session-manager/handlers/trainingportal.py:602-612 | One create call is appended; it succeeds iff its kind is not among the failing kinds. |
| TrainingPortal.Reconciler.CreateAndReport | session-manager/handlers/trainingportal.py:601-634 | A failed create patches Retrying and retries in 30s; otherwise the Running status is returned and the patch is untouched. |
| TrainingPortal.Reconciler.TrainingPortalDelete | session-manager/handlers/trainingportal.py:637-644 | The delete handler writes no patch and issues no call. |
| TrainingPortal.Reconcile | session-manager/handlers/trainingportal.py:114-634 | Every retry is asked for in 30s. A returned status is Running and comes with no patch. No run patches Running. An existing namespace leads to no call or to its delete alone; an absent one makes the namespace create the first call. |
| TrainingPortal.ProvisionReaction | session-manager/handlers/trainingportal.py:186-634 | The namespace create is the first call. The patch is Retrying or none, and every retry patches Retrying. The handler raises iff the namespace was created and a sweep met an error other than not-found. |
| TrainingPortal.CreationReaction | session-manager/handlers/trainingportal.py:597-634 | The creates follow the earlier calls. The run either returns a status, with no patch and the Deployment create as its last call, or patches Retrying and retries in 30s. It returns a status iff no kind of the order fails. |
| TrainingPortal.PortalHostname | session-manager/handlers/trainingportal.py:56-64 | An override with a dot is used verbatim; every other hostname ends with `.<domain>`. |
| TrainingPortal.PortalUrl | session-manager/handlers/trainingportal.py:66 | The URL is the protocol, then `://`, then the hostname. |
| TrainingPortal.RunningStatus | session-manager/handlers/trainingportal.py:625-634 | Phase Running, namespace `<name>-ui`, the derived URL, and each credential and client field from the spec when given, else the configured default. |
| TrainingPortal.CreationOrder | session-manager/handlers/trainingportal.py:601-612 | The order has at least seven objects and ends with the Deployment. |
| TrainingPortal.CreationOrderAt | session-manager/handlers/trainingportal.py:601-612 | ServiceAccount, ClusterRoleBinding, PVC, ConfigMap, Service, Ingress, then the RoleBinding iff the engine is "psp", then the Deployment. |
| TrainingPortal.CreationOrderKinds | session-manager/handlers/trainingportal.py:609-612 | Only the last object of the order is the Deployment; a RoleBinding appears only under "psp". |
| TrainingPortal.AttemptCount | session-manager/handlers/trainingportal.py:601-614 | The attempted creates run up to and including the first failing kind; none before it fails; it is the whole order when none fails. |
| TrainingPortal.FirstError | session-manager/handlers/trainingportal.py:208-226 | The index of the first delete error other than not-found; every earlier delete succeeded or found nothing. |
| TrainingPortal.NamespaceIgnoresHostname | session-manager/handlers/trainingportal.py:50-54 | Changing the hostname override changes neither the patch, nor the calls, nor success; the namespace is always `<name>-ui`. |
| TrainingPortal.DefaultHostname | session-manager/handlers/trainingportal.py:56-59 | Without an override, or with an empty one, the hostname splits at its first dot into `<name>-ui` and the ingress domain. |
| TrainingPortal.OverriddenHostname | session-manager/handlers/trainingportal.py:60-64 | An override without a dot splits into itself and the ingress domain; an override with a dot is used verbatim. |
| TrainingPortal.UrlSplits | session-manager/handlers/trainingportal.py:66 | The URL splits at its first colon into the protocol and `//<hostname>`. |
| TrainingPortal.QueryErrorCreatesNothing | session-manager/handlers/trainingportal.py:122-129 | A failed namespace query patches Error, retries in 30s and issues no call. |
| TrainingPortal.ForeignNamespaceUntouched | session-manager/handlers/trainingportal.py:135-144 | A namespace owned by another party patches Pending and retries in 30s; it is neither deleted nor recreated. |
| TrainingPortal.OwnedNamespace | session-manager/handlers/trainingportal.py:146-166 | An owned namespace is deleted, with no patch and a 30s retry, iff the prior phase is Retrying; in any other phase Error is patched and nothing is deleted. |
| TrainingPortal.RerunOnRunningPortal | session-manager/handlers/trainingportal.py:151-166 | A rerun on a Running portal whose namespace exists issues no call and patches Error. |
| TrainingPortal.CreateFailureMarksRetrying | session-manager/handlers/trainingportal.py:188-621 | A failed namespace create, or a failed create of any object of the order, patches Retrying and retries in 30s, after the namespace create was issued. |
| TrainingPortal.ProvisionCalls | session-manager/handlers/trainingportal.py:186-612 | Past both sweeps, the calls are the namespace create, one delete per listed object, then the attempted creates, and the objects created are exactly the attempted prefix of the order. |
| TrainingPortal.CreatesFollowOrder | session-manager/handlers/trainingportal.py:597-621 | In every run the objects created form a prefix of the order. All but the last succeeded. A run that stops short ended on a failing kind and patches Retrying. |
| TrainingPortal.CreatesOfRun | session-manager/handlers/trainingportal.py:114-612 | A run creates the attempted prefix of the order once provisioning started, and no object otherwise. |
| TrainingPortal.DeploymentAttempted | session-manager/handlers/trainingportal.py:597-612 | The attempted prefix reaches the Deployment iff no earlier object's create fails. |
| TrainingPortal.DeploymentOnlyAfterAllElse | session-manager/handlers/trainingportal.py:597-612 | The Deployment is created iff the namespace was absent and created, both sweeps succeeded, and every earlier create succeeded. |
| TrainingPortal.DeploymentIsLastCall | session-manager/handlers/trainingportal.py:612 | When the Deployment is created it is the last call of the run. |
| TrainingPortal.RoleBindingOnlyUnderPsp | session-manager/handlers/trainingportal.py:609-610 | A RoleBinding is created only under the "psp" policy engine. |
| TrainingPortal.SuccessIff | session-manager/handlers/trainingportal.py:114-634 | The handler returns a status iff the namespace was absent, its create succeeded, both sweeps met only not-found errors, and no object's create fails. |
| TrainingPortal.SuccessStatus | session-manager/handlers/trainingportal.py:625-634 | On success: no patch, phase Running, namespace `<name>-ui`, the derived URL, and each credential and client field from the spec when present, else the configured default; every create of the order was issued. |
| TrainingPortal.CreatedObjectsAreMarked | session-manager/handlers/trainingportal.py:146-226 | A run that created the namespace and retries has patched Retrying. A sweep error raises with no patch, so the next run sees the same prior phase and an owned namespace: it patches Error and issues no call unless that phase is Retrying, in which case it only deletes the namespace. |
| TrainingPortal.RetryThenHeal | session-manager/handlers/trainingportal.py:146-158 | A Retrying portal with an owned namespace has it deleted. Once it is gone, a run in which every call succeeds returns the Running status. |
| Strings.Decimal | src/project/apps/workshops/manager/sessions.py:159 | The decimal rendering is non-empty, all digits, and has no leading zero for a positive number. |
| Strings.ZeroPad | src/project/apps/workshops/manager/sessions.py:159 | Padding gives at least the width; the original digits end the result and everything before them is '0'. |
| Strings.ParseDecimalRoundTrip | src/project/apps/workshops/manager/sessions.py:159 | Parsing the decimal rendering of n gives n back. |
| Strings.ParseDecimalZeros | src/project/apps/workshops/manager/sessions.py:159 | Leading zeros do not change the parsed value. |
| Strings.PaddedDecimalRoundTrip | src/project/apps/workshops/manager/sessions.py:159 | The zero-padded rendering of n parses back to n. |
| Strings.SplitAtFirstConcat | session-manager/handlers/trainingportal.py:58-66 | Splitting `a + c + b` at its first `c` gives `a` and `b` when `a` has no `c`. |
| SessionModel.Count | src/project/apps/workshops/manager/sessions.py:258-271 | A count of sessions never exceeds the number of records. |
| SessionModel.ActiveIsAvailablePlusAllocated | src/project/apps/workshops/manager/sessions.py:329-331 | In every scope, the active count is the available count plus the allocated count. |
| SessionModel.CountUpdate | src/project/apps/workshops/manager/sessions.py:290-293 | Replacing one record changes a count by the difference of the two records' contributions. |
| SessionModel.AvailableSession | src/project/apps/workshops/manager/sessions.py:287 | The result is an available session of the environment, and there is none iff the environment's available count is 0. |
| SessionModel.AllocatedSessionForUser | src/project/apps/workshops/manager/sessions.py:360 | The result is an allocated session of the environment owned by the user; none means the user owns no allocated session there. |
| SessionModel.OldestAvailable | src/project/apps/workshops/manager/sessions.py:343 | The result is an available session with the smallest creation time in the portal, the earliest record among ties; none iff no session is available. |
| SessionModel.IsPending | src/project/apps/workshops/manager/sessions.py:363 | A pending session is active and not running. |
| SessionModel.MarkedPending | src/project/apps/workshops/manager/sessions.py:291 | Marking pending keeps the record's identity and state and records the owner and the token. The session stays active iff it was, is allocated if active, and is pending iff the token is truthy and it is starting or waiting. |
| SessionModel.MarkedRunning | src/project/apps/workshops/manager/sessions.py:293 | Marking running keeps the record's identity and token, records the owner, and leaves it Running, allocated and not pending. |
| SessionModel.MarkedStopping | src/project/apps/workshops/manager/sessions.py:343 | Marking stopping keeps the record's identity, owner and token, and leaves it neither active, available, allocated nor pending. |
| SessionModel.FindSession | src/project/apps/workshops/manager/sessions.py:39 | The result is a session of that name; none means no session has it. |
| Sessions.SessionId | src/project/apps/workshops/manager/sessions.py:159 | A session id is at least four characters and starts with 's'. |
| Sessions.SessionIdDigits | src/project/apps/workshops/manager/sessions.py:159 | After the 's', a session id holds only decimal digits. |
| Sessions.SessionIdRoundTrip | src/project/apps/workshops/manager/sessions.py:157-160 | The tally can be read back from the session id. |
| Sessions.SessionNameInjective | src/project/apps/workshops/manager/sessions.py:157-160 | Equal session names come from the same environment name and the same tally, so successive tallies give distinct names. |
| Sessions.CallbackHost | src/project/apps/workshops/manager/sessions.py:170-174 | A callback host starts with the session name, and is the bare name iff the suffix is not truthy. |
| Sessions.RedirectUri | src/project/apps/workshops/manager/sessions.py:170-180 | A redirect URI starts with the ingress protocol and is longer than `<protocol>://<session name>`; its exact form per position is `CallbackUriAt`. |
| Sessions.CallbackUris | src/project/apps/workshops/manager/sessions.py:182-193 | Five URIs plus one per ingress, the main callback first. |
| Sessions.IngressUris | src/project/apps/workshops/manager/sessions.py:190-193 | One callback per ingress, in order, each built from that ingress's name. |
| Sessions.RedirectUris | src/project/apps/workshops/manager/sessions.py:182-193 | The list built by appends is the main callback, then console, editor, slides, terminal, then one per ingress. |
| Sessions.CallbackUriAt | src/project/apps/workshops/manager/sessions.py:170-193 | There are exactly 5 plus the number of ingresses URIs, and each is `<protocol>://<session>[-<suffix>].<domain>/oauth_callback` for the suffix of its position. |
| Sessions.RedirectUriInjective | src/project/apps/workshops/manager/sessions.py:170-180 | Equal redirect URIs have equal callback hosts. |
| Sessions.CallbackHostInjective | src/project/apps/workshops/manager/sessions.py:171-174 | Equal callback hosts have the same suffix, up to truthiness. |
| Sessions.CallbackUrisDistinct | src/project/apps/workshops/manager/sessions.py:182-193 | With non-empty, distinct ingress names that are not embedded-application names, the redirect URIs are pairwise distinct. |
| Sessions.RestartUrl | src/project/apps/workshops/manager/sessions.py:64-67 | The restart URL lies under the portal's API URL. |
| Sessions.SessionEnvFor | src/project/apps/workshops/manager/sessions.py:50-72 | The workshop's variables come first, unchanged; SESSION_NAME and TRAINING_PORTAL are the overlay's fourth and fifth entries. |
| Sessions.ResourceFor | src/project/apps/workshops/manager/sessions.py:76-109 | The resource carries the session's name and id, the workshop environment's name and the portal's name, and its env starts with the workshop's variables. |
| Sessions.SessionEnv | src/project/apps/workshops/manager/sessions.py:50-72 | The list built by appends is the workshop's own variables followed by the session overlay. |
| Sessions.SessionEnvOverlay | src/project/apps/workshops/manager/sessions.py:50-72 | The workshop's variables come first, unchanged. The client id and secret follow. ENABLE_COUNTDOWN is present iff the duration is set. RESTART_URL is last. The length is the workshop's plus 7, plus 1 with a countdown. |
| Sessions.RestartUrlChoice | src/project/apps/workshops/manager/sessions.py:64-67 | The restart URL is the session's delete page iff a duration or an inactivity timeout is set, else the catalog. |
| Sessions.DeployedState | src/project/apps/workshops/manager/sessions.py:132-138 | A deployed session runs iff it has an owner and no token; otherwise it waits. |
| Sessions.NewSession | src/project/apps/workshops/manager/sessions.py:220-227 | A new record is available, starting, and belongs to its environment. |
| Sessions.ReserveWanted | src/project/apps/workshops/manager/sessions.py:255-277 | When a top-up is wanted, `create_session_for_user` would not refuse and the portal is not full, so a top-up never evicts. |
| Sessions.CreationRefused | src/project/apps/workshops/manager/sessions.py:311-327 | When creation is not refused and the portal is full, an available session exists to evict. |
| Sessions.EvictionNeeded | src/project/apps/workshops/manager/sessions.py:333 | A full portal has a positive maximum that the available plus the allocated sessions reach. |
| Sessions.Claimed | src/project/apps/workshops/manager/sessions.py:290-293 | The claimed record keeps its name, id, environment, creation time and client, is owned by the user, and is allocated if it was active. With a truthy token it gets that token and keeps its state; otherwise it keeps its token and runs. |
| Sessions.Reused | src/project/apps/workshops/manager/sessions.py:363-364 | The reused record keeps its identity, its state and, for the user's own session, its owner. Its token changes only to a truthy new token, and only while it is pending. |
| Sessions.AfterReserve | src/project/apps/workshops/manager/sessions.py:245-277 | The environments keep their keys and the old records are untouched. Exactly one record is added iff `ReserveWanted` holds, and the deployment queue grows by as many entries as the records. |
| Sessions.AfterAllocate | src/project/apps/workshops/manager/sessions.py:280-297 | With no reserve nothing changes. Otherwise the environments keep their keys, at most one record is added, and the claimed record is allocated to the user. |
| Sessions.AfterCreateForUser | src/project/apps/workshops/manager/sessions.py:300-348 | A refused creation changes nothing. Otherwise exactly one record is added, owned by the user with the given token in that environment, and its name is queued for deployment. |
| Sessions.AfterRetrieve | src/project/apps/workshops/manager/sessions.py:351-386 | The environments keep their keys. Reusing the user's session adds no record, leaves the environments as they were and queues nothing; a denied user changes nothing. |
| Sessions.EvictionHasVictim | src/project/apps/workshops/manager/sessions.py:336-343 | When the portal is full but not all allocated, a reserved session exists to evict. |
| Sessions.AllocationFound | src/project/apps/workshops/manager/sessions.py:360-365 | Under single allocation, the user's allocated session of the environment is the one the lookup returns. |
| Sessions.AppendKeepsWithinCapacity | src/project/apps/workshops/manager/sessions.py:264-277 | Adding an inactive session, or one that has room, keeps every environment and the portal within bounds. |
| Sessions.UpdateKeepsWithinCapacity | src/project/apps/workshops/manager/sessions.py:290-293 | Updating a record without activating it keeps the bounds. |
| Sessions.AppendKeepsSingleAllocation | src/project/apps/workshops/manager/sessions.py:321 | Adding a session that no other allocated session of its environment shares an owner with keeps single allocation. |
| Sessions.UpdateKeepsSingleAllocation | src/project/apps/workshops/manager/sessions.py:290-293 | The same for updating one record in place. |
| Sessions.ReserveKeepsInvariants | src/project/apps/workshops/manager/sessions.py:255-277 | A reserve top-up that passes the guards keeps both invariants. |
| Sessions.ClaimKeepsInvariants | src/project/apps/workshops/manager/sessions.py:287-293 | Claiming a reserved session keeps the bounds, and keeps single allocation when the user had none in that environment. |
| Sessions.ReuseKeepsInvariants | src/project/apps/workshops/manager/sessions.py:362-365 | Renewing the token of the user's own session keeps both invariants. |
| Sessions.EvictionKeepsInvariants | src/project/apps/workshops/manager/sessions.py:343 | Stopping the oldest reserved session lowers the portal's active count by exactly one. It leaves the allocated count and every allocated record unchanged, and keeps both invariants. |
| Sessions.FreshKeepsInvariants | src/project/apps/workshops/manager/sessions.py:311-348 | The fresh session added after the checks of `create_session_for_user` keeps both invariants. |
| Sessions.Store.CreateWorkshopSession | src/project/apps/workshops/manager/sessions.py:39-140 | A missing session, one that is no longer starting, or a failed submission changes nothing. Otherwise the session's resource (with the env overlay) is submitted and the session moves to `DeployedState`; nothing else changes. The naming invariant is kept, and under it a later lookup by the same name finds the deployed session no longer starting, so a second run is skipped. |
| Sessions.Store.SetupWorkshopSession | src/project/apps/workshops/manager/sessions.py:143-229 | Increments the environment's tally by exactly one and appends the new starting record, named from the new tally, with its redirect URIs; nothing else changes. The naming invariant is kept. |
| Sessions.BuildSession | src/project/apps/workshops/manager/sessions.py:157-227 | The record built from the next tally's id and name, the redirect URIs built by appends, the creation time and the client secret is the `NewSession` record: starting, unowned, without a token. |
| Sessions.Store.CreateNewSession | src/project/apps/workshops/manager/sessions.py:232-242 | Sets up the session and appends its name to the deployment queue. |
| Sessions.Store.CreateReservedSession | src/project/apps/workshops/manager/sessions.py:245-277 | Creates exactly one session iff reserves are wanted, the available count is below the reserve, the active count is below capacity, and the maximum is 0 or allocated plus available is below it. Otherwise it changes nothing. Both invariants are kept. |
| Sessions.Store.AllocateSessionForUser | src/project/apps/workshops/manager/sessions.py:280-297 | Claims the environment's first reserved session: pending with a truthy token, running otherwise. The records before it are the old ones with only that one claimed. The new state is `AfterAllocate`: the reserve is then topped up, on the claimed records, exactly when `ReserveWanted` holds for them, bumping the tally and queueing the new session's deployment. With no reserve nothing changes. The bounds are kept; single allocation is kept when the user held no allocated session of the environment. |
| Sessions.Store.CreateSessionForUser | src/project/apps/workshops/manager/sessions.py:300-348 | Returns none, changing nothing, iff the environment is at capacity or the portal's maximum is all allocated. Otherwise it stops the oldest reserved session exactly when the portal is full, then appends one new session marked pending for the user with the given token and queues its deployment. The bounds are kept; single allocation is kept when the user held no allocated session of the environment. |
| Sessions.Store.EvictOldestAvailable | src/project/apps/workshops/manager/sessions.py:343 | Marks the portal's oldest available session stopping and no other. |
| Sessions.Store.CreatePendingSession | src/project/apps/workshops/manager/sessions.py:321 | A new session is created, scheduled, and marked pending for the user with the given token, even when it is none. |
| Sessions.Store.ReuseAllocatedSession | src/project/apps/workshops/manager/sessions.py:360-365 | The user's session gets the new token only if a truthy token was given and the session is pending; nothing is created. |
| Sessions.Store.RetrieveSessionForUser | src/project/apps/workshops/manager/sessions.py:351-386 | The new state is `AfterRetrieve`. The user's allocated session is reused, with the new token only while it is pending, and nothing is created. Otherwise a denied user gets none and nothing changes. Otherwise the first reserved session is claimed (pending with a truthy token, else running, no other old record changed, then one top-up). With no reserve, creation is refused exactly as `create_session_for_user` refuses; or the oldest reserve is stopped when the portal is full and the returned session is the new one marked pending with the token. A returned session is allocated to the user in that environment and is what a repeat lookup finds. The bounds, single allocation and the naming invariant are kept. |
| Sessions.Store.ClaimOrCreate | src/project/apps/workshops/manager/sessions.py:377-386 | The new state is `AfterAllocate` when the environment has a reserved session, else `AfterCreateForUser`. The claimed record and the untouched old records, or the stopped reserve and the new pending session, are stated directly, and the invariants are kept. |
| Sessions.AllocateClaimsReserve | src/project/apps/workshops/manager/sessions.py:280-297 | After `allocate_session_for_user` claims a reserve, the old records are kept except the claimed one. That one is the user's, with the new token and its old state when the token is truthy, else running with its old token. Then exactly one session is added, with the tally bumped and its deployment queued, iff `ReserveWanted` holds after the claim; otherwise nothing else changes. |
| Sessions.CreateForUserAppendsPending | src/project/apps/workshops/manager/sessions.py:300-348 | A refused creation changes nothing. Otherwise the old records are kept, except that the oldest reserve (which exists) is stopped when the portal is full. One session is appended, owned by the user, with the given token, starting, from the bumped tally, and its deployment is queued. |
| Sessions.UpdateKeepsNames | src/project/apps/workshops/manager/sessions.py:39-140 | An update that keeps a record's name, id and environment keeps the naming invariant. |
| Sessions.FreshName | src/project/apps/workshops/manager/sessions.py:157-160 | A name made from a tally past the environment's current tally belongs to no existing session. |
| Sessions.AppendKeepsNames | src/project/apps/workshops/manager/sessions.py:157-227 | The session `setup_workshop_session` adds, with the bumped tally, keeps every session named after a reached tally and the names unique. |
| Sessions.StopKeepsNames | src/project/apps/workshops/manager/sessions.py:343 | Stopping the oldest reserve keeps the naming invariant. |
| Sessions.PendingAppendKeepsNames | src/project/apps/workshops/manager/sessions.py:321 | A new session marked pending keeps the naming invariant. |
| Sessions.ReserveKeepsNames | src/project/apps/workshops/manager/sessions.py:245-277 | `AfterReserve` keeps the naming invariant. |
| Sessions.AllocateKeepsNames | src/project/apps/workshops/manager/sessions.py:280-297 | `AfterAllocate` keeps the naming invariant. |
| Sessions.CreateForUserKeepsNames | src/project/apps/workshops/manager/sessions.py:300-348 | `AfterCreateForUser` keeps the naming invariant. |
| Sessions.RetrieveKeepsNames | src/project/apps/workshops/manager/sessions.py:351-386 | `AfterRetrieve` keeps the naming invariant. |
| Sessions.FindSessionUnique | src/project/apps/workshops/manager/sessions.py:39 | With unique names, the lookup by a session's name finds that session. |
| Sessions.RedeployIsSkipped | src/project/apps/workshops/manager/sessions.py:39-42 | Under unique names, once a starting session is deployed a second lookup by its name finds it at the same index, no longer starting, so a second run submits nothing. |
| Sessions.ClaimedWhileStartingIsNotDeployed | src/project/apps/workshops/manager/sessions.py:39-42 | Under the marking assumptions, a reserve claimed without a token while still starting is found by its deployment by name, is already Running, and so is skipped. |
| SessionModel.StopOldestAvailable | src/project/apps/workshops/manager/sessions.py:343 | Stopping the oldest reserve keeps the number of records. |

## Left out

- The manifest bodies (labels, probes, volumes, resource limits, the ingress TLS and annotations, the WorkshopSession body beyond its name, portal, environment, id, domain and env), because only which objects are created and in what order is modelled.
- The calls into the Kubernetes client and the operator framework (`get`, `create`, `delete`, `kopf.adopt`, `TemporaryError`). They are replaced by the outcomes in `Cluster` and by the `Outcome` value; owner references are not modelled.
- The namespace create and its re-fetch are one outcome (`namespaceCreated`), because either failing takes the same branch.
- The LimitRange and ResourceQuota loops iterate over listings the handler cannot see, so the listing is an input, one outcome per object. An error other than not-found escapes the handler uncaught (`Raised`), as does a failed namespace delete in the Retrying branch.
- The web-interface settings read at trainingportal.py:89-105 only feed manifest bodies, so they are not modelled.
- The handler's 900-second timeout and all logging.
- Locks, background tasks and transactions (`resources_lock`, `background_task`, `transaction.atomic`, `transaction.on_commit`) are modelled sequentially. The tasks scheduled on commit are the `deployQueue` list.
- `Session.objects.get` raising when no session of that name exists is the `Missing` outcome. A failed WorkshopSession create, which raises in the source, is `CreateFailed` and changes nothing.
- The random client secret, the admin `User` lookup and `Application.objects.get_or_create` are a foreign store. The secret is an input, and the application is the `clientSecret` and `redirectUris` fields of the session record.
- `session_permitted_for_user` is the input `permitted`, because its definition lives in the model layer.
- The model-layer methods (`active_sessions_count`, `available_sessions_count`, `allocated_sessions_count`, `available_session`, `allocated_session_for_user`, the ordering by `created`, `is_pending` and `mark_as_*`) are not part of this model. They are defined in `SessionModel` under these assumptions:
  - `is_pending` holds for a truthy token on a starting or waiting session;
  - marking pending records the owner and the token and leaves the state alone;
  - marking running sets the owner and the Running state;
  - `mark_as_pending` returns the session it marks. `create_session_for_user` returns its result (sessions.py:321, :334, :348), so `CreatePendingSession` and `CreateSessionForUser` return the new record's index;
  - a record made by `Session.objects.create` (sessions.py:220-227) starts in the Starting state with no owner and no token (`NewSession`). The call passes none of these fields, so these are the model layer's defaults;
  - among available sessions created at the same time, `order_by("created")[0]` (sessions.py:343) picks the earliest record. The query leaves the order of ties undefined, so `OldestAvailable` and `StopOldestAvailable` fix one.
- The index error that `order_by("created")[0]` would raise with no reserved session is not modelled: `EvictionHasVictim` proves a reserved session always exists at that point.
- Session kwargs passed to `setup_workshop_session` (other than the creation time) are not modelled; the callers named here pass none.
- The workshop's ingress list is read from the environment resource's status; here it is the environment's `ingresses` field of ingress names.
- A rerun on a portal whose owned namespace exists and whose phase is not Retrying patches Error, so such reruns are not idempotent; see `RerunOnRunningPortal`.
- `mark_as_running` is modelled as setting the Running state whatever the session's state. A consequence is that a reserve claimed without a token while it is still starting is Running before its deployment task runs. `create_workshop_session` then finds a session that is not starting and submits no WorkshopSession resource for it (`ClaimedWhileStartingIsNotDeployed`). Whether the real `mark_as_running` does this depends on the model layer, which is not part of this model, so this is not claimed as a defect of the source.
- The docstring of `retrieve_session_for_user` (sessions.py:352-357) says that a token given through the REST API does not overwrite an existing token. The code re-marks a pending session with the new token. Under the marking assumptions, `is_pending` needs a truthy token and `mark_as_pending` records the token, so the token is replaced exactly when one exists. The model follows the code (`Reused`, `ReuseAllocatedSession`).

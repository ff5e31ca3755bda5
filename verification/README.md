# Verification of provider-opentelekomcloud

Dafny 4.11 models of the managed-resource controllers of provider-opentelekomcloud and of the client
cache they share, with proofs about what they promise. `dafny verify dfyconfig.toml` checks the project.

Every controller holds two pieces of logic that were written apart: a drift detector
(`is...UpToDate`) and a planner (`build...UpdateOpts`, `reconcile...`, `update...`) that turns drift into
API calls. If the detector is stricter than the planner, the controller loops for ever; if it is laxer,
Update touches what the user never set. The models keep both as they are in the code and prove when
they agree, what every call boundary of an update keeps when any call may fail, and where whole runs end.

## How the model is built

- `Cloud.dfy` is the cloud: a resource and its tags, and one step per mutating API call. `Endpoint` is the
  client; each call succeeds or fails without the controller's doing, and a failed call has no effect.
- A controller object is a class with the spec, the external name and, for clusters, the annotation. Each
  of its methods is proved to send a *plan*: a sequence of calls that depends on the spec and the observed
  state, all of it on success, otherwise up to and including the call that failed (`Cloud.Sent`). What the
  plan does is then proved over `Cloud.Run`, for every prefix.
- A nil pointer, map or slice is `None`; an empty one is `Some`. `Basics.Outcome` tells refusals (no
  mutating call) from failures after calls.
- A reconcile round is Observe, then Create if absent, or Update if not up to date. Late initialisation
  in Observe changes the spec that Update then sees. `ReconcileOnce` runs these methods and is proved to
  make the `Reconcile` or `Round` of the convergence theorems. `Endpoint.failed` records every failed read,
  so that each method says exactly when it refuses.
- Files: `Basics`, `Cloud`, `Tags`, `LateInit` are shared; `Vpc`, `PrivateZone`, `RecordSet`, `Kms`, `Cluster`,
  `ElasticIp`, `Subnet` are the controllers; the `...Convergence` files and `ClusterRuns` hold
  their longer proofs. `Kms` is about what the calls do to one key, `KmsLifecycle` about which keys exist; `CacheIdentity`, `ClientCache`, `CacheProtocol` are the
  client cache; `Base64` is the encoding helper.

## What is taken for granted

- Update requests whose fields are plain strings, numbers or slices cannot say "set this to zero": the services
  take a zero value for "leave alone". `Basics.Sendable` names the desired values a request can carry.
- The tag service removes a listed tag by key and value, or by key alone; every result says for which.
- SHA-256 has no collisions, and the hash of an empty configuration is the empty string. The host of the
  external endpoint of a cluster is its bound address. Parsing of CIDRs and addresses is a parameter.
- Writes to the resource object (external name, annotation) are kept; a KMS spec that late initialisation makes
  invalid is not, because the validation rule of `apis/kms/v1alpha1/key_types.go:16` refuses it.
- Nobody else changes the cloud resource while one method of a controller runs. Between Observe and Update
  others may act; `ReconcileOnce` is about reconciles in which they do not.
- The key service may pick any rotation interval when rotation is switched on (`reset`); the DNS service may
  store records in any order (`shuffle`).
- In `KmsLifecycle` nobody cancels a scheduled deletion. Stale "not found" answers are part of the model.
- The VPC API does not store an empty string as a secondary CIDR.

## Where the code does not do what one would expect

- A private zone whose spec names a VPC twice is never up to date and never gets a call
  (`VpcAgreementIff`, `RepeatedVpcStuck`).
- A KMS spec that asks for rotation off without an interval is made invalid by late initialisation while the
  key rotates; that cannot be stored, and the key never changes (`ConvergesIff`, `RotationOffStuck`).
- A KMS rotation read that fails in Observe but not in Update lets Update switch off a rotation the spec
  never mentions (`MissedRotationReadIff`).
- A stale "not found" for a live KMS key makes Create leave it behind exactly while the status still says
  PendingDeletion (`StaleReadHarmfulIff`).
- A KMS key destroyed outside is replaced exactly when it was observed pending before (`LostKeyReplacedIff`,
  `LostKeyNeverReplaced`). No other controller creates a named resource again.
- A CCE cluster whose address changes without the identifier of the new one loses its address
  (`SwapWithoutIdLosesAddress`).
- Cleared DNS servers of a subnet and other zero values cannot be sent (the `CompleteUpdateIff` lemmas).
- A changed elastic IP address or name is refused by Update but not seen by the detector
  (`UnseenImmutableChange`).
- Deleting tags by key alone takes away tags whose value has changed; the next round brings them back
  (`OnePassIff`, `TwoPasses`).
- Two identities whose fields hold the separator `|` can share a cache hash (`CollidesWithNoneIff`).

## Model

| member | source | states |
|---|---|---|
| CacheProtocol.CacheTransparent | internal/clients/clients.go:75-151 | In every interleaving of any number of calls, a call that returns has a client authenticated as an identity with the hash of its own; so as exactly its own identity if no two calls collide, and, whatever the other calls are, if its own six fields hold no separator |
| CacheProtocol.ClientOfTheCaller | internal/clients/clients.go:75-151 | Under the same conditions, and from the caller's side: the client's keys are those of that call's secret, its project, region and domain those of its configuration, and its endpoint the configured one when set and not empty, otherwise the default |
| CacheProtocol.CollidingCallGetsTheOthersClient | internal/clients/clients.go:112-117 | For any two identities with the same hash there is a run in which the second call is handed the client of the first: the conditions of `CacheTransparent` are needed |
| CacheProtocol.SeparableNoCollisions | internal/clients/clients.go:195-206 | No two calls collide when the first five fields of every call hold no separator |
| CacheProtocol.RefinesFreshAuthentication | internal/clients/clients.go:75-151 | As long as no identities collide, every step of the cached protocol is, for its callers, a step of a service that authenticates afresh on every call, or invisible |
| CacheProtocol.PublishedNeverMutated | internal/clients/clients.go:142-145 | From the moment a session is published its provider client stays authenticated as the same identity, whatever happens to the slot |
| CacheProtocol.FailedCallPublishesNothing | internal/clients/clients.go:82-139 | A call that ends in failure changed no session at any of its steps |
| CacheProtocol.InvAlways | internal/clients/clients.go:75-151 | In every reachable state every slot and every call holds a client in the condition its phase promises, no two calls share an unauthenticated client, and every authenticated client is traced to a call that did not fail |
| ClientCache.Cache.GetClient | internal/clients/clients.go:75-151 | A call fails iff its credentials cannot be extracted or the identity service turns it down, and then changes nothing; otherwise a hit returns the stored client, a miss fills the slot, and, unless the identity collides with the slot owner's, the client is authenticated with the access key and secret key of the credentials, the project and region of the configuration, and its endpoint or else the default one |
| ClientCache.ResolvedAuth | internal/clients/clients.go:86-133 | Each field of the authentication against the configuration and the credentials it comes from |
| ClientCache.Cache.Connect | internal/clients/clients.go:99-139 | A client is returned iff the identity service grants the authentication, once, and then it is new and authenticated as the identity given |
| ClientCache.Cache.Publish | internal/clients/clients.go:139-145 | Exactly one slot is set, and every slot still holds a client authenticated as its owner |
| ClientCache.SlotsHoldLast | internal/clients/clients.go:90-97 | After any sequential history a slot holds the hash of the last successful call on its key, and is empty only if none succeeded |
| ClientCache.AuthenticatesIff | internal/clients/clients.go:92-139 | A call authenticates iff it succeeds as the first on its key or with another configuration than the last successful call on it |
| ClientCache.AuthenticationCount | internal/clients/clients.go:92-150 | In any sequential history without collisions the authentications granted, which the contract of `GetClient` ties to the identity service, are exactly as many as those calls |
| ClientCache.SeparableNoCollisions | internal/clients/clients.go:195-206 | A history whose first five fields hold no separator has no collisions |
| CacheIdentity.HashInjective | internal/clients/clients.go:195-206 | The hash determines all six fields when the first five hold no separator |
| CacheIdentity.CollidesWithNoneIff | internal/clients/clients.go:195-206 | An identity shares its hash with no other at all exactly when none of its six fields holds the separator |
| CacheIdentity.SlotKeyInjective | internal/clients/providerconfig.go:32-48 | Two configuration objects share a slot key only if they are the same object, for namespaces without `/` |
| CacheIdentity.SameSlotIff | internal/clients/providerconfig.go:22-56 | Two resources get the same slot exactly when their references mean the same object, and then they get the same configuration |
| CacheIdentity.GetProviderConfigSpec | internal/clients/providerconfig.go:22-56 | Fails without a reference, for any other kind, and for a missing object; a `ProviderConfig` is looked up in the namespace of the resource, an empty kind means the cluster-wide one, and each has its own key format |
| VpcConvergence.UpToDateIffNoDrift | internal/controller/vpc/vpc.go:525-536 | The detector is true iff the CIDR matches and the drift (name, set description, set secondary CIDR, differing tag keys) is 0 |
| Vpc.UpToDateIff | internal/controller/vpc/vpc.go:525-536 | The detector, field by field: what is set equals what was observed |
| VpcConvergence.Agreement | internal/controller/vpc/vpc.go:264-302 | The detector is true iff the immutable CIDR matches and Update would send no call |
| VpcConvergence.UpdateNeverWorsens | internal/controller/vpc/vpc.go:264-302 | At every call boundary of Update, and so after a failure at any call, the VPC is workable and drifts no more than before |
| VpcConvergence.NoCallWorsens | internal/controller/vpc/vpc.go:264-302 | When tags are deleted by value, no single call of an Update increases the drift |
| VpcConvergence.CompleteUpdateIff | internal/controller/vpc/vpc.go:264-302 | A complete Update brings the drift to 0 and satisfies the detector iff the tags need only one pass; the secondary CIDR slot then holds the wanted value |
| VpcConvergence.SingleSecondaryAlways | internal/controller/vpc/vpc.go:390-402 | In every run of creates and updates with any specs and failures at any call, a VPC that starts with at most one secondary CIDR never holds two, so the read that refuses several is never met |
| VpcConvergence.SecondaryBoundary | internal/controller/vpc/vpc.go:451-485 | The slot at each call boundary of reconcileSecondaryCIDR: the old value, then empty, then the wanted value |
| VpcConvergence.FromNothing | internal/controller/vpc/vpc.go:181-302 | From no external name one create and at most one update reach a state that every later round reports up to date and leaves alone, for either way of matching deleted tags |
| VpcConvergence.SettledForEver | internal/controller/vpc/vpc.go:181-239 | A VPC that is up to date with its spec stays as it is under a further reconcile |
| VpcConvergence.TwoReconcilesSettle | internal/controller/vpc/vpc.go:181-302 | From any VPC the controller can work with, two failure-free reconciles settle it for good, however deleted tags are matched |
| VpcConvergence.ReconcileOnce | internal/controller/vpc/vpc.go:181-302 | Observe, then Create or Update, run on the same object: without a failing read or call exactly the reconcile of the theorems (a named VPC that is gone is not created again); in any case the cloud made one of the rounds of a run |
| Vpc.VpcResource.Observe | internal/controller/vpc/vpc.go:181-239 | Fails exactly for an invalid spec, a failed read or a named VPC with several secondary CIDRs; otherwise absent exactly without a name or a VPC; otherwise the spec is late-initialised and the verdict is that of the late-initialised spec |
| Vpc.VpcResource.Create | internal/controller/vpc/vpc.go:241-262 | Refuses exactly, and only when unnamed, for an empty name, an empty or malformed CIDR or a malformed secondary one; otherwise sends one create call, or nothing when named; the external name is set iff the call succeeded |
| Vpc.VpcResource.Update | internal/controller/vpc/vpc.go:264-302 | Refuses, without effect, exactly without a name, after a failed read or when the checks on spec and VPC fail, a changed CIDR among them; otherwise a prefix of the update plan reached the cloud, all of it iff the result is success |
| Vpc.VpcResource.UpdateFields | internal/controller/vpc/vpc.go:339-347 | Sends the field update iff a field changed |
| Vpc.UpdateOpts.ApplyDescriptionIfChanged | internal/controller/vpc/vpc.go:362-369 | The description goes into the request iff it is set and differs |
| Vpc.BuildUpdateOpts | internal/controller/vpc/vpc.go:349-360 | Needs an update iff name or set description differ; the request always carries the name, and the description iff it differs |
| Vpc.ReconcileSecondaryCidr | internal/controller/vpc/vpc.go:451-485 | Sends the remove-then-add plan, stopping at the first failure |
| Vpc.VpcResource.LateInitialize | internal/controller/vpc/vpc.go:512-523 | The new spec, and the changed flag set iff the spec changed |
| Vpc.LateInitialized | internal/controller/vpc/vpc.go:512-523 | Set fields are kept, unset ones take the observed values unless these are zero, and the verdict of the detector does not change |
| Vpc.LateInitIdempotent | internal/controller/vpc/vpc.go:512-523 | A second late initialisation changes nothing |
| KmsLifecycle.NoKeyLeftBehind | internal/controller/kmskey/key.go:219-316 | In every run in which nobody cancels deletions and no stale "not found" for a live key is read while the status says PendingDeletion, every key this resource created other than the one it names is pending deletion or gone |
| KmsLifecycle.CreateCallsAreGuarded | internal/controller/kmskey/key.go:294-316 | In every run a create call reaches the service only with an empty external name or when the last observed state was PendingDeletion, and, without such stale reads, only when the named key is no longer live |
| KmsLifecycle.LostKeyNeverReplaced | internal/controller/kmskey/key.go:294-300 | A lost key that was not observed pending is never replaced: no later step of any run creates a key |
| KmsLifecycle.LostKeyReplacedIff | internal/controller/kmskey/key.go:219-316 | A named key that is gone is replaced by a reconcile exactly when it was observed pending before |
| KmsLifecycle.KeyGetsLost | internal/controller/kmskey/key.go:219-316 | A run of three steps reaches a lost key that was never observed pending |
| KmsLifecycle.StaleReadLeavesKeyBehind | internal/controller/kmskey/key.go:230-239 | A run that reaches such a harmful read and leaves a live key behind |
| KmsLifecycle.StaleReadHarmfulIff | internal/controller/kmskey/key.go:219-316 | From any sound world with a live named key, one stale "not found" and one create leave that key behind exactly when the last observed state is PendingDeletion |
| KmsLifecycle.StepKeepsInv | internal/controller/kmskey/key.go:219-316 | Every step of the controller and of others, but a harmful stale read, keeps the ownership invariant |
| KmsLifecycle.Controller.Observe | internal/controller/kmskey/key.go:219-276 | An error exactly for an invalid spec or a failed read of a named key; present exactly when the named key is live and found; the status says PendingDeletion exactly when that was seen, now or before |
| KmsLifecycle.Controller.Create | internal/controller/kmskey/key.go:294-316 | A call is issued iff it is allowed and the spec is valid; the resource names the new live key iff the call was accepted |
| KmsLifecycle.Controller.Delete | internal/controller/kmskey/key.go:371-426 | Takes a delete step: succeeds iff the service accepts, and then the named key is pending deletion |
| KmsConvergence.AgreementIff | internal/controller/kmskey/key.go:318-648 | For every spec and snapshot: drift always leads to a call, and an up-to-date key is left alone exactly when neither an unset description nor an unset rotation would be acted on |
| KmsConvergence.Agreement | internal/controller/kmskey/key.go:463-682 | After late initialisation on a snapshot, up to date iff Update on that snapshot has no call to send |
| KmsConvergence.LateInitNecessary | internal/controller/kmskey/key.go:660-682 | Without late initialisation an up-to-date key would have its description cleared and its rotation switched off |
| KmsConvergence.MissedRotationReadTurnsRotationOff | internal/controller/kmskey/key.go:717-723 | Such a round exists: an observation Observe can make, a field that drifts, and the switch-off in the plan |
| KmsConvergence.MissedRotationReadIff | internal/controller/kmskey/key.go:585-725 | For every spec that leaves rotation alone and every key: when Observe misses the rotation and Update reads it, Update switches rotation off exactly for a rotating key in one of the two stable states |
| KmsConvergence.SwitchesOffIff | internal/controller/kmskey/key.go:585-625 | An Update switches rotation off exactly for a rotating key in a stable state whose spec does not ask for rotation |
| KmsConvergence.LateInitKeepsValidityIff | internal/controller/kmskey/key.go:650-682 | Late initialisation keeps a valid spec valid iff it is not the case that rotation is asked off, no interval is set and the key is seen rotating with one |
| KmsConvergence.RotationOffStuck | internal/controller/kmskey/key.go:650-682 | In that case no number of reconciles changes spec or key: the late-initialised spec is invalid and cannot be stored, and rotation stays on |
| KmsConvergence.RotationOffStuckWitness | internal/controller/kmskey/key.go:650-682 | A concrete spec and key for which this happens |
| KmsConvergence.ConvergesIff | internal/controller/kmskey/key.go:318-682 | A valid spec for a stable key of its realm is met after two rounds iff late initialisation keeps it valid, in terms of spec and key |
| KmsConvergence.TwoRoundsConverge | internal/controller/kmskey/key.go:347-366 | Two failure-free rounds make alias, description, enabled state, rotation, interval and tags match, whatever interval the service picks when rotation is switched on and however it matches deleted tags; every later round leaves the key alone |
| KmsConvergence.FieldsConverge | internal/controller/kmskey/key.go:219-369 | Two failure-free rounds bring alias, set description and set tags of every manageable key to the spec in any raw state but '4' and PendingDeletion, also while it waits to be enabled or for its material, and later rounds leave them alone |
| KmsConvergence.PlannedEnables | internal/controller/kmskey/key.go:561-583 | An enable call is planned exactly for a wish of true on raw state '3' or Disabled, a disable call exactly for false on '2' or Enabled |
| KmsConvergence.PlannedRotation | internal/controller/kmskey/key.go:585-648 | Rotation is switched or its interval set exactly in the two stable raw states, by the difference to what was seen |
| KmsConvergence.ReconcileOnce | internal/controller/kmskey/key.go:219-369 | Observe, then Update, run on the same object: without a failing read or call exactly the round of the theorems |
| KmsConvergence.OneRoundIff | internal/controller/kmskey/key.go:585-648 | One round is enough exactly when the tags need one pass and the service does not undo an interval that was right |
| KmsConvergence.AfterUpdate | internal/controller/kmskey/key.go:318-369 | The key and tags after a complete Update, written out |
| KmsConvergence.DeleteDisablesRotationFirst | internal/controller/kmskey/key.go:371-426 | When deletion is scheduled the key is not rotating, unless its rotation could not be read; a complete Delete leaves it pending deletion |
| KmsConvergence.PlannedDelete | internal/controller/kmskey/key.go:371-426 | Delete switches rotation off exactly for a key in raw state '2', '3' or their names that is seen rotating, and schedules the deletion exactly when the key is not pending already, for the days of the spec or else 7 |
| Kms.KeyResource.ObserveCurrentState | internal/controller/kmskey/key.go:698-725 | Unreadable exactly after a failed read other than a passed-over rotation read; not found exactly when the service does not know the key; otherwise the full snapshot, without the rotation iff that read was passed over |
| Kms.FriendlyStateIff | internal/controller/kmskey/key.go:64-77 | Each friendly state against the raw spellings that mean it: its code and its own name |
| Kms.KeyResource.Observe | internal/controller/kmskey/key.go:219-292 | Fails exactly for an empty alias, an interval without rotation set to true, or a failed read that is not passed over; absent exactly without a name, when unknown, or in the raw states '4' and PendingDeletion; otherwise late-initialised on the snapshot seen, with the verdict of the late-initialised spec |
| Kms.KeyResource.Update | internal/controller/kmskey/key.go:318-369 | Refuses, without effect, exactly for an invalid spec, without a name, for an unknown key, when a set realm is not the key's, or after such a failed read; otherwise a prefix of the plan for the snapshot it saw reached the service |
| Kms.KeyResource.UpdateFrom | internal/controller/kmskey/key.go:342-366 | The phases of Update in order, stopping at the first failure |
| Kms.KeyResource.RotationAndTags | internal/controller/kmskey/key.go:355-366 | Rotation, then tags, stopping at the first failure |
| Kms.KeyResource.Delete | internal/controller/kmskey/key.go:371-426 | Refuses exactly after a failed read that is not tolerated; a failed rotation read is tolerated exactly for origin `external` answered with a bad request; otherwise a prefix of the delete plan reached the service, and no call at all exactly in the raw states '4' and PendingDeletion |
| Kms.UpdateAliasAndDescription | internal/controller/kmskey/key.go:528-559 | Alias, then description, each only when it differs |
| Kms.ReconcileEnabledState | internal/controller/kmskey/key.go:561-583 | Enables or disables only a key that is in the other of the two states |
| Kms.ReconcileRotation | internal/controller/kmskey/key.go:585-609 | The switch, then the interval; nothing outside Enabled and Disabled or without a status |
| Kms.ReconcileRotationEnabled | internal/controller/kmskey/key.go:611-625 | One switch call iff the wanted and observed flag differ |
| Kms.ReconcileRotationInterval | internal/controller/kmskey/key.go:627-648 | One interval call iff rotation is wanted and the set interval differs from the one observed before |
| Kms.KeyResource.LateInitialize | internal/controller/kmskey/key.go:660-682 | The new spec, and the changed flag set iff the spec changed |
| Kms.LateInitialized | internal/controller/kmskey/key.go:660-682 | Set fields are kept, unset ones take the observed values unless these are zero, and on valid specs the verdict does not change |
| Kms.LateInitIdempotent | internal/controller/kmskey/key.go:660-682 | A second late initialisation changes nothing |
| PrivateZoneConvergence.VpcPlanBoundary | internal/controller/dnsprivatezone/privatezone.go:366-414 | At every call boundary of reconcileVPCs the associated set lies between the intersection and the union of observed and desired and contains one of the two whole, so the last VPC is never lost |
| PrivateZoneConvergence.VpcPlanResult | internal/controller/dnsprivatezone/privatezone.go:366-414 | When every call succeeds the associated set is the desired one and nothing else has changed |
| PrivateZoneConvergence.NeverWithoutVpc | internal/controller/dnsprivatezone/privatezone.go:243-276 | In every run, with VPC lists that change at will and failures at any call, a zone that starts with a VPC never loses its last one |
| PrivateZoneConvergence.UpdateKeepsAVpc | internal/controller/dnsprivatezone/privatezone.go:243-276 | No call boundary of a whole Update leaves the zone without a VPC |
| PrivateZoneConvergence.VpcsUpToDateIff | internal/controller/dnsprivatezone/privatezone.go:519-538 | Sorting both lists and comparing them decides equality as multisets |
| PrivateZoneConvergence.UpToDateIff | internal/controller/dnsprivatezone/privatezone.go:507-538 | The detector holds iff every set field and the set tags equal the observed ones and the VPC lists are permutations of each other |
| PrivateZoneConvergence.NothingToDoIff | internal/controller/dnsprivatezone/privatezone.go:366-414 | reconcileVPCs issues no call iff the two sets are equal |
| PrivateZoneConvergence.VpcAgreementIff | internal/controller/dnsprivatezone/privatezone.go:366-538 | On a zone that lists each VPC once, detector and planner agree iff the spec names each VPC once or the sets differ |
| PrivateZoneConvergence.RepeatedVpcNeverUpToDate | internal/controller/dnsprivatezone/privatezone.go:519-538 | A spec that names a VPC twice is never up to date |
| PrivateZoneConvergence.RepeatedVpcStuck | internal/controller/dnsprivatezone/privatezone.go:366-538 | A concrete pair of lists that drifts for ever with nothing to send |
| PrivateZoneConvergence.CompleteUpdateIff | internal/controller/dnsprivatezone/privatezone.go:243-276 | One complete Update satisfies the detector iff every changed field has a value the request can carry, no VPC is named twice and the tags need one pass |
| PrivateZoneConvergence.CreateThenUpdate | internal/controller/dnsprivatezone/privatezone.go:220-327 | Create associates the first VPC only; one complete Update then satisfies the detector for VPC lists of any length |
| PrivateZoneConvergence.CreatedZone | internal/controller/dnsprivatezone/privatezone.go:220-326 | The zone a create leaves has the name and the set fields of the spec, zero for the others, and the first VPC alone |
| PrivateZoneConvergence.TwoReconcilesSettle | internal/controller/dnsprivatezone/privatezone.go:172-276 | From any zone that lists each VPC once, two failure-free reconciles reach a state no later one changes, however deleted tags are matched; it is up to date iff every changed field had a value the request can carry and no VPC is named twice |
| PrivateZoneConvergence.ReconcileOnce | internal/controller/dnsprivatezone/privatezone.go:172-276 | Observe, then Create or Update, run on the same object: without a failing read or call exactly the reconcile of the theorems; otherwise the cloud is at a call boundary |
| PrivateZone.AssociatePlanEmptyIff | internal/controller/dnsprivatezone/privatezone.go:383-397 | The first loop issues no call iff every desired VPC is observed |
| PrivateZone.DisassociatePlanEmptyIff | internal/controller/dnsprivatezone/privatezone.go:399-411 | The second loop issues no call iff every observed VPC is desired |
| PrivateZone.AssociatePlanCalls | internal/controller/dnsprivatezone/privatezone.go:366-397 | Only VPCs that are desired and not observed are associated, each in the region of the controller |
| PrivateZone.DisassociatePlanCalls | internal/controller/dnsprivatezone/privatezone.go:399-414 | Only VPCs that are observed and not desired are disassociated, each in the region of the controller |
| PrivateZone.ReconcileVpcs | internal/controller/dnsprivatezone/privatezone.go:366-414 | Sends the associations, then the disassociations, stopping at the first failure |
| PrivateZone.AssociateMissing | internal/controller/dnsprivatezone/privatezone.go:383-397 | The first loop, against its plan |
| PrivateZone.DisassociateExtra | internal/controller/dnsprivatezone/privatezone.go:399-411 | The second loop, against its plan |
| PrivateZone.IsVpcsUpToDate | internal/controller/dnsprivatezone/privatezone.go:519-538 | Fills, sorts and compares two slices: equal lengths and equal sorted lists |
| PrivateZone.BuildCreateOpts | internal/controller/dnsprivatezone/privatezone.go:302-327 | The create request names the first VPC only |
| PrivateZone.BuildUpdateOpts | internal/controller/dnsprivatezone/privatezone.go:343-364 | The request carries exactly the set fields that differ and is needed iff there is one |
| PrivateZone.PrivateZoneResource.Observe | internal/controller/dnsprivatezone/privatezone.go:172-218 | Fails exactly after a failed read; absent exactly without a name or a zone; otherwise late-initialises and reports the verdict of the late-initialised spec |
| PrivateZone.PrivateZoneResource.Create | internal/controller/dnsprivatezone/privatezone.go:220-241 | Refuses exactly, and only when unnamed, for an empty name, no VPC or a VPC without identifier; otherwise sends one create call, or nothing when named; the external name is set iff the call succeeded |
| PrivateZone.PrivateZoneResource.Update | internal/controller/dnsprivatezone/privatezone.go:243-276 | Refuses, without effect, exactly without a name, after a failed read or without a zone; otherwise a prefix of fields, VPCs and tags reached the service |
| PrivateZone.PrivateZoneResource.LateInitialize | internal/controller/dnsprivatezone/privatezone.go:494-505 | The new spec, and the changed flag set iff the spec changed |
| PrivateZone.LateInitialized | internal/controller/dnsprivatezone/privatezone.go:494-505 | Set fields are kept, unset ones take the observed values unless these are zero, and the verdict does not change |
| PrivateZone.LateInitIdempotent | internal/controller/dnsprivatezone/privatezone.go:494-505 | A second late initialisation changes nothing |
| RecordSet.RecordsUpToDateIff | internal/controller/dnsrecordset/recordset.go:509-525 | The sorted comparison holds iff the desired and the trimmed observed records are equal as multisets |
| RecordSet.UpToDateIff | internal/controller/dnsrecordset/recordset.go:509-525 | The detector holds iff every set field and the set tags equal the observed ones and the records are a permutation of the observed ones, quotes aside |
| RecordSet.TrimUndoesQuote | internal/controller/dnsrecordset/recordset.go:527-551 | Trimming undoes quoting for every record type and every text |
| RecordSet.TrimmedPermutation | internal/controller/dnsrecordset/recordset.go:538-551 | Rearranging the stored records rearranges the trimmed ones |
| RecordSet.CompleteUpdateIff | internal/controller/dnsrecordset/recordset.go:269-303 | However the service reorders records, one complete Update leaves them up to date, and the whole detector true and nothing to send iff description and TTL can be carried and the tags need one pass |
| RecordSet.Agreement | internal/controller/dnsrecordset/recordset.go:377-525 | Up to date iff Update would send no call |
| RecordSet.EveryUpdateCarriesRecords | internal/controller/dnsrecordset/recordset.go:405-416 | Every sent update is for the zone in charge and carries the full quoted record list |
| RecordSetConvergence.TwoReconcilesSettle | internal/controller/dnsrecordset/recordset.go:187-303 | From any record set of the spec's type, two failure-free reconciles reach a state no later one changes, however records are reordered and deleted tags matched; it is up to date iff description and TTL had values the request can carry |
| RecordSetConvergence.ReconcileOnce | internal/controller/dnsrecordset/recordset.go:187-303 | Observe, then Update, run on the same object: without a failing read or call exactly the reconcile of the theorem |
| RecordSet.BuildUpdateOpts | internal/controller/dnsrecordset/recordset.go:377-417 | Needed iff records, set description or set TTL differ; then the records are always in it |
| RecordSet.QuoteTxtRecords | internal/controller/dnsrecordset/recordset.go:527-536 | Every TXT record becomes itself between two double quotes, other types are untouched |
| RecordSet.TrimTxtQuotes | internal/controller/dnsrecordset/recordset.go:538-551 | A TXT record that begins and ends with a double quote loses that pair, every other record is untouched |
| RecordSet.GetZoneInfo | internal/controller/dnsrecordset/recordset.go:171-185 | The private zone when it is set, else the public one, else none; the tag service is that of the zone chosen |
| RecordSet.RecordSetResource.Observe | internal/controller/dnsrecordset/recordset.go:187-239 | Fails exactly after a failed read or, when named, without a zone; absent exactly without a name or a record set; otherwise late-initialises and reports up to date iff an Update in this state would send nothing |
| RecordSet.RecordSetResource.Update | internal/controller/dnsrecordset/recordset.go:269-303 | Refuses, without effect, exactly without a name, a zone or a record set or after a failed read; otherwise a prefix of the plan reached the service |
| RecordSet.RecordSetResource.LateInitialize | internal/controller/dnsrecordset/recordset.go:497-507 | The new spec, and the changed flag set iff the spec changed |
| RecordSet.LateInitialized | internal/controller/dnsrecordset/recordset.go:497-507 | Set fields are kept, unset ones take the observed values unless these are zero, and the verdict does not change |
| RecordSet.LateInitIdempotent | internal/controller/dnsrecordset/recordset.go:497-507 | A second late initialisation changes nothing |
| ClusterRuns.AnnotationAlwaysTrue | internal/controller/ccecluster/cluster.go:265-329 | In every run with any specs, failing calls, outside changes of description and address and updates that work from an outdated address, the annotation is the hash of the configuration the service accepted last; so up to date means the pushed configuration is the spec's |
| ClusterRuns.StepKeepsAnnotation | internal/controller/ccecluster/cluster.go:265-329 | Each create, update stopped anywhere, or outside change keeps that |
| ClusterRuns.BindOnlyWhenUnbound | internal/controller/ccecluster/cluster.go:771-811 | Without an outside change between Observe and Update, a bind is never issued while an address is bound |
| ClusterRuns.BindOnlyWhenUnboundIff | internal/controller/ccecluster/cluster.go:771-811 | For any address Observe may have seen: when a bind is issued, no address is bound exactly when it saw one or none was bound at the start |
| ClusterRuns.CompleteUpdateIff | internal/controller/ccecluster/cluster.go:294-329 | One complete Update makes the cluster up to date iff the description is one the request can carry |
| ClusterRuns.CreatedUpToDateIff | internal/controller/ccecluster/cluster.go:715-735 | A new cluster is up to date unless no address is wanted and the user's extendParam names one |
| ClusterRuns.SwapWithoutIdLosesAddress | internal/controller/ccecluster/cluster.go:771-804 | A changed address without its identifier: however many updates follow and wherever they stop, none binds an address or pushes a configuration, and the old address is lost exactly when one gets past its unbind call |
| ClusterRuns.SwapWitness | internal/controller/ccecluster/cluster.go:771-804 | A concrete spec and cluster for which this happens |
| ClusterRuns.PushComesLast | internal/controller/ccecluster/cluster.go:294-329 | An Update that is not stopped ends with the spec's configuration pushed, whatever address it worked from |
| ClusterRuns.ReconcileOnce | internal/controller/ccecluster/cluster.go:202-329 | Observe, then Update, run on the same object: one of the steps of a run, and a complete update from the bound address when no read or call failed |
| ClusterRuns.AfterUpdate | internal/controller/ccecluster/cluster.go:294-329 | After a complete Update the configuration and the bound address are the spec's |
| Cluster.HashEqualIff | internal/controller/ccecluster/cluster.go:603-613 | Two hashes are equal iff the configurations are, the empty configuration included (SHA-256 taken as free of collisions) |
| Cluster.UpToDateIff | internal/controller/ccecluster/cluster.go:559-613 | The detector holds iff a set description is the observed one, the bound address is the wanted one or empty when none is wanted, and the annotation is the hash of the configuration |
| Cluster.EipAgreement | internal/controller/ccecluster/cluster.go:569-804 | The address part of the detector holds iff Update has neither an address call to send nor a bind to refuse |
| Cluster.PlannedBind | internal/controller/ccecluster/cluster.go:771-804 | Every bind is of the spec's address under the spec's identifier; it is planned exactly when another non-empty address is wanted and its identifier known, and an unbind exactly when the bound address is not the wanted one |
| Cluster.ApplyExtendParam | internal/controller/ccecluster/cluster.go:715-735 | Per entry, by its name in the request: a setting of the spec that is on wins over the user's entry with the value given, and every other entry is the user's |
| Cluster.UpdateEip | internal/controller/ccecluster/cluster.go:771-811 | Unbind, then bind, stopping at the first failure; a bind without an identifier is refused after the unbind |
| Cluster.ClusterResource.Observe | internal/controller/ccecluster/cluster.go:202-263 | Fails exactly for an invalid spec or a failed read; absent exactly without a name or a cluster; otherwise records the bound address in the status, fills an unset description, and reports the verdict, which the filling does not change |
| Cluster.ClusterResource.Create | internal/controller/ccecluster/cluster.go:265-292 | External name and annotation are set iff the create call succeeded |
| Cluster.ClusterResource.Update | internal/controller/ccecluster/cluster.go:294-329 | A prefix of description, address and configuration calls; the annotation is rewritten iff all of them succeeded and none was refused |
| ElasticIp.AgreementIff | internal/controller/elasticip/elasticip.go:259-542 | Drift leads to a refusal or a call; an up-to-date address is left alone unless the spec leaves the port of a bound address unset |
| ElasticIp.Agreement | internal/controller/elasticip/elasticip.go:506-542 | After late initialisation an up-to-date address gets no bandwidth, port or tag call; with valid immutable fields this is an equivalence |
| ElasticIp.UnseenImmutableChange | internal/controller/elasticip/elasticip.go:483-542 | Of an up-to-date address the immutable check can only refuse a changed address or name |
| ElasticIp.UpToDateIff | internal/controller/elasticip/elasticip.go:529-542 | The detector, field by field, with the two API spellings of address type and share type |
| ElasticIp.ValidImmutableFieldsIff | internal/controller/elasticip/elasticip.go:483-504 | The five immutable fields, with those spellings |
| ElasticIp.CompleteUpdateIff | internal/controller/elasticip/elasticip.go:259-300 | A complete Update satisfies the detector iff bandwidth name and size can be carried and the tags need one pass |
| ElasticIp.AfterUpdate | internal/controller/elasticip/elasticip.go:259-300 | The address after a complete Update, written out |
| ElasticIpConvergence.TwoReconcilesSettle | internal/controller/elasticip/elasticip.go:179-300 | From any address, two failure-free reconciles reach a state no later one changes; with unchanged immutable fields it is up to date iff the bandwidth can be carried, otherwise the address is never touched |
| ElasticIpConvergence.ReconcileOnce | internal/controller/elasticip/elasticip.go:179-300 | Observe, then Update, run on the same object: without a failing read or call exactly the reconcile of the theorem |
| ElasticIp.DeleteOnlyUnbound | internal/controller/elasticip/elasticip.go:302-335 | The delete call is never issued while a port is bound |
| ElasticIp.BuildBandwidthUpdateOpts | internal/controller/elasticip/elasticip.go:381-398 | The request carries exactly the fields that differ and is needed iff there is one |
| ElasticIp.UpdateBandwidthOf | internal/controller/elasticip/elasticip.go:367-379 | Sends the bandwidth update iff it is needed |
| ElasticIp.UpdatePortBinding | internal/controller/elasticip/elasticip.go:400-413 | One port call iff the wanted port, none when unset, differs |
| ElasticIp.ElasticIpResource.Observe | internal/controller/elasticip/elasticip.go:179-238 | Fails exactly after a failed read; absent exactly without a name or an address; otherwise late-initialises, and an address reported up to date gets no call from an Update in this state |
| ElasticIp.ElasticIpResource.Update | internal/controller/elasticip/elasticip.go:259-300 | Refuses, without effect, exactly without a name or an address, after a failed read or when an immutable field changed; otherwise a prefix of the plan reached the services |
| ElasticIp.ElasticIpResource.Delete | internal/controller/elasticip/elasticip.go:302-335 | Refuses exactly after a failed read; nothing for an absent address; otherwise a prefix of unbind and delete |
| ElasticIp.ElasticIpResource.LateInitialize | internal/controller/elasticip/elasticip.go:506-527 | The new spec, and the changed flag set iff the spec changed |
| ElasticIp.LateInitialized | internal/controller/elasticip/elasticip.go:506-527 | Set fields are kept, unset ones take the observed values unless these are zero, and neither the verdict nor the immutable check changes |
| ElasticIp.LateInitIdempotent | internal/controller/elasticip/elasticip.go:506-527 | A second late initialisation changes nothing |
| Subnet.Agreement | internal/controller/subnet/subnet.go:615-723 | All thirteen fields: up to date iff the immutable ones are unchanged and Update would send no call |
| Subnet.CompleteUpdateIff | internal/controller/subnet/subnet.go:270-301 | A complete Update satisfies the detector iff no DNS setting is to be cleared and the tags need one pass |
| Subnet.AfterUpdate | internal/controller/subnet/subnet.go:270-301 | The subnet and its tags after a complete Update |
| Subnet.UpdatedFields | internal/controller/subnet/subnet.go:380-475 | What the field update does, field by field |
| SubnetConvergence.TwoReconcilesSettle | internal/controller/subnet/subnet.go:175-301 | From any subnet the controller accepts, two failure-free reconciles reach a state no later one changes; it is up to date iff no DNS setting was to be cleared |
| SubnetConvergence.RefusedStays | internal/controller/subnet/subnet.go:615-635 | A subnet whose immutable fields have changed is never touched and never reported up to date, by any number of reconciles |
| SubnetConvergence.ReconcileOnce | internal/controller/subnet/subnet.go:175-301 | Observe, then Update, run on the same object: without a failing read or call exactly the reconcile of the theorem |
| Subnet.BuildUpdateOpts | internal/controller/subnet/subnet.go:395-422 | Needed iff one of the mutable fields differs; the request carries exactly what differs, and the name |
| Subnet.UpdateOpts.ApplyDescriptionIfChanged | internal/controller/subnet/subnet.go:424-431 | The description goes into the request iff it is set and differs; no other field is touched |
| Subnet.UpdateOpts.ApplyPrimaryDnsIfChanged | internal/controller/subnet/subnet.go:433-439 | The same for the primary DNS server |
| Subnet.UpdateOpts.ApplySecondaryDnsIfChanged | internal/controller/subnet/subnet.go:441-447 | The same for the secondary DNS server |
| Subnet.UpdateOpts.ApplyDnsListIfChanged | internal/controller/subnet/subnet.go:449-455 | The same for the DNS list |
| Subnet.UpdateOpts.ApplyDhcpIfChanged | internal/controller/subnet/subnet.go:457-464 | The same for DHCP |
| Subnet.UpdateOpts.ApplyNtpIfChanged | internal/controller/subnet/subnet.go:466-475 | The same for the NTP option |
| Subnet.ExtractNtpAddress | internal/controller/subnet/subnet.go:642-649 | The value of the first option named `ntp`, wherever it stands in the list, and empty exactly when there is none or that value is empty |
| Subnet.FirstNtp | internal/controller/subnet/subnet.go:642-649 | The address the detector and the planner work with is that of the first `ntp` option, whatever comes before and after |
| Subnet.NoNtp | internal/controller/subnet/subnet.go:642-649 | It is empty when no option is named `ntp` |
| Subnet.UpToDateIff | internal/controller/subnet/subnet.go:675-723 | The detector holds iff all thirteen fields, where set, equal the observed ones |
| Subnet.ValidImmutableFieldsIff | internal/controller/subnet/subnet.go:615-635 | The five immutable fields, one by one |
| Subnet.EveryUpdateCarriesName | internal/controller/subnet/subnet.go:395-422 | Every update is for the VPC of the observed subnet and carries the spec's name |
| Subnet.SubnetResource.Observe | internal/controller/subnet/subnet.go:175-242 | Fails exactly for an invalid spec or a failed read; absent exactly without a name or a subnet; otherwise late-initialises, and reports up to date iff the immutable fields agree and an Update in this state would send nothing |
| Subnet.SubnetResource.Update | internal/controller/subnet/subnet.go:270-301 | Refuses, without effect, exactly for an invalid spec, without a name or a subnet, after a failed read or when an immutable field changed; otherwise a prefix of the plan reached the service |
| Subnet.SubnetResource.LateInitialize | internal/controller/subnet/subnet.go:651-673 | The new spec, and the changed flag set iff the spec changed |
| Subnet.LateInitialized | internal/controller/subnet/subnet.go:651-673 | Set fields are kept and unset ones take the observed values, unless these are zero for all but the two flags |
| Subnet.LateInitKeepsVerdict | internal/controller/subnet/subnet.go:651-685 | Late initialisation does not change the verdict of the detector |
| Subnet.LateInitIdempotent | internal/controller/subnet/subnet.go:651-673 | A second late initialisation changes nothing |
| TagReconciler.TagListRoundTrip | internal/util/tags.go:30-62 | A map is listed in strictly ascending key order, and the list read back gives the map |
| TagReconciler.BothDiffsEmptyIff | internal/util/tags.go:9-28 | Both differences are empty iff the maps are equal |
| TagReconciler.OnePassIff | internal/controller/vpc/vpc.go:423-449 | One pass of reconcileTags reaches the wanted map iff deletion looks at values or no tag changes its value |
| TagReconciler.TwoPasses | internal/controller/vpc/vpc.go:423-449 | Two passes always reach it, also when deletion looks at keys only |
| TagReconciler.TagPlanResult | internal/controller/vpc/vpc.go:423-449 | What one pass leaves: everything wanted, without the changed keys when deletion ignores values |
| TagReconciler.TagPrefix | internal/controller/vpc/vpc.go:423-449 | At every call boundary only tags have changed and no key drifts that did not drift before |
| TagReconciler.TagAgreement | internal/controller/vpc/vpc.go:423-449 | The tags are up to date iff reconcileTags has no call to send |
| TagReconciler.TagDiff | internal/util/tags.go:9-28 | The entries of the first map missing from or different in the second; nil when there is none |
| TagReconciler.ResourceTagsToMap | internal/util/tags.go:30-42 | The keys of the map are those of the list, each with the value of its last tag |
| TagReconciler.TagListKeys | internal/util/tags.go:30-42 | No key is lost and none is added |
| TagReconciler.LastTagWins | internal/util/tags.go:30-42 | The last tag of a key decides its value |
| TagReconciler.MapToResourceTags | internal/util/tags.go:44-62 | One tag per entry in ascending key order |
| TagReconciler.CollectKeys | internal/util/tags.go:51-54 | All keys, each once, in some order |
| TagReconciler.ReconcileTags | internal/controller/vpc/vpc.go:423-449 | Sends the create list, then the delete list, stopping at the first failure; nothing for a nil map |
| LateInit.LateInitPtr | internal/util/lateinit.go:10-21 | A set value is kept; otherwise the observed one is taken; the flag is set iff the value changed |
| LateInit.LateInitPtrIfNonZero | internal/util/lateinit.go:23-64 | The same, except that an observed zero value (empty slice, empty map) is not taken |
| LateInit.FillsKeepsVerdict | internal/util/optional.go:8-27 | Filling an unset field from the observed state does not change whether it is up to date |
| Basics.SortEqualIff | internal/controller/dnsprivatezone/privatezone.go:519-538 | Sorting two slices and comparing them decides equality as multisets |
| Basics.StrLeIff | internal/util/tags.go:55 | The order of sorting: the first differing character decides, and a proper prefix comes first |
| Base64.RoundTrip | internal/util/base64.go:7-12 | Decoding undoes encoding for every byte string |
| Base64.SymbolAt | internal/util/base64.go:7-12 | Symbol v is character v of the standard alphabet, and no other byte has its value |
| Base64.GroupBits | internal/util/base64.go:7-12 | The values of the four symbols, put together as 24 bits, are the three bytes put together, highest bits first |
| Base64.EncodeCases | internal/util/base64.go:7-12 | Three bytes give four symbols; one byte left over gives two and `==`, two give three and `=`, filled up with zero bits |
| Base64.EncodedPadding | internal/util/base64.go:7-12 | The encoding ends in two, one or no byte 61 by the length modulo 3, and holds no other |
| Base64.NewlinesSkipped | internal/util/base64.go:7-12 | Decoding skips the bytes 10 and 13 wherever they are and nothing else |
| Base64.DecodeQuantaIff | internal/util/base64.go:7-12 | The decoder accepts exactly the texts of a length divisible by 4 that are alphabet characters and at the end at most two `=`, by their byte values |
| Base64.AlwaysDecodable | internal/util/base64.go:7-12 | The result always decodes, and a second application changes nothing |
| Base64.UnchangedIff | internal/util/base64.go:7-12 | Text is returned unchanged iff, without its line breaks, it is such a text |
| Base64.DecodesToInputIff | internal/util/base64.go:7-12 | Decoding the result gives back the input iff the input is empty or, without its line breaks, not such a text |

## Left out

- CacheProtocol.RefinesFreshAuthentication: says nothing about colliding identities, for which it is false.
- Kms.KeyResource.Observe: whether the service knows the key is a parameter; which keys exist is in `KmsLifecycle`.
- ClusterRuns.BindOnlyWhenUnbound: does not cover an address bound by others between Observe and Update, for
  which it is false; `BindOnlyWhenUnboundIff` says exactly when.
- KmsLifecycle.NoKeyLeftBehind: stale answers other than "not found" are not modelled.
- RecordSetConvergence.ReconcileOnce: starts from a named record set, as do those for subnets, elastic IPs, KMS
  keys and clusters; creation of the first three is not modelled.
- Base64.RoundTrip: strings are byte strings; no character encoding is modelled.
- Basics.SortStrings: the sorting algorithm is that of Go's library; only its result is modelled.
- LateInit.LateInitPtrIfNonZero: cloning of slices and maps is not modelled, values are immutable.
- Framework wiring: setup, connecting, metrics, logging, poll intervals and the API type packages.
- Controllers for NAT gateways, public zones, security groups, security group rules and SNAT rules: the same
  patterns with fewer fields.
- Delete of VPCs, zones, record sets, subnets and clusters, and create requests of record sets, subnets and
  elastic IPs: one call each.
- The local validation of subnet fields (name, CIDR, gateway, DNS addresses) is the parameter `valid`.
- Status fields, conditions, connection details and security group lists: display only.
- Cluster fields that cannot change, master counts, authentication and the late initialisation of all cluster
  fields but the description: they do not touch the annotation or the address protocol.
- Typed configuration values (`ParseAnyType`): configurations are compared and pushed as given.
- Zone type and router region in the create request of a private zone: the same for every zone of a controller.
- Key usage at creation of a KMS key, pending-deletion windows beyond the default, key aliases as names.
- Reading credentials from secrets and re-signing redirects: resolved credentials are an input of `GetClient`.
- The sync primitives of the cache: a lookup, a connection, an authentication and a publication are atomic steps.
- Errors are told apart only as far as control flow does; messages are not modelled.

# Verification of the Route reconciler

A Dafny model of the controller that turns Knative Routes into Gateway API objects. For each
Route with the annotation `features.knative.dev/gateway-api: enabled` the controller keeps a
placeholder Service for every traffic target, a Gateway for every visibility and one HTTPRoute
in step with the Route, its configuration and what the API server already holds.

The files:

| files | what they hold |
|---|---|
| `Promises` | what users are owed, in terms of the Route, the configuration and the templates alone: hosts, objects, traffic split, readiness, errors |
| `Model`, `Names`, `HostMaps`, `Domains`, `TrafficSplit`, `Resources`, `Config`, `Readiness` | the entities, and the compilers that make the desired objects: names, hosts, traffic split, configuration, readiness |
| `Syncing`, `Loops`, `Passes`, `Finalization` | one pass over a Route as a function of the store: create-or-update, the loop over it, the three phases in sequence; finalization |
| `Reconciler` | the controller statement by statement, as methods on a mutable `Cluster`, proved to compute those passes |
| `Desired`, `Errors`, `Reporting`, `Safety` | when a pass succeeds, what it has achieved, what it reports |
| `Convergence`, `Quiescence`, `SettledStore`, `Footprint`, `Runs` | what many passes do |
| `Repaired`, `Examples` | the Gateway phase as it was evidently meant, and concrete Routes for the interesting cases |

The main results:

- **Convergence.** Take any sequence of passes over a Route, from any store, under any API
  failures and any Go map iteration orders. As soon as it contains max(k, 2) failure-free passes,
  where k Services were out of sync at the start, the store is one given in closed form
  (`Converges`, `Settled`). Neither fewer than k nor, with a Gateway out of sync, a single pass
  suffices. A failure-free pass leaves a store alone if and only if it is that store
  (`QuiescentIffSettled`). The Route must be enabled, compile, have a name that fits and Gateway keys
  that do not clash. Routes with a built-in visibility never clash, whatever the length of their name,
  and names that do not fit are rejected when Routes are admitted
  (`vendor/knative.dev/pkg/apis/metadata_validation.go:55`); what happens without each condition is
  stated all the same (`CleanPassSucceeds`, `WhenGatewaysClash`, `InconsistentGatewaysNeverSettle`,
  `LongNamesCreateOnce`, `LongNamesFailOnceCreated`).
- **Success and reporting.** Under any pattern of API failures a pass over a Route whose name fits
  and whose Gateway keys do not clash succeeds if and only if the Route compiles and the calls it
  needs succeed (`WhenPassSucceeds`); without failures its error is known exactly (`CleanPassError`).
  A pass reports the Route ready if and only if it succeeds and every Gateway in the status of the
  HTTPRoute found before the pass has admitted it (`WhenReportedReady`).
- **Promises kept.** In the settled store, and as to Gateways and HTTPRoute after every successful
  pass, the objects are what `Promises` says: hosts, listeners, addresses, traffic split, labels,
  owners (`EveryTargetHasItsService`, `EveryVisibilityHasItsGateway`, `TheRouteHasItsHTTPRoute`,
  `SuccessLeavesGateways`, `SuccessLeavesHTTPRoute`).
- **Ownership and finalization over all interleavings** of reconciles and finalizations of any
  Routes under changing configuration (`OwnershipOverRuns`, `FinalizedStaysGone`).
- **Commutation** of passes over Routes with disjoint footprints, whatever fails in either
  (`PassesCommute`), **perpetual rewriting** when two Routes share a Gateway
  (`SharedGatewayThrashes`), and exactly which Routes with unhashed names do
  (`WhenRoutesShareGateways`).
- **Host agreement** between the HTTPRoute and the listeners of all Gateways, for every pair of
  iteration orders (`HostAgreement`), and exactly when an order shows (`HostnameOrders`).

How the program is represented:

- A nil dereference or a write to a nil map is the error `Panic`, so operations need no
  precondition on Routes or configuration.
- `Semantic.DeepEqual` does not distinguish nil from empty; labels, annotations and slices of
  stored objects are therefore plain maps and sequences. Where nil matters (the labels of a Route,
  percentages, the status list of an HTTPRoute, configuration entries) it is an `Option` or a
  nullable reference.
- The order of a Go `range` over a map is arbitrary: loops whose result does not depend on it
  choose keys nondeterministically, and a pass takes the orders that do matter as the value
  `Orders`.
- Each object that a pass deals with has a `Call` verdict: its read may fail, its write may be
  rejected, or its write may take effect although the response is lost. Listers read the current
  store.
- Tag and domain templates, `ExpandedHosts`, YAML decoding and MD5 are uninterpreted functions.
- Names are treated as strings of single-byte characters, as Kubernetes names are.

Where the code departs from its evident purpose the model follows the code:

- The Gateways handed to the HTTPRoute are only those written in the same pass, so a settled
  HTTPRoute refers to no Gateway (`StoredRefsAreTheWritten`, `HTTPRouteServesTheListeners`). With
  Gateways in sync returned too it would refer to each exactly once (`RepairedRefsAreComplete`).
- All `ServiceName` pointers of a traffic split share one cell that ends as the last target's
  revision (`ServicesAgreeWithHeaders`).
- A non-nil empty status list counts as ready, contrary to the text of the HTTPRoute definition
  (`ReadinessAgainstApi`).
- An HTTPRoute is looked up under a name that is hashed when too long but created under the plain
  name (`LongNamesCreateOnce`).
- The order in which a Go map happens to be ranged in reaches the stored hostnames. A later pass that
  ranges differently rewrites a settled HTTPRoute exactly when some target it ranges differently has a
  local host besides its external one (`OtherOrdersRewrite`, `OrdersCanShow`).

## Model

| member | source | states |
|---|---|---|
| `Convergence.Converges` | pkg/reconciler/route/route.go:83-132 | any pass sequence with at least max(k, 2) failure-free passes ends in the settled store for the orders of one of its passes, from any store, whatever fails in between |
| `Convergence.PlaceholderProgress` | pkg/reconciler/route/reconcile_resources.go:159-215 | a failure-free Service phase brings the first out-of-sync Service in traffic order in sync and changes no other; the number of distinct pending Services drops by exactly one until zero |
| `Convergence.TemplateErrorWritesNoService` | pkg/reconciler/route/reconcile_resources.go:164-171 | a tag template error for any target, even the last, leaves all Services as they are |
| `Convergence.GatewayRefsAreTheWritten` | pkg/reconciler/route/reconcile_resources.go:107-155 | the Gateways a finished phase returns are exactly those out of sync before it, once each, so different iteration orders only permute them |
| `Convergence.StoredRefsAreTheWritten` | pkg/reconciler/route/resources/httproute.go:61-75 | after a successful pass the stored HTTPRoute refers to exactly the Gateways that were out of sync before the pass |
| `Convergence.WhenRefsAreComplete` | pkg/reconciler/route/reconcile_resources.go:136-152 | the references name every Gateway of the Route if and only if all were out of sync |
| `Repaired.RepairedRefsAreComplete` | pkg/reconciler/route/reconcile_resources.go:107-155 | if Gateways in sync were appended too, every finished phase would store the same and return exactly the Route's Gateways, one per visibility, none twice unless the name contains its own digest |
| `Convergence.RunSettlesHTTPRoute` | pkg/reconciler/route/reconcile_resources.go:38-86 | after two failure-free passes the HTTPRoute is the desired one with no Gateway references, its owners and status kept, all other HTTPRoutes untouched |
| `Quiescence.QuiescentIffSettled` | pkg/reconciler/route/route.go:83-132 | a failure-free pass changes nothing if and only if the store is settled for its orders, and then the HTTPRoute has no Gateway references |
| `Quiescence.PassOverSettled` | pkg/reconciler/route/route.go:90-128 | a pass over a settled store leaves Services and Gateways alone and can only settle the HTTPRoute for its own orders |
| `Quiescence.StaysSettled` | pkg/reconciler/route/route.go:90-128 | with fixed orders no later pass writes anything, whatever fails |
| `Quiescence.FewerPassesDoNotSuffice` | pkg/reconciler/route/reconcile_resources.go:173-213 | n failure-free passes leave exactly max(0, k - n) Services out of sync |
| `Quiescence.OnePassDoesNotSuffice` | pkg/reconciler/route/reconcile_resources.go:107-155 | one failure-free pass over a store with a Gateway out of sync never gives a settled store |
| `Quiescence.OtherOrdersRewrite` | pkg/reconciler/route/resources/httproute.go:118-120 | a failure-free pass leaves a settled store alone if and only if every target it ranges in another order has only its external host as local host |
| `Examples.OrdersCanShow` | pkg/reconciler/route/resources/httproute.go:118-120 | a concrete Route with one untagged target and two orders that show |
| `Quiescence.InconsistentGatewaysNeverSettle` | pkg/reconciler/route/reconcile_resources.go:107-154 | without consistent Gateway keys every failure-free phase writes, from any store |
| `Examples.InconsistentRoutesExist` | pkg/reconciler/route/resources/gateway.go:119-128 | a Route whose name contains its own digest to which that applies |
| `Quiescence.LongNamesCreateOnce` | pkg/reconciler/route/reconcile_resources.go:44-57 | for a name over 63 characters, over any run and any failures, the HTTPRoute is created at most once and keeps the references of the creating pass for ever |
| `Quiescence.LongNamesFailOnceCreated` | pkg/reconciler/route/reconcile_resources.go:44-54 | once it exists every pass over such a Route fails and leaves the status alone |
| `Quiescence.ServicesTolerateFailures` | pkg/reconciler/route/reconcile_resources.go:173-213 | under any failures no Service goes out of sync and every Service written is the desired one, owners and other fields kept |
| `Quiescence.GatewaysTolerateFailures` | pkg/reconciler/route/reconcile_resources.go:107-154 | the same for Gateways |
| `Quiescence.HTTPRouteToleratesFailures` | pkg/reconciler/route/reconcile_resources.go:61-82 | under any failures the HTTPRoute is left alone or made the desired one for the Gateways just written, owners and status kept, no other touched |
| `Quiescence.FailedPassKeepsStatus` | pkg/reconciler/route/route.go:90-128 | a pass that returns an error has not touched the Route's status |
| `Desired.CleanPassSucceeds` | pkg/reconciler/route/route.go:83-132 | without API failures a pass succeeds if and only if all templates succeed, all visibilities are configured and all percentages are set |
| `Desired.WhenCompilable` | pkg/reconciler/route/resources/gateway.go:44-87 | these conditions spelt out in terms of Route, configuration and templates |
| `Errors.CleanPassError` | pkg/reconciler/route/route.go:90-112 | without API failures the error of a pass is exactly the first of: failing tag template, missing cluster-local configuration, missing labels or failing domain template, other missing configuration, missing percentage; whatever the store and the orders |
| `Reporting.WhenPassSucceeds` | pkg/reconciler/route/route.go:93-112 | under any failures a pass over a Route with a fitting name and consistent Gateway keys succeeds if and only if the Route compiles, the Service calls up to the first Service out of sync succeed, and so do all Gateway and HTTPRoute calls that are needed; for a Route that compiles every error is that of the API |
| `Reporting.SuccessLeavesGateways` | pkg/reconciler/route/reconcile_resources.go:107-155 | after every successful pass over a Route with consistent Gateway keys each visibility has its Gateway as promised |
| `Reporting.SuccessLeavesHTTPRoute` | pkg/reconciler/route/reconcile_resources.go:38-86 | and, if the name fits, the HTTPRoute is as promised, refers to the Gateways just written, and keeps owners and status if it is not new |
| `Reporting.WhenReportedReady` | pkg/reconciler/route/route.go:114-126 | a pass reports ready if and only if the Route has opted in, the pass succeeds, the HTTPRoute was there before and its status list is not nil with a first Admitted condition that is True for every Gateway; not configured if and only if only that fails; otherwise nothing |
| `Reporting.NewHTTPRouteIsNotReady` | pkg/reconciler/route/reconcile_resources.go:44-59 | a pass that finds no HTTPRoute, such as one that creates it, never reports ready |
| `Reporting.SettledIsReported` | pkg/reconciler/route/route.go:109-126 | a failure-free pass over a settled store reports ready if and only if all Gateways have admitted the HTTPRoute, and otherwise not configured |
| `Reporting.OthersAreLeftAlone` | pkg/reconciler/route/route.go:90-90 | a Route without the annotation, or with another value than `enabled`, changes nothing and reports nothing |
| `Desired.WhenGatewaysClash` | pkg/reconciler/route/resources/gateway.go:119-128 | a compilable Route is inconsistent if and only if its name contains its own digest in a clashing place, its two Gateways go to one namespace, and they differ |
| `Desired.ConsistentWithoutOwnDigest` | pkg/reconciler/route/resources/gateway.go:123-128 | every Route whose name does not contain its own digest is consistent, hashed or not |
| `Desired.BuiltInsAreConsistent` | pkg/reconciler/route/resources/gateway.go:52-55 | every Route with default or cluster-local visibility is consistent, whatever its name |
| `SettledStore.EveryTargetHasItsService` | pkg/reconciler/route/resources/service.go:19-55 | in the settled store every target's Service is, under its tag's hostname, an alias of the cluster-local address with the given port, session affinity, labels and annotations; a new one is owned by the Route and an old one keeps its owners |
| `SettledStore.EveryVisibilityHasItsGateway` | pkg/reconciler/route/resources/gateway.go:90-166 | in the settled store every visibility has its Gateway, with one HTTP listener on port 80 for each host of each target in traffic order, the configured class, an address if and only if one is configured and then that one, and the Route's labels and annotations as promised |
| `SettledStore.ListenersSelect` | pkg/reconciler/route/resources/gateway.go:141-149 | the listeners of such a Gateway select the HTTPRoute of this Route and of no other |
| `SettledStore.WhereGatewaysAre` | pkg/reconciler/route/resources/gateway.go:97-106 | a Gateway is in the configured namespace, or else in the Route's, and a name that fits is Route name, namespace and visibility |
| `SettledStore.ServicesLeadToTheGateway` | pkg/reconciler/route/resources/gateway.go:162-164 | in the settled store the cluster-local Gateway has an address if and only if the placeholder Services are aliases of something, and then that is it |
| `SettledStore.TheRouteHasItsHTTPRoute` | pkg/reconciler/route/resources/httproute.go:18-108 | in the settled store the HTTPRoute has the hosts of the targets in order and exactly one rule, with one entry for each target that receives traffic: port 80, its percentage within int32, the last target's revision as service, its own revision and the namespace as headers |
| `SettledStore.HTTPRouteServesTheListeners` | pkg/reconciler/route/resources/httproute.go:44-77 | in the settled store the HTTPRoute's hostnames are the listener hosts of all its Gateways counted with multiplicity, and no Gateway is allowed |
| `Footprint.PassFootprint` | pkg/reconciler/route/reconcile_resources.go:38-215 | a pass changes only its Route's target Services, Gateway keys and HTTPRoute keys |
| `Footprint.PassFrame` | pkg/reconciler/route/reconcile_resources.go:38-215 | what a pass does there depends only on what the store holds there |
| `Footprint.VerdictFrame` | pkg/reconciler/route/route.go:90-128 | so do its error and its effect on the Route's status |
| `Footprint.PassesCommute` | pkg/reconciler/route/route.go:83-132 | passes over Routes with disjoint footprints give the same store in either order, whatever fails |
| `Runs.OwnershipOverRuns` | pkg/reconciler/route/reconcile_resources.go:107-154 | over any interleaving of actions every Gateway is unchanged from the start or unchanged since a reconcile in the sequence wrote it |
| `Runs.LastWriterOwns` | pkg/reconciler/route/reconcile_resources.go:107-154 | in the second case it is still as that reconcile makes it |
| `Runs.WrittenCarriesOwner` | pkg/reconciler/route/resources/gateway.go:103-114 | such a Gateway carries the name and namespace labels of its Route and is named after it for one of its visibilities |
| `Finalization.FinalizeCompleteness` | pkg/reconciler/route/route.go:64-80 | a finalization none of whose calls fails succeeds and removes every Gateway labelled for the Route, in all namespaces, and no other; with a failing call it reports the failure and has removed no other either |
| `Finalization.WhenDeletionSucceeds` | pkg/reconciler/route/route.go:73-80 | deletion succeeds if and only if no call fails |
| `Finalization.AllAreDeleted` | pkg/reconciler/route/route.go:73-80 | and then exactly the listed Gateways are gone |
| `Finalization.FailureStopsDeletion` | pkg/reconciler/route/route.go:73-78 | the first failing call ends it with an error: exactly the Gateways listed before are gone, and that one too if only the response was lost |
| `Finalization.WhenLabelled` | pkg/reconciler/route/route.go:65-68 | the Gateways listed are those with both labels, name and namespace |
| `Runs.FinalizeActs` | pkg/reconciler/route/route.go:64-80 | the same for the store as a whole; nothing else changes, and nothing at all if listing fails |
| `Runs.NoneReappears` | pkg/reconciler/route/resources/gateway.go:107-110 | no Gateway labelled for a Route appears in any sequence of actions that does not reconcile it |
| `Runs.FinalizedStaysGone` | pkg/reconciler/route/route.go:64-80 | after a finalization without failing calls the Route has no Gateway until it is reconciled again |
| `Runs.SharedGatewayThrashes` | pkg/reconciler/route/reconcile_resources.go:136-151 | alternating passes over distinct Routes that share a Gateway rewrite it on every pass after the first, for ever |
| `Runs.ShiftedRoutesShareGateways` | pkg/reconciler/route/resources/gateway.go:119-128 | distinct sound Routes that differ by a hyphenated piece of name and namespace share their cluster-local Gateway under a configured namespace, hashed or not |
| `Examples.ThrashingRoutesExist` | pkg/reconciler/route/resources/gateway.go:119-128 | a concrete configuration and two concrete Routes to which that applies |
| `Runs.WhenRoutesShareGateways` | pkg/reconciler/route/resources/gateway.go:119-128 | two Routes with unhashed names share a Gateway key if and only if some pair of their visibilities has clashing names in one namespace |
| `Runs.WhenBuiltInRoutesShareGateways` | pkg/reconciler/route/resources/gateway.go:119-128 | with built-in visibilities they do if and only if they are the same or shifted Routes and meet in one namespace for one visibility |
| `Examples.OrdinaryRoutesAreSound` | pkg/reconciler/route/route.go:83-132 | Routes with labels, percentages, a fitting name and a configured built-in visibility meet the conditions of the convergence theorem when templates do not fail, hashed Gateway names included |
| `Names.ChildName` | vendor/knative.dev/pkg/kmeta/names.go:39-66 | a child name has at most 63 characters and is the concatenation whenever that fits |
| `Names.HashedNamesCollide` | vendor/knative.dev/pkg/kmeta/names.go:39-66 | two hashed names with one short suffix are equal if and only if their parents begin alike and have one digest |
| `Names.GatewayNamesCollide` | pkg/reconciler/route/resources/gateway.go:123-128 | two unhashed Gateway names, of any Routes and visibilities, are equal if and only if they clash: one visibility and the same or shifted Routes, or a hyphenated piece of one visibility at the end of the other Route's name and namespace |
| `Names.BuiltInNamesCollide` | pkg/reconciler/route/resources/gateway.go:123-128 | between built-in visibilities only the first of these is possible |
| `Names.HyphenFreeRoutesCanClash` | pkg/reconciler/route/resources/gateway.go:119-128 | with other visibilities two concrete hyphen-free Routes get the same name |
| `Names.VisibilityNamesCollide` | vendor/knative.dev/pkg/kmeta/names.go:39-66 | for every Route, long or short, the name for a visibility equals the cluster-local name if and only if the visibility is cluster-local or name and namespace contain their own digest |
| `Names.HyphenFreeNamesAreInjective` | pkg/reconciler/route/resources/gateway.go:123-128 | for one visibility distinct Routes with hyphen-free names never share an unhashed Gateway name |
| `Names.GatewayNameIsNotInjective` | pkg/reconciler/route/resources/gateway.go:119-128 | concrete distinct Routes with the same Gateway name for every visibility |
| `HostMaps.UnionMaps` | pkg/reconciler/route/reconcile_resources.go:219-231 | merges host maps as specified for every order of visiting keys |
| `HostMaps.UnionIsConcatenation` | pkg/reconciler/route/reconcile_resources.go:219-231 | each key of a union holds the concatenation of what the maps hold for it, and no key is lost or invented |
| `HostMaps.FlattenAgreesWithUnion` | pkg/reconciler/route/resources/httproute.go:110-123 | flattening and merging host maps give the same bag of hosts |
| `HostMaps.WhenOrdersShow` | pkg/reconciler/route/resources/httproute.go:118-120 | two families of orders flatten to the same list if and only if no single map shows the difference |
| `HostMaps.MultiplicityIsSum` | pkg/reconciler/route/resources/gateway.go:139-156 | a host's multiplicity within a visibility is the sum of its per-target counts |
| `Domains.VisibilityDomains` | pkg/reconciler/route/resources/gateway.go:44-87 | the map of a target that compiles has exactly the Route's visibility and cluster-local as keys, and one external host unless the Route is cluster-local; what the hosts are is stated by `TargetHosts` |
| `Domains.VisibilityToDomain` | pkg/reconciler/route/resources/gateway.go:44-87 | the statements compute that map, or the first error; they succeed if and only if the templates do and the Route has labels, and give the promised hosts of the tag's hostname for each visibility |
| `Domains.TargetHosts` | pkg/reconciler/route/resources/gateway.go:47-85 | the hosts of a target are the one domain of the tag's hostname under the Route's metadata, and the expansion of its domain under the metadata relabelled cluster-local |
| `Domains.TargetCompiles` | pkg/reconciler/route/resources/gateway.go:47-78 | when a target compiles, when it panics, and that it raises nothing else but template errors |
| `Domains.GatewayHosts` | pkg/reconciler/route/reconcile_resources.go:96-103 | the hosts merged for a visibility are those of the targets, target after target |
| `Domains.HTTPRouteHosts` | pkg/reconciler/route/resources/httproute.go:50-57 | the flattened hostnames are those of the targets, target after target, each in the order its map is ranged in |
| `Examples.TaggedHosts` | pkg/reconciler/route/resources/gateway.go:47-85 | a concrete Route whose tagged target is served under the hosts of its tag |
| `Domains.Hostnames` | pkg/reconciler/route/resources/httproute.go:110-123 | the hosts of one target in the order its map is ranged in |
| `Domains.OrdersEnumerateTheMaps` | pkg/reconciler/route/reconcile_resources.go:107-107 | the orders a pass may take are exactly the enumerations of the keys of the maps it ranges over |
| `Domains.HostAgreement` | pkg/reconciler/route/resources/httproute.go:50-57 | the HTTPRoute hostnames and the hosts of all Gateways are the same bag for every pair of orders |
| `Domains.HostnameOrders` | pkg/reconciler/route/resources/httproute.go:118-120 | hostnames are fixed up to permutation, and two orders give the same list if and only if they agree wherever a target has a local host besides the external one |
| `Domains.ClusterLocalHidesOrder` | pkg/reconciler/route/resources/gateway.go:59-69 | a cluster-local Route has one possible hostname list |
| `Domains.RepeatedTagsRepeatHosts` | pkg/reconciler/route/resources/gateway.go:139-156 | two targets with the same tag make every one of their hosts occur at least twice among the listeners |
| `Domains.HostnameCount` | pkg/reconciler/route/resources/httproute.go:50-57 | n targets with e local hosts each give n(e + 1) hostnames, or n e if cluster-local |
| `Domains.HostnameLimit` | config/100-gateway-api.yaml:805-813 | with three local hosts per target a Route that is not cluster-local fits the limit of 16 hostnames if and only if it has at most four targets |
| `TrafficSplit.MakeRule` | pkg/reconciler/route/resources/httproute.go:79-108 | the entries share one service cell and no port cell, say `Splits` when followed, and panic if and only if a percentage is missing |
| `TrafficSplit.WeightIsConserved` | pkg/reconciler/route/resources/httproute.go:83-94 | the weights sum to the percentages modulo 2^32, and exactly when these are within int32 |
| `TrafficSplit.SplitsDivideTraffic` | pkg/reconciler/route/resources/httproute.go:79-108 | the split has one entry for each target with a non-zero percentage, in order, each with the promised port, weight, service and headers |
| `TrafficSplit.LiveTargets` | pkg/reconciler/route/resources/httproute.go:83-85 | the entries are for exactly the targets with a non-zero percentage |
| `TrafficSplit.SplitEntries` | pkg/reconciler/route/resources/httproute.go:88-102 | each entry carries the headers of its own revision, and its weight is zero if and only if its percentage is a multiple of 2^32 |
| `TrafficSplit.ServicesAgreeWithHeaders` | pkg/reconciler/route/resources/httproute.go:82-99 | every service is the last target's revision; services and headers agree if and only if every target with traffic has that revision |
| `TrafficSplit.TwoRevisionsShareAService` | pkg/reconciler/route/resources/httproute.go:82-99 | a split between two revisions forwards both entries to the second |
| `Resources.MakeListeners` | pkg/reconciler/route/resources/gateway.go:138-156 | each listener has a hostname cell of its own that keeps its own host |
| `Resources.BuildGateway` | pkg/reconciler/route/resources/gateway.go:90-166 | the Gateway built with these listeners is the desired one: class, hosts in order, address if and only if one is configured, labels and annotations as promised |
| `Resources.OwnerSelectorIsExact` | pkg/reconciler/route/route.go:65-68 | whatever labels users set, the owner labels of a Route select the children of exactly that Route |
| `Resources.SelectorExactness` | pkg/reconciler/route/resources/gateway.go:141-155 | the listeners of a Route's Gateway select another Route's HTTPRoute if and only if the two are the same Route |
| `Resources.ListenersServeTheHostnames` | pkg/reconciler/route/resources/gateway.go:130-156 | the hostnames of a made HTTPRoute are the listener hostnames of all desired Gateways counted with multiplicity |
| `Config.ParseEntries` | pkg/reconciler/route/config/gateway.go:63-75 | in any key order, all entries but the example are decoded, or none if one does not decode |
| `Config.NewGatewayFromConfigMap` | pkg/reconciler/route/config/gateway.go:63-86 | succeeds if and only if all entries decode, and holds them and the two defaults in new objects |
| `Config.Meaning` | pkg/reconciler/route/config/gateway.go:76-84 | both default keys exist, user entries survive, the example is ignored |
| `Config.MeaningInFull` | pkg/reconciler/route/config/gateway.go:28-84 | which keys a configuration has and what each says, the contents of the two defaults included |
| `Config.LookupSafety` | pkg/reconciler/route/config/gateway.go:89-101 | for every ConfigMap that parses, all lookups of a Route hit if and only if its visibility label is unset, built in, or a key other than the example |
| `Config.Gateway.LookupsReadSnapshot` | pkg/reconciler/route/config/gateway.go:89-101 | the three lookups return the configured value or panic on a missing key |
| `Config.Gateway.DeepCopyInto` | pkg/reconciler/route/config/zz_generated.deepcopy.go:24-42 | the copy says the same as the original, nil entries included, shares no entry with it, and leaves it unchanged |
| `Config.Gateway.DeepCopy` | pkg/reconciler/route/config/zz_generated.deepcopy.go:45-52 | the same for a new object |
| `Syncing.SyncOutcome` | pkg/reconciler/route/reconcile_resources.go:61-82 | an object is written if and only if it is out of sync, readable and the write is not rejected; it is then in sync, updates keep owners and status, and the error is exactly that of the calls needed |
| `Safety.PassDoesNotPanic` | pkg/reconciler/route/route.go:83-132 | a pass over a Route with labels, percentages and configured visibilities does not panic, whatever fails |
| `Safety.ParsedConfigIsSafe` | pkg/reconciler/route/config/gateway.go:63-101 | hence under a parsed configuration for every Route with an unset, built-in or configured visibility |
| `Safety.LoadGateway` | pkg/reconciler/route/config/store.go:108-114 | the configuration of a reconcile is a new copy that says what the ConfigMap means |
| `Safety.LoadedLookupsHit` | pkg/reconciler/route/resources/gateway.go:97-106 | in it every lookup for every visibility of such a Route hits, and the namespace looked up is the one its Gateway is keyed under |
| `Readiness.IsGatewayAdmitted` | pkg/reconciler/route/route.go:149-156 | true if and only if the first Admitted condition exists and is True |
| `Readiness.IsHTTPRouteReady` | pkg/reconciler/route/route.go:136-147 | true if and only if the list is not nil and every Gateway in it has admitted the route |
| `Readiness.ReadinessIgnoresOrder` | config/100-gateway-api.yaml:1228-1230 | with unique condition types the answer is invariant under permuting Gateways and conditions |
| `Readiness.RepeatedTypesDependOnOrder` | pkg/reconciler/route/route.go:150-154 | without uniqueness the order of conditions decides |
| `Readiness.ReadinessAgainstApi` | config/100-gateway-api.yaml:1179 | the code and the API text disagree on exactly the non-nil empty list |
| `Reconciler.CollectDomains` | pkg/reconciler/route/reconcile_resources.go:96-103 | the loop computes the hosts by visibility of all targets, or the first error |
| `Reconciler.CollectTargets` | pkg/reconciler/route/reconcile_resources.go:164-171 | the loop computes the Service names of all targets, or the first error |
| `Reconciler.CollectHostnames` | pkg/reconciler/route/resources/httproute.go:50-57 | the loop computes the flattened hostnames, or the first error |
| `Reconciler.BuildHTTPRoute` | pkg/reconciler/route/resources/httproute.go:18-77 | the HTTPRoute is the desired one: one rule that divides the traffic, the hosts of the targets in order, the given references, no status, owned by the Route |
| `Reconciler.Cluster.ReconcilePlaceholderServices` | pkg/reconciler/route/reconcile_resources.go:159-215 | computes the Service phase, stopping after the first write |
| `Reconciler.Cluster.ReconcileGateway` | pkg/reconciler/route/reconcile_resources.go:89-156 | computes the Gateway phase and returns the Gateways it wrote |
| `Reconciler.Cluster.ReconcileHTTPRoute` | pkg/reconciler/route/reconcile_resources.go:38-86 | computes the HTTPRoute phase and returns the stored HTTPRoute |
| `Reconciler.Cluster.ReconcileKind` | pkg/reconciler/route/route.go:83-132 | computes a pass: the store and the error; it sets the two conditions to ready exactly when the HTTPRoute found before has been admitted, marks not configured otherwise, and leaves them alone on an error or without the annotation |
| `Reconciler.Cluster.FinalizeKind` | pkg/reconciler/route/route.go:64-80 | deletes the listed Gateways up to the first failure; succeeds if and only if listing and every call do, and has then removed exactly the labelled Gateways |

## Left out

- Generated clients, listers, informers, injection and fakes under pkg/client: plumbing, replaced by the store maps.
- pkg/reconciler/route/controller.go, cmd/controller/main.go and pkg/reconciler/route/config/store.go: wiring, work queue, context values; of the last only the copying of the gateway configuration is modelled.
- Text templates, domain validation, `ExpandedHosts`, YAML decoding and MD5: library calls, uninterpreted here.
- API server defaulting and validation, resource versions, stale caches, watch events, timeouts, event recording and logging.
- Changes to the store by anyone but this controller, such as status updates by gateway implementations, between the passes of one sequence.
- Status propagation in `PropagateIngressStatus` and `MarkTLSNotEnabled` beyond the two conditions that the reconciler sets.
- The objects in the list that `reconcileGateway` returns: only their namespace and name, which is all that is read of them.
- GatewayNamesCollide: characterises unhashed names only, because collisions of hashed names of different Routes depend on MD5.
- HyphenFreeNamesAreInjective, BuiltInNamesCollide, WhenRoutesShareGateways and WhenBuiltInRoutesShareGateways: unhashed names only, for the same reason.
- InconsistentRoutesExist: its digest function is chosen for the purpose; whether MD5 itself admits such a name is not decided here.

# kube-forwarding-proxy: a verified model

The proxy gives Kubernetes services of several clusters ("contexts") local virtual addresses. Its DNS
server allocates an address the first time a name is asked for, its forward manager listens on that
address and forwards connections over pooled SPDY connections, idle addresses expire, and the
configuration can be replaced while tunnels are in use. This project models that core in Dafny and
proves that the parts agree, over every run and every input.

`dafny verify dfyconfig.toml` checks the whole project.

| files | what they hold |
|---|---|
| `Strings`, `ClusterName` | the name grammar: parser, recogniser, printer, context rewriting |
| `Allocator`, `AllocatorRuns` | 32-bit address arithmetic, the allocator object, and all its runs with releases split at the unlocked gap |
| `ForwardState`, `ForwardProtocol`, `ForwardSafety`, `ForwardRuns`, `ForwardEffects`, `ForwardHandlers`, `ForwardLeftover` | the forward manager's tables, the machine whose steps are its locked sections, the invariant, the theorems over every interleaving, exactly what changes each component, connections and the addresses they came in on, and callbacks that outlive their state |
| `SpdyPool`, `PoolEffects` | the reference-counted connection pool: sections, machine, invariant, theorems, and exactly what changes each connection |
| `ForwardManager` | the forward manager object, refining the section functions |
| `ServiceKeys`, `Resolution`, `ProxySystem`, `ProxyEffects`, `ProxyProgress` | allocator and forward manager joined, the machine of the whole proxy, what its steps do to their own and other addresses, and that what is left alone does expire |
| `KubeConfig`, `ClientManager` | merging of configurations, affected contexts, the client manager object |
| `Reload`, `KubeconfigHandler`, `HotReload` | stopping contexts, the configuration endpoint, exactness of hot reload |
| `DnsLookup`, `DnsNames`, `DnsServer`, `Reachability` | A, TXT and SRV lookups, what they mean for a written-out name, the server object and its responses; its operations stay within reachable states |

How the model is cut:

- A forward manager goroutine takes one step per locked section. Goroutines hold *indices* of
  listeners, per-address states and timers among everything ever created, so a handler can register on
  a state that the tables have already forgotten. Timers are armed, fired (started but not yet past the
  lock), stopped or run. Between the check and the delete of an expiry the manager's lock is held but
  the state's is not, and the two are separate steps.
- Time is a counter that any step may find advanced; a timer may fire any time from its due time on.
- Dials, stream creation, listening, adding and removing addresses and resolving services may succeed
  or fail in any way; they are arguments of the steps.
- In the machine of the whole proxy a name resolution is one step, and so is a teardown with the
  release of its address; everything else keeps its own steps.
- An address is a number; the text form is taken to be one-to-one.

Where the code disagrees with its own documentation, the model follows the code:

- The repository's `README.md:113` and the comment on `Add` say that POST is checked for conflicts against the file
  configuration too; the code looks only at the dynamic one (`PostCanRedefineFile`).
- The comment at `internal/k8s/kubeconfig.go:121-122` says that POST never affects a context; it does
  when it redefines a cluster of the file or fills a dangling reference. `PostAffectsNoneIff` gives the
  exact condition.
- A leftover callback of a removed state *can* pass the generation check on a later state of the same
  address (`LeftoverTearsDownFreshState`); what prevents it is that the allocator never issues an
  address twice (`LeftoversHarmless`).
- Two contexts of which one is the other followed by a slash and a namespace can share a key, so that
  one is answered with an address the other listens on (`ShadowedAnswer`); `ServedByOwnContextIff` says
  exactly when.
- The recogniser used by the SOCKS5 proxy and the parser use the first and the last occurrence of the
  domain; they agree for exactly the domains that `RecogniserCoversParser` names.

## Model

| member | source | states |
|---|---|---|
| `ForwardSafety.StepKeepsInv` | internal/k8s/forward_manager.go:134-328 | every step of every goroutine keeps the invariant of states, handlers, timers and listeners |
| `ForwardRuns.NoAddressStranded` | internal/k8s/forward_manager.go:168-328 | in every reachable state a tracked address counts exactly its registered handlers; with none, exactly one callback with its current generation is armed or in flight; with some, none of its timers is armed |
| `ForwardRuns.ListenersAccountedFor` | internal/k8s/forward_manager.go:134-190 | in every reachable state an open listener is entered under its own key or held by exactly one `StartForward` call, never both, and two keys never share one |
| `ForwardRuns.ExpiryOnlyWhenIdle` | internal/k8s/forward_manager.go:197-250 | a callback that passes its check on the state that armed it finds that state tracked, unconnected and untouched at every point since it was armed, a full idle period ago |
| `ForwardLeftover.OwnStateOnly` | internal/k8s/forward_manager.go:236-249 | while no address has had two states, a callback that passes its check is that of the state it finds |
| `ForwardLeftover.LeftoverTearsDownFreshState` | internal/k8s/forward_manager.go:175-249 | a concrete run of the forward manager alone in which a leftover callback passes its check on a just-touched later state |
| `ForwardEffects.ListenerFate` | internal/k8s/forward_manager.go:134-290 | a listener keeps its key, and a step closes it exactly when it removes its entry, discards it to a rival, or accepting on it failed |
| `ForwardEffects.NewListener` | internal/k8s/forward_manager.go:151-157 | the only new listener is the one a `StartForward` call binds, open and for its own key |
| `ForwardEffects.EntryFate` | internal/k8s/forward_manager.go:134-260 | an entry is added exactly by a call that finds no rival, with the listener that call holds, and removed exactly by the expiry of a state that has its key or by a shutdown of its context or of everything |
| `ForwardEffects.TrackedFate` | internal/k8s/forward_manager.go:168-260 | an address starts to be tracked exactly when its first key is entered with idle expiry on, and is forgotten exactly by its expiry or a shutdown that closes a listener on it |
| `ForwardEffects.StateFate` | internal/k8s/forward_manager.go:168-327 | a state's count, keys, generation and timer change exactly by connections, entered keys and new idle periods on its own address |
| `ForwardEffects.NewState` | internal/k8s/forward_manager.go:172-177 | a new state has its one key, no connection and a running timer |
| `ForwardEffects.TimerFate` | internal/k8s/forward_manager.go:197-327 | a timer's status changes exactly by firing, running its check, or being stopped because its state is touched, connected to or shut down |
| `ForwardEffects.NewTimer` | internal/k8s/forward_manager.go:215-219 | a new timer is armed for its state's address and new generation, due a full idle period from now |
| `ForwardEffects.CheckFate` | internal/k8s/forward_manager.go:236-250 | a callback goes on to tear down exactly when the address is tracked, has its generation and nobody is connected |
| `ForwardEffects.ExpiryOnIff` | internal/k8s/forward_manager.go:168-178 | no run ever tracks an address unless there are a positive timeout and a releaser, and with both every entered key's address is tracked |
| `ForwardEffects.ShutdownLeavesNothing` | internal/k8s/forward_manager.go:597-613 | after a shutdown in any run nothing is entered or tracked, the only open listeners are those calls in flight have just bound, and no timer of an address that was tracked is armed |
| `ForwardHandlers.OwnInEveryRun` | internal/k8s/forward_manager.go:277-303 | in every run a handler goes by the address of the listener it was accepted on, and a call by the key it was made for, down to the listener it holds |
| `ForwardHandlers.OnOwnAddress` | internal/k8s/forward_manager.go:294-311 | in every run a handler that fetched or registered on a state has one of the address its connection came in on |
| `ForwardHandlers.FetchFindsState` | internal/k8s/forward_manager.go:298-303 | a handler takes the state tracking its listener's address at that moment, if there is one and idle expiry is on |
| `ForwardHandlers.StaysWithState` | internal/k8s/forward_manager.go:304-327 | from then on it registers on that state and leaves it only by deregistering |
| `ForwardHandlers.CheckFindsNobody` | internal/k8s/forward_manager.go:243-250 | a check that passes finds no connection registered on the state it is about to remove |
| `ForwardSafety.TouchKeeps` | internal/k8s/forward_manager.go:197-220 | touching re-establishes "idle implies one pending current callback" for the touched address and keeps it for the others |
| `ForwardSafety.DeregisterKeeps` | internal/k8s/forward_manager.go:314-328 | overwriting the timer field when the last connection closes loses no armed timer |
| `ForwardSafety.TearDownKeeps` | internal/k8s/forward_manager.go:252-260 | deleting an expired address keeps the discipline of all other states |
| `ForwardSafety.DropKeeps` | internal/k8s/forward_manager.go:543-567 | so does dropping any set of listeners with the states of their addresses |
| `ForwardSafety.StopDisarms` | internal/k8s/forward_manager.go:205-209 | after a stop no timer the state ever armed is armed, although only the one it points at was stopped |
| `ForwardManager.Manager.constructor` | internal/k8s/forward_manager.go:112-123 | a new manager has empty tables |
| `ForwardManager.Manager.TouchVipLocked` | internal/k8s/forward_manager.go:197-220 | the object's touch is the section `Touch` of the machine |
| `ForwardManager.Manager.CheckEntry` | internal/k8s/forward_manager.go:140-149 | first section of a start: an existing entry is touched, otherwise nothing changes |
| `ForwardManager.Manager.EnterListener` | internal/k8s/forward_manager.go:159-179 | second section of a start: the listener is installed, or a rival's entry is touched |
| `ForwardManager.Manager.StartForward` | internal/k8s/forward_manager.go:134-190 | an uninterrupted start, with the current context standing in for an empty name, including a failing listen |
| `ForwardManager.Manager.ExpiryCheck` | internal/k8s/forward_manager.go:236-250 | passes exactly when the address is tracked, has that generation and no connection |
| `ForwardManager.Manager.DeleteVip` | internal/k8s/forward_manager.go:252-261 | the deletion loop closes and removes exactly the listeners entered under the state's keys, and the state; every other listener stays as it was |
| `ForwardSafety.HandlersRegister` | internal/k8s/forward_manager.go:298-311 | registering on a state fetched earlier keeps every count equal to its registered handlers, also when the tables have forgotten that state meanwhile |
| `ForwardManager.Manager.RegisterConn` | internal/k8s/forward_manager.go:304-311 | registering stops the timer and counts the connection |
| `ForwardManager.Manager.DeregisterConn` | internal/k8s/forward_manager.go:318-327 | deregistering counts down and re-arms on zero |
| `ForwardManager.Manager.DropContextEntries` | internal/k8s/forward_manager.go:544-556 | whatever the map order, exactly the context's listeners are closed and removed, and the addresses reported are theirs |
| `ForwardManager.Manager.DropVips` | internal/k8s/forward_manager.go:557-566 | whatever the order, the timers of these addresses are stopped and their states removed |
| `ForwardManager.Manager.ShutdownContext` | internal/k8s/forward_manager.go:538-593 | the whole shutdown of a context, tables and pool, and the addresses to release |
| `ForwardManager.Manager.Shutdown` | internal/k8s/forward_manager.go:597-622 | the whole shutdown, tables and pool |
| `ForwardManager.Manager.AcquirePoolEntry` | internal/k8s/forward_manager.go:380-408 | a live pooled connection is shared with one more reference and nothing else changed, a stale one replaced, a failing dial leaves nothing, and no other connection is closed or counted differently |
| `ForwardManager.Manager.DecideEvict` | internal/k8s/forward_manager.go:422-427 | evicts exactly the still-pooled, unused entry |
| `ForwardManager.Manager.EvictEntry` | internal/k8s/forward_manager.go:501-505 | the retry path's eviction, which never returns its reference |
| `PoolSafety.StepKeepsInv` | internal/k8s/forward_manager.go:380-433 | every step of every dial, close and shutdown keeps the pool's invariant |
| `PoolRuns.RefsCountHolders` | internal/k8s/forward_manager.go:380-433 | a pooled connection's count is exactly its dials in flight plus unclosed streams; for one that left the pool, that plus the references retries gave up |
| `PoolRuns.PooledIsWatched` | internal/k8s/forward_manager.go:413-427 | a pooled connection has a holder, or a closer between its decrement and its locked check |
| `PoolRuns.UnusedPoolIsEmpty` | internal/k8s/forward_manager.go:380-517 | no holders and no pending closers imply an empty pool |
| `PoolRuns.LastReferenceClosesOnce` | internal/k8s/forward_manager.go:413-433 | the count closes a connection at most once, only one it removed itself, and only with no holder |
| `PoolRuns.LeftForGood` | internal/k8s/forward_manager.go:384-433 | a connection that left the pool never returns, so nobody can acquire it, and no other path removes it again |
| `PoolRuns.NothingLeaksUnclosed` | internal/k8s/forward_manager.go:501-506 | a connection that left the pool is closed or some thread is committed to closing it |
| `PoolEffects.GoneFate` | internal/k8s/forward_manager.go:380-592 | a connection keeps its key and becomes gone exactly by its peer, a retry, its last reference, or a shutdown |
| `PoolEffects.RefsFate` | internal/k8s/forward_manager.go:393-415 | its count goes up exactly when a dial shares it pooled and live, and down exactly when a stream on it is closed |
| `PoolEffects.PooledFate` | internal/k8s/forward_manager.go:384-505 | it leaves the pool exactly by a dial that finds it gone, a retry, its last reference, or a shutdown |
| `PoolEffects.NewConnection` | internal/k8s/forward_manager.go:398-407 | a connection is dialled exactly when no live one is pooled for the key, and is pooled for that key with one reference |
| `PoolEffects.HoldsOwnKey` | internal/k8s/forward_manager.go:486-526 | in every run whatever connection a dial or stream has to do with was made for the key it dialled |
| `PoolEffects.DialSharesLive` | internal/k8s/forward_manager.go:384-396 | in every run a dial whose key has a live pooled connection gets exactly that one, creating and closing none |
| `PoolEffects.HeldGoneOnlyBy` | internal/k8s/forward_manager.go:413-433 | in every run a connection somebody holds becomes gone only by its peer, a retry or a shutdown |
| `PoolEffects.ShutdownEmptiesPool` | internal/k8s/forward_manager.go:615-621 | after a shutdown the pool is empty and all that was pooled is gone |
| `Allocator.IpRoundTrip` | internal/vip/allocator.go:106-118 | numbers and four-byte addresses correspond one to one, both ways, first byte most significant |
| `Allocator.BlockAround` | internal/vip/allocator.go:27-34 | the network address starts the block of 2^(32-p) addresses, aligned to its size, that contains the given one, and the broadcast address ends it |
| `Allocator.AllocateFromKeeps` | internal/vip/allocator.go:58-78 | the loop keeps the inverse maps and the partition, issues at most one address, at or above the old `next`, that the interface accepted |
| `Allocator.AllocateOutcome` | internal/vip/allocator.go:58-78 | it skips exactly the addresses in use, and fails only when the block is exhausted or another error occurs |
| `Allocator.ReleaseKeeps` | internal/vip/allocator.go:123-134 | a release keeps the maps inverse and the partition exact |
| `Allocator.VipAllocator.constructor` | internal/vip/allocator.go:26-46 | a new allocator has the wrapped bounds and satisfies the invariant |
| `Allocator.VipAllocator.AllocateVip` | internal/vip/allocator.go:50-79 | a known key gets its address again, any other goes through the loop |
| `Allocator.VipAllocator.Scan` | internal/vip/allocator.go:58-78 | the loop ends, with `max - next` decreasing, in what the recursive specification gives |
| `Allocator.VipAllocator.ReleaseVip` | internal/vip/allocator.go:123-134 | the locked part of a release removes both map entries, and does nothing for an unknown address |
| `AllocatorRuns.NeverIssuedTwice` | internal/vip/allocator.go:50-140 | over every run the maps are inverses, every address in [base, next) is exactly one of assigned, skipped, failed or released, and no address is issued twice |
| `AllocatorRuns.RemovalGapHarmless` | internal/vip/allocator.go:123-140 | a delayed removal never targets a held address, no address has two removals, and the interface holds exactly the assigned addresses plus pending or failed removals |
| `AllocatorRuns.NewAllocBounds` | internal/vip/allocator.go:32-41 | although computed with wrap-around, the bounds are network + 1 and broadcast, for every prefix but 255.255.255.255/32 |
| `AllocatorRuns.IssuedInsideIff` | internal/vip/allocator.go:26-79 | all runs issue only addresses strictly between network and broadcast if and only if the block is not 255.255.255.255/32 |
| `AllocatorRuns.WrappedBlockIssuesZero` | internal/vip/allocator.go:39-41 | 255.255.255.255/32 issues 0.0.0.0 |
| `AllocatorRuns.IssuedCount` | internal/vip/allocator.go:34-64 | at most 2^(32-p) - 2 addresses are ever issued, for /0 to /31 |
| `ServiceKeys.KeysCollideIff` | internal/dns/server.go:287-290 | two queries share a key exactly when they are equal or one context is the other followed by a slash and a namespace |
| `ServiceKeys.SlashFreeContextsApart` | internal/dns/server.go:287-290 | different slash-free contexts never share a key |
| `ServiceKeys.SamePartsApart` | internal/dns/server.go:287-290 | with the same service, different contexts never share a key, slashes or not |
| `Resolution.ResolveLinked` | internal/dns/server.go:286-338 | a resolution, whatever fails in it, keeps every listener's address held and serving one context, and every state's keys equal to the entries on its address |
| `Resolution.ExpireLinked` | internal/k8s/forward_manager.go:252-272 | so does an expiry with its release |
| `Resolution.StopContextLinked` | internal/k8s/forward_manager.go:538-581 | so does the shutdown of a context with its releases |
| `Resolution.OtherContextsApart` | internal/k8s/forward_manager.go:541-566 | listeners of other contexts are never on an address of the context being shut down |
| `ProxySystem.StepKeepsGood` | internal/dns/server.go:286-338 | every step of the whole proxy, for any context names and with idle expiry on or off, keeps the link between allocator and forward manager |
| `ProxySystem.OneContextPerAddress` | internal/dns/server.go:286-338 | in every reachable state all listeners on an address serve one context, that of the query the address was issued for, and the address is still held under that query's key |
| `ProxySystem.ContextReadOff` | internal/dns/server.go:287-290 | so a listener's slash-free context can be read off the key its address is held under |
| `ProxySystem.ServedByOwnContextIff` | internal/dns/server.go:287-304 | the address held for a query is listened on for the query's own context if and only if the query it was issued for is not one of another context that reads the same |
| `ProxyProgress.ShadowedAnswer` | internal/dns/server.go:287-304 | a concrete run in which context "a/n" is answered with an address on which only context "a" listens |
| `ProxySystem.KeysAreEntries` | internal/k8s/forward_manager.go:168-178 | in every reachable state the keys a tracked address remembers are exactly the entries on it, each once, also when a service repeats a port |
| `ProxySystem.LeftoversHarmless` | internal/k8s/forward_manager.go:236-249 | in every run of the proxy a callback that passes its check is that of the very state it finds |
| `ProxySystem.TornDownOnlyWhenIdle` | internal/k8s/forward_manager.go:197-260 | in every run of the proxy an address is torn down only after a full idle period without a touch or a connection |
| `ProxyEffects.NoConnectionTornDown` | internal/k8s/forward_manager.go:236-311 | in every run of the proxy, when an address is torn down no connection that came in on one of its listeners is registered anywhere |
| `ProxyEffects.TeardownExact` | internal/k8s/forward_manager.go:252-272 | in every run, tearing an address down closes and removes all of it, and leaves every entry, listener, state, timer and allocation of every other address as it was |
| `ProxyEffects.HitRestartsIdlePeriod` | internal/dns/server.go:292-304 | in every run, a query for a held address answers with it, restarts its idle period for a full timeout, and changes no allocation, entry or listener |
| `ProxyEffects.FreshAddressListens` | internal/dns/server.go:307-337 | in every run, a query that allocates an address listens there exactly on the service's ports up to the first that cannot be listened on, and is answered if there is none such |
| `ProxyEffects.MissChangesNothing` | internal/dns/server.go:307-320 | a query that cannot resolve the service or get an address is not answered and leaves tables and assignments alone |
| `ProxyProgress.IdleAddressExpires` | internal/k8s/forward_manager.go:197-260 | from every reachable state, a tracked address without connections reaches its teardown by nothing but time passing and its timer firing |
| `ProxyProgress.ExpiredIsGone` | internal/k8s/forward_manager.go:252-272 | after a teardown the address has no listener, no state and no allocation |
| `ProxyProgress.FirstResolution` | internal/dns/server.go:307-337 | resolving any query for a service with one port in a new proxy holds and tracks its first address, with one listener |
| `ProxyProgress.SomeRunExpires` | internal/k8s/forward_manager.go:236-272 | a concrete run that resolves an address and tears it down, so the theorems about teardown are not vacuous |
| `KubeConfig.OverrideLaws` | internal/k8s/client_manager.go:223-245 | overriding is associative and idempotent with the empty configuration as unit, current context included |
| `KubeConfig.PatchMeansOverride` | internal/k8s/client_manager.go:148-158 | the merged configuration after PATCH is the one before overridden by the patch |
| `KubeConfig.AffectedContexts` | internal/k8s/kubeconfig.go:180-212 | in whatever map order, lists without repetition exactly the old contexts that are missing from the new configuration or whose entry, cluster or user differs, all of them if the new one failed to load |
| `KubeConfig.ListedIff` | internal/k8s/kubeconfig.go:180-212 | the affected contexts, on the maps: missing, or entry, cluster lookup or user lookup differs |
| `KubeConfig.NameByName` | internal/k8s/client_manager.go:204-245 | name by name, where every value and the current context of the merged configuration come from, before and after PATCH and POST |
| `KubeConfig.NoneAffectedIff` | internal/k8s/kubeconfig.go:180-212 | an override affects no context if and only if it redefines no context, cluster or user in use and fills no dangling reference |
| `KubeConfig.AddMergesAsOverride` | internal/k8s/client_manager.go:111-144 | a POST without conflict merges as an override of the merged configuration, up to the current context |
| `KubeConfig.PostAffectsNoneIff` | internal/k8s/kubeconfig.go:110-123 | a POST without conflict affects no context if and only if it is harmless to the merged configuration |
| `KubeConfig.FreshPostAffectsNone` | internal/k8s/kubeconfig.go:110-123 | new names and resolved references suffice |
| `KubeConfig.PostCanRedefineFile` | internal/k8s/client_manager.go:116-136 | without new names it fails: the conflict check does not see the file |
| `KubeConfig.PostCanFillDangling` | internal/k8s/kubeconfig.go:200-209 | without resolved references it fails: a new cluster fills a dangling one |
| `ClientManager.CopyInto` | internal/k8s/client_manager.go:224-241 | a copy loop is a right- or left-biased map union in whatever order the map yields its entries |
| `ClientManager.MergeConfigs` | internal/k8s/client_manager.go:223-245 | the in-place merge is override or fill of the old values, also when both arguments are one object |
| `ClientManager.Manager.MergedConfig` | internal/k8s/client_manager.go:204-217 | the file overridden by the dynamic configuration, without touching either |
| `ClientManager.Manager.Rebuild` | internal/k8s/client_manager.go:163-200 | contexts and current context follow the merged configuration, or stay when the file does not load |
| `ClientManager.Manager.Reset` | internal/k8s/client_manager.go:101-106 | the dynamic configuration is replaced even when the rebuild then fails |
| `ClientManager.Manager.Add` | internal/k8s/client_manager.go:111-144 | a conflict changes nothing, otherwise the dynamic configuration is filled |
| `ClientManager.Manager.MergeAndOverwrite` | internal/k8s/client_manager.go:148-158 | the dynamic configuration is overridden, and so is the merged one |
| `Reload.StopEachExact` | internal/k8s/forward_manager.go:538-593 | with idle expiry on or off, stopping a list of contexts closes and removes every listener, state, timer and pooled connection of theirs, releases exactly the addresses they were on, and leaves everything of all others as it was |
| `Reload.StopEachListeners` | internal/k8s/forward_manager.go:543-592 | for listeners and pooled connections the same holds from any tables whose entries own their listeners |
| `KubeconfigHandler.Handler.ReleaseVips` | internal/k8s/forward_manager.go:571-581 | releasing the reported addresses in any order releases exactly these |
| `KubeconfigHandler.Handler.ShutdownTunnels` | internal/k8s/kubeconfig.go:161-174 | stops the named contexts one after the other, or nothing without a forward manager |
| `KubeconfigHandler.Handler.Handle` | internal/k8s/kubeconfig.go:55-156 | for PUT, POST, PATCH, DELETE and unsupported methods: the new dynamic configuration, the status, and that exactly the affected contexts are stopped on success and nothing otherwise |
| `KubeconfigHandler.RequestMeans` | internal/k8s/kubeconfig.go:79-151 | which status each request gets and what it makes of the dynamic configuration: a conflict is exactly a POST sharing a name with it, and a file that fails to load is a bad request although the change was made |
| `KubeconfigHandler.StoppedExactly` | internal/k8s/kubeconfig.go:161-212 | what the handler stops is exact: nothing of the affected contexts is left, all else is unchanged |
| `HotReload.ReloadExact` | internal/k8s/kubeconfig.go:79-212 | in every reachable state of the proxy, whatever its settings and context names, a reload removes all of each context whose effective configuration changed or vanished and disturbs no other |
| `HotReload.ReloadByContext` | internal/k8s/kubeconfig.go:180-212 | in every reachable state, context by context on the maps: missing or differing loses every listener, tracked address, pooled connection and released address; every other keeps everything |
| `HotReload.VanishedLoseAll` | internal/k8s/kubeconfig.go:79-151 | a context only the dynamic configuration had is left with nothing by a DELETE, and by a PUT that does not have it |
| `HotReload.ReloadReachable` | internal/k8s/kubeconfig.go:161-174 | a reload leads to a reachable state again |
| `HotReload.PatchAffectsIff` | internal/k8s/kubeconfig.go:126-144 | with a fixed file, a PATCH affects a context if and only if it redefines it, or redefines or newly defines the cluster or user it refers to |
| `HotReload.HarmlessPostStopsNothing` | internal/k8s/kubeconfig.go:99-124 | a POST harmless to the merged configuration leaves every tunnel as it was |
| `ClusterName.ParseOfPrint` | internal/proxy/cluster.go:36-70 | printing then parsing is the identity on dot-free parts if and only if not every label of the domain is the context |
| `ClusterName.PrintOfParse` | internal/proxy/cluster.go:36-70 | parsing then printing gives the name back, up to an empty pod label the parser drops |
| `ClusterName.RewriteReparses` | internal/dns/server.go:382-390 | the rewritten target of any parseable query re-parses to the same pod, service and namespace in the new context, if and only if not every label of the domain is that context |
| `ClusterName.LastRewriteWins` | internal/dns/server.go:382-390 | of two rewrites the last one wins, if and only if not every label of the domain is the first context |
| `ClusterName.RecognisedIff` | internal/proxy/cluster.go:9-21 | a name is recognised exactly when it ends in the dotted domain, with or without a final dot, or has a one-label context after the first occurrence of it |
| `ClusterName.RecogniserCoversParser` | internal/proxy/cluster.go:9-21 | the recogniser accepts every name the parser accepts if and only if the domain's labels do not repeat with period two |
| `ClusterName.RefusedWitness` | internal/proxy/cluster.go:14-19 | for any other domain, a name that is parsed but not recognised |
| `ClusterName.ThreeLabelDomainCovered` | internal/proxy/cluster.go:9-21 | a three-label domain with different first and last labels, such as the default, is covered |
| `DnsLookup.ResolveOne` | internal/dns/server.go:286-338 | when one resolution answers, what it allocates, and that it touches no other key |
| `DnsLookup.AnswersDistinct` | internal/dns/server.go:344-371 | the answers for a name carry pairwise distinct addresses and contexts |
| `DnsLookup.FoundAfterA` | internal/dns/server.go:404-429 | what TXT and SRV find right after an A query contains its answers in order, and is its answers if and only if no listener failed to start |
| `DnsLookup.SrvAfterA` | internal/dns/server.go:450-479 | the same for SRV with the ports |
| `DnsLookup.StartFailsIff` | internal/dns/server.go:327-335 | in a linked state a listener fails to start exactly when a port of the service cannot be listened on at the fresh address, also with repeated ports |
| `DnsLookup.DeniedIff` | internal/dns/server.go:404-438 | TXT and SRV deny a name exactly when A has no answer and no address or listener was refused, and then A changes nothing |
| `DnsLookup.TargetFindsAddress` | internal/dns/server.go:188-190 | asking for the target named for an answer gives exactly that answer's address and allocates nothing |
| `DnsNames.AnswersAreOfTheName` | internal/dns/server.go:344-371 | every answer for a written-out name is the address held under context/namespace/service[/pod] of exactly its labels, for a context that was asked, with the ports reported for it |
| `DnsNames.ContextsThatAnswer` | internal/dns/server.go:355-370 | the name's own context or every known one is asked; a context answers only if it knows the service, and does if it holds an address or nothing was refused |
| `DnsNames.LookupsAreOfTheName` | internal/dns/server.go:404-479 | TXT and SRV find exactly the addresses held under these keys by the contexts asked, SRV with the ports reported |
| `DnsNames.ExistsForTheName` | internal/dns/server.go:431-437 | they say the service exists exactly when one of these contexts holds an address for it or resolves it |
| `DnsServer.ResponseCodes` | internal/dns/server.go:157-267 | TXT and SRV change nothing and agree on the response code; theirs is Name Error exactly when A's is without a refusal (sections 2.1 and 2.2 of RFC 2308) |
| `DnsServer.MessageCode` | internal/dns/server.go:162-267 | a response to any number of questions is Name Error exactly when a TXT or SRV question was denied, or there were A questions and none was answered |
| `DnsServer.AddressRecords` | internal/dns/server.go:168-187 | the records of an A response carry the addresses in order, those of a TXT response the addresses with their contexts |
| `DnsServer.ServiceRecords` | internal/dns/server.go:188-207 | there is an SRV record exactly for each port other than 0 of each address, with the port in 16 bits and the service's name in that address's context as target |
| `DnsServer.LookingChangesNothing` | internal/dns/server.go:210-258 | no message without an A question changes the proxy |
| `DnsServer.ExtraForetellsLookups` | internal/dns/server.go:157-267 | the TXT and SRV records in the additional section of an A response are the answers of the TXT and SRV queries that follow |
| `DnsServer.Server.ResolveService` | internal/dns/server.go:286-338 | the object's resolution of one context, with every failure path |
| `DnsServer.Server.ResolveName` | internal/dns/server.go:344-371 | the object's A lookup over its own context or all of them |
| `DnsServer.Server.LookupTxt` | internal/dns/server.go:404-438 | the two passes find exactly the held addresses, and existence exactly when one is held or some context resolves |
| `DnsServer.Server.LookupSrv` | internal/dns/server.go:450-488 | the same with the ports reported now |
| `DnsServer.Server.HandleCluster` | internal/dns/server.go:157-272 | the response to a message of any number of questions: records, additional records and response code |
| `Reachability.RespondReachable` | internal/dns/server.go:157-272 | answering a message leads from reachable states to reachable states |

## Left out

- SPDY dialing, stream creation and byte copying: a dial or a stream creation succeeds or fails, and a connection's close channel is a flag that is only ever set.
- The resolver's API calls and its cache: resolving a service yields its ports or fails, and stays fixed during one message.
- Upstream DNS forwarding, the routing between the two DNS handlers, wire format, record headers and time-to-live values.
- SOCKS5 serving; only its recogniser of cluster names is modelled.
- YAML parsing, loading the kubeconfig file and building REST clients: a body parses or not, the file loads or not, and every context of the merged configuration gets a client.
- GET on the configuration endpoint (it returns the dynamic configuration although its documentation says merged), and the sorted list of conflicting names.
- Overflow of the 32- and 64-bit counters `activeConns`, `refs` and `generation`.
- IPv6 ranges, `Cleanup`, `AllAllocations`, `ReverseLookup`, and the interface address managers.
- Logging, health endpoints, environment configuration, packaging.
- Closing the same stream twice: `Close` is not idempotent (`internal/k8s/stream_conn.go:66-76`), and each stream is taken to be closed at most once.
- ProxySystem.StepKeepsGood: a resolution, and a teardown with the release of its address, are each one step.
- ProxySystem.ServedByOwnContextIff: is about named contexts and slash-free namespaces, services and pods, which is what cluster names have; an unnamed context stands for whichever is current.
- HotReload.ReloadExact: the table sections of a context's shutdown are taken together with its releases and its pool section, with no dial or start in flight in between.
- DnsServer.ExtraForetellsLookups: says nothing when a listener failed to start, since the next lookups then report an address the A response did not.
- ProxyProgress.IdleAddressExpires: is about tracked addresses; one whose very first listener fails to start is allocated but never tracked, and does not expire.

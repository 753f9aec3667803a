# Mount-point registry of the RTSP restreaming server

This project models `RtspMountPoints`, the mount-point registry of the restreaming server, in Dafny. It is the component that the streaming framework asks to resolve every request path (`make_path`). For each request it decides whether to admit it, checking an optional authorization callback, a cap on distinct paths and a cap on clients per path. For the first client of a path it mounts a play factory at the path and a record factory at `path?record`. Both factories share a fresh internal channel `proxy<N>`. On each client's `closed` signal (`client_closed`) it releases that client's references and unmounts a path once its count reaches 0.

The registry state is one immutable `State` value:

- `pathsRefs`: the path → count table;
- `clientsToPaths`: the client → held-paths table;
- `proxy`: the channel counter;
- `mounts`: the part of the framework's mount table the registry manages;
- `closedHandlers`: the multiset of clients whose `closed` handler was connected.

Both entry points are pure transitions on this state. `client_closed` also exists as a method with the source's loop, proved equal to the pure reference definition.

Modules:

- `MountPoints` (`mount_points.dfy`): the data model, `authorize_access`, `make_path`, `client_closed`.
- `Invariant` (`invariant.dfy`): the bookkeeping invariant and its preservation by both entry points.
- `Admission` (`admission.dfy`): what one admitted or rejected request does.
- `Traces` (`traces.dfy`): runs of requests and disconnects; the invariant holds throughout, and channel names never repeat.
- `Findings` (`findings.dfy`): two departures of the code from its evident intent, and the corrected admission.
- `Scenarios` (`scenarios.dfy`): concrete end-to-end runs.
- `Decimal` (`decimal.dfy`) and `Wrappers` (`wrappers.dfy`): decimal rendering of the counter, and `Option`.

The model follows the code where it differs from the registry's intended design:

- A repeated request from a client that already holds a path still adds one to the count. So the invariant is `count(p) >= #holders(p)`, not equality.
- The per-path cap also refuses a client that already holds the path.
- Decrementing a count of 0 wraps to `0xFFFFFFFF` as `uint32_t` does. It does not clamp. The invariant shows that this branch is never reached.

These points are logged as findings below, with the corrected admission beside them.

## Model

| member | source | states |
|---|---|---|
| Decimal.FromNat | RestreamServer/RtspMountPoints.cpp:227-228 | the counter is written as decimal digits with no leading zero, and reading them back gives the counter |
| Decimal.FromNatInjective | RestreamServer/RtspMountPoints.cpp:227-228 | two counter values with the same decimal rendering are equal |
| MountPoints.ChannelName | RestreamServer/RtspMountPoints.cpp:227-228 | a channel name is `proxy` followed by digits that read back as the counter value it was built from |
| MountPoints.ChannelNameInjective | RestreamServer/RtspMountPoints.cpp:227-228 | different counter values give different channel names |
| MountPoints.RecordName | RestreamServer/RtspMountPoints.cpp:237 | the record factory's name is the path followed exactly by `?record` |
| MountPoints.RoleOf | RestreamServer/RtspMountPoints.cpp:143-151 | the user handed to the callback is the token's role string, or "" when there is no token or no role |
| MountPoints.AuthorizeAccess | RestreamServer/RtspMountPoints.cpp:142-153 | access is allowed when no callback is set; otherwise exactly when the callback allows (role, abspath) |
| MountPoints.RegisterClient | RestreamServer/RtspMountPoints.cpp:203-218 | the client ends up holding the path; a first-seen client gets the singleton set and one `closed` handler; a known client's set grows by the path; other clients and the path table are untouched |
| MountPoints.Reference | RestreamServer/RtspMountPoints.cpp:220-247 | a new path enters with count 1, gets a play factory at the path and a record factory at its record name on channel `proxy`, and the counter grows by 1; a known path's count grows by 1 with no mount or counter change; other paths keep their counts |
| MountPoints.MakePath | RestreamServer/RtspMountPoints.cpp:157-253 | each rejection (no context, access denied, path cap, per-path cap) happens exactly under its condition in the source's order and leaves the state unchanged; an admission returns the canonical path after registering the client and counting the reference |
| MountPoints.Decrement | RestreamServer/RtspMountPoints.cpp:112-113 | a positive count loses exactly one, and the result is 0 exactly when the count was 1 (a count of 0 wraps) |
| MountPoints.Dropped | RestreamServer/RtspMountPoints.cpp:112-113 | the paths a disconnect drops are exactly the held, counted paths whose count the `--` brings to 0 |
| MountPoints.CloseClient | RestreamServer/RtspMountPoints.cpp:100-133 | an unknown client changes nothing; otherwise paths not held keep their count, a held path with count 1 leaves the table, other held paths lose one, and the client is forgotten; a mounted name is unmounted exactly when it is the path or record name of a held path whose count reaches 0, every other mount is kept unchanged, nothing is mounted, and the counter is unchanged |
| MountPoints.ClientClosed | RestreamServer/RtspMountPoints.cpp:94-134 | the loop over the client's paths, skipping paths missing from the table, computes exactly `CloseClient` |
| Invariant.InitialInv | RestreamServer/RtspMountPoints.cpp:86-91 | the freshly initialised registry satisfies the invariant |
| Invariant.AddPathRefOnCreate | RestreamServer/RtspMountPoints.cpp:203-225 | under the invariant, the assertion on `addPathRef` before creating a mount point always holds |
| Invariant.HeldPathIsCounted | RestreamServer/RtspMountPoints.cpp:107-110 | under the invariant, every held path is in the table with a positive count, so the "inconsistent data" branch is never taken |
| Invariant.SharedPathCountedTwice | RestreamServer/RtspMountPoints.cpp:112-113 | a path held by two clients has count at least 2, so one disconnect cannot drop it |
| Invariant.MakePathPreservesInv | RestreamServer/RtspMountPoints.cpp:157-253 | `make_path` keeps the invariant: positive counts, held paths counted, count >= holders, mounted names exactly `{p, p?record}` of counted paths, paired factories on distinct issued channels, handlers connected |
| Invariant.CloseClientPreservesInv | RestreamServer/RtspMountPoints.cpp:94-134 | `client_closed` keeps the same invariant |
| Admission.MakePathKeepsPathCap | RestreamServer/RtspMountPoints.cpp:180-190 | with a distinct-path cap, a table within the cap stays within it after any request |
| Admission.CapRejectsHolderToo | RestreamServer/RtspMountPoints.cpp:192-201 | at the per-path cap every authorized request for the path is rejected and nothing changes, whether or not the client already holds it |
| Admission.AdmitNewPath | RestreamServer/RtspMountPoints.cpp:220-241 | admitting a path absent from the table inserts it with count 1 for the client, mounts the play and record factories on channel `proxy<old counter>`, increments the counter by exactly one, and satisfies `addPathRef` under the invariant |
| Admission.AdmitKnownPath | RestreamServer/RtspMountPoints.cpp:213-247 | admitting a counted path adds exactly one to its count on every call; no mount or channel is created; a client that already held it keeps the same set and handlers |
| Admission.AdmitConnectsHandlerOnce | RestreamServer/RtspMountPoints.cpp:204-212 | the `closed` handler is connected on a client's first admitted request only |
| Admission.ReturnedPath | RestreamServer/RtspMountPoints.cpp:249-252 | the returned path is `abspath?record` exactly when the query is `record`, and `abspath` otherwise |
| Admission.ReturnedPathIsMounted | RestreamServer/RtspMountPoints.cpp:235-252 | under the invariant, the returned path names a mounted factory of the requested path: the record factory for a publisher, the play factory otherwise, on the path's channel |
| Traces.RunPreservesInv | RestreamServer/RtspMountPoints.cpp:94-253 | any sequence of requests and disconnects keeps the invariant |
| Traces.ReachableInv | RestreamServer/RtspMountPoints.cpp:86-91 | every state reached from construction satisfies the invariant |
| Traces.CreatedIsCounter | RestreamServer/RtspMountPoints.cpp:227-228 | a call creates at most one channel, the one numbered by the counter, and moves the counter past it |
| Traces.IssuedConsecutive | RestreamServer/RtspMountPoints.cpp:227-228 | the channels created along a run are consecutive counter values, and the counter ends past the last one |
| Traces.ChannelNamesNeverRepeat | RestreamServer/RtspMountPoints.cpp:227-228 | no channel name is issued twice in a run, nor repeats one issued before it, even when a path is torn down and created again |
| Findings.RepeatRequestLeaksMount | RestreamServer/RtspMountPoints.cpp:242-243 | as written, a client that requests a path twice and disconnects leaves the path counted at 1 and mounted with no holder |
| Findings.CapRefusesOwnHolder | RestreamServer/RtspMountPoints.cpp:192-194 | as written, with one client per path, the holder's second request is refused |
| Findings.MakePathCorrected | RestreamServer/RtspMountPoints.cpp:192-247 | for a missing context or a client that does not hold the path, the result equals the source's `make_path`; for a holder, the outcome is the source's except that the per-path cap's refusal becomes an admission of the canonical path, and the state never changes; an authorized holder within the path cap is admitted with no change |
| Findings.CorrectedKeepsExactCounts | RestreamServer/RtspMountPoints.cpp:217-247 | with the corrected admission, each count equals the number of holding clients after every request |
| Findings.CloseKeepsExactCounts | RestreamServer/RtspMountPoints.cpp:107-132 | the disconnect handler keeps counts equal to holders |
| Findings.CorrectedKeepsInv | RestreamServer/RtspMountPoints.cpp:203-247 | the corrected admission keeps the registry invariant |
| Findings.ExactCountsNoLeak | RestreamServer/RtspMountPoints.cpp:113-124 | with exact counts, a counted path is held by some client |
| Findings.NothingMountedWithoutClients | RestreamServer/RtspMountPoints.cpp:113-124 | with exact counts, a registry without clients has no path and no mount |
| Findings.CorrectedRunReleasesEverything | RestreamServer/RtspMountPoints.cpp:94-253 | along any run with the corrected admission the counts stay exact, so once every client has left nothing is mounted |
| Findings.CorrectedRepeatReleasesMount | RestreamServer/RtspMountPoints.cpp:242-243 | on the run that leaks as written, the corrected admission unmounts the path when the client leaves |
| Findings.CorrectedCapAdmitsHolder | RestreamServer/RtspMountPoints.cpp:192-194 | with one client per path, the corrected admission readmits the holder and still refuses a second client |
| Scenarios.PlayerAndPublisher | RestreamServer/RtspMountPoints.cpp:157-253 | a player then a publisher on `/cam1` yield `/cam1` and `/cam1?record` with count 1 then 2; after the player leaves the count is 1 and the path is mounted; after the publisher leaves nothing is counted or mounted |
| Scenarios.ThirdPathRefused | RestreamServer/RtspMountPoints.cpp:180-190 | with a cap of two paths, a third distinct path is refused while both mounted paths are still admitted |
| Scenarios.CallbackSeesRole | RestreamServer/RtspMountPoints.cpp:142-153 | with a callback that admits "admin" anywhere and "" only on `/pub`, an admin is admitted, and a request with no token or a token without a role is admitted on `/pub` and refused elsewhere, so the callback saw ""; a "guest" role is refused on `/pub`; a refusal and a missing context leave the registry unchanged |

## Left out

- GObject type boilerplate (`G_DEFINE_TYPE`, `class_init`, `finalize`, `rtsp_mount_points_new`) is memory and lifecycle glue. Initialisation is modelled as the constant `Initial`.
- `gst_rtsp_context_get_current` becomes the `ctx` parameter of `MakePath`, with `None` for a null context. The `assert(context)` in debug builds is not modelled; the release-build null return is.
- `g_signal_connect` is modelled as adding the client to `closedHandlers`. The framework delivering the `closed` signal is modelled as a `Disconnect` event calling `CloseClient`.
- The play and record media factories are modelled as the `Factory` values they are built from. Mounting and unmounting them in the framework edits the `mounts` map. A removal of a name that is not mounted is a no-op, as in the framework.
- The splash source URL is built from `Config.h`'s port and a stream name from `StaticSources.h`, which is not part of this model. It is the opaque `Config.splashSource` string.
- `MAX_PATHS_COUNT` and `MAX_CLIENTS_PER_PATH` are defined outside the core files. They are `Config` fields, with 0 meaning unlimited.
- The header that declares `MountPointsCallbacks` is not part of this model. The callback is modelled as a pure `(string, string) -> bool`.
- Logging is a side effect only and is not modelled.
- Concurrency is not modelled. The code takes no lock, and each entry point is treated as atomic.
- `RestreamServer/Server.h` declares types only and holds no logic to model.
- MountPoints.Reference: a count is a `nat`. The source's `uint32_t` count would wrap to 0 after 2^32 increments, which repeated requests could reach only without a per-path cap.
- MountPoints.Reference: the `uint64_t` channel counter is a `nat`. The source's counter would wrap only after 2^64 mount-point creations.
- MountPoints.ClientClosed: it visits the client's paths in an arbitrary order, while `std::set` visits them in sorted order. The result does not depend on the order.
- Invariant.MakePathPreservesInv: the invariant needs request paths without `?`, which the framework's URL parser guarantees for `abspath`. The parser itself is not modelled.

## Findings

| source | as written | input that shows it | evidently intended | confidence | as-written member | corrected member |
|---|---|---|---|---|---|---|
| RestreamServer/RtspMountPoints.cpp:242-243 | every admitted request for a counted path adds one to its count, even when the client already holds it; `addPathRef` only feeds the assertion | client A requests `/cam1` twice, then disconnects (the leak shows whenever a client resolves the same path more than once): `/cam1` stays counted at 1 and mounted with no holder, and it keeps its slot under the path cap | count each (client, path) pair once, so the last holder's disconnect unmounts the path | not executed; high | Findings.RepeatRequestLeaksMount | Findings.MakePathCorrected |
| RestreamServer/RtspMountPoints.cpp:192-194 | the per-path cap is checked before looking at the client, so it also refuses the client that holds the path | with one client per path, A requests `/cam1` twice: the second request is refused | refuse only clients that do not hold the path yet | not executed; medium | Findings.CapRefusesOwnHolder | Findings.MakePathCorrected |

The main model (`MountPoints.MakePath`) keeps the behaviour as written, because it is the subject of the model. `Findings.MakePathCorrected` is the corrected admission. It is proved to keep the invariant, and `Findings.CorrectedRunReleasesEverything` proves it keeps counts exact and leaves nothing mounted once every client has left.

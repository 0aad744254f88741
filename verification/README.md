# Verified model of the window session, compositor and multiplex router

This project models, in Dafny, the state machines of a macOS Wayland compositor that also
mirrors remote windows over RDP, and proves what they keep over every run. The code is in
four parts.

**Remote windows (RAIL).** Window orders arrive in any order. A router classifies each
window as mirrored or filtered and demotes windows found to be frames (`RailGeometry`,
`RailRouter`, `RailRouterRuns`, `RailOrderIndependence`). The C bridge keeps a fixed table
of windows and one of frames that arrived before their surface was mapped, and turns
verdicts into callbacks (`RailBridge`, `RailTitle`, `RailFrame`, `RailCalls`). The Rust
callbacks defer windows without a size and list the live ones (`RailClient`). `RailSession`,
`RailLive` and `RailHeld` prove that the three layers agree on every run, and
`RailDisconnect` what holds over one session after another, each on a bridge that starts
afresh: which windows are live, how often each is destroyed, and which sizes outlive their
session. `RailWire`, `RailOrders`, `RailPixels` and `RailNative` read the same runs off the
fields of the orders, without the router's own functions: the window table and the callbacks
of each order, where pixels go and how they are cut, and what is posted in points.

**Wayland windows.** `Compositor` specifies surfaces, their roles, subsurfaces, docked bars
and the pointer; `CompositorServer` is the same state updated in place, every method proved
against the specification. Over all runs of requests and input (`CompositorRun`) the command
stream is proper (`CompositorLifecycle`), a commit sends what the stream itself calls for
(`CompositorCommit`), registrations are exactly known (`CompositorRegistry`), insets are
coherent (`CompositorInsets`), subsurfaces resolve along their path on every parent graph
(`CompositorSubsurface`), and the pointer protocol holds (`CompositorPointer`), with the exact
condition for a message to name a destroyed surface (`CompositorOrphans`). Six modules
describe every run by its requests alone: what attaches leave for a commit and what it then
sends (`CompositorStaging`), what every other request sends (`CompositorReplies`), which
objects there are and which ids, surfaces and parents they hold (`CompositorRoles`,
`CompositorRecords`), anchors, zones, positions and the cursor (`CompositorSettings`), and
exactly which message each pointer receives of an input (`CompositorDelivery`). `CompositorFrames` is what each operation leaves alone.

**One process or many.** `CompositorLog` is what a run tells the window hosts. `Multiplex` and
`MultiplexStreams` prove that the per-application hosts together hold the windows one process
would, `MultiplexDelivery` which hosts each command reaches and how each was started, and
`Framing` that the socket framing round-trips, also when cut.

**Smaller cores.** `PrimarySelection` and `PrimarySelectionServer`, with what each device hears
of a request in `PrimarySelectionDelivery`; popup `Placement`; and the `Pixels` path from the
shared pool to 16-bit colour.

State the program updates in place is a class whose methods end in the state a pure
specification function gives (`St() == F(old(St()), ...)`); theorems are lemmas about these
functions and about runs, which are folds of the step function over an event sequence.
Machine integers that may wrap are written out (`WrapI32`, `WrapU32`).

Some promises hold only under a condition, and the condition is proved exact:

- A mirrored window with a size is live, except when a create order repeated for a known
  window brings its first size and leaves it mirrored: the bridge then makes no callback
  (`csrc/rail_bridge.c:226-235`). `RailLive.AlwaysLiveIff` is exact over whole runs, and
  `RailLive.RepeatedCreateNotLive` is such a session.
- The comment at `src/rail.rs:378-379` says that draining the live list stops a late delete
  from destroying twice. `on_window_delete` (`src/rail.rs:275-283`) posts a Destroy without
  looking at the list; the model follows the code (`RailClient.DeleteTargetsShown`). This is
  a fact about the two callback functions: the bridge calls nothing after its disconnect
  (`csrc/rail_bridge.c:853-856`, `887-893`), so no run of the program delivers such a delete.
- The end of a session empties the live list but not the record of window sizes
  (`src/rail.rs:376-385`). A window that a later session announces without a size is presented
  at the old one until it gets a size or is deleted (`RailDisconnect.DeferredPresent`,
  `OldSizePresented`). The program as it stands runs one session (`src/rail.rs:474-504`); the
  theorems cover any number, since the reset at a session's start is there for a reconnect
  (`src/rail_route.rs:283-284`).
- Destroying a `wl_surface` drops its toplevel record but not the window's registration
  (`src/wayland/compositor.rs:83-89`), and the registration then stays for good
  (`CompositorRegistry.NoLeakIff`, and `SurfaceFirstLeaks` for the requests that do it).
  Pointer messages can then name a destroyed surface, and so they can when a popup's surface
  is destroyed before the popup (`CompositorOrphans.RunNamesDestroyedIff`).
- The comment at `src/wayland/mod.rs:239-244` says that the checks on a buffer's fields keep
  a client from taking the compositor down. The bytes are allocated before the pool's size is
  looked at (`:258-263`), so fields that pass the checks can ask for about 2^62 bytes of a
  one-page pool. That aborts the process unless there is room for the largest such request
  (`Pixels.NeverAbortsIff`, `HugeAborts`).
- The guards at `src/mac.rs:2439-2446` multiply in 32 bits. Alone they admit a width whose
  row overflows (`Pixels.GuardsCoverIff`); buffers copied from a pool never have one
  (`Pixels.CopiedIsSafe`).
- Window id 0 can be mirrored but never gets pixels (`RailHeld.NeverToZero`,
  `ZeroGetsNothing`), because the router answers 0 for "no window" across the C interface.
- A popup whose parent is not open is registered with no host; the hosts hold what one
  process would throughout iff every commit that opens a popup finds its parent shown
  (`MultiplexStreams.CompositorOrderlyIff`, and `CompositorLog.OrphanPopupFails`).

## Model

| member | source | states |
|---|---|---|
| RailGeometry.CoversMeaning | src/rail_route.rs:77-97 | for rectangles whose edges do not overflow, covering is: both areas positive, at least 4/5 of the owner's area, and inside the owner grown by 8 on each side |
| RailGeometry.CoversWrapped | src/rail_route.rs:77-97 | for all rectangles, the same with each edge that leaves the 32-bit range counted at its other end; an empty rectangle neither covers nor is covered |
| RailGeometry.CoveringChildrenOverlap | src/rail_route.rs:51-58 | two children that both cover an owner of at least 64 by 64 share area |
| RailGeometry.TwoChildrenIff | src/rail_route.rs:51-58 | an owner can have two covering children that do not overlap iff half of the owner, grown by the slack, is large enough to cover it |
| RailRouter.SoleId | src/rail_route.rs:251-254 | the only window when there is exactly one |
| RailRouter.OnlyOwnerExposed | src/rail_route.rs:172-204 | an order can turn no mirrored window other than the ordered window's owner into a covered frame |
| RailRouter.OrderKeepsSound | src/rail_route.rs:160-212 | no mirrored window owns a window that covers it, kept by every order, geometry-only ones and owner changes included |
| RailRouter.DeleteKeepsSound | src/rail_route.rs:220-227 | the same is kept by a delete |
| RailRouter.OrderReadsWindowsOnly | src/rail_route.rs:176-212 | an order's verdict and new table do not depend on surface maps or queued demotions |
| RailRouter.OrderEffect | src/rail_route.rs:176-212 | the mirrored set changes by exactly the verdict and at most one demotion; the demoted id was mirrored, is not 0 and is not the ordered id; each verdict tells whether the window was mirrored before |
| RailRouter.KnownMirrorIff | src/rail_route.rs:176-212 | an order keeps a mirrored window mirrored iff its style will not make it decoration and no window it owns covers the new rectangle |
| RailRouterRuns.RouterOfRun | src/rail_route.rs:172-237 | on every run of the router alone no mirrored window owns one that covers it, and every queued demotion is of a known window other than 0 |
| RailRouterRuns.DeletedStaysGone | src/rail_route.rs:214-256 | after a delete, until the window is ordered again and whatever else happens, it is not queued and is no surface's answer |
| RailRouter.Router.Order | src/rail_route.rs:176-212 | the in-place update gives the verdict and state of the specification the theorems are about |
| RailRouter.Router.Pop | src/rail_route.rs:214-218 | takes the last queued demotion, or reports none |
| RailRouter.Router.Delete | src/rail_route.rs:220-227 | removes the window, its surface mappings and its queued demotions, and reports whether it was mirrored |
| RailRouter.Router.MapSurface | src/rail_route.rs:229-232 | only the surface's mapping changes |
| RailRouter.Router.UnmapWindow | src/rail_route.rs:234-237 | exactly the mappings to the window go |
| RailOrderIndependence.FinalTable | src/rail_route.rs:160-212 | after announcing each window of a set once, in any order, a window is filtered iff its style is decoration or another announced window names it as owner and covers it |
| RailOrderIndependence.ArrivalOrderIrrelevant | src/rail_route.rs:160-212 | two arrival orders of the same announcements end in the same window table |
| RailTitle.TitleUtf8 | csrc/rail_bridge.c:129-155 | the write index stays within 3 bytes a unit plus the terminator, and the bytes written are the encoding of the units before the first NUL |
| RailTitle.NoEarlyNul | csrc/rail_bridge.c:137-153 | no byte before the terminator is 0, so a C string reader sees the whole title |
| RailTitle.EncodeDecodes | csrc/rail_bridge.c:137-152 | without surrogates, the output is well-formed by the UTF-8 grammar of sections 3 and 4 of RFC 3629 and decodes to the same units |
| RailTitle.TitleRoundTrip | csrc/rail_bridge.c:129-155 | for every input without surrogates before the first NUL, decoding the converted title gives exactly those units |
| RailTitle.TitleOfBytes | csrc/rail_bridge.c:129-155 | for every byte string: the title decodes to the characters the bytes spell, low byte first, up to the first NUL or the end, or is not well formed if one of them is a surrogate |
| RailFrame.CropCopy | csrc/rail_bridge.c:334-342 | the row loop builds the cropped image and stays inside both buffers |
| RailFrame.CropAt | csrc/rail_bridge.c:334-342 | byte k of row r of the crop is byte k of row r of the original |
| RailFrame.Cropped | csrc/rail_bridge.c:328-346 | cropped to the window's size exactly when that is a proper non-empty part, else unchanged |
| RailFrame.CroppedPixel | csrc/rail_bridge.c:328-346 | every byte of every pixel that survives a crop is the original one |
| RailClient.Client.OnCreate | src/rail.rs:185-203 | a 0x0 window is deferred, any other is spawned |
| RailClient.Client.OnUpdate | src/rail.rs:205-240 | the first real size of a deferred window spawns it; later updates move it |
| RailClient.Client.OnTitle | src/rail.rs:242-247 | posts the title, live or not |
| RailClient.Client.OnDelete | src/rail.rs:275-283 | the window leaves the live list and a Destroy is posted, live or not |
| RailClient.Client.OnSurface | src/rail.rs:285-325 | an empty frame is dropped, any other is posted |
| RailClient.Client.OnDisconnected | src/rail.rs:376-385 | the list is emptied and each listed window destroyed, in order |
| RailClient.ClientAgrees | src/rail.rs:148-283 | on every well-formed callback stream the live list has no duplicates, lists only open windows and is exactly what is shown natively, and no window is created while shown |
| RailClient.LiveIffSized | src/rail.rs:194-226 | a window is live iff it is open and has had a non-zero size since its creation |
| RailClient.DisconnectClosesAll | src/rail.rs:376-385 | after a disconnect nothing is live and nothing is shown |
| RailClient.LateDeleteDestroysAgain | src/rail.rs:275-283 | the two callback functions called one after the other post a second Destroy, against the comment at the drain; no run of the bridge calls anything after a disconnect |
| RailClient.DeleteTargetsShown | src/rail.rs:275-283 | a delete's Destroy names a shown window iff the window has had a size; called after a disconnect it never would |
| RailClient.PresentTargetsShown | src/rail.rs:285-325 | pixels of an open window reach a shown native window iff the window has had a size |
| RailNative.PointsSpan | src/rail.rs:148-151 | an extent in points is the number of whole points that fit into it, at least one; extents of 2^31 and more count as one |
| RailNative.PostsOfRun | src/rail.rs:148-325 | over any sessions a callback posts exactly the commands its fields call for, in points: creates and moves by whether the present session has the window open and sized, frames at the size given last |
| RailBridge.RailContext.WinFind | csrc/rail_bridge.c:103-108 | the first used slot with the id, or none |
| RailBridge.RailContext.WinAlloc | csrc/rail_bridge.c:110-123 | the known slot, else the first free one cleared for the id, else none |
| RailBridge.RailContext.RouteWindowOrder | csrc/rail_bridge.c:188-224 | the verdict's callback, then a delete for each demoted window drained from the router |
| RailBridge.RailContext.WindowCreated | csrc/rail_bridge.c:226-235 | the in-place create order against its specification |
| RailBridge.RailContext.WindowUpdated | csrc/rail_bridge.c:237-260 | the in-place update order against its specification; an unknown window is created |
| RailBridge.RailContext.WindowDeleted | csrc/rail_bridge.c:262-274 | the slot is freed and a delete is called iff the window was mirrored |
| RailBridge.RailContext.PendingSlot | csrc/rail_bridge.c:278-295 | the surface's slot and the first free slot |
| RailBridge.RailContext.PendingClear | csrc/rail_bridge.c:297-305 | exactly the surface's held frame is released |
| RailBridge.RailContext.PendingSet | csrc/rail_bridge.c:307-322 | the surface's held frame is replaced, or put in the first free slot, or dropped when the table is full |
| RailBridge.RailContext.EmitSurface | csrc/rail_bridge.c:324-346 | the frame reaches the window cropped to its tracked size |
| RailBridge.RailContext.UpdateSurfaceArea | csrc/rail_bridge.c:355-379 | resolved frames are delivered and free the held one, others are held |
| RailBridge.RailContext.MapWindowForSurface | csrc/rail_bridge.c:389-406 | the mapping is recorded and a held frame delivered or dropped |
| RailBridge.RailContext.UnmapWindowForSurface | csrc/rail_bridge.c:408-413 | the window's mappings go |
| RailBridge.Callbacks.DrainDemoted | csrc/rail_bridge.c:217-222 | the drain stops at an empty queue or at the id 0 |
| RailSession.UsedIdsBounded | csrc/rail_bridge.c:103-123 | no more ids than slots |
| RailSession.RouteKeeps | csrc/rail_bridge.c:188-224 | after one routed order and its drain, open windows equal mirrored windows again and no demotion is left queued |
| RailSession.RunKeeps | csrc/rail_bridge.c:226-274 | the invariant of every run of create, update and delete orders, paints, maps and unmaps |
| RailSession.SessionStream | csrc/rail_bridge.c:188-274 | on every run no live id is created again, no other id is deleted, and the windows created and not deleted since are exactly the router's mirrored ones |
| RailSession.LayersAgree | csrc/rail_bridge.c:103-123 | used slots have distinct ids equal to the router's keys, so at most 256 windows; the live list is duplicate-free, within the mirrored ids and equal to what is shown; a disconnect leaves nothing shown |
| RailLive.CreateKeepsSizedLive | csrc/rail_bridge.c:226-235 | from a state where every sized mirrored window is live, a create order keeps that iff it does not repeat a known window without a size, bring it one and leave it mirrored; the condition reads only the state before the order |
| RailLive.UpdateKeepsSizedLive | csrc/rail_bridge.c:237-260 | an update order always keeps it |
| RailLive.AlwaysSizedLiveIff | csrc/rail_bridge.c:226-274 | along a run it holds at every moment iff no create order of the run meets that condition |
| RailLive.AlwaysLiveIff | src/rail.rs:194-226 | the same for the Rust side's live list, which holds every sized mirrored window after each order iff no create order meets the condition |
| RailLive.MirroredSizedIsLive | csrc/rail_bridge.c:226-274 | if no create order repeats a known window, every mirrored window with a non-zero tracked size is live |
| RailLive.AnnouncedLive | src/rail.rs:194-226 | after at most 256 windows are announced once each, the live ones are exactly the mirrored ones announced with a size |
| RailLive.SessionOrderIrrelevant | csrc/rail_bridge.c:188-260 | whole sessions that announce the same windows once, in any order, by create or update orders, end with the same router table and live windows |
| RailLive.RepeatedCreateNotLive | csrc/rail_bridge.c:226-235 | the failing case itself: a repeated create order that brings the first size leaves a mirrored, sized window without a native one |
| RailHeld.HeldFrames | csrc/rail_bridge.c:279-379 | on every run every frame delivered is one that arrived, cropped to the size tracked for its window at that moment, and names a window mirrored then; the frames delivered for a surface are in order of arrival; each surface holds at most one frame, and that is its newest arrival |
| RailHeld.MapDeliversHeld | csrc/rail_bridge.c:389-406 | mapping a surface to a window delivers the held frame to it iff the window is mirrored and not 0, and holds nothing for the surface afterwards |
| RailHeld.PaintOutcome | csrc/rail_bridge.c:355-379 | an arriving frame is delivered iff it resolves, and else held iff its surface has a slot or one is free |
| RailHeld.NeverToZero | csrc/rail_bridge.c:367-374 | on every run no frame is delivered to window 0 |
| RailHeld.ZeroGetsNothing | csrc/rail_bridge.c:367-374 | the failing case itself: window 0 is mirrored and open and the router finds it, but its surface's frame is not delivered |
| RailWire.AnnouncedTable | csrc/rail_bridge.c:193-222 | after at most 256 windows were announced once each, by create or update orders in any arrival order, a window is filtered iff its order's fields make it a decoration or some other order's fields make that one its content; the others are open, and live natively iff their order brought a size |
| RailOrders.OrderRule | src/rail_route.rs:160-212 | for every order and table, by the order's fields: the owner, rectangle and kind filed for its window, and exactly which other windows become frames |
| RailOrders.StepTable | csrc/rail_bridge.c:159-274 | so in every session: an order that finds no free slot and all other events but deletes leave the window table alone |
| RailOrders.GeometryOfRun | csrc/rail_bridge.c:159-184 | on every run the slot of a window holds the offset and size the orders last gave it since it has its slot, 0 where they gave none |
| RailOrders.AnswersOfRun | csrc/rail_bridge.c:188-260 | on every run the callbacks of an order are, in this order, the create or delete of its own window, with the geometry and title the orders gave, the delete of the window it shows to be a frame, and a title and a geometry update for a known window that stays mirrored |
| RailPixels.MapOfRun | src/rail_route.rs:229-237 | on every run a surface is mapped to the window it was last mapped to, until that window is unmapped or deleted |
| RailPixels.ResolveAims | src/rail_route.rs:244-256 | the mapped window first, without a mapping the one the surface itself names, and only if it names none the one known window; each only while mirrored |
| RailPixels.PaintGoes | csrc/rail_bridge.c:355-379 | after every run a painted frame goes, cut to the size the orders gave, to the window the mappings and orders mean it for iff that is open and not 0, and otherwise nowhere |
| RailPixels.MapGoes | csrc/rail_bridge.c:389-406 | after every run, mapping a surface that holds a frame delivers it to the window named, cut to that window's size, iff that is open and not 0 |
| RailRouter.Router.Reset | src/rail_route.rs:281-288 | nothing of the routing state is left |
| RailBridge.RailContext.constructor | csrc/rail_bridge.c:722-742 | a session starts on cleared routing state and zeroed tables, while the Rust side keeps what earlier sessions left it |
| RailBridge.RailContext.SessionEnded | csrc/rail_bridge.c:887-893 | the end is the session's last callback, and the Rust side drains its live list |
| RailBridge.NextSession | csrc/rail_bridge.c:722-742 | whatever the last session held, the next starts on reset tables and the Rust side goes on from the last one's end |
| RailDisconnect.LiveIffSizedSince | src/rail.rs:194-226 | over any number of sessions, each well formed by itself, a window is live iff the present session has it open and gave it a size since it created it |
| RailDisconnect.DestroysOfRun | src/rail.rs:275-283 | over any number of sessions a window receives one Destroy for each delete naming it and one for each end while it is live; those that find it shown are the ends and the deletes that come while it is live; and each create was so closed or is still shown |
| RailDisconnect.DestroysOfSession | csrc/rail_bridge.c:722-742 | the same for all sessions of window orders, surface events and ends, each on a bridge that starts afresh; what is shown is the live list, and a window is live iff the present session's router mirrors it and this session gave it a size since it created it |
| RailDisconnect.RecordIsLastSize | src/rail.rs:376-385 | the record of sizes is not drained at an end: it holds a window's last size until a delete, whatever sessions ended in between |
| RailDisconnect.DeferredPresent | src/rail.rs:298-306 | pixels for a window still waiting for its first size go to a window not shown, at the size an earlier session left on record for it or else at the frame's own |
| RailDisconnect.OldSizePresented | src/rail.rs:298-306 | the case itself: a second session announces the window without a size and its pixels are presented at the first session's size |
| CompositorServer.Server.AllocWindow | src/wayland/mod.rs:666-670 | window ids are consecutive, and the new one is registered for its surface |
| CompositorServer.Server.GetToplevel | src/wayland/xdg_shell.rs:114-138 | against its specification: a fresh window id, an unconfigured and uncreated record, both indices |
| CompositorServer.Server.GetPopup | src/wayland/xdg_shell.rs:139-196 | likewise, with the parent's window or 0 |
| CompositorServer.Server.GetLayer | src/wayland/layer_shell.rs:38-59 | likewise, with no anchor and no exclusive zone |
| CompositorServer.Server.ReapToplevel | src/wayland/mod.rs:848-859 | record, surface entry and registration go, and a created window is destroyed; an unknown id changes nothing |
| CompositorServer.Server.ReapPopup | src/wayland/mod.rs:897-910 | likewise, destroying the window even if it was never created |
| CompositorServer.Server.ReapLayer | src/wayland/mod.rs:1058-1071 | likewise for a bar, republishing the insets even for an unknown id |
| CompositorServer.Server.Grab | src/wayland/xdg_shell.rs:213-222 | a grab names the popup's window |
| CompositorServer.Server.SetAnchor | src/wayland/layer_shell.rs:81-87 | the anchor changes and the insets are published again |
| CompositorServer.Server.SetExclusive | src/wayland/layer_shell.rs:96-99 | the zone changes and the insets are published again |
| CompositorServer.Server.RecomputeReserved | src/wayland/mod.rs:1073-1100 | for every order in which the bars come, each inset is the largest zone reserved at its edge |
| CompositorServer.Server.GetSub | src/wayland/compositor.rs:172-200 | a surface that is its own parent is rejected, any other gets a record at (0, 0) and an id |
| CompositorServer.Server.SetPosition | src/wayland/compositor.rs:218-225 | only the position of that record changes |
| CompositorServer.Server.WindowForSurface | src/wayland/mod.rs:1249-1258 | the toplevel's window, else the popup's, created or not |
| CompositorServer.Server.ResolveSubsurface | src/wayland/mod.rs:1172-1199 | the loop terminates on every parent graph and returns what the recursive walk does |
| CompositorServer.Server.ReapSub | src/wayland/mod.rs:1201-1215 | the sublayer is removed from the window found before the record goes |
| CompositorServer.Server.PresentSub | src/wayland/mod.rs:1217-1247 | a frame on the resolved window at the summed offset, or nothing |
| CompositorServer.Server.Attach | src/wayland/compositor.rs:64-71 | the buffer and the attach mark are staged on a known surface only |
| CompositorServer.Server.Configure | src/wayland/mod.rs:714-782 | the first commit configures every role record of the surface |
| CompositorServer.Server.PresentToplevel | src/wayland/mod.rs:938-996 | the first frame creates the window, then every frame is posted |
| CompositorServer.Server.PresentPopup | src/wayland/mod.rs:998-1055 | likewise under its parent |
| CompositorServer.Server.PresentLayer | src/wayland/mod.rs:1104-1170 | likewise for a bar |
| CompositorServer.Server.Unmap | src/wayland/mod.rs:884-895 | a created popup is hidden and keeps its window id |
| CompositorServer.Server.ShowBuffer | src/wayland/mod.rs:784-819 | cursor, subsurface, bar, then toplevel or popup, in that order |
| CompositorServer.Server.Commit | src/wayland/mod.rs:698-831 | the staged buffer is taken once; a null attach unmaps, a plain commit does not |
| CompositorServer.Server.LoseToplevel | src/wayland/compositor.rs:83-89 | the toplevel record goes with its surface, its registration stays |
| CompositorServer.Server.DestroySurface | src/wayland/compositor.rs:81-100 | the roles are dropped in the source's order; a popup is left to its own object |
| CompositorServer.Server.SetCursor | src/wayland/seat.rs:75-98 | a buffer already staged becomes the cursor at once |
| CompositorServer.Server.SendEach | src/wayland/mod.rs:1512-1520 | one message to every pointer of the surface's client, in order |
| CompositorServer.Server.EnsureFocus | src/wayland/mod.rs:1260-1285 | the old surface is left if still registered, the new one entered, unless focused already |
| CompositorServer.Server.OnMotion | src/wayland/mod.rs:1292-1304 | an enter is made sure of before the motion |
| CompositorServer.Server.OnButton | src/wayland/mod.rs:1305-1328 | an enter is made sure of before the button |
| CompositorServer.Server.OnLeave | src/wayland/mod.rs:1340-1357 | a stale leave is dropped, and so is one for an unregistered window |
| CompositorLifecycle.DestroySurfaceKeeps | src/wayland/compositor.rs:81-100 | destroying a surface in any state of its roles keeps the stream invariant and the links |
| CompositorLifecycle.CommitKeeps | src/wayland/mod.rs:698-831 | so does every commit |
| CompositorLifecycle.RunKeeps | src/wayland/mod.rs:698-910 | the invariant of every run of client requests and input |
| CompositorLifecycle.WindowStream | src/wayland/mod.rs:698-1056 | on every run frames go only to open windows, an open id is not created again, the open ids are exactly those of records marked created, which are configured, and every surface's role entry has a record, so the direct indexing cannot miss |
| CompositorLifecycle.AllGoneAllClosed | src/wayland/mod.rs:848-910 | once every toplevel, popup and layer-surface object is gone no window is open |
| CompositorCommit.CommitPaints | src/wayland/mod.rs:784-819 | a readable buffer on a surface with a window is shown by one frame, after opening the window iff the command stream has it closed, and the window is open afterwards |
| CompositorCommit.CommitHides | src/wayland/mod.rs:820-831 | a commit without a buffer sends nothing, except that a null attach closes the surface's popup iff the stream has it open |
| CompositorCommit.CommitUnreadable | src/wayland/mod.rs:912-916 | an unreadable buffer sends nothing |
| CompositorCommit.CommitComposites | src/wayland/mod.rs:1217-1247 | a readable buffer on a subsurface goes to the nearest windowed ancestor's window at the summed positions, or nowhere when there is none |
| CompositorCommit.ReapRemoves | src/wayland/mod.rs:1201-1215 | destroying a subsurface removes its layer from the window its path led to, or sends nothing |
| CompositorCommit.RunCommitPaints | src/wayland/mod.rs:784-819 | the same in every reachable state, where the surface's role always has its record |
| CompositorStaging.StagedOfRun | src/wayland/compositor.rs:64-71 | on every run what a commit finds staged is what the last attach brought since the surface's creation and its last commit, less a buffer the cursor has used |
| CompositorStaging.CommitOfRun | src/wayland/mod.rs:698-831 | on every run a commit sends exactly what that last attach calls for, by the surface's part at that moment, so a buffer counts once |
| CompositorStaging.CommitEffects | src/wayland/mod.rs:784-831 | on every run a commit paints in a window iff the last attach brought a readable buffer and the surface has that window, and closes one iff the last attach brought no buffer, or one the cursor has used since, and the surface's popup is open |
| CompositorReplies.RepliesOfRun | src/wayland/mod.rs:848-910 | on every run each other request sends exactly these commands: the ends of toplevels and bars close open windows only, those of popups always, a subsurface's end removes its layer where its path leads, and the cursor requests show or hide it |
| CompositorReplies.EndsOfRun | src/wayland/compositor.rs:81-100 | on every run the end of a surface closes its toplevel, then removes its layer from the window its path then leads to, then closes its bar, and leaves its popup alone |
| CompositorRecords.IdsOfRun | src/wayland/mod.rs:666-670 | on every run the next id is one more than the requests that took one |
| CompositorRecords.RequestMakes | src/wayland/xdg_shell.rs:114-196 | on every run each request for a toplevel, popup or bar makes that object with the surface it names and the id then due |
| CompositorRoles.RolesOfRequests | src/wayland/xdg_shell.rs:114-196 | on every run, by the requests alone: which toplevels, popups, bars and subsurfaces have a record, on which surface, and which of them each surface leads to, the one last made on it until one made on it goes; a surface takes all but its popup along |
| CompositorRecords.RolesOfRun | src/wayland/xdg_shell.rs:165-190 | on every run each role object holds the surface and id of the request that made it, and a popup the window then recorded for the parent surface's toplevel, without a toplevel for its popup, and 0 with neither |
| CompositorRecords.WindowsOfRun | src/wayland/mod.rs:666-670 | on every run a registered window is registered for the surface of the request that took its id |
| CompositorSettings.DocksOfRun | src/wayland/layer_shell.rs:80-99 | on every run a bar has the anchor and zone last requested since it was made |
| CompositorSettings.SubsOfRun | src/wayland/compositor.rs:172-225 | on every run a subsurface has the surface, parent and id of the request that made it and the position last requested for it since |
| CompositorSettings.CursorOfRun | src/wayland/seat.rs:75-98 | on every run the cursor surface is the one named last, unless it was hidden or destroyed since |
| CompositorInsets.InsetsCoherent | src/wayland/mod.rs:1073-1100 | in every reachable state each published inset is the largest positive zone over the bars anchored to that edge and not the opposite one |
| CompositorSettings.InsetsOfRequests | src/wayland/mod.rs:1073-1100 | the same read off the requests and the raw anchor bits: on every run each inset is the largest zone last requested for a bar still there whose last anchor has that edge's bit and not the opposite one's |
| CompositorRegistry.RegistrationsOfRun | src/wayland/compositor.rs:83-89 | on every run a window is registered iff a role object has it or its toplevel's surface was destroyed before the toplevel object |
| CompositorRegistry.NoLeakIff | src/wayland/compositor.rs:83-89 | every registered window has a role object iff no request of the run destroyed a surface whose toplevel object still existed |
| CompositorRegistry.SurfaceFirstLeaks | src/wayland/compositor.rs:83-89 | the failing case itself: a surface destroyed before its toplevel leaves a registered window without a role object |
| CompositorOrphans.DestroyOrphans | src/wayland/compositor.rs:81-100 | destroying a surface leaves every window registered for it without one, a toplevel's or a popup's, except that of its layer object |
| CompositorOrphans.NamesDestroyedIff | src/wayland/mod.rs:1260-1357 | in every state, some input makes a pointer message name a destroyed surface iff a window is registered for such a surface and its client has a pointer |
| CompositorOrphans.RunNamesDestroyedIff | src/wayland/mod.rs:1260-1357 | after every run, iff a window is still registered for a surface the requests created and destroyed, or never created, and its client has a pointer |
| CompositorOrphans.ToplevelOrphan | src/wayland/compositor.rs:83-89 | the case itself for a toplevel: motion in its window enters and moves on the destroyed surface |
| CompositorOrphans.PopupOrphan | src/wayland/compositor.rs:81-100 | and for a popup, whose registration goes only with its own object |
| CompositorSubsurface.WalkIsPath | src/wayland/mod.rs:1178-1198 | from any point of the walk, the rest of it finds the nearest windowed ancestor with the summed offset, or there is none |
| CompositorSubsurface.ResolveIsPath | src/wayland/mod.rs:1172-1199 | something is returned iff some proper ancestor is windowed, and then it is the nearest one's window, the sum of positions up to it in 32 bits, and the subsurface's own id |
| CompositorSubsurface.LoopIsNowhere | src/wayland/mod.rs:1178-1188 | a chain that loops below every window resolves to nothing |
| CompositorSubsurface.WindowForRecorded | src/wayland/mod.rs:1249-1258 | a surface's window is the one recorded for its toplevel entry, without such an entry the one of its popup entry, and none otherwise |
| CompositorPointer.RunKeepsProtocol | src/wayland/mod.rs:1260-1357 | on every run the pointers of a focused registered window's client are inside its surface, and a pointer inside a registered window is inside the focused one |
| CompositorPointer.PointerProtocol | src/wayland/mod.rs:1264-1357 | every message of every step is legal: a motion or button goes to the surface last entered, a leave names the surface the pointer is in, an enter finds the pointer outside or in a window no longer registered |
| CompositorPointer.DeliveredInside | src/wayland/mod.rs:1291-1328 | read over a whole run, every motion and button finds its pointer inside its surface |
| CompositorDelivery.InputReaches | src/wayland/mod.rs:1260-1357 | in every state with distinct pointers: each pointer receives exactly this of an input: a leave of the focused registered window, an enter of a registered window that was not focused, and one motion or button last; pointers of other clients receive nothing of it |
| CompositorDelivery.InputReachesOfRun | src/wayland/mod.rs:1260-1357 | so on every run, and the focus moves to the registered window, or away on a leave of it |
| CompositorDelivery.ButtonReaches | src/wayland/mod.rs:1305-1328 | a button in a registered window gives each pointer of its surface's client exactly one button on that surface, last, and no motion, and other pointers no delivery |
| CompositorDelivery.RequestsReachNone | src/wayland/mod.rs:1260-1357 | requests send pointers nothing and leave the focus where it is |
| Multiplex.Router.AssignWindow | src/router.rs:88-105 | against its specification; a failed spawn leaves the window unassigned |
| Multiplex.Router.Post | src/router.rs:107-155 | against its specification: broadcast, or delivery to the window's host, registering popups and retiring the host with its last window |
| Multiplex.Router.BroadcastInsets | src/router.rs:157-168 | every running host gets the insets, which are kept for later ones |
| Multiplex.HostsSimulateOneProcess | src/router.rs:107-155 | on every orderly run each window is in its host's table exactly when one process would have it, with the same commands since its creation, and hosts exist for exactly the applications that have a window |
| Multiplex.HostsDisjoint | src/router.rs:107-155 | a window is in at most one host's table |
| Multiplex.RunTidy | src/router.rs:138-151 | on every run a host's messages start with Hello, and Shutdown is the last message of a retired host and of no other |
| Multiplex.ShutdownExactly | src/router.rs:137-151 | a host is retired exactly when a command destroys its application's last window, and then gets that Destroy and Shutdown |
| MultiplexDelivery.PostReaches | src/router.rs:107-200 | in every state each running host receives a posted command once or not at all: cursors and the end of a grab go to all, a grab to the host of the window that has it, a popup's creation to its parent's host, subsurface commands to the host of the window they act on, any other to its window's; a host ends only by a destroy it receives, followed by Shutdown |
| MultiplexDelivery.PostReassigns | src/router.rs:119-141 | a popup joins its parent's application, a destroyed window leaves its own, and no other window moves; no command starts a host |
| MultiplexDelivery.GreetingOfRun | src/router.rs:88-105 | on every run a host's log starts with the greeting of the assignment that started it, with that application's name and the insets of that moment |
| Multiplex.RunInsets | src/router.rs:157-168 | on every run all hosts that have read their queue hold the same insets, those spawned later by their Hello |
| Multiplex.AssignKeepsHostsMatch | src/router.rs:90-105 | an assignment keeps hosts equal to applications with windows iff it does not move an application's only window away |
| Multiplex.AppKeysStayDistinct | src/wayland/mod.rs:1537-1552 | one request keeps every key given so far and gives no other client's key |
| Multiplex.KeysOfRun | src/wayland/mod.rs:1537-1552 | over any series of requests two clients have the same key iff they are the same client, and a request without a client gets 0 |
| CompositorLog.LogOfRun | src/wayland/mod.rs:1060-1100 | what a run tells the hosts, commands and inset broadcasts in order, has exactly the posted commands, and the insets broadcast last are the current ones |
| CompositorLog.ParentedIff | src/wayland/mod.rs:784-819 | the posted stream opens every popup under an open window iff every commit that opens one, at its first buffer or its first since it was hidden, finds an object showing the window recorded as its parent |
| CompositorLog.OrphanPopupFails | src/wayland/xdg_shell.rs:139-190 | the failing case itself: a popup made without a parent and given a buffer |
| MultiplexStreams.CompositorOrderlyIff | src/router.rs:88-168 | the steps of every compositor run, inset broadcasts included, are orderly iff every commit that opens a popup finds its recorded parent shown, and that is exactly when the hosts hold the windows one process would throughout |
| MultiplexStreams.HostsHaveInsets | src/router.rs:157-168 | after every compositor run every host that has read its queue holds the compositor's current insets, whenever it was started |
| MultiplexStreams.RemoteSimulates | src/rail.rs:148-183 | the steps of every stream of remote windows are orderly, so the hosts hold exactly the windows one process would |
| Framing.LeRoundTrip | src/ipc.rs:70-91 | a length survives its four little-endian bytes |
| Framing.FrameBytes | src/ipc.rs:64-78 | a frame is its length in four bytes, low byte first, and the payload; a payload of 2^32 bytes or more has none |
| Framing.Reader.Read | src/ipc.rs:84-97 | the stateful reader against its specification: a message, end, or an error, and what is left unread |
| Framing.PrefixReads | src/ipc.rs:64-97 | over any byte prefix of encoded messages, exactly the complete ones are read, then end if the cut is at a boundary or in a header, or an error if in a payload |
| Framing.StreamReads | src/ipc.rs:64-97 | over whole encodings, exactly the messages and then end |
| PrimarySelectionServer.Selections.AddDevice | src/wayland/primary_selection.rs:41-47 | a newcomer is told of an existing selection |
| PrimarySelectionServer.Selections.SetSelection | src/wayland/primary_selection.rs:49-62 | a live displaced owner is cancelled, then every live device is told |
| PrimarySelectionServer.Selections.ForgetSource | src/wayland/primary_selection.rs:72-81 | the owner's end clears the selection of every live device |
| PrimarySelectionServer.Selections.AdvertiseTo | src/wayland/primary_selection.rs:83-117 | an offer is introduced, described and set, in this order, or the selection reported empty |
| PrimarySelectionServer.Selections.RetainLive | src/wayland/primary_selection.rs:57-57 | exactly the live devices stay, in order |
| PrimarySelection.RunKeeps | src/wayland/primary_selection.rs:41-117 | what every device was told agrees with the owner in every reachable state, up to a death not yet reported |
| PrimarySelection.Coherent | src/wayland/primary_selection.rs:41-117 | whenever the owner, if any, is alive, each live device was last told of an offer of its own backed by that owner and described with its types, or of an empty selection iff there is no owner |
| PrimarySelection.ForgetTwice | src/wayland/primary_selection.rs:64-71 | reporting a source's destruction twice is reporting it once |
| PrimarySelection.Ownership | src/wayland/primary_selection.rs:49-81 | a source is cancelled exactly as often as a request displaced it while alive; each time it took the selection it was displaced, lost it dead, released it, or still has it |
| PrimarySelectionDelivery.TypesOfRun | src/wayland/primary_selection.rs:155-188 | on every run a source's types are those its client added, in order |
| PrimarySelectionDelivery.ActiveOfRun | src/wayland/primary_selection.rs:49-81 | on every run the selection is the last one chosen, unless that source was reported destroyed since |
| PrimarySelectionDelivery.HeardOfRun | src/wayland/primary_selection.rs:41-117 | on every run each device hears exactly this of a request: for a selection with a live owner, an offer with an id of its own, then that owner's types in order, then the selection of that offer; an empty selection otherwise; devices not concerned hear nothing |
| Placement.AxisExact | src/wayland/mod.rs:397-427 | 32-bit wrapping gives the exact origin modulo 2^32 |
| Placement.FlipMirrors | src/wayland/mod.rs:409-426 | on one axis, plain and flipped popup are mirror images about the anchor rectangle's centre, before the offset, up to the defect, for all numbers modulo 2^32 |
| Placement.OriginXMirrors | src/wayland/mod.rs:397-427 | so are a positioner's two horizontal origins, for all its fields |
| Placement.OriginYMirrors | src/wayland/mod.rs:430-460 | and its two vertical origins |
| Placement.OriginXAsked | src/wayland/mod.rs:397-427 | by the raw codes and modulo 2^32, plain and flipped: the horizontal origin is the named edge or the middle of the anchor rectangle, moved by the offset, with the popup behind, before or halfway across it |
| Placement.OriginYAsked | src/wayland/mod.rs:430-460 | the same for the vertical origin |
| Placement.DefectSmall | src/wayland/mod.rs:409-425 | for sizes that are not negative the defect is at most 1, and 0 iff the two halvings lose the same |
| Placement.AlwaysMirror | src/wayland/mod.rs:401-425 | the flip is the mirror image for all sizes iff anchor and gravity both name an edge on the axis |
| Placement.ConstrainAxis | src/mac.rs:1974-1996 | unchanged if it fits; the flip if allowed, needed and fitting; otherwise the nearest position that fits; the near edge if none does |
| Placement.ConstrainIdempotent | src/mac.rs:1981-1996 | constraining again changes nothing, whatever flip is offered |
| Placement.PlacedInside | src/mac.rs:2026-2075 | a popup no larger than the visible frame lies inside it, whatever the client asked for |
| Placement.PlacedAsAsked | src/mac.rs:2026-2075 | where every popup is, by the raw codes and adjustment bits: without a screen where the codes ask for it, at the parent's content origin plus that number and the content offsets, or at a fixed point without a parent; on a screen, on each axis, there if it fits, else at its flip if that is allowed and fits, else at the edge it is past, and at the near one if it is larger than the screen |
| Placement.FlippedAcross | src/mac.rs:2026-2075 | on the screen, with any window size and content offsets, a popup that falls off while its flip fits starts at the flip, symmetric to the requested place about the moved centre of the anchor, up to the defect and the difference between the window's width and the positioner's |
| Placement.FlippedBelowAbove | src/mac.rs:2026-2075 | the same vertically, where the screen's axis is reversed |
| Pixels.CopyExact | src/wayland/mod.rs:226-272 | for all client-chosen fields and every pool, the process aborts iff the fields describe rows that hold their pixels and their size is more than there is room for; otherwise there is a copy iff the buffer lies inside the pool in unbounded arithmetic, and it is exactly that slice |
| Pixels.NeverAbortsIff | src/wayland/mod.rs:239-258 | no client-chosen fields abort the process iff there is room for the largest request they can make, about 2^62 bytes |
| Pixels.HugeAborts | src/wayland/mod.rs:256-261 | the failing case itself: rows of one pixel, 0x7fff_ffff of them, 0x7fff_ffff bytes apart, abort it however small the pool |
| Pixels.GuardsCover | src/mac.rs:2439-2446 | if a row's bytes do not overflow 32 bits, the guards make the 10-bit loop safe for any number of bytes |
| Pixels.GuardsCoverIff | src/mac.rs:2439-2446 | the guards make the loop safe for every number of bytes they accept iff a row's bytes do not overflow 32 bits |
| Pixels.GuardsWrap | src/mac.rs:2439-2446 | a concrete width passes the guards with no bytes at all |
| Pixels.CopiedIsSafe | src/mac.rs:2439-2446 | every 10-bit buffer copied from a pool passes the guards and is safe to widen |
| Pixels.Expand | src/mac.rs:2551-2570 | the loops stay in bounds and every pixel of the output is the widened input pixel |
| Pixels.ToApart | src/mac.rs:2554-2566 | different pixels are written to disjoint places, in order |
| Pixels.WidenKeeps | src/mac.rs:2546-2558 | a widened channel fits 16 bits and gives the ten bits back |
| Pixels.WidenOrder | src/mac.rs:2546-2558 | widening is strictly monotone |
| Pixels.WidenClose | src/mac.rs:2546-2558 | a widened channel is less than one 16-bit step from c * 65535 / 1023 |
| Pixels.ChannelsRecovered | src/mac.rs:2556-2566 | every channel of every output pixel, shifted right by 6, is the input's ten bits |
| Pixels.ExpandedBytes | src/mac.rs:2546-2570 | each pixel's four input bytes, read bit by bit, give the eight output bytes: red from the high bits, then green, then blue, low byte first, and opaque |
| Pixels.CopiedFormat | src/wayland/mod.rs:226-272 | a copy is ten-bit iff its code spells XR30 or AR30 and half-float iff it spells AB4H, all others are 8-bit, and its rows hold its pixels |

## Left out

- RailGeometry.CoversMeaning: the ratio is the exact `5 * child >= 4 * owner`; rounding of the 64-bit float product is not modelled. Rectangle sums wrap as in a release build, where a debug build would trap.
- RailHeld.HeldFrames: frames carry an arrival number that the program does not have. Allocation is assumed to succeed, so a full table is the only reason a frame is not held.
- RailTitle.TitleRoundTrip: surrogate units are encoded one by one, as the code does, and that output is not well-formed UTF-8; nothing is claimed for them.
- CompositorPointer.PointerProtocol: the pointers are those bound before the run and stay alive; a pointer bound while a window has the focus may see motion before an enter. Scroll events go to every pointer and are not modelled. The messages are those the compositor asks for; what the Wayland library does with one that names a destroyed surface is not part of this model.
- CompositorLifecycle.WindowStream: nothing is said of subsurface frames, which may be posted for a window not yet created, because the window is looked up without asking whether it was.
- Multiplex.HostsSimulateOneProcess: covers commands that act on one window. Grabs, cursors and the pending window drag are kept per process outside the window tables. Spawning succeeds and socket writes succeed; a client that has vanished shares key 0 with the first client.
- Framing.StreamReads: the serializer is an abstract codec whose decoding undoes its encoding.
- Allocation is assumed to succeed in the title buffer, the held frames and the crop buffer, where the code handles a failure by dropping the title, the frame or the crop; it is a parameter (`room`) only where a client's pool is copied.
- Pixels.CopyExact: the mapped pool is a snapshot; a client writing to it meanwhile is not modelled, and neither are single-pixel buffers.
- Placement.ConstrainAxis: over real numbers, so rounding of 64-bit floats is not modelled.
- Window ids and object ids are unbounded and object ids are fresh; wrap-around of the window counter is not modelled.
- Keyboard focus, popup dismissal, the ordinary clipboard, titles, application ids, icons and the other window-management requests: one-branch handlers, or claims the code does not keep.
- Pixels, sizes, scale, colour descriptions and window geometry inside compositor commands; they do not decide which commands are posted.
- Remote cursors, icons, interactive moves and input forwarding.
- Sending the selection's data to a pasting client through a file descriptor.
- The native side: windows, menus, cursors, image construction and resize feedback of decorated clients.
- Threads and locks: each callback or request is one atomic step.
- Connection set-up, command line, build scripts and process launching.

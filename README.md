# m-cage server core, modelled in Dafny

m-cage is a minimal Wayland compositor built on wlroots. Its core lives in
`main.cpp` and has four parts. This project models them against an opaque
toolkit:

- **Owning handle wrapper** (`w_ptr_wrapper_base`): it is either empty or
  owns one native handle. `try_create` wraps a non-null factory result. Move
  construction steals the pointer, and move assignment swaps it. The
  destructor calls the type's destroy function only for a non-null pointer.
- **The display's lazy globals**: four create-once caches (xdg shell,
  compositor, subcompositor, data-device manager). Each calls its factory
  only while the cache is null.
- **Server construction and teardown**: `server::server()` runs a fixed
  sequence of 22 steps. It stops at the first `try_create(...).value()` that
  finds no handle, or when the xdg shell is missing. Destruction runs in
  reverse declaration order. The seven listeners unlink first, then the
  nine wrapped handles are destroyed, from the cursor-theme manager back to
  the display.
- **Event router**: the seven listener callbacks. Each one is a method of
  the server that runs only while its listener is linked.

The toolkit (wlroots and libwayland) is the class `Toolkit.Toolkit`. It
hands out opaque handles `Live(i)` in issue order, and a set of factory-call
indices chosen in advance answers null. It keeps a ghost log of every call
the core makes: the function, the handle arguments and the answer. Every
operation states its effect as the exact calls it appends to that log.
Lemmas then state what those calls mean:
- `Lifecycle.Run` cuts construction at its first fatal failure.
- `Lifecycle.Destroys` counts how often a handle is destroyed.
- `Router.ViewOf` folds the log into an observable view of the compositor:
  pointers attached to the cursor, the seat keyboard, the cursor image,
  windows and the top of the scene, output commits, the layout and
  presented frames.

Modules, one file each:

| file | module | what it holds |
|---|---|---|
| toolkit.dfy | `Options`, `Toolkit` | handles, calls, the logging toolkit |
| handles.dfy | `Handles` | the wrapper class `Owner`, `TryCreate`, `Install` |
| displays.dfy | `Displays` | the display class with its four caches |
| subscriptions.dfy | `Subscriptions` | the listener class |
| lifecycle.dfy | `Lifecycle` | the construction plan, fail-fast runs, teardown order, destroy counts |
| router.dfy | `Router` | each callback's toolkit calls and their effect on the view |
| ownership.dfy | `Ownership` | exactly-once ownership over any sequence of wrapper operations |
| mcage.dfy | `Mcage` | the server class: construction, callbacks, teardown |

`Ownership` is a separate, value-level model of the same wrapper
operations. Its `Step` changes a list of wrapper slots as the methods of
`Handles.Owner` and `Handles.TryCreate` change their objects, and it logs
through the same `Handles.DropCalls`. No lemma connects the class methods to
`Step`; the exactly-once results are proved over `Step`.

Two points of the code differ from a simple "construct in declaration
order, destroy in reverse, every step fatal" reading. The model follows the
code:
- The members are declared with the scene before the output layout
  (main.cpp:321-322). Construction creates the output layout first
  (main.cpp:284-285). So destruction removes the output layout before the
  scene, and is not the mirror of construction for this pair
  (`Lifecycle.LayoutOutlivedByScene`).
- Not every construction step is fatal. The compositor, subcompositor and
  data-device manager are created without a check (main.cpp:278-280), and
  a null answer there does not stop construction. The xdg shell is not
  checked by `.value()` either. Its events are asserted non-null before
  the subscription (main.cpp:100-103, 305-307), so the model treats a null
  xdg shell as fatal.

## Model

| member | source | states |
|---|---|---|
| Handles.DropCalls | main.cpp:57-60 | a wrapper's destructor destroys the handle it holds exactly once and destroys no other handle; an empty wrapper destroys nothing |
| Handles.Owner.Empty | main.cpp:46 | a default-constructed wrapper holds null |
| Handles.Owner.Adopt | main.cpp:61 | the explicit constructor holds exactly the given pointer |
| Handles.Owner.Steal | main.cpp:49-51 | move construction: the new wrapper holds the source's former pointer and the source holds null |
| Handles.Owner.MoveAssign | main.cpp:52-55 | move assignment exchanges the two wrappers' pointers |
| Handles.Owner.Drop | main.cpp:57-60 | the destructor logs the destroy call only for a non-null pointer, with the kind's destroy function |
| Handles.TryCreate | main.cpp:66-72 | one factory call; no wrapper exactly when the factory answers null, otherwise a fresh wrapper holding exactly that answer; the moved-from temporary destroys nothing |
| Handles.Install | main.cpp:273 | `member = try_create(...).value()` on an empty member: one factory call, then the member holds the answer; success exactly when the answer is non-null, and then it is the next issued handle |
| Displays.SetCacheIsStable | main.cpp:94-98 | once a cache is set, every later init_* call returns it and the factory never runs again |
| Displays.FirstSuccessIsCached | main.cpp:94-98 | from an empty cache, the calls before the first non-null answer return null and retry, and that answer is returned from then on; the factory runs exactly k + 1 times |
| Displays.FailuresRetry | main.cpp:94-98 | while the factory keeps answering null, every call runs it again and returns null |
| Displays.Display.Empty | main.cpp:119-124 | a default-constructed display: empty wrapper, all four caches null |
| Displays.Display.Wrap | main.cpp:84 | the inherited constructor: holds the given wrapper, caches null |
| Displays.Display.MoveAssign | main.cpp:52-55 | the wrapper part swaps pointers; the four raw cache pointers are copied from the source |
| Displays.Display.Drop | main.cpp:86 | destroying the display destroys only the wl_display; the globals it owns make no call of their own |
| Displays.Display.InitXdgShell | main.cpp:94-98 | the factory runs (and is logged) only while the cache is null; the result is the cache, which keeps a non-null value and otherwise takes the factory's answer; other caches unchanged |
| Displays.Display.InitCompositor | main.cpp:152-156 | the same create-once rule for the compositor, which is created with the renderer |
| Displays.Display.InitSubcompositor | main.cpp:107-111 | the same create-once rule for the subcompositor |
| Displays.Display.InitDataDeviceManager | main.cpp:113-117 | the same create-once rule for the data-device manager |
| Displays.TryCreateDisplay | main.cpp:66-72 | display::try_create: one factory call; no display exactly when it answers null, otherwise a fresh display with empty caches holding the answer |
| Displays.InstallDisplay | main.cpp:272 | `m_display = display::try_create().value()`: the member display holds the answer, keeps empty caches, and succeeds exactly when the answer is non-null |
| Subscriptions.Listener.constructor | main.cpp:244-254 | a new listener is bound to its signal and is not linked |
| Subscriptions.Listener.AddToSignal | main.cpp:260-262 | linking logs one subscription to the source handle's signal and makes the listener deliver |
| Subscriptions.Listener.Drop | main.cpp:256 | the destructor unlinks first: one unsubscribe call, after which the callback is never delivered |
| Lifecycle.RunStopsAtFirstAbort | main.cpp:271-308 | a fail-fast run is exactly the plan's prefix up to and including the first step that aborts, or the whole plan |
| Lifecycle.CompletesRunsAll | main.cpp:271-308 | a plan with no aborting step runs to its end |
| Lifecycle.CompletesMeans | main.cpp:271-308 | a plan completes exactly when none of its steps aborts |
| Lifecycle.RunAppend | main.cpp:271-308 | of two stretches in a row, the second runs only when the first ran without aborting |
| Lifecycle.CompletesAppend | main.cpp:271-308 | two stretches complete together exactly when each completes |
| Lifecycle.Chain | main.cpp:271-308 | running one stretch, then the next only if the first completed, logs the run of both in a row and succeeds exactly when both complete |
| Lifecycle.ConstructionChain | main.cpp:271-308 | the core stretch, then the rest only when the core completed, logs the run of the whole construction sequence |
| Lifecycle.ConstructionRun | main.cpp:271-308 | construction runs the core steps, the scene steps only once the core completed, and the seat steps only once both completed |
| Lifecycle.RunAppendThree | main.cpp:271-308 | the same cut over any three stretches in a row |
| Lifecycle.ConstructionCompletes | main.cpp:271-308 | construction completes exactly when every fatal factory (display, backend, renderer, allocator, layout, scene, cursor, seat, cursor theme, xdg shell) answers a handle |
| Lifecycle.FatalSteps | main.cpp:272-307 | the sequence has 22 steps, and exactly steps 0, 1, 2, 4, 9, 10, 12, 17, 19 and 20 abort on null |
| Lifecycle.DependenciesComeFirst | main.cpp:272-307 | every handle a construction step passes to the toolkit was answered by an earlier step |
| Lifecycle.StopsAtFirstFailure | main.cpp:271-308 | when step k is the first to fail, the calls made are exactly steps 0..k: no later factory or subscription runs |
| Lifecycle.RunsToCompletion | main.cpp:271-308 | when no fatal step answers null, every step runs |
| Lifecycle.BackendFailureStopsConstruction | main.cpp:273 | with the backend factory failing, the only calls are the display creation and the backend attempt |
| Lifecycle.BackendRun | main.cpp:272-276 | the calls of the backend stretch for each failing factory, and that it completes exactly when all four of its factories answer handles |
| Lifecycle.GlobalsRun | main.cpp:278-280 | the three optional globals never stop construction |
| Lifecycle.LayoutRun | main.cpp:282-288 | the calls of the layout stretch for each failing factory; it completes exactly when the layout and the scene are created |
| Lifecycle.CursorRun | main.cpp:290-297 | the cursor stretch stops after the cursor factory when that fails, and otherwise makes all five calls |
| Lifecycle.SeatRun | main.cpp:299-307 | the calls of the seat stretch for each failing factory; it completes exactly when the seat, the cursor theme and the xdg shell exist |
| Lifecycle.DestructionDrops | main.cpp:314-329 | with every member holding a handle, destruction makes one destroy call per member, from the cursor-theme manager back to the display, the scene with plain free |
| Lifecycle.DropsDestroyHeld | main.cpp:314-329 | the members' destructors destroy each handle as many times as members hold it |
| Lifecycle.DropsInOrder | main.cpp:314-329 | with all members holding handles, the destructors make one destroy call each, in the members' order |
| Lifecycle.HeldOnce | main.cpp:314-329 | with distinct handles, each held handle is held by exactly one member |
| Lifecycle.ListenersDetachBeforeHandles | main.cpp:256 | in teardown every unsubscribe comes before every destroy: listeners, declared last, unlink before any handle is destroyed |
| Lifecycle.LayoutOutlivedByScene | main.cpp:321-322 | construction creates the output layout (step 9) before the scene (step 10), and teardown also destroys the output layout before the scene |
| Lifecycle.ConstructionDestroysNothing | main.cpp:271-308 | construction, however far it gets, destroys nothing |
| Lifecycle.ServerLifeDestroys | main.cpp:314-329 | over construction, any calls that destroy nothing, and teardown, every handle is destroyed exactly as many times as members hold it |
| Lifecycle.EachHandleDestroyedOnce | main.cpp:314-329 | with distinct held handles, each member's handle is destroyed exactly once over the server's life |
| Router.OutputStateRoutes | main.cpp:338-347 | the output is committed enabled, with the preferred mode when there is one and with no mode otherwise, and the state is finished |
| Router.ModeRoutes | main.cpp:342-344 | the preferred mode is set into the state only when it is non-null |
| Router.PlacementRoutes | main.cpp:350-357 | the output is added to the layout and its scene output is linked to the layout; nothing else changes |
| Router.NewOutputRoutes | main.cpp:334-358 | new_output commits the output enabled with its preferred mode if any, finishes the state, and adds the output to the layout and the scene; nothing else changes |
| Router.NewInputRoutes | main.cpp:360-377 | a pointer is attached to the cursor only, a keyboard becomes the seat keyboard only, and any other device changes nothing |
| Router.RequestCursorRoutes | main.cpp:379-386 | the cursor takes the requested surface and hotspot exactly when the request comes from the focused client; otherwise nothing changes |
| Router.CursorFrameRoutes | main.cpp:388-389 | a cursor frame becomes exactly one pointer frame to clients |
| Router.CursorMotionRoutes | main.cpp:391-396 | motion moves the cursor once and leaves it showing the theme's "default" image |
| Router.NewSurfaceRoutes | main.cpp:398-414 | a toplevel gets a scene tree, which ends on top; any other role changes nothing |
| Router.OutputFrameRoutes | main.cpp:416-425 | a frame presents the last output's scene output once, then sends it frame-done |
| Router.HandlersDestroyNothing | main.cpp:334-425 | no callback destroys a handle |
| Router.ReplayAppend | main.cpp:334-425 | the effect of a log on the view is the effect of its parts in turn |
| Ownership.StepSound | main.cpp:42-78 | every wrapper operation keeps the invariant: each created handle is held by exactly one wrapper or destroyed exactly once, never both |
| Ownership.DefaultConstructSound | main.cpp:46 | a default-constructed wrapper keeps the invariant |
| Ownership.TryCreateSound | main.cpp:66-72 | try_create keeps the invariant: a new handle enters held by one wrapper, and its temporary is left empty |
| Ownership.MoveConstructSound | main.cpp:49-51 | move construction keeps the invariant |
| Ownership.MoveAssignSound | main.cpp:52-55 | move assignment keeps the invariant |
| Ownership.DestructSound | main.cpp:57-60 | destruction keeps the invariant: a held handle moves from held to destroyed once |
| Ownership.RunSound | main.cpp:42-78 | any sequence of wrapper operations keeps the invariant |
| Ownership.Unique | main.cpp:42-78 | no handle is held by two wrappers, none is destroyed twice, and a held handle has not been destroyed |
| Ownership.ExactlyOnce | main.cpp:57-60 | once every wrapper is destroyed, each created handle has been destroyed exactly once and nothing else |
| Ownership.RunExactlyOnce | main.cpp:42-78 | for any run from no wrappers to all wrappers destroyed, each created handle is destroyed exactly once |
| Ownership.FailedCreateOwnsNothing | main.cpp:71 | a failed try_create leaves no wrapper and destroys nothing |
| Ownership.MoveConstructTransfers | main.cpp:49-51 | after move construction the new wrapper holds the old pointer, the source holds null, and destroying the source calls nothing |
| Ownership.MoveAssignSwaps | main.cpp:52-55 | move assignment exchanges the two pointers; no handle gains or loses a holder |
| Mcage.Server.constructor | main.cpp:314-329 | the members' default initialisation: every wrapper empty, every display cache null, no listener linked; the two raw pointers, which the source leaves uninitialised, are started at null |
| Mcage.Server.Construct | main.cpp:271-308 | the log grows by exactly the fail-fast run of the 22-step sequence; success exactly when it completes; on success every wrapper holds a distinct handle and the six construction listeners are linked |
| Mcage.Server.BuildCore | main.cpp:272-280 | steps 0-7 log their fail-fast run and hand out the first handles in order |
| Mcage.Server.BuildBackend | main.cpp:272-276 | steps 0-4: success exactly when the display, backend, renderer and allocator are all non-null, and then they are the next four handles |
| Mcage.Server.InitGlobals | main.cpp:278-280 | the three globals are created once each, without a check |
| Mcage.Server.BuildRest | main.cpp:282-307 | steps 8-21 log their fail-fast run and leave the core members unchanged |
| Mcage.Server.BuildScene | main.cpp:282-297 | steps 8-16 log their fail-fast run; on success the outputs, input, motion and frame listeners are linked |
| Mcage.Server.BuildLayout | main.cpp:282-288 | steps 8-11: the new_output listener is linked to the backend, and success is exactly when the layout and the scene are created |
| Mcage.Server.BuildCursor | main.cpp:290-297 | steps 12-16: the three listeners are linked exactly when the cursor is created |
| Mcage.Server.BuildSeat | main.cpp:299-307 | steps 17-21: success exactly when the seat, cursor theme and xdg shell exist, and then the request-cursor and new-surface listeners are linked |
| Mcage.Server.OnNewOutput | main.cpp:334-358 | the output becomes the last output with the frame listener linked to it; the view changes exactly as Router.NewOutputRoutes states |
| Mcage.Server.CommitOutputState | main.cpp:338-347 | the output-state block logs init, enable, the mode query, the mode only when non-null, commit and finish |
| Mcage.Server.PlaceOutput | main.cpp:349-357 | the frame listener is linked to the output, which is added to the layout and the scene |
| Mcage.Server.OnNewInput | main.cpp:360-377 | routing by device kind; the view changes exactly as Router.NewInputRoutes states |
| Mcage.Server.OnRequestSetCursor | main.cpp:379-386 | the cursor image changes exactly when the request comes from the focused client |
| Mcage.Server.OnCursorFrame | main.cpp:388-389 | one more pointer frame and nothing else |
| Mcage.Server.OnCursorMotion | main.cpp:391-396 | one more move, and the cursor shows "default" |
| Mcage.Server.OnNewSurface | main.cpp:398-414 | only a toplevel gets a window, which ends on top |
| Mcage.Server.OnOutputFrame | main.cpp:416-425 | the last output's scene output is presented and sent frame-done |
| Mcage.Server.Teardown | main.cpp:314-425 | the log grows by exactly the seven unlinks then the nine member destroys; every wrapper ends empty and no listener delivers |
| Mcage.Server.UnlinkAll | main.cpp:256 | the seven listeners unlink, last declared first |
| Mcage.Server.DropAll | main.cpp:314-329 | the nine members are destroyed, last declared first, each once |
| Mcage.Server.DropSceneMembers | main.cpp:321-329 | the cursor theme, seat, cursor, output layout and scene are destroyed in that order |
| Mcage.Server.DropCoreMembers | main.cpp:314-317 | the allocator, renderer, backend and display are destroyed in that order |

## Left out

- main() (main.cpp:429-469): the socket, backend start, spawning the client, the signal handler, the semaphore and the supervisor thread. This is process, signal and thread plumbing.
- The cursor motion deltas (main.cpp:186-188, 394), which are floating point. Only the move and the "default" image are recorded.
- The frame timestamp from clock_gettime (main.cpp:422-424), which is clock I/O, and all wlr_log logging.
- The owner recovery through offsetof and reinterpret_cast in listener_base (main.cpp:247-254), and the wl_list and wl_signal internals. A listener is a stored signal, a source handle and an attached flag.
- What the toolkit does with each call. Every wlroots and libwayland function is an opaque logged call. Its answers are either fresh handles or parameters.
- Toolkit.Toolkit.Make: the factories whose results the code never checks (scene attach, layout add, scene output create, xdg scene tree) are modelled as never failing.
- The answers of toolkit queries are parameters of the callbacks: the preferred mode, the keyboard of an input device, the seat's focused client and the scene output of the last output.
- get() and events() (main.cpp:63-64, 74) are reads of the wrapper's pointer, with no state of their own.
- Mcage.Server.Construct: on a failed step the model returns ok == false. It does not model the exception unwinding the members already built. Its postcondition states the listener links only on success. It ties the log and ok to the handles the run produced, not directly to which toolkit calls are scripted to fail: the failing-backend case is stated over those handles (Lifecycle.BackendFailureStopsConstruction).
- Mcage.Server.constructor: m_last_output (main.cpp:319) and m_scene_output_layout (main.cpp:324) are left uninitialised by the source, and the model starts both at null. Mcage.Server.Construct, BuildRest and BuildLayout rely on that null start; an indeterminate value is not modelled.
- Mcage.Server.OnNewOutput: it requires the frame listener to be unlinked. Only one output is modelled; re-adding the frame listener for a second output (main.cpp:350) is not.
- Mcage.Server.Teardown: it requires every listener to be linked, because unlinking a listener that was never linked (main.cpp:256) is not modelled. Teardown of a partly built server is not modelled either.
- Callbacks on a partly built server: the callbacks (Mcage.Server.OnNewOutput to Mcage.Server.OnOutputFrame) require only that their own listener is linked, not that construction completed. In the source an early failure throws and ends the process, so no callback ever runs on a partly built server. The model does not exclude that state, and promises nothing specific about it.
- Subscriptions.Listener.AddToSignal: it requires the listener to be unlinked; linking a listener twice is not modelled.
- The redundant switch on the role in new_surface (main.cpp:402-413) after the early return is folded into the single toplevel test.

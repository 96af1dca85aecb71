/**
  What server::server() and the server's destruction say to the toolkit
  (main.cpp:271-308, 314-425), as functions of the handles involved.
*/
module Lifecycle {
  import opened Toolkit
  import opened Handles

  /** The handles a server holds: its wrapped members, the display's globals,
      and the scene's output-layout glue. */
  datatype Members = Members(
    display: Ptr, backend: Ptr, renderer: Ptr, allocator: Ptr,
    compositor: Ptr, subcompositor: Ptr, dataDeviceManager: Ptr,
    outputLayout: Ptr, scene: Ptr, sceneOutputLayout: Ptr,
    cursor: Ptr, seat: Ptr, xcursorManager: Ptr, xdgShell: Ptr)

  const Unset := Members(Null, Null, Null, Null, Null, Null, Null, Null, Null, Null, Null, Null, Null, Null)

  /** The construction sequence of server::server() (main.cpp:272-307), one
      call per step, as it would go if every step ran. */
  function ConstructionLog(m: Members): seq<Call>
  {
    CoreLog(m) + SceneLog(m) + SeatLog(m)
  }

  /** Steps 0-7 (main.cpp:272-280). */
  function CoreLog(m: Members): seq<Call>
  {
    CoreSteps(m.display, m.backend, m.renderer, m.allocator, m.compositor, m.subcompositor, m.dataDeviceManager)
  }

  /** Steps 8-16 (main.cpp:282-297). */
  function SceneLog(m: Members): seq<Call>
  {
    SceneSteps(m.backend, m.outputLayout, m.scene, m.sceneOutputLayout, m.cursor)
  }

  /** Steps 17-21 (main.cpp:299-307). */
  function SeatLog(m: Members): seq<Call>
  {
    SeatSteps(m.display, m.seat, m.xcursorManager, m.xdgShell)
  }

  // Each stretch as a function of the handles it involves alone.

  function CoreSteps(display: Ptr, backend: Ptr, renderer: Ptr, allocator: Ptr,
                     compositor: Ptr, subcompositor: Ptr, dataDeviceManager: Ptr): seq<Call>
  {
    BackendSteps(display, backend, renderer, allocator)
      + GlobalSteps(display, renderer, compositor, subcompositor, dataDeviceManager)
  }

  function SceneSteps(backend: Ptr, outputLayout: Ptr, scene: Ptr, sceneOutputLayout: Ptr, cursor: Ptr): seq<Call>
  {
    LayoutSteps(backend, outputLayout, scene, sceneOutputLayout) + CursorSteps(backend, outputLayout, cursor)
  }

  /** Steps 0-4 (main.cpp:272-276): display, backend, renderer and its display hookup, allocator. */
  function BackendSteps(display: Ptr, backend: Ptr, renderer: Ptr, allocator: Ptr): seq<Call>
  {
    [ Call(Create(DisplayKind, NoArgs), [], display),
      Call(Create(BackendKind, NoArgs), [display], backend),
      Call(Create(RendererKind, NoArgs), [backend], renderer),
      Call(RendererInitWlDisplay, [renderer, display], Null),
      Call(Create(AllocatorKind, NoArgs), [backend, renderer], allocator) ]
  }

  /** Steps 5-7 (main.cpp:278-280): the display's optional globals. */
  function GlobalSteps(display: Ptr, renderer: Ptr, compositor: Ptr, subcompositor: Ptr,
                       dataDeviceManager: Ptr): seq<Call>
  {
    [ Call(CreateGlobal(Compositor, Version(5)), [display, renderer], compositor),
      Call(CreateGlobal(Subcompositor, NoArgs), [display], subcompositor),
      Call(CreateGlobal(DataDeviceManager, NoArgs), [display], dataDeviceManager) ]
  }

  /** Steps 8-11 (main.cpp:282-288): outputs, output layout, scene and their glue. */
  function LayoutSteps(backend: Ptr, outputLayout: Ptr, scene: Ptr, sceneOutputLayout: Ptr): seq<Call>
  {
    [ Call(Subscribe(NewOutput), [backend], Null),
      Call(Create(OutputLayoutKind, NoArgs), [], outputLayout),
      Call(Create(SceneKind, NoArgs), [], scene),
      Call(SceneAttachOutputLayout, [scene, outputLayout], sceneOutputLayout) ]
  }

  /** Steps 12-16 (main.cpp:290-297): the cursor and the input subscriptions. */
  function CursorSteps(backend: Ptr, outputLayout: Ptr, cursor: Ptr): seq<Call>
  {
    [ Call(Create(CursorKind, NoArgs), [], cursor),
      Call(CursorAttachOutputLayout, [cursor, outputLayout], Null),
      Call(Subscribe(NewInput), [backend], Null),
      Call(Subscribe(CursorMotion), [cursor], Null),
      Call(Subscribe(CursorFrame), [cursor], Null) ]
  }

  /** Steps 17-21 (main.cpp:299-307): seat, cursor theme, xdg shell. */
  function SeatSteps(display: Ptr, seat: Ptr, xcursorManager: Ptr, xdgShell: Ptr): seq<Call>
  {
    [ Call(Create(SeatKind, SeatName("seat0")), [display], seat),
      Call(Subscribe(RequestSetCursor), [seat], Null),
      Call(Create(XcursorManagerKind, DefaultTheme(32)), [], xcursorManager),
      Call(CreateGlobal(XdgShell, Version(3)), [display], xdgShell),
      Call(Subscribe(NewSurface), [xdgShell], Null) ]
  }

  /** A step whose null answer aborts construction: every try_create(...).value(),
      and the xdg shell, whose events are asserted non-null before subscribing.
      The display's other globals are created without a check. */
  predicate Fatal(c: Call)
  {
    c.op.Create? || (c.op.CreateGlobal? && c.op.global == XdgShell)
  }

  predicate Aborts(c: Call)
  {
    Fatal(c) && c.result == Null
  }

  /** No step of `plan` aborts. */
  predicate Completes(plan: seq<Call>)
    decreases |plan|
  {
    plan == [] || (!Aborts(plan[0]) && Completes(plan[1..]))
  }

  /** Completes, step by step. */
  lemma {:induction false} CompletesMeans(plan: seq<Call>)
    ensures Completes(plan) <==> forall i :: 0 <= i < |plan| ==> !Aborts(plan[i])
    decreases |plan|
  {
    if plan != [] {
      CompletesMeans(plan[1..]);
      assert forall i :: 0 < i < |plan| ==> plan[i] == plan[1..][i - 1];
    }
  }

  /** The calls made when the steps of `plan` run in order: each step runs,
      up to and including the first one that aborts. */
  function Run(plan: seq<Call>): seq<Call>
    decreases |plan|
  {
    if plan == [] then []
    else if Aborts(plan[0]) then [plan[0]]
    else [plan[0]] + Run(plan[1..])
  }

  /**
    What Run means: the steps of the plan up to the first one that aborts,
    or the whole plan when none does. Given such a length, Run is the
    prefix of that length.
  */
  lemma {:induction false} RunStopsAtFirstAbort(plan: seq<Call>, n: nat)
    requires n <= |plan|
    requires n == |plan| || (0 < n && Aborts(plan[n - 1]))
    requires forall i :: 0 <= i < n - 1 ==> !Aborts(plan[i])
    ensures Run(plan) == plan[..n]
    decreases |plan|
  {
    if plan != [] {
      if Aborts(plan[0]) {
        assert n == 1;
      } else {
        assert 1 < n || n == |plan|;
        RunStopsAtFirstAbort(plan[1..], n - 1);
        assert plan[..n] == [plan[0]] + plan[1..][..n - 1];
      }
    }
  }

  /** A plan without an aborting step runs to its end. */
  lemma {:induction false} CompletesRunsAll(plan: seq<Call>)
    requires Completes(plan)
    ensures Run(plan) == plan
    decreases |plan|
  {
    if plan != [] {
      CompletesRunsAll(plan[1..]);
      assert plan == [plan[0]] + plan[1..];
    }
  }

  /** Running two stretches one after the other: the second runs only when
      the first ran without aborting. */
  lemma {:induction false} RunAppend(a: seq<Call>, b: seq<Call>)
    ensures Run(a + b) == if Completes(a) then a + Run(b) else Run(a)
    decreases |a|
  {
    if a == [] {
      assert a + b == b;
    } else {
      assert (a + b)[0] == a[0] && (a + b)[1..] == a[1..] + b;
      if !Aborts(a[0]) {
        RunAppend(a[1..], b);
        assert a == [a[0]] + a[1..];
      }
    }
  }

  /** Running one stretch, then the next only if the first completed, runs the
      two stretches in a row. */
  lemma Chain(log0: seq<Call>, a: seq<Call>, b: seq<Call>, ok1: bool, log1: seq<Call>, ok2: bool, log2: seq<Call>)
    requires log1 == log0 + Run(a) && (ok1 <==> Completes(a))
    requires ok1 ==> log2 == log1 + Run(b) && (ok2 <==> Completes(b))
    requires !ok1 ==> log2 == log1 && !ok2
    ensures log2 == log0 + Run(a + b)
    ensures ok2 <==> Completes(a + b)
  {
    if ok1 {
      ChainCompleted(log0, a, b);
    } else {
      ChainStopped(a, b);
    }
  }

  /** The core stretch, then the rest only if the core completed, runs the whole construction. */
  lemma ConstructionChain(m: Members, log0: seq<Call>, ok1: bool, log1: seq<Call>, ok2: bool, log2: seq<Call>)
    requires log1 == log0 + Run(CoreLog(m)) && (ok1 <==> Completes(CoreLog(m)))
    requires ok1 ==> log2 == log1 + Run(SceneLog(m) + SeatLog(m)) && (ok2 <==> Completes(SceneLog(m) + SeatLog(m)))
    requires !ok1 ==> log2 == log1 && !ok2
    ensures log2 == log0 + Run(ConstructionLog(m))
    ensures ok2 <==> Completes(ConstructionLog(m))
  {
    Chain(log0, CoreLog(m), SceneLog(m) + SeatLog(m), ok1, log1, ok2, log2);
    assert ConstructionLog(m) == CoreLog(m) + (SceneLog(m) + SeatLog(m));
  }

  lemma ChainCompleted(log0: seq<Call>, a: seq<Call>, b: seq<Call>)
    requires Completes(a)
    ensures log0 + Run(a) + Run(b) == log0 + Run(a + b)
    ensures Completes(b) <==> Completes(a + b)
  {
    RunAppend(a, b);
    CompletesAppend(a, b);
    CompletesRunsAll(a);
    LoggedThen(log0, a, Run(b));
  }

  lemma ChainStopped(a: seq<Call>, b: seq<Call>)
    requires !Completes(a)
    ensures Run(a + b) == Run(a) && !Completes(a + b)
  {
    RunAppend(a, b);
    CompletesAppend(a, b);
  }

  /** Construction runs to its end exactly when every fatal factory answers a handle. */
  lemma ConstructionCompletes(m: Members)
    ensures Completes(ConstructionLog(m))
        <==> m.display != Null && m.backend != Null && m.renderer != Null && m.allocator != Null
             && m.outputLayout != Null && m.scene != Null && m.cursor != Null
             && m.seat != Null && m.xcursorManager != Null && m.xdgShell != Null
  {
    var b := BackendSteps(m.display, m.backend, m.renderer, m.allocator);
    var g := GlobalSteps(m.display, m.renderer, m.compositor, m.subcompositor, m.dataDeviceManager);
    var l := LayoutSteps(m.backend, m.outputLayout, m.scene, m.sceneOutputLayout);
    var c := CursorSteps(m.backend, m.outputLayout, m.cursor);
    CompletesAppend(b, g);
    CompletesAppend(l, c);
    CompletesAppend(CoreLog(m), SceneLog(m));
    CompletesAppend(CoreLog(m) + SceneLog(m), SeatLog(m));
    BackendRun(m.display, m.backend, m.renderer, m.allocator);
    GlobalsRun(m.display, m.renderer, m.compositor, m.subcompositor, m.dataDeviceManager);
    LayoutRun(m.backend, m.outputLayout, m.scene, m.sceneOutputLayout);
    CursorRun(m.backend, m.outputLayout, m.cursor);
    SeatRun(m.display, m.seat, m.xcursorManager, m.xdgShell);
  }

  /** The whole construction: each stretch runs only once the earlier ones completed. */
  lemma ConstructionRun(m: Members)
    ensures Run(ConstructionLog(m))
         == if !Completes(CoreLog(m)) then Run(CoreLog(m))
            else if !Completes(SceneLog(m)) then CoreLog(m) + Run(SceneLog(m))
            else CoreLog(m) + SceneLog(m) + Run(SeatLog(m))
    ensures Completes(ConstructionLog(m))
        <==> Completes(CoreLog(m)) && Completes(SceneLog(m)) && Completes(SeatLog(m))
  {
    RunAppendThree(CoreLog(m), SceneLog(m), SeatLog(m));
  }

  /** Three stretches in a row: each runs only once the earlier ones completed. */
  lemma RunAppendThree(a: seq<Call>, b: seq<Call>, c: seq<Call>)
    ensures Run(a + b + c)
         == if !Completes(a) then Run(a) else if !Completes(b) then a + Run(b) else a + b + Run(c)
    ensures Completes(a + b + c) <==> Completes(a) && Completes(b) && Completes(c)
  {
    LoggedThen(a, b, c);
    RunAppend(a, b + c);
    CompletesAppend(a, b + c);
    CompletesAppend(b, c);
    if Completes(a) {
      RunAppend(b, c);
      if Completes(b) {
        LoggedThen(a, b, Run(c));
      }
    }
  }

  lemma {:induction false} CompletesAppend(a: seq<Call>, b: seq<Call>)
    ensures Completes(a + b) <==> Completes(a) && Completes(b)
    decreases |a|
  {
    if a == [] {
      assert a + b == b;
    } else {
      assert (a + b)[0] == a[0] && (a + b)[1..] == a[1..] + b;
      CompletesAppend(a[1..], b);
    }
  }

  /** The steps of the construction sequence that abort when they answer null. */
  lemma FatalSteps(m: Members)
    ensures |ConstructionLog(m)| == 22
    ensures forall i :: 0 <= i < 22 ==>
      (Fatal(ConstructionLog(m)[i]) <==> i in {0, 1, 2, 4, 9, 10, 12, 17, 19, 20})
  {
  }

  /** Every handle a construction step passes to the toolkit was produced by an earlier step. */
  lemma DependenciesComeFirst(m: Members)
    ensures var log := ConstructionLog(m);
      forall i, a :: 0 <= i < |log| && a in log[i].args ==>
        a in (set j | 0 <= j < i :: log[j].result)
  {
    var log := ConstructionLog(m);
    forall i, a | 0 <= i < |log| && a in log[i].args
      ensures a in (set j | 0 <= j < i :: log[j].result)
    {
      var j :=
        if a == m.display then 0 else if a == m.backend then 1 else if a == m.renderer then 2
        else if a == m.outputLayout then 9 else if a == m.scene then 10 else if a == m.cursor then 12
        else if a == m.seat then 17 else 20;
      assert log[j].result == a;
    }
  }

  /** Construction stops exactly at the first fatal step that answers null:
      the calls made are the steps up to and including it. */
  lemma StopsAtFirstFailure(m: Members, k: nat)
    requires k < |ConstructionLog(m)| && Aborts(ConstructionLog(m)[k])
    requires forall j :: 0 <= j < k ==> !Aborts(ConstructionLog(m)[j])
    ensures Run(ConstructionLog(m)) == ConstructionLog(m)[..k + 1]
  {
    RunStopsAtFirstAbort(ConstructionLog(m), k + 1);
  }

  /** When no fatal step answers null, construction runs to the end. */
  lemma RunsToCompletion(m: Members)
    requires forall j :: 0 <= j < |ConstructionLog(m)| && Fatal(ConstructionLog(m)[j]) ==>
               ConstructionLog(m)[j].result != Null
    ensures Run(ConstructionLog(m)) == ConstructionLog(m)
  {
    CompletesMeans(ConstructionLog(m));
    CompletesRunsAll(ConstructionLog(m));
  }

  /** A failing backend factory: display creation and the backend attempt are
      the only calls made. */
  lemma BackendFailureStopsConstruction(m: Members)
    requires m.display != Null && m.backend == Null
    ensures Run(ConstructionLog(m))
         == [Call(Create(DisplayKind, NoArgs), [], m.display), Call(Create(BackendKind, NoArgs), [m.display], Null)]
  {
    StopsAtFirstFailure(m, 1);
  }

  /** The calls of each stretch that runs, given what its factories answered,
      and when the stretch runs without aborting. */
  lemma BackendRun(display: Ptr, backend: Ptr, renderer: Ptr, allocator: Ptr)
    ensures var plan := BackendSteps(display, backend, renderer, allocator);
      && Run(plan) == plan[..if display == Null then 1 else if backend == Null then 2
                              else if renderer == Null then 3 else 5]
      && (Completes(plan) <==> display != Null && backend != Null && renderer != Null && allocator != Null)
  {
    var plan := BackendSteps(display, backend, renderer, allocator);
    CompletesMeans(plan);
    RunStopsAtFirstAbort(plan,
      if display == Null then 1 else if backend == Null then 2 else if renderer == Null then 3 else 5);
    assert Aborts(plan[0]) <==> display == Null;
    assert Aborts(plan[1]) <==> backend == Null;
    assert Aborts(plan[2]) <==> renderer == Null;
    assert Aborts(plan[4]) <==> allocator == Null;
  }

  /** The display's optional globals never abort construction. */
  lemma GlobalsRun(display: Ptr, renderer: Ptr, compositor: Ptr, subcompositor: Ptr, dataDeviceManager: Ptr)
    ensures var plan := GlobalSteps(display, renderer, compositor, subcompositor, dataDeviceManager);
      Completes(plan) && Run(plan) == plan
  {
    CompletesMeans(GlobalSteps(display, renderer, compositor, subcompositor, dataDeviceManager));
    CompletesRunsAll(GlobalSteps(display, renderer, compositor, subcompositor, dataDeviceManager));
  }

  lemma LayoutRun(backend: Ptr, outputLayout: Ptr, scene: Ptr, sceneOutputLayout: Ptr)
    ensures var plan := LayoutSteps(backend, outputLayout, scene, sceneOutputLayout);
      && Run(plan) == plan[..if outputLayout == Null then 2 else if scene == Null then 3 else 4]
      && (Completes(plan) <==> outputLayout != Null && scene != Null)
  {
    CompletesMeans(LayoutSteps(backend, outputLayout, scene, sceneOutputLayout));
    RunStopsAtFirstAbort(LayoutSteps(backend, outputLayout, scene, sceneOutputLayout),
      if outputLayout == Null then 2 else if scene == Null then 3 else 4);
  }

  lemma CursorRun(backend: Ptr, outputLayout: Ptr, cursor: Ptr)
    ensures var plan := CursorSteps(backend, outputLayout, cursor);
      && Run(plan) == plan[..if cursor == Null then 1 else 5]
      && (Completes(plan) <==> cursor != Null)
  {
    CompletesMeans(CursorSteps(backend, outputLayout, cursor));
    RunStopsAtFirstAbort(CursorSteps(backend, outputLayout, cursor), if cursor == Null then 1 else 5);
  }

  lemma SeatRun(display: Ptr, seat: Ptr, xcursorManager: Ptr, xdgShell: Ptr)
    ensures var plan := SeatSteps(display, seat, xcursorManager, xdgShell);
      && Run(plan) == plan[..if seat == Null then 1 else if xcursorManager == Null then 3
                              else if xdgShell == Null then 4 else 5]
      && (Completes(plan) <==> seat != Null && xcursorManager != Null && xdgShell != Null)
  {
    CompletesMeans(SeatSteps(display, seat, xcursorManager, xdgShell));
    RunStopsAtFirstAbort(SeatSteps(display, seat, xcursorManager, xdgShell),
      if seat == Null then 1 else if xcursorManager == Null then 3 else if xdgShell == Null then 4 else 5);
  }

  /** A wrapped member: its kind and the handle it holds. */
  datatype Held = Held(kind: Kind, ptr: Ptr)

  /** The wrapped members in reverse declaration order (main.cpp:314-329):
      the order in which the server's destructor destroys them. */
  function DestructionOrder(m: Members): seq<Held>
  {
    [ Held(XcursorManagerKind, m.xcursorManager), Held(SeatKind, m.seat), Held(CursorKind, m.cursor),
      Held(OutputLayoutKind, m.outputLayout), Held(SceneKind, m.scene), Held(AllocatorKind, m.allocator),
      Held(RendererKind, m.renderer), Held(BackendKind, m.backend), Held(DisplayKind, m.display) ]
  }

  /** The destructors of `hs`, run front to back. */
  function Drops(hs: seq<Held>): seq<Call>
    decreases |hs|
  {
    if hs == [] then [] else DropCalls(hs[0].kind, hs[0].ptr) + Drops(hs[1..])
  }

  /** With every wrapper holding a handle, the server's destructors are one
      destroy call per member, from the cursor-theme manager back to the display. */
  lemma DestructionDrops(m: Members)
    requires AllHeld(DestructionOrder(m))
    ensures Drops(DestructionOrder(m))
         == [ Call(Destroy(XcursorManagerKind, ToolkitDestroy), [m.xcursorManager], Null),
              Call(Destroy(SeatKind, ToolkitDestroy), [m.seat], Null),
              Call(Destroy(CursorKind, ToolkitDestroy), [m.cursor], Null),
              Call(Destroy(OutputLayoutKind, ToolkitDestroy), [m.outputLayout], Null),
              Call(Destroy(SceneKind, Free), [m.scene], Null),
              Call(Destroy(AllocatorKind, ToolkitDestroy), [m.allocator], Null),
              Call(Destroy(RendererKind, ToolkitDestroy), [m.renderer], Null),
              Call(Destroy(BackendKind, ToolkitDestroy), [m.backend], Null),
              Call(Destroy(DisplayKind, ToolkitDestroy), [m.display], Null) ]
  {
    DropsInOrder(DestructionOrder(m));
  }

  /** How many of `hs` hold the non-null handle p. */
  function Holding(hs: seq<Held>, p: Ptr): nat
    decreases |hs|
  {
    if hs == [] then 0
    else (if p != Null && hs[0].ptr == p then 1 else 0) + Holding(hs[1..], p)
  }

  predicate AllHeld(hs: seq<Held>)
  {
    forall i :: 0 <= i < |hs| ==> hs[i].ptr != Null
  }

  predicate Distinct(hs: seq<Held>)
  {
    forall i, j :: 0 <= i < j < |hs| ==> hs[i].ptr != hs[j].ptr
  }

  /** The handles a completed construction got, numbered in the order the
      toolkit issued them, are all held and pairwise distinct. */
  lemma IssuedHandlesDistinct(m: Members, i0: nat)
    requires m.display == Live(i0) && m.backend == Live(i0 + 1) && m.renderer == Live(i0 + 2)
    requires m.allocator == Live(i0 + 3) && m.outputLayout == Live(i0 + 7) && m.scene == Live(i0 + 8)
    requires m.cursor == Live(i0 + 10) && m.seat == Live(i0 + 11) && m.xcursorManager == Live(i0 + 12)
    ensures AllHeld(DestructionOrder(m)) && Distinct(DestructionOrder(m))
  {
  }

  /** Running the destructors destroys each handle as many times as it is held. */
  lemma {:induction false} DropsDestroyHeld(hs: seq<Held>, p: Ptr)
    ensures Destroys(Drops(hs), p) == Holding(hs, p)
    decreases |hs|
  {
    if hs != [] {
      DropsDestroyHeld(hs[1..], p);
      DestroysAppend(DropCalls(hs[0].kind, hs[0].ptr), Drops(hs[1..]), p);
    }
  }

  /** With every wrapper holding a handle, the destructors make one destroy call
      each, in the wrappers' order, each with the kind's deleter. */
  lemma {:induction false} DropsInOrder(hs: seq<Held>)
    requires AllHeld(hs)
    ensures |Drops(hs)| == |hs|
    ensures forall i :: 0 <= i < |hs| ==>
              Drops(hs)[i] == Call(Destroy(hs[i].kind, DeleterOf(hs[i].kind)), [hs[i].ptr], Null)
    decreases |hs|
  {
    if hs != [] {
      DropsInOrder(hs[1..]);
    }
  }

  /** Distinct handles are each held once. */
  lemma {:induction false} HeldOnce(hs: seq<Held>, i: nat)
    requires Distinct(hs) && i < |hs| && hs[i].ptr != Null
    ensures Holding(hs, hs[i].ptr) == 1
    decreases |hs|
  {
    if i == 0 {
      NotHeld(hs[1..], hs[0].ptr);
    } else {
      HeldOnce(hs[1..], i - 1);
    }
  }

  lemma {:induction false} NotHeld(hs: seq<Held>, p: Ptr)
    requires forall k :: 0 <= k < |hs| ==> hs[k].ptr != p
    ensures Holding(hs, p) == 0
    decreases |hs|
  {
    if hs != [] {
      NotHeld(hs[1..], p);
    }
  }

  /** The seven listeners, in reverse declaration order (main.cpp:334-425). */
  function Unlinks(m: Members, lastOutput: Ptr): seq<Call>
  {
    [ Call(Unsubscribe(OutputFrame), [lastOutput], Null),
      Call(Unsubscribe(NewSurface), [m.xdgShell], Null),
      Call(Unsubscribe(CursorMotion), [m.cursor], Null),
      Call(Unsubscribe(CursorFrame), [m.cursor], Null),
      Call(Unsubscribe(RequestSetCursor), [m.seat], Null),
      Call(Unsubscribe(NewInput), [m.backend], Null),
      Call(Unsubscribe(NewOutput), [m.backend], Null) ]
  }

  /** The server's destruction: the listeners unlink first, then the wrapped
      handles go from the cursor-theme manager back to the display. */
  function TeardownLog(m: Members, lastOutput: Ptr): seq<Call>
  {
    Unlinks(m, lastOutput) + Drops(DestructionOrder(m))
  }

  /** Teardown is a run of unlinks followed by a run of destroys: no listener
      unlinks after a handle has been destroyed. */
  lemma ListenersDetachBeforeHandles(m: Members, lastOutput: Ptr)
    ensures var t := TeardownLog(m, lastOutput);
      forall i, j :: 0 <= i < j < |t| && t[i].op.Destroy? ==> !t[j].op.Unsubscribe? && j >= 7
  {
    var t := TeardownLog(m, lastOutput);
    var h := Drops(DestructionOrder(m));
    DropsAreDestroys(DestructionOrder(m));
    assert forall k :: 7 <= k < |t| ==> t[k] == h[k - 7];
  }

  lemma {:induction false} DropsAreDestroys(hs: seq<Held>)
    ensures forall k :: 0 <= k < |Drops(hs)| ==> Drops(hs)[k].op.Destroy?
    decreases |hs|
  {
    if hs != [] {
      DropsAreDestroys(hs[1..]);
      var a := DropCalls(hs[0].kind, hs[0].ptr);
      assert forall k :: |a| <= k < |Drops(hs)| ==> Drops(hs)[k] == Drops(hs[1..])[k - |a|];
    }
  }

  /**
    Construction creates the output layout before the scene, and destruction
    destroys the output layout before the scene too (the scene with a plain
    free): teardown is not the reverse of construction for this pair.
  */
  lemma LayoutOutlivedByScene(m: Members, lastOutput: Ptr)
    requires AllHeld(DestructionOrder(m))
    ensures ConstructionLog(m)[9].op == Create(OutputLayoutKind, NoArgs)
    ensures ConstructionLog(m)[10].op == Create(SceneKind, NoArgs)
    ensures |TeardownLog(m, lastOutput)| == 16
    ensures TeardownLog(m, lastOutput)[10] == Call(Destroy(OutputLayoutKind, ToolkitDestroy), [m.outputLayout], Null)
    ensures TeardownLog(m, lastOutput)[11] == Call(Destroy(SceneKind, Free), [m.scene], Null)
  {
    var hs := DestructionOrder(m);
    DropsInOrder(hs);
    assert TeardownLog(m, lastOutput)[10] == Drops(hs)[3];
    assert TeardownLog(m, lastOutput)[11] == Drops(hs)[4];
  }

  /** A log with no destroy call in it. */
  predicate NoDestroy(cs: seq<Call>)
  {
    forall i :: 0 <= i < |cs| ==> !cs[i].op.Destroy?
  }

  lemma {:induction false} NoDestroyDestroysNothing(cs: seq<Call>, p: Ptr)
    requires NoDestroy(cs)
    ensures Destroys(cs, p) == 0
    decreases |cs|
  {
    if cs != [] {
      NoDestroyDestroysNothing(cs[..|cs| - 1], p);
    }
  }

  /** Every call of a run is a step of its plan. */
  lemma {:induction false} RunTakesFromPlan(plan: seq<Call>)
    ensures forall c :: c in Run(plan) ==> c in plan
    decreases |plan|
  {
    if plan != [] && !Aborts(plan[0]) {
      RunTakesFromPlan(plan[1..]);
      assert forall c :: c in plan[1..] ==> c in plan;
    }
  }

  /** Construction destroys nothing, however far it got. */
  lemma ConstructionDestroysNothing(m: Members)
    ensures NoDestroy(Run(ConstructionLog(m)))
  {
    var b := BackendSteps(m.display, m.backend, m.renderer, m.allocator);
    var g := GlobalSteps(m.display, m.renderer, m.compositor, m.subcompositor, m.dataDeviceManager);
    var l := LayoutSteps(m.backend, m.outputLayout, m.scene, m.sceneOutputLayout);
    var c := CursorSteps(m.backend, m.outputLayout, m.cursor);
    var st := SeatSteps(m.display, m.seat, m.xcursorManager, m.xdgShell);
    assert NoDestroy(b) && NoDestroy(g) && NoDestroy(l) && NoDestroy(c) && NoDestroy(st);
    NoDestroyAppend(b, g);
    NoDestroyAppend(l, c);
    NoDestroyAppend(b + g, l + c);
    NoDestroyAppend(b + g + (l + c), st);
    assert ConstructionLog(m) == b + g + (l + c) + st;
    RunDestroysNothing(ConstructionLog(m));
  }

  lemma NoDestroyAppend(a: seq<Call>, b: seq<Call>)
    requires NoDestroy(a) && NoDestroy(b)
    ensures NoDestroy(a + b)
  {
    forall i | 0 <= i < |a + b|
      ensures !(a + b)[i].op.Destroy?
    {
      if i < |a| {
        assert (a + b)[i] == a[i];
      } else {
        assert (a + b)[i] == b[i - |a|];
      }
    }
  }

  /** A run of a plan that destroys nothing destroys nothing. */
  lemma RunDestroysNothing(plan: seq<Call>)
    requires NoDestroy(plan)
    ensures NoDestroy(Run(plan))
  {
    RunTakesFromPlan(plan);
    forall i | 0 <= i < |Run(plan)|
      ensures !Run(plan)[i].op.Destroy?
    {
      assert Run(plan)[i] in Run(plan);
    }
  }

  /**
    Over a server's life (construction, any calls that destroy nothing, then
    destruction), each handle is destroyed as many times as wrappers hold it:
    with distinct handles, each wrapped handle exactly once, and nothing else.
  */
  lemma ServerLifeDestroys(m: Members, between: seq<Call>, lastOutput: Ptr, p: Ptr)
    requires NoDestroy(between)
    ensures Destroys(Run(ConstructionLog(m)) + between + TeardownLog(m, lastOutput), p)
         == Holding(DestructionOrder(m), p)
  {
    ConstructionDestroysNothing(m);
    assert NoDestroy(Unlinks(m, lastOutput));
    DestroysAround(Run(ConstructionLog(m)), between, Unlinks(m, lastOutput), DestructionOrder(m), p);
  }

  /** Destroys counted over a log whose only destroys are a final run of drops. */
  lemma DestroysAround(built: seq<Call>, between: seq<Call>, unlinks: seq<Call>, order: seq<Held>, p: Ptr)
    requires NoDestroy(built) && NoDestroy(between) && NoDestroy(unlinks)
    ensures Destroys(built + between + (unlinks + Drops(order)), p) == Holding(order, p)
  {
    DestroysAppend(built + between, unlinks + Drops(order), p);
    DestroysAppend(built, between, p);
    DestroysAppend(unlinks, Drops(order), p);
    NoDestroyDestroysNothing(built, p);
    NoDestroyDestroysNothing(between, p);
    NoDestroyDestroysNothing(unlinks, p);
    DropsDestroyHeld(order, p);
  }

  lemma EachHandleDestroyedOnce(m: Members, between: seq<Call>, lastOutput: Ptr, i: nat)
    requires i < 9 && Distinct(DestructionOrder(m)) && AllHeld(DestructionOrder(m))
    requires NoDestroy(between)
    ensures Destroys(Run(ConstructionLog(m)) + between + TeardownLog(m, lastOutput), DestructionOrder(m)[i].ptr) == 1
  {
    ServerLifeDestroys(m, between, lastOutput, DestructionOrder(m)[i].ptr);
    HeldOnce(DestructionOrder(m), i);
  }
}

/**
  mcage::server (main.cpp:269-426): the members it owns, the constructor body
  that fills them in order, the seven listener callbacks, and its destruction
  in reverse declaration order.
*/
module Mcage {
  import opened Toolkit
  import opened Handles
  import opened Displays
  import opened Subscriptions
  import opened Lifecycle
  import opened Router

  class Server {
    const tk: Toolkit

    // The wrapped members, in declaration order (main.cpp:314-329).
    const display: Display
    const backend: Owner
    const renderer: Owner
    const allocator: Owner
    var lastOutput: Ptr
    const scene: Owner
    const outputLayout: Owner
    var sceneOutputLayout: Ptr
    const cursor: Owner
    const seat: Owner
    const xcursorManager: Owner

    // The listeners, in declaration order (main.cpp:334-425).
    const newOutput: Listener
    const newInput: Listener
    const requestCursor: Listener
    const cursorFrame: Listener
    const cursorMotion: Listener
    const newXdgToplevel: Listener
    const outputFrame: Listener

    /** Each member has its kind and each listener its signal; these fields never change. */
    predicate Valid()
    {
      Kinds() && Signals()
    }

    predicate Kinds()
    {
      display.base.kind == DisplayKind && backend.kind == BackendKind && renderer.kind == RendererKind
      && allocator.kind == AllocatorKind && scene.kind == SceneKind && outputLayout.kind == OutputLayoutKind
      && cursor.kind == CursorKind && seat.kind == SeatKind && xcursorManager.kind == XcursorManagerKind
    }

    predicate Signals()
    {
      newOutput.signal == NewOutput && newInput.signal == NewInput
      && requestCursor.signal == RequestSetCursor && cursorFrame.signal == CursorFrame
      && cursorMotion.signal == CursorMotion && newXdgToplevel.signal == NewSurface
      && outputFrame.signal == OutputFrame
    }

    /** The handles the server holds right now. */
    function Members(): Members
      reads this, display, display.base, backend, renderer, allocator, scene, outputLayout
      reads cursor, seat, xcursorManager
    {
      Lifecycle.Members(
        display.base.ptr, backend.ptr, renderer.ptr, allocator.ptr,
        display.compositor, display.subcompositor, display.dataDeviceManager,
        outputLayout.ptr, scene.ptr, sceneOutputLayout,
        cursor.ptr, seat.ptr, xcursorManager.ptr, display.xdgShell)
    }

    /** Every linked listener is linked into the signal of the handle it belongs to. */
    predicate Linked()
      reads this, display, backend, cursor, seat
      reads newOutput, newInput, requestCursor, cursorFrame, cursorMotion, newXdgToplevel, outputFrame
    {
      Valid()
      && (newOutput.attached ==> newOutput.source == backend.ptr)
      && (newInput.attached ==> newInput.source == backend.ptr)
      && (cursorMotion.attached ==> cursorMotion.source == cursor.ptr)
      && (cursorFrame.attached ==> cursorFrame.source == cursor.ptr)
      && (requestCursor.attached ==> requestCursor.source == seat.ptr)
      && (newXdgToplevel.attached ==> newXdgToplevel.source == display.xdgShell)
      && (outputFrame.attached ==> outputFrame.source == lastOutput)
    }

    /** The listeners that server::server() links, each into its handle's signal. */
    predicate Subscribed()
      reads display, backend, cursor, seat
      reads newOutput, newInput, requestCursor, cursorFrame, cursorMotion, newXdgToplevel
    {
      Valid() && SceneSubscribed() && SeatSubscribed()
    }

    /** The outputs, input, motion and frame listeners, linked at steps 8-16. */
    predicate SceneSubscribed()
      reads backend, cursor, newOutput, newInput, cursorFrame, cursorMotion
    {
      && newOutput.attached && newOutput.source == backend.ptr
      && newInput.attached && newInput.source == backend.ptr
      && cursorMotion.attached && cursorMotion.source == cursor.ptr
      && cursorFrame.attached && cursorFrame.source == cursor.ptr
    }

    /** The cursor-request and new-surface listeners, linked at steps 17-21. */
    predicate SeatSubscribed()
      reads display, seat, requestCursor, newXdgToplevel
    {
      && requestCursor.attached && requestCursor.source == seat.ptr
      && newXdgToplevel.attached && newXdgToplevel.source == display.xdgShell
    }

    /** The members' default initialisation, before the constructor body: every
        wrapper empty, every display cache null, no listener linked. The two raw
        pointers m_last_output and m_scene_output_layout, left uninitialised by
        the source, are started at null here. */
    constructor (tk: Toolkit)
      ensures this.tk == tk && Valid()
      ensures Members() == Unset && lastOutput == Null
      ensures !newOutput.attached && !newInput.attached && !requestCursor.attached && !cursorFrame.attached
      ensures !cursorMotion.attached && !newXdgToplevel.attached && !outputFrame.attached
      ensures fresh(display) && fresh(display.base) && fresh(backend) && fresh(renderer) && fresh(allocator)
      ensures fresh(scene) && fresh(outputLayout) && fresh(cursor) && fresh(seat) && fresh(xcursorManager)
      ensures fresh(newOutput) && fresh(newInput) && fresh(requestCursor) && fresh(cursorFrame)
      ensures fresh(cursorMotion) && fresh(newXdgToplevel) && fresh(outputFrame)
    {
      this.tk := tk;
      var d, b, r, a, sc, ol, c, st, xm := EmptyMembers();
      display, backend, renderer, allocator, scene := d, b, r, a, sc;
      outputLayout, cursor, seat, xcursorManager := ol, c, st, xm;
      lastOutput, sceneOutputLayout := Null, Null;
      var o, i, rc, cf, cm, xt, of := NewListeners();
      newOutput, newInput, requestCursor, cursorFrame := o, i, rc, cf;
      cursorMotion, newXdgToplevel, outputFrame := cm, xt, of;
    }

    /** Whether the server is fully built: every wrapped handle held and distinct,
        every construction-time listener linked. */
    predicate Running()
      reads this, display, display.base, backend, renderer, allocator, scene, outputLayout
      reads cursor, seat, xcursorManager
      reads newOutput, newInput, requestCursor, cursorFrame, cursorMotion, newXdgToplevel
    {
      Subscribed() && AllHeld(DestructionOrder(Members())) && Distinct(DestructionOrder(Members()))
    }

    /**
      The body of server::server() (main.cpp:272-307): each step in order,
      up to the first fatal step that answers null (the exception of
      `.value()`, or the assertion on the xdg shell). `ok` says whether the
      server was built; the log holds exactly the calls made.
    */
    method Construct() returns (ok: bool)
      requires Valid() && Members() == Unset && display.NoGlobals()
      requires !newOutput.attached && !newInput.attached && !requestCursor.attached
      requires !cursorFrame.attached && !cursorMotion.attached && !newXdgToplevel.attached
      requires !outputFrame.attached
      modifies tk, display, display.base, backend, renderer, allocator, scene, outputLayout
      modifies cursor, seat, xcursorManager, this`sceneOutputLayout
      modifies newOutput, newInput, requestCursor, cursorFrame, cursorMotion, newXdgToplevel
      ensures Valid() && !outputFrame.attached && lastOutput == old(lastOutput)
      ensures tk.log == old(tk.log) + Run(ConstructionLog(Members()))
      ensures ok <==> Completes(ConstructionLog(Members()))
      ensures ok ==> Running()
    {
      ghost var i0, log0 := tk.issued, tk.log;
      ok := BuildCore();
      ghost var core, log1, ok1 := CoreLog(Members()), tk.log, ok;
      if ok {
        ok := BuildRest();
        if ok {
          IssuedHandlesDistinct(Members(), i0);
        }
      }
      ghost var m := Members();
      assert CoreLog(m) == core;
      ConstructionChain(m, log0, ok1, log1, ok, tk.log);
    }

    /** Steps 8-21: the scene stretch, then the seat stretch. */
    method BuildRest() returns (ok: bool)
      requires Valid() && outputLayout.ptr == Null && scene.ptr == Null && cursor.ptr == Null
      requires sceneOutputLayout == Null
      requires seat.ptr == Null && xcursorManager.ptr == Null && display.xdgShell == Null
      requires !newOutput.attached && !newInput.attached && !cursorMotion.attached && !cursorFrame.attached
      requires !requestCursor.attached && !newXdgToplevel.attached
      modifies tk, outputLayout, scene, cursor, this`sceneOutputLayout, seat, xcursorManager, display
      modifies newOutput, newInput, cursorMotion, cursorFrame, requestCursor, newXdgToplevel
      ensures display.compositor == old(display.compositor) && display.subcompositor == old(display.subcompositor)
      ensures display.dataDeviceManager == old(display.dataDeviceManager)
      ensures CoreLog(Members()) == old(CoreLog(Members()))
      ensures tk.log == old(tk.log) + Run(SceneLog(Members()) + SeatLog(Members()))
      ensures ok <==> Completes(SceneLog(Members()) + SeatLog(Members()))
      ensures ok ==> outputLayout.ptr == Live(old(tk.issued)) && scene.ptr == Live(old(tk.issued) + 1)
      ensures ok ==> cursor.ptr == Live(old(tk.issued) + 3)
      ensures ok ==> seat.ptr == Live(old(tk.issued) + 4) && xcursorManager.ptr == Live(old(tk.issued) + 5)
      ensures ok ==> SceneSubscribed() && SeatSubscribed()
    {
      ghost var m0, log0 := Members(), tk.log;
      ok := BuildScene();
      ghost var sc := SceneSteps(backend.ptr, outputLayout.ptr, scene.ptr, sceneOutputLayout, cursor.ptr);
      ghost var log1, ok1 := tk.log, ok;
      if ok {
        ok := BuildSeat();
      }
      Chain(log0, sc, SeatSteps(display.base.ptr, seat.ptr, xcursorManager.ptr, display.xdgShell), ok1, log1, ok, tk.log);
      ghost var m := Members();
      assert SceneLog(m) == sc;
      assert m.display == m0.display && m.backend == m0.backend && m.renderer == m0.renderer;
      assert m.allocator == m0.allocator && m.compositor == m0.compositor;
      assert m.subcompositor == m0.subcompositor && m.dataDeviceManager == m0.dataDeviceManager;
      assert CoreLog(m) == CoreLog(m0);
    }

    /** Steps 0-7: the backend stretch, then the display's optional globals. */
    method BuildCore() returns (ok: bool)
      requires Kinds() && display.base.ptr == Null && display.NoGlobals()
      requires backend.ptr == Null && renderer.ptr == Null && allocator.ptr == Null
      modifies tk, display, display.base, backend, renderer, allocator
      ensures tk.log == old(tk.log) + Run(CoreLog(Members()))
      ensures ok <==> Completes(CoreLog(Members()))
      ensures display.xdgShell == Null && old(tk.issued) <= tk.issued
      ensures unchanged(outputLayout, scene, cursor, seat, xcursorManager)
      ensures ok ==> tk.issued == old(tk.issued) + 7
      ensures ok ==> display.base.ptr == Live(old(tk.issued)) && backend.ptr == Live(old(tk.issued) + 1)
      ensures ok ==> renderer.ptr == Live(old(tk.issued) + 2) && allocator.ptr == Live(old(tk.issued) + 3)
    {
      ghost var log0 := tk.log;
      ok := BuildBackend();
      ghost var b, log1 := BackendSteps(display.base.ptr, backend.ptr, renderer.ptr, allocator.ptr), tk.log;
      if ok {
        InitGlobals();
      }
      GlobalsRun(display.base.ptr, renderer.ptr, display.compositor, display.subcompositor, display.dataDeviceManager);
      Chain(log0, b, GlobalSteps(display.base.ptr, renderer.ptr, display.compositor, display.subcompositor,
                                 display.dataDeviceManager), ok, log1, ok, tk.log);
      ghost var m := Members();
      assert CoreLog(m) == b + GlobalSteps(display.base.ptr, renderer.ptr, display.compositor, display.subcompositor,
                                           display.dataDeviceManager);
    }

    /** Steps 0-4: display, backend, renderer, the renderer's display hookup, allocator. */
    method BuildBackend() returns (ok: bool)
      requires Kinds() && display.base.ptr == Null && display.NoGlobals()
      requires backend.ptr == Null && renderer.ptr == Null && allocator.ptr == Null
      modifies tk, display, display.base, backend, renderer, allocator
      ensures tk.log == old(tk.log) + Run(BackendSteps(display.base.ptr, backend.ptr, renderer.ptr, allocator.ptr))
      ensures ok <==> display.base.ptr != Null && backend.ptr != Null && renderer.ptr != Null && allocator.ptr != Null
      ensures ok <==> Completes(BackendSteps(display.base.ptr, backend.ptr, renderer.ptr, allocator.ptr))
      ensures display.NoGlobals() && old(tk.issued) <= tk.issued
      ensures ok ==> tk.issued == old(tk.issued) + 4
      ensures ok ==> display.base.ptr == Live(old(tk.issued)) && backend.ptr == Live(old(tk.issued) + 1)
      ensures ok ==> renderer.ptr == Live(old(tk.issued) + 2) && allocator.ptr == Live(old(tk.issued) + 3)
    {
      ok := InstallDisplay(tk, display);
      if ok {
        ok := Install(tk, backend, NoArgs, [display.base.ptr]);
        if ok {
          ok := Install(tk, renderer, NoArgs, [backend.ptr]);
          if ok {
            tk.Invoke(RendererInitWlDisplay, [renderer.ptr, display.base.ptr]);
            ok := Install(tk, allocator, NoArgs, [backend.ptr, renderer.ptr]);
          }
        }
      }
      BackendRun(display.base.ptr, backend.ptr, renderer.ptr, allocator.ptr);
    }

    /** Steps 5-7: compositor, subcompositor and data-device manager, whose
        results the constructor ignores. */
    method InitGlobals()
      requires display.NoGlobals()
      modifies tk, display
      ensures tk.log == old(tk.log)
        + GlobalSteps(display.base.ptr, renderer.ptr, display.compositor, display.subcompositor, display.dataDeviceManager)
      ensures display.xdgShell == Null && tk.issued == old(tk.issued) + 3
    {
      var _ := display.InitCompositor(tk, 5, renderer);
      var _ := display.InitSubcompositor(tk);
      var _ := display.InitDataDeviceManager(tk);
    }

    /** Steps 8-16: the layout stretch, then the cursor stretch. */
    method BuildScene() returns (ok: bool)
      requires Valid() && outputLayout.ptr == Null && scene.ptr == Null && cursor.ptr == Null
      requires sceneOutputLayout == Null
      requires !newOutput.attached && !newInput.attached && !cursorMotion.attached && !cursorFrame.attached
      modifies tk, outputLayout, scene, cursor, this`sceneOutputLayout
      modifies newOutput, newInput, cursorMotion, cursorFrame
      ensures tk.log == old(tk.log) + Run(SceneSteps(backend.ptr, outputLayout.ptr, scene.ptr, sceneOutputLayout, cursor.ptr))
      ensures ok <==> Completes(SceneSteps(backend.ptr, outputLayout.ptr, scene.ptr, sceneOutputLayout, cursor.ptr))
      ensures old(tk.issued) <= tk.issued
      ensures ok ==> SceneSubscribed()
      ensures ok ==> tk.issued == old(tk.issued) + 4
      ensures ok ==> outputLayout.ptr == Live(old(tk.issued)) && scene.ptr == Live(old(tk.issued) + 1)
      ensures ok ==> cursor.ptr == Live(old(tk.issued) + 3)
    {
      ghost var log0 := tk.log;
      ok := BuildLayout();
      ghost var l, log1, ok1 := LayoutSteps(backend.ptr, outputLayout.ptr, scene.ptr, sceneOutputLayout), tk.log, ok;
      if ok {
        ok := BuildCursor();
      }
      Chain(log0, l, CursorSteps(backend.ptr, outputLayout.ptr, cursor.ptr), ok1, log1, ok, tk.log);
    }

    /** Steps 8-11: the new_output subscription, output layout, scene, and the
        scene's output-layout glue. */
    method BuildLayout() returns (ok: bool)
      requires Valid() && outputLayout.ptr == Null && scene.ptr == Null && sceneOutputLayout == Null
      requires !newOutput.attached
      modifies tk, outputLayout, scene, this`sceneOutputLayout, newOutput
      ensures tk.log == old(tk.log) + Run(LayoutSteps(backend.ptr, outputLayout.ptr, scene.ptr, sceneOutputLayout))
      ensures ok <==> outputLayout.ptr != Null && scene.ptr != Null
      ensures ok <==> Completes(LayoutSteps(backend.ptr, outputLayout.ptr, scene.ptr, sceneOutputLayout))
      ensures old(tk.issued) <= tk.issued
      ensures newOutput.attached && newOutput.source == backend.ptr
      ensures ok ==> tk.issued == old(tk.issued) + 3
      ensures ok ==> outputLayout.ptr == Live(old(tk.issued)) && scene.ptr == Live(old(tk.issued) + 1)
    {
      newOutput.AddToSignal(tk, backend.ptr);
      ok := Install(tk, outputLayout, NoArgs, []);
      if ok {
        ok := Install(tk, scene, NoArgs, []);
        if ok {
          sceneOutputLayout := tk.Make(SceneAttachOutputLayout, [scene.ptr, outputLayout.ptr]);
        }
      }
      LayoutRun(backend.ptr, outputLayout.ptr, scene.ptr, sceneOutputLayout);
    }

    /** Steps 12-16: the cursor, its layout, and the input, motion and frame subscriptions. */
    method BuildCursor() returns (ok: bool)
      requires Valid() && cursor.ptr == Null
      requires !newInput.attached && !cursorMotion.attached && !cursorFrame.attached
      modifies tk, cursor, newInput, cursorMotion, cursorFrame
      ensures tk.log == old(tk.log) + Run(CursorSteps(backend.ptr, outputLayout.ptr, cursor.ptr))
      ensures ok <==> cursor.ptr != Null
      ensures ok <==> Completes(CursorSteps(backend.ptr, outputLayout.ptr, cursor.ptr))
      ensures tk.issued == old(tk.issued) + 1
      ensures newInput.attached == cursorMotion.attached == cursorFrame.attached == ok
      ensures ok ==> newInput.source == backend.ptr
      ensures ok ==> cursorMotion.source == cursor.ptr && cursorFrame.source == cursor.ptr
      ensures ok ==> cursor.ptr == Live(old(tk.issued))
    {
      ok := Install(tk, cursor, NoArgs, []);
      if ok {
        tk.Invoke(CursorAttachOutputLayout, [cursor.ptr, outputLayout.ptr]);
        newInput.AddToSignal(tk, backend.ptr);
        cursorMotion.AddToSignal(tk, cursor.ptr);
        cursorFrame.AddToSignal(tk, cursor.ptr);
      }
      CursorRun(backend.ptr, outputLayout.ptr, cursor.ptr);
    }

    /** Steps 17-21: seat, its request_set_cursor subscription, cursor theme,
        xdg shell (which must exist), and the new_surface subscription. */
    method BuildSeat() returns (ok: bool)
      requires Valid() && seat.ptr == Null && xcursorManager.ptr == Null && display.xdgShell == Null
      requires !requestCursor.attached && !newXdgToplevel.attached
      modifies tk, seat, xcursorManager, display, requestCursor, newXdgToplevel
      ensures display.compositor == old(display.compositor) && display.subcompositor == old(display.subcompositor)
      ensures display.dataDeviceManager == old(display.dataDeviceManager)
      ensures tk.log == old(tk.log) + Run(SeatSteps(display.base.ptr, seat.ptr, xcursorManager.ptr, display.xdgShell))
      ensures ok <==> seat.ptr != Null && xcursorManager.ptr != Null && display.xdgShell != Null
      ensures ok <==> Completes(SeatSteps(display.base.ptr, seat.ptr, xcursorManager.ptr, display.xdgShell))
      ensures ok ==> SeatSubscribed()
      ensures ok ==> seat.ptr == Live(old(tk.issued)) && xcursorManager.ptr == Live(old(tk.issued) + 1)
    {
      ok := Install(tk, seat, SeatName("seat0"), [display.base.ptr]);
      if ok {
        requestCursor.AddToSignal(tk, seat.ptr);
        ok := Install(tk, xcursorManager, DefaultTheme(32), []);
        if ok {
          var shell := display.InitXdgShell(tk, 3);
          ok := shell != Null;
          if ok {
            newXdgToplevel.AddToSignal(tk, display.xdgShell);
          }
        }
      }
      SeatRun(display.base.ptr, seat.ptr, xcursorManager.ptr, display.xdgShell);
    }

    // -----------------------------------------------------------------
    // The listener callbacks (main.cpp:334-425). Each runs only while its
    // listener is linked; what the toolkit answers to a query is a parameter.
    // -----------------------------------------------------------------

    /**
      new_output (main.cpp:334-358): `mode` is what wlr_output_preferred_mode
      answers. The output is set up, becomes the last output, gets the frame
      listener, and is placed in the layout and the scene. Only one output is
      modelled: the frame listener must not be linked yet.
    */
    method OnNewOutput(output: Ptr, mode: Ptr)
      requires newOutput.Delivers() && !outputFrame.attached && Valid()
      modifies tk, this`lastOutput, outputFrame
      ensures lastOutput == output && outputFrame.attached && outputFrame.source == output
      ensures tk.issued == old(tk.issued) + 2
      ensures tk.log == old(tk.log)
        + NewOutputCalls(Members(), output, mode, Live(old(tk.issued)), Live(old(tk.issued) + 1))
      ensures var v := old(ViewOf(tk.log));
        ViewOf(tk.log) == v.(pending := NoPending, commits := v.commits + [Commit(output, true, mode)],
                             outputs := v.outputs + [output], placed := v.placed + [Live(old(tk.issued) + 1)])
    {
      ghost var before := tk.log;
      tk.Invoke(OutputInitRender, [output, allocator.ptr, renderer.ptr]);
      CommitOutputState(output, mode);
      lastOutput := output;
      PlaceOutput(output);
      ghost var init := [Call(OutputInitRender, [output, allocator.ptr, renderer.ptr], Null)];
      ghost var placement := PlacementCalls(Members(), output, Live(old(tk.issued)), Live(old(tk.issued) + 1));
      LoggedThen(before, init, OutputStateCalls(output, mode));
      LoggedThen(before, init + OutputStateCalls(output, mode), placement);
      ghost var calls := NewOutputCalls(Members(), output, mode, Live(old(tk.issued)), Live(old(tk.issued) + 1));
      ReplayAppend(Start, before, calls);
      NewOutputRoutes(ViewOf(before), Members(), output, mode, Live(old(tk.issued)), Live(old(tk.issued) + 1));
    }

    /** The scoped output-state block of new_output (main.cpp:338-347): enable,
        the preferred mode only when there is one, commit, finish. */
    method CommitOutputState(output: Ptr, mode: Ptr)
      modifies tk
      ensures tk.issued == old(tk.issued)
      ensures tk.log == old(tk.log) + OutputStateCalls(output, mode)
    {
      ghost var log0 := tk.log;
      tk.Invoke(OutputStateInit, []);
      tk.Invoke(OutputStateSetEnabled(true), []);
      var preferred := tk.Ask(OutputPreferredMode, [output], mode);
      Logged3(log0, Call(OutputStateInit, [], Null), Call(OutputStateSetEnabled(true), [], Null),
              Call(OutputPreferredMode, [output], mode));
      ghost var log1 := tk.log;
      if preferred != Null {
        tk.Invoke(OutputStateSetMode, [preferred]);
      } else {
        assert log1 + [] == log1;
      }
      ghost var log2 := tk.log;
      assert log2 == log1 + ModeCalls(mode);
      tk.Invoke(OutputCommitState, [output]);
      tk.Invoke(OutputStateFinish, []);
      Logged2(log2, Call(OutputCommitState, [output], Null), Call(OutputStateFinish, [], Null));
      LoggedThen(log0, EnableCalls(output, mode), ModeCalls(mode));
      LoggedThen(log0, EnableCalls(output, mode) + ModeCalls(mode), CommitCalls(output));
    }

    /** The rest of new_output (main.cpp:350-357): the frame subscription, the
        layout output and the scene output, linked together. */
    method PlaceOutput(output: Ptr)
      requires !outputFrame.attached && Valid()
      modifies tk, outputFrame
      ensures outputFrame.attached && outputFrame.source == output
      ensures tk.issued == old(tk.issued) + 2
      ensures tk.log == old(tk.log)
        + PlacementCalls(Members(), output, Live(old(tk.issued)), Live(old(tk.issued) + 1))
    {
      ghost var before := tk.log;
      outputFrame.AddToSignal(tk, output);
      var layoutOutput := tk.Make(OutputLayoutAddAuto, [outputLayout.ptr, output]);
      var sceneOutput := tk.Make(SceneOutputCreate, [scene.ptr, output]);
      tk.Invoke(SceneOutputLayoutAddOutput, [sceneOutputLayout, layoutOutput, sceneOutput]);
      Logged4(before, Call(Subscribe(OutputFrame), [output], Null),
              Call(OutputLayoutAddAuto, [outputLayout.ptr, output], layoutOutput),
              Call(SceneOutputCreate, [scene.ptr, output], sceneOutput),
              Call(SceneOutputLayoutAddOutput, [sceneOutputLayout, layoutOutput, sceneOutput], Null));
    }

    /** new_input (main.cpp:360-377): `keyboard` is what
        wlr_keyboard_from_input_device answers for a keyboard device. */
    method OnNewInput(d: Device, keyboard: Ptr)
      requires newInput.Delivers()
      modifies tk
      ensures tk.issued == old(tk.issued)
      ensures tk.log == old(tk.log) + NewInputCalls(Members(), d, keyboard)
      ensures var v := old(ViewOf(tk.log));
        ViewOf(tk.log) == match d.kind
                          case PointerDevice => v.(pointers := v.pointers + [d.handle])
                          case KeyboardDevice => v.(keyboard := keyboard)
                          case _ => v
    {
      ghost var before := tk.log;
      match d.kind {
        case PointerDevice =>
          tk.Invoke(CursorAttachInputDevice, [cursor.ptr, d.handle]);
        case KeyboardDevice =>
          var kbd := tk.Ask(KeyboardFromInputDevice, [d.handle], keyboard);
          tk.Invoke(SeatSetKeyboard, [seat.ptr, kbd]);
          Logged2(before, Call(KeyboardFromInputDevice, [d.handle], keyboard), Call(SeatSetKeyboard, [seat.ptr, keyboard], Null));
        case _ =>
          assert before + [] == before;
      }
      ReplayAppend(Start, before, NewInputCalls(Members(), d, keyboard));
      NewInputRoutes(ViewOf(before), Members(), d, keyboard);
    }

    /** request_set_cursor (main.cpp:379-386): `focused` is the seat's
        pointer-focused client at the time of the request. */
    method OnRequestSetCursor(ev: CursorRequest, focused: Ptr)
      requires requestCursor.Delivers()
      modifies tk
      ensures tk.issued == old(tk.issued)
      ensures tk.log == old(tk.log) + RequestCursorCalls(Members(), focused, ev)
      ensures var v := old(ViewOf(tk.log));
        ViewOf(tk.log) == if focused == ev.seatClient then v.(image := SurfaceImage(ev.surface, ev.hotspotX, ev.hotspotY))
                          else v
    {
      ghost var before := tk.log;
      if focused == ev.seatClient {
        tk.Invoke(CursorSetSurface(ev.hotspotX, ev.hotspotY), [cursor.ptr, ev.surface]);
      } else {
        assert before + [] == before;
      }
      ReplayAppend(Start, before, RequestCursorCalls(Members(), focused, ev));
      RequestCursorRoutes(ViewOf(before), Members(), focused, ev);
    }

    /** cursor frame (main.cpp:388-389). */
    method OnCursorFrame()
      requires cursorFrame.Delivers()
      modifies tk
      ensures tk.issued == old(tk.issued)
      ensures tk.log == old(tk.log) + CursorFrameCalls(Members())
      ensures ViewOf(tk.log) == old(ViewOf(tk.log)).(frames := old(ViewOf(tk.log)).frames + 1)
    {
      ghost var before := tk.log;
      tk.Invoke(SeatPointerNotifyFrame, [seat.ptr]);
      ReplayAppend(Start, before, CursorFrameCalls(Members()));
      CursorFrameRoutes(ViewOf(before), Members());
    }

    /** cursor motion (main.cpp:391-396): `pointer` is the event's device; the
        deltas are not modelled. */
    method OnCursorMotion(pointer: Ptr)
      requires cursorMotion.Delivers()
      modifies tk
      ensures tk.issued == old(tk.issued)
      ensures tk.log == old(tk.log) + CursorMotionCalls(Members(), pointer)
      ensures ViewOf(tk.log) == old(ViewOf(tk.log)).(moves := old(ViewOf(tk.log)).moves + 1,
                                                     image := ThemeImage("default"))
    {
      ghost var before := tk.log;
      tk.Invoke(CursorMove, [cursor.ptr, pointer]);
      tk.Invoke(CursorSetXcursor("default"), [cursor.ptr, xcursorManager.ptr]);
      Logged2(before, Call(CursorMove, [cursor.ptr, pointer], Null),
              Call(CursorSetXcursor("default"), [cursor.ptr, xcursorManager.ptr], Null));
      ReplayAppend(Start, before, CursorMotionCalls(Members(), pointer));
      CursorMotionRoutes(ViewOf(before), Members(), pointer);
    }

    /** new_surface (main.cpp:398-414): a toplevel gets a scene tree, raised to
        the top; a surface of any other role is ignored. */
    method OnNewSurface(s: XdgSurface)
      requires newXdgToplevel.Delivers()
      modifies tk
      ensures tk.issued == old(tk.issued) + (if s.role == ToplevelRole then 1 else 0)
      ensures tk.log == old(tk.log) + NewSurfaceCalls(Members(), s, Live(old(tk.issued)))
      ensures var v := old(ViewOf(tk.log));
        ViewOf(tk.log) == if s.role == ToplevelRole then v.(windows := v.windows + [s.handle], top := Live(old(tk.issued)))
                          else v
    {
      ghost var before, i0 := tk.log, tk.issued;
      if s.role == ToplevelRole {
        var tree := tk.Make(SceneXdgSurfaceCreate, [scene.ptr, s.handle]);
        tk.Invoke(SceneNodeRaiseToTop, [tree]);
        Logged2(before, Call(SceneXdgSurfaceCreate, [scene.ptr, s.handle], tree), Call(SceneNodeRaiseToTop, [tree], Null));
      } else {
        assert before + [] == before;
      }
      ReplayAppend(Start, before, NewSurfaceCalls(Members(), s, Live(i0)));
      NewSurfaceRoutes(ViewOf(before), Members(), s, Live(i0));
    }

    /** output frame (main.cpp:416-425): `sceneOutput` is what
        wlr_scene_get_scene_output answers for the last output. */
    method OnOutputFrame(sceneOutput: Ptr)
      requires outputFrame.Delivers()
      modifies tk
      ensures tk.issued == old(tk.issued)
      ensures tk.log == old(tk.log) + OutputFrameCalls(Members(), lastOutput, sceneOutput)
      ensures var v := old(ViewOf(tk.log));
        ViewOf(tk.log) == v.(presented := v.presented + [sceneOutput], frameDone := v.frameDone + [sceneOutput])
    {
      ghost var before := tk.log;
      var so := tk.Ask(SceneGetSceneOutput, [scene.ptr, lastOutput], sceneOutput);
      tk.Invoke(SceneOutputCommit, [so]);
      tk.Invoke(SceneOutputSendFrameDone, [so]);
      Logged3(before, Call(SceneGetSceneOutput, [scene.ptr, lastOutput], so),
              Call(SceneOutputCommit, [so], Null), Call(SceneOutputSendFrameDone, [so], Null));
      ReplayAppend(Start, before, OutputFrameCalls(Members(), lastOutput, sceneOutput));
      OutputFrameRoutes(ViewOf(before), Members(), lastOutput, sceneOutput);
    }

    // -----------------------------------------------------------------
    // Destruction (main.cpp:314-425): members are destroyed in reverse
    // declaration order, so every listener unlinks before any handle goes.
    // -----------------------------------------------------------------

    /**
      ~server(): the seven listeners unlink, then the nine wrappers destroy
      what they hold. The model asks every listener to be linked (a running
      server that has seen its output), since unlinking a listener that was
      never linked is not modelled.
    */
    method Teardown()
      requires Running() && outputFrame.attached && outputFrame.source == lastOutput
      modifies tk, display.base, backend, renderer, allocator, scene, outputLayout, cursor, seat, xcursorManager
      modifies newOutput, newInput, requestCursor, cursorFrame, cursorMotion, newXdgToplevel, outputFrame
      ensures tk.log == old(tk.log) + TeardownLog(old(Members()), lastOutput)
      ensures Members() == old(Members()).(display := Null, backend := Null, renderer := Null, allocator := Null,
                                           outputLayout := Null, scene := Null, cursor := Null, seat := Null,
                                           xcursorManager := Null)
      ensures !newOutput.Delivers() && !newInput.Delivers() && !requestCursor.Delivers() && !cursorFrame.Delivers()
      ensures !cursorMotion.Delivers() && !newXdgToplevel.Delivers() && !outputFrame.Delivers()
    {
      ghost var m := Members();
      ghost var before := tk.log;
      ghost var hs := DestructionOrder(m);
      assert hs[0].ptr != Null && hs[1].ptr != Null && hs[2].ptr != Null && hs[3].ptr != Null && hs[4].ptr != Null;
      assert hs[5].ptr != Null && hs[6].ptr != Null && hs[7].ptr != Null && hs[8].ptr != Null;
      UnlinkAll();
      ghost var unlinked := tk.log;
      DropAll();
      DestructionDrops(m);
      assert tk.log == before + (Unlinks(m, lastOutput) + Drops(DestructionOrder(m)));
    }

    /** The listener members' destructors, last declared first. */
    method UnlinkAll()
      requires Subscribed() && outputFrame.attached && outputFrame.source == lastOutput
      modifies tk, newOutput, newInput, requestCursor, cursorFrame, cursorMotion, newXdgToplevel, outputFrame
      ensures tk.log == old(tk.log) + Unlinks(Members(), lastOutput)
      ensures !newOutput.Delivers() && !newInput.Delivers() && !requestCursor.Delivers() && !cursorFrame.Delivers()
      ensures !cursorMotion.Delivers() && !newXdgToplevel.Delivers() && !outputFrame.Delivers()
    {
      UnlinkLate();
      UnlinkEarly();
    }

    /** The destructors of the output-frame, new-surface, motion and frame listeners. */
    method UnlinkLate()
      requires Signals() && outputFrame.attached && newXdgToplevel.attached
      requires cursorMotion.attached && cursorFrame.attached
      modifies tk, outputFrame, newXdgToplevel, cursorMotion, cursorFrame
      ensures tk.log == old(tk.log)
        + [ Call(Unsubscribe(OutputFrame), [outputFrame.source], Null),
            Call(Unsubscribe(NewSurface), [newXdgToplevel.source], Null),
            Call(Unsubscribe(CursorMotion), [cursorMotion.source], Null),
            Call(Unsubscribe(CursorFrame), [cursorFrame.source], Null) ]
      ensures outputFrame.source == old(outputFrame.source) && newXdgToplevel.source == old(newXdgToplevel.source)
      ensures cursorMotion.source == old(cursorMotion.source) && cursorFrame.source == old(cursorFrame.source)
      ensures !outputFrame.Delivers() && !newXdgToplevel.Delivers()
      ensures !cursorMotion.Delivers() && !cursorFrame.Delivers()
    {
      outputFrame.Drop(tk);
      newXdgToplevel.Drop(tk);
      cursorMotion.Drop(tk);
      cursorFrame.Drop(tk);
    }

    /** The destructors of the cursor-request, new-input and new-output listeners. */
    method UnlinkEarly()
      requires Signals() && requestCursor.attached && newInput.attached && newOutput.attached
      modifies tk, requestCursor, newInput, newOutput
      ensures tk.log == old(tk.log)
        + [ Call(Unsubscribe(RequestSetCursor), [requestCursor.source], Null),
            Call(Unsubscribe(NewInput), [newInput.source], Null),
            Call(Unsubscribe(NewOutput), [newOutput.source], Null) ]
      ensures requestCursor.source == old(requestCursor.source) && newInput.source == old(newInput.source)
      ensures newOutput.source == old(newOutput.source)
      ensures !requestCursor.Delivers() && !newInput.Delivers() && !newOutput.Delivers()
    {
      requestCursor.Drop(tk);
      newInput.Drop(tk);
      newOutput.Drop(tk);
    }

    /** The wrapped members' destructors, last declared first. */
    method DropAll()
      requires Kinds()
      requires display.base.ptr != Null && backend.ptr != Null && renderer.ptr != Null && allocator.ptr != Null
      requires scene.ptr != Null && outputLayout.ptr != Null && cursor.ptr != Null && seat.ptr != Null
      requires xcursorManager.ptr != Null
      modifies tk, display.base, backend, renderer, allocator, scene, outputLayout, cursor, seat, xcursorManager
      ensures tk.log == old(tk.log)
        + [ Call(Destroy(XcursorManagerKind, ToolkitDestroy), [old(xcursorManager.ptr)], Null),
            Call(Destroy(SeatKind, ToolkitDestroy), [old(seat.ptr)], Null),
            Call(Destroy(CursorKind, ToolkitDestroy), [old(cursor.ptr)], Null),
            Call(Destroy(OutputLayoutKind, ToolkitDestroy), [old(outputLayout.ptr)], Null),
            Call(Destroy(SceneKind, Free), [old(scene.ptr)], Null),
            Call(Destroy(AllocatorKind, ToolkitDestroy), [old(allocator.ptr)], Null),
            Call(Destroy(RendererKind, ToolkitDestroy), [old(renderer.ptr)], Null),
            Call(Destroy(BackendKind, ToolkitDestroy), [old(backend.ptr)], Null),
            Call(Destroy(DisplayKind, ToolkitDestroy), [old(display.base.ptr)], Null) ]
      ensures display.base.ptr == Null && backend.ptr == Null && renderer.ptr == Null && allocator.ptr == Null
      ensures scene.ptr == Null && outputLayout.ptr == Null && cursor.ptr == Null && seat.ptr == Null
      ensures xcursorManager.ptr == Null
    {
      DropSceneMembers();
      DropCoreMembers();
    }

    /** The destructors of the cursor-theme manager, seat, cursor, output layout and scene. */
    method DropSceneMembers()
      requires Kinds()
      requires scene.ptr != Null && outputLayout.ptr != Null && cursor.ptr != Null && seat.ptr != Null
      requires xcursorManager.ptr != Null
      modifies tk, scene, outputLayout, cursor, seat, xcursorManager
      ensures tk.log == old(tk.log)
        + [ Call(Destroy(XcursorManagerKind, ToolkitDestroy), [old(xcursorManager.ptr)], Null),
            Call(Destroy(SeatKind, ToolkitDestroy), [old(seat.ptr)], Null),
            Call(Destroy(CursorKind, ToolkitDestroy), [old(cursor.ptr)], Null),
            Call(Destroy(OutputLayoutKind, ToolkitDestroy), [old(outputLayout.ptr)], Null),
            Call(Destroy(SceneKind, Free), [old(scene.ptr)], Null) ]
      ensures scene.ptr == Null && outputLayout.ptr == Null && cursor.ptr == Null && seat.ptr == Null
      ensures xcursorManager.ptr == Null
    {
      xcursorManager.Drop(tk);
      seat.Drop(tk);
      cursor.Drop(tk);
      outputLayout.Drop(tk);
      scene.Drop(tk);
    }

    /** The destructors of the allocator, renderer, backend and display. */
    method DropCoreMembers()
      requires Kinds()
      requires display.base.ptr != Null && backend.ptr != Null && renderer.ptr != Null && allocator.ptr != Null
      modifies tk, display.base, backend, renderer, allocator
      ensures tk.log == old(tk.log)
        + [ Call(Destroy(AllocatorKind, ToolkitDestroy), [old(allocator.ptr)], Null),
            Call(Destroy(RendererKind, ToolkitDestroy), [old(renderer.ptr)], Null),
            Call(Destroy(BackendKind, ToolkitDestroy), [old(backend.ptr)], Null),
            Call(Destroy(DisplayKind, ToolkitDestroy), [old(display.base.ptr)], Null) ]
      ensures display.base.ptr == Null && backend.ptr == Null && renderer.ptr == Null && allocator.ptr == Null
    {
      allocator.Drop(tk);
      renderer.Drop(tk);
      backend.Drop(tk);
      display.Drop(tk);
    }
  }

  /** The server's wrapped members, in declaration order, all empty. */
  method EmptyMembers() returns (d: Display, b: Owner, r: Owner, a: Owner, sc: Owner, ol: Owner,
                                 c: Owner, st: Owner, xm: Owner)
    ensures fresh(d) && fresh(d.base) && fresh(b) && fresh(r) && fresh(a) && fresh(sc) && fresh(ol)
    ensures fresh(c) && fresh(st) && fresh(xm)
    ensures d.base.kind == DisplayKind && b.kind == BackendKind && r.kind == RendererKind
    ensures a.kind == AllocatorKind && sc.kind == SceneKind && ol.kind == OutputLayoutKind
    ensures c.kind == CursorKind && st.kind == SeatKind && xm.kind == XcursorManagerKind
    ensures d.base.ptr == Null && d.NoGlobals() && b.ptr == Null && r.ptr == Null && a.ptr == Null
    ensures sc.ptr == Null && ol.ptr == Null && c.ptr == Null && st.ptr == Null && xm.ptr == Null
  {
    d := new Display.Empty();
    b := new Owner.Empty(BackendKind);
    r := new Owner.Empty(RendererKind);
    a := new Owner.Empty(AllocatorKind);
    sc := new Owner.Empty(SceneKind);
    ol := new Owner.Empty(OutputLayoutKind);
    c := new Owner.Empty(CursorKind);
    st := new Owner.Empty(SeatKind);
    xm := new Owner.Empty(XcursorManagerKind);
  }

  /** The server's seven listeners, in declaration order, none linked yet. */
  method NewListeners() returns (o: Listener, i: Listener, rc: Listener, cf: Listener,
                                              cm: Listener, xt: Listener, of: Listener)
    ensures fresh(o) && fresh(i) && fresh(rc) && fresh(cf) && fresh(cm) && fresh(xt) && fresh(of)
    ensures o.signal == NewOutput && i.signal == NewInput && rc.signal == RequestSetCursor
    ensures cf.signal == CursorFrame && cm.signal == CursorMotion && xt.signal == NewSurface
    ensures of.signal == OutputFrame
    ensures !o.attached && !i.attached && !rc.attached && !cf.attached && !cm.attached
    ensures !xt.attached && !of.attached
  {
    o := new Listener(NewOutput);
    i := new Listener(NewInput);
    rc := new Listener(RequestSetCursor);
    cf := new Listener(CursorFrame);
    cm := new Listener(CursorMotion);
    xt := new Listener(NewSurface);
    of := new Listener(OutputFrame);
  }
}

/**
  The server's seven event handlers (main.cpp:334-425) as the toolkit calls
  each one makes, and a small observable view of the compositor that those
  calls build up: which devices drive the cursor, which keyboard the seat
  uses, what the cursor shows, which window is on top, which outputs are
  laid out and what has been presented.
*/
module Router {
  import opened Toolkit
  import opened Lifecycle

  /** wlr_input_device_type. */
  datatype DeviceType =
    | KeyboardDevice | PointerDevice | TouchDevice | TabletToolDevice | TabletPadDevice | SwitchDevice

  datatype Device = Device(handle: Ptr, kind: DeviceType)

  /** A client's request to set the cursor image. */
  datatype CursorRequest = CursorRequest(seatClient: Ptr, surface: Ptr, hotspotX: int32, hotspotY: int32)

  /** wlr_xdg_surface_role. */
  datatype Role = NoRole | ToplevelRole | PopupRole

  datatype XdgSurface = XdgSurface(handle: Ptr, role: Role)

  // ---------------------------------------------------------------------
  // What each handler says to the toolkit. Answers of queries and of
  // unchecked factories (the preferred mode, the layout output, ...) are
  // parameters.
  // ---------------------------------------------------------------------

  /** new_output: render setup, a one-shot output state, the frame
      subscription, then layout and scene placement. */
  function NewOutputCalls(m: Members, output: Ptr, mode: Ptr, layoutOutput: Ptr, sceneOutput: Ptr): seq<Call>
  {
    [Call(OutputInitRender, [output, m.allocator, m.renderer], Null)]
    + OutputStateCalls(output, mode)
    + PlacementCalls(m, output, layoutOutput, sceneOutput)
  }

  /** new_input: pointers drive the cursor, a keyboard becomes the seat's keyboard. */
  function NewInputCalls(m: Members, d: Device, keyboard: Ptr): seq<Call>
  {
    match d.kind
    case PointerDevice => [Call(CursorAttachInputDevice, [m.cursor, d.handle], Null)]
    case KeyboardDevice =>
      [Call(KeyboardFromInputDevice, [d.handle], keyboard), Call(SeatSetKeyboard, [m.seat, keyboard], Null)]
    case _ => []
  }

  /** request_set_cursor: honoured only from the client that has pointer focus. */
  function RequestCursorCalls(m: Members, focused: Ptr, ev: CursorRequest): seq<Call>
  {
    if focused == ev.seatClient then [Call(CursorSetSurface(ev.hotspotX, ev.hotspotY), [m.cursor, ev.surface], Null)]
    else []
  }

  /** cursor frame: forwarded to the seat. */
  function CursorFrameCalls(m: Members): seq<Call>
  {
    [Call(SeatPointerNotifyFrame, [m.seat], Null)]
  }

  /** cursor motion: move, then show the theme's default image. */
  function CursorMotionCalls(m: Members, pointer: Ptr): seq<Call>
  {
    [Call(CursorMove, [m.cursor, pointer], Null), Call(CursorSetXcursor("default"), [m.cursor, m.xcursorManager], Null)]
  }

  /** new_surface: a toplevel gets a scene tree, raised to the top; other roles are ignored. */
  function NewSurfaceCalls(m: Members, s: XdgSurface, tree: Ptr): seq<Call>
  {
    if s.role == ToplevelRole then
      [Call(SceneXdgSurfaceCreate, [m.scene, s.handle], tree), Call(SceneNodeRaiseToTop, [tree], Null)]
    else []
  }

  /** output frame: present the scene on the last announced output. */
  function OutputFrameCalls(m: Members, lastOutput: Ptr, sceneOutput: Ptr): seq<Call>
  {
    [ Call(SceneGetSceneOutput, [m.scene, lastOutput], sceneOutput),
      Call(SceneOutputCommit, [sceneOutput], Null),
      Call(SceneOutputSendFrameDone, [sceneOutput], Null) ]
  }

  // ---------------------------------------------------------------------
  // The observable view.
  // ---------------------------------------------------------------------

  datatype Image = NoImage | SurfaceImage(surface: Ptr, hotspotX: int32, hotspotY: int32) | ThemeImage(name: string)

  /** An output state being filled in: whether enabling was requested, and the mode set (null: none). */
  datatype Pending = Pending(enabled: bool, mode: Ptr)

  /** A committed output configuration. */
  datatype Commit = Commit(output: Ptr, enabled: bool, mode: Ptr)

  datatype View = View(
    pointers: seq<Ptr>,     // devices attached to the cursor
    keyboard: Ptr,          // the seat's keyboard
    image: Image,           // what the cursor shows
    moves: nat,             // cursor moves
    frames: nat,            // pointer frames sent to clients
    windows: seq<Ptr>,      // surfaces that got a scene tree
    top: Ptr,               // the scene node last raised to the top
    pending: Pending,
    commits: seq<Commit>,
    outputs: seq<Ptr>,      // outputs added to the layout
    placed: seq<Ptr>,       // scene outputs linked to the layout
    presented: seq<Ptr>,    // scene outputs committed
    frameDone: seq<Ptr>)    // scene outputs whose clients were told the frame is done

  const NoPending := Pending(false, Null)
  const Start := View([], Null, NoImage, 0, 0, [], Null, NoPending, [], [], [], [], [])

  /** What one call changes in the view. */
  function Apply(v: View, c: Call): View
  {
    match c.op
    case CursorAttachInputDevice => if |c.args| == 2 then v.(pointers := v.pointers + [c.args[1]]) else v
    case SeatSetKeyboard => if |c.args| == 2 then v.(keyboard := c.args[1]) else v
    case CursorSetSurface(x, y) => if |c.args| == 2 then v.(image := SurfaceImage(c.args[1], x, y)) else v
    case CursorSetXcursor(name) => v.(image := ThemeImage(name))
    case CursorMove => v.(moves := v.moves + 1)
    case SeatPointerNotifyFrame => v.(frames := v.frames + 1)
    case SceneXdgSurfaceCreate => if |c.args| == 2 then v.(windows := v.windows + [c.args[1]]) else v
    case SceneNodeRaiseToTop => if |c.args| == 1 then v.(top := c.args[0]) else v
    case OutputStateInit => v.(pending := NoPending)
    case OutputStateSetEnabled(e) => v.(pending := v.pending.(enabled := e))
    case OutputStateSetMode => if |c.args| == 1 then v.(pending := v.pending.(mode := c.args[0])) else v
    case OutputCommitState =>
      if |c.args| == 1 then v.(commits := v.commits + [Commit(c.args[0], v.pending.enabled, v.pending.mode)]) else v
    case OutputStateFinish => v.(pending := NoPending)
    case OutputLayoutAddAuto => if |c.args| == 2 then v.(outputs := v.outputs + [c.args[1]]) else v
    case SceneOutputLayoutAddOutput => if |c.args| == 3 then v.(placed := v.placed + [c.args[2]]) else v
    case SceneOutputCommit => if |c.args| == 1 then v.(presented := v.presented + [c.args[0]]) else v
    case SceneOutputSendFrameDone => if |c.args| == 1 then v.(frameDone := v.frameDone + [c.args[0]]) else v
    case _ => v
  }

  /** The view after the calls `cs`, starting from v. */
  function Replay(v: View, cs: seq<Call>): View
    decreases |cs|
  {
    if cs == [] then v else Apply(Replay(v, cs[..|cs| - 1]), cs[|cs| - 1])
  }

  /** The view a whole log produces. */
  function ViewOf(log: seq<Call>): View
  {
    Replay(Start, log)
  }

  /** Replaying a log in two parts is replaying it whole. */
  lemma {:induction false} ReplayAppend(v: View, a: seq<Call>, b: seq<Call>)
    ensures Replay(v, a + b) == Replay(Replay(v, a), b)
    decreases |b|
  {
    if b == [] {
      assert a + b == a;
    } else {
      var n := |b| - 1;
      assert (a + b)[..|a + b| - 1] == a + b[..n];
      ReplayAppend(v, a, b[..n]);
    }
  }

  lemma ReplayOne(v: View, c0: Call)
    ensures Replay(v, [c0]) == Apply(v, c0)
  {
    assert [c0][..0] == [];
  }

  lemma ReplayTwo(v: View, c0: Call, c1: Call)
    ensures Replay(v, [c0, c1]) == Apply(Apply(v, c0), c1)
  {
    assert [c0, c1][..1] == [c0];
    ReplayOne(v, c0);
  }

  lemma ReplayThree(v: View, c0: Call, c1: Call, c2: Call)
    ensures Replay(v, [c0, c1, c2]) == Apply(Apply(Apply(v, c0), c1), c2)
  {
    assert [c0, c1, c2][..2] == [c0, c1];
    ReplayTwo(v, c0, c1);
  }

  lemma ReplayFour(v: View, c0: Call, c1: Call, c2: Call, c3: Call)
    ensures Replay(v, [c0, c1, c2, c3]) == Apply(Apply(Apply(Apply(v, c0), c1), c2), c3)
  {
    assert [c0, c1, c2, c3][..3] == [c0, c1, c2];
    ReplayThree(v, c0, c1, c2);
  }

  // ---------------------------------------------------------------------
  // What each handler does to the view, and nothing else.
  // ---------------------------------------------------------------------

  /** The output-state block of new_output, up to and including finishing the state. */
  function OutputStateCalls(output: Ptr, mode: Ptr): seq<Call>
  {
    EnableCalls(output, mode) + ModeCalls(mode) + CommitCalls(output)
  }

  /** A fresh state asking for the output to be enabled, and the preferred-mode query. */
  function EnableCalls(output: Ptr, mode: Ptr): seq<Call>
  {
    [ Call(OutputStateInit, [], Null),
      Call(OutputStateSetEnabled(true), [], Null),
      Call(OutputPreferredMode, [output], mode) ]
  }

  /** The preferred mode goes into the state only when there is one. */
  function ModeCalls(mode: Ptr): seq<Call>
  {
    if mode != Null then [Call(OutputStateSetMode, [mode], Null)] else []
  }

  /** Commit the state to the output, then finish it. */
  function CommitCalls(output: Ptr): seq<Call>
  {
    [Call(OutputCommitState, [output], Null), Call(OutputStateFinish, [], Null)]
  }

  lemma EnableRoutes(v: View, output: Ptr, mode: Ptr)
    ensures Replay(v, EnableCalls(output, mode)) == v.(pending := Pending(true, Null))
  {
    var c0, c1 := Call(OutputStateInit, [], Null), Call(OutputStateSetEnabled(true), [], Null);
    var c2 := Call(OutputPreferredMode, [output], mode);
    ReplayThree(v, c0, c1, c2);
    var v0 := v.(pending := NoPending);
    assert Apply(v, c0) == v0;
    assert Apply(v0, c1) == v.(pending := Pending(true, Null));
  }

  lemma ModeRoutes(v: View, mode: Ptr)
    ensures Replay(v, ModeCalls(mode)) == if mode != Null then v.(pending := v.pending.(mode := mode)) else v
  {
    if mode != Null {
      ReplayOne(v, ModeCalls(mode)[0]);
    }
  }

  lemma CommitRoutes(v: View, output: Ptr)
    ensures Replay(v, CommitCalls(output))
         == v.(pending := NoPending, commits := v.commits + [Commit(output, v.pending.enabled, v.pending.mode)])
  {
    var c0, c1 := Call(OutputCommitState, [output], Null), Call(OutputStateFinish, [], Null);
    ReplayTwo(v, c0, c1);
    var v1 := v.(commits := v.commits + [Commit(output, v.pending.enabled, v.pending.mode)]);
    assert Apply(v, c0) == v1;
  }

  /** The placement block of new_output: frame subscription, layout, scene output. */
  function PlacementCalls(m: Members, output: Ptr, layoutOutput: Ptr, sceneOutput: Ptr): seq<Call>
  {
    [ Call(Subscribe(OutputFrame), [output], Null),
      Call(OutputLayoutAddAuto, [m.outputLayout, output], layoutOutput),
      Call(SceneOutputCreate, [m.scene, output], sceneOutput),
      Call(SceneOutputLayoutAddOutput, [m.sceneOutputLayout, layoutOutput, sceneOutput], Null) ]
  }

  /** The output is committed enabled, with its preferred mode when it has one
      and with no mode otherwise, and the state is finished. */
  lemma OutputStateRoutes(v: View, output: Ptr, mode: Ptr)
    ensures Replay(v, OutputStateCalls(output, mode))
         == v.(pending := NoPending, commits := v.commits + [Commit(output, true, mode)])
  {
    var e, md, c := EnableCalls(output, mode), ModeCalls(mode), CommitCalls(output);
    ReplayAppend(v, e + md, c);
    ReplayAppend(v, e, md);
    EnableRoutes(v, output, mode);
    var v1 := v.(pending := Pending(true, Null));
    ModeRoutes(v1, mode);
    CommitRoutes(v1.(pending := Pending(true, mode)), output);
  }

  lemma PlacementRoutes(v: View, m: Members, output: Ptr, layoutOutput: Ptr, sceneOutput: Ptr)
    ensures Replay(v, PlacementCalls(m, output, layoutOutput, sceneOutput))
         == v.(outputs := v.outputs + [output], placed := v.placed + [sceneOutput])
  {
    var c0 := Call(Subscribe(OutputFrame), [output], Null);
    var c1 := Call(OutputLayoutAddAuto, [m.outputLayout, output], layoutOutput);
    var c2 := Call(SceneOutputCreate, [m.scene, output], sceneOutput);
    var c3 := Call(SceneOutputLayoutAddOutput, [m.sceneOutputLayout, layoutOutput, sceneOutput], Null);
    ReplayFour(v, c0, c1, c2, c3);
    var v2 := v.(outputs := v.outputs + [output]);
    assert Apply(v, c0) == v;
    assert Apply(v, c1) == v2;
    assert Apply(v2, c2) == v2;
    assert Apply(v2, c3) == v2.(placed := v.placed + [sceneOutput]);
    assert PlacementCalls(m, output, layoutOutput, sceneOutput) == [c0, c1, c2, c3];
  }

  /**
    A new output is committed enabled, with its preferred mode when it has one
    and with no mode otherwise; the output state is finished; the output is
    added to the layout and its scene output linked to it.
  */
  lemma NewOutputRoutes(v: View, m: Members, output: Ptr, mode: Ptr, layoutOutput: Ptr, sceneOutput: Ptr)
    ensures Replay(v, NewOutputCalls(m, output, mode, layoutOutput, sceneOutput))
         == v.(pending := NoPending,
               commits := v.commits + [Commit(output, true, mode)],
               outputs := v.outputs + [output],
               placed := v.placed + [sceneOutput])
  {
    var render := [Call(OutputInitRender, [output, m.allocator, m.renderer], Null)];
    var state := OutputStateCalls(output, mode);
    var place := PlacementCalls(m, output, layoutOutput, sceneOutput);
    ReplayAppend(v, render + state, place);
    ReplayAppend(v, render, state);
    ReplayOne(v, render[0]);
    OutputStateRoutes(v, output, mode);
    PlacementRoutes(Replay(v, render + state), m, output, layoutOutput, sceneOutput);
  }

  /** A pointer is attached to the cursor, a keyboard becomes the seat's
      keyboard, and any other device changes nothing. */
  lemma NewInputRoutes(v: View, m: Members, d: Device, keyboard: Ptr)
    ensures Replay(v, NewInputCalls(m, d, keyboard))
         == match d.kind
            case PointerDevice => v.(pointers := v.pointers + [d.handle])
            case KeyboardDevice => v.(keyboard := keyboard)
            case _ => v
  {
    var cs := NewInputCalls(m, d, keyboard);
    if d.kind == KeyboardDevice {
      ReplayTwo(v, cs[0], cs[1]);
    } else if d.kind == PointerDevice {
      assert cs[..0] == [];
    }
  }

  /** The cursor takes the requested surface and hotspot exactly when the
      request comes from the focused client; otherwise nothing changes. */
  lemma RequestCursorRoutes(v: View, m: Members, focused: Ptr, ev: CursorRequest)
    ensures focused == ev.seatClient ==>
      Replay(v, RequestCursorCalls(m, focused, ev)) == v.(image := SurfaceImage(ev.surface, ev.hotspotX, ev.hotspotY))
    ensures focused != ev.seatClient ==> Replay(v, RequestCursorCalls(m, focused, ev)) == v
  {
    if focused == ev.seatClient {
      assert RequestCursorCalls(m, focused, ev)[..0] == [];
    }
  }

  /** A cursor frame becomes exactly one pointer frame to clients. */
  lemma CursorFrameRoutes(v: View, m: Members)
    ensures Replay(v, CursorFrameCalls(m)) == v.(frames := v.frames + 1)
  {
    assert CursorFrameCalls(m)[..0] == [];
  }

  /** Motion moves the cursor once and leaves it showing the theme's "default" image,
      whatever a client set before. */
  lemma CursorMotionRoutes(v: View, m: Members, pointer: Ptr)
    ensures Replay(v, CursorMotionCalls(m, pointer)) == v.(moves := v.moves + 1, image := ThemeImage("default"))
  {
    var c0 := Call(CursorMove, [m.cursor, pointer], Null);
    var c1 := Call(CursorSetXcursor("default"), [m.cursor, m.xcursorManager], Null);
    ReplayTwo(v, c0, c1);
    var v1 := v.(moves := v.moves + 1);
    assert Apply(v, c0) == v1;
    assert Apply(v1, c1) == v1.(image := ThemeImage("default"));
    assert CursorMotionCalls(m, pointer) == [c0, c1];
  }

  /** A toplevel gets a window in the scene whose tree ends on top; a surface
      of any other role changes nothing. */
  lemma NewSurfaceRoutes(v: View, m: Members, s: XdgSurface, tree: Ptr)
    ensures s.role == ToplevelRole ==>
      Replay(v, NewSurfaceCalls(m, s, tree)) == v.(windows := v.windows + [s.handle], top := tree)
    ensures s.role != ToplevelRole ==> Replay(v, NewSurfaceCalls(m, s, tree)) == v
  {
    var cs := NewSurfaceCalls(m, s, tree);
    if s.role == ToplevelRole {
      ReplayTwo(v, cs[0], cs[1]);
    }
  }

  /** A frame on the output presents that output's scene output once and then
      tells its clients the frame is done. */
  lemma OutputFrameRoutes(v: View, m: Members, lastOutput: Ptr, sceneOutput: Ptr)
    ensures Replay(v, OutputFrameCalls(m, lastOutput, sceneOutput))
         == v.(presented := v.presented + [sceneOutput], frameDone := v.frameDone + [sceneOutput])
  {
    var c0 := Call(SceneGetSceneOutput, [m.scene, lastOutput], sceneOutput);
    var c1 := Call(SceneOutputCommit, [sceneOutput], Null);
    var c2 := Call(SceneOutputSendFrameDone, [sceneOutput], Null);
    ReplayThree(v, c0, c1, c2);
    var v1 := v.(presented := v.presented + [sceneOutput]);
    assert Apply(v, c0) == v;
    assert Apply(v, c1) == v1;
    assert Apply(v1, c2) == v1.(frameDone := v.frameDone + [sceneOutput]);
    assert OutputFrameCalls(m, lastOutput, sceneOutput) == [c0, c1, c2];
  }

  /** No handler destroys anything: the server's handles live until teardown. */
  lemma HandlersDestroyNothing(m: Members, output: Ptr, mode: Ptr, lo: Ptr, so: Ptr, d: Device, kbd: Ptr,
                               focused: Ptr, ev: CursorRequest, pointer: Ptr, s: XdgSurface, tree: Ptr, last: Ptr)
    ensures NoDestroy(NewOutputCalls(m, output, mode, lo, so)) && NoDestroy(NewInputCalls(m, d, kbd))
    ensures NoDestroy(RequestCursorCalls(m, focused, ev)) && NoDestroy(CursorFrameCalls(m))
    ensures NoDestroy(CursorMotionCalls(m, pointer)) && NoDestroy(NewSurfaceCalls(m, s, tree))
    ensures NoDestroy(OutputFrameCalls(m, last, so))
  {
  }
}

/** Option, as the wrapper's try_create returns it. */
module Options {
  datatype Option<+T> = None | Some(value: T)
}

/**
  The compositor toolkit (wlroots and libwayland) as the core sees it: opaque
  handles, and a log of every call the core makes into it. Nothing here models
  what the toolkit does with a call; the log only records that it was made, in
  which order, with which handles, and what it answered.
*/
module Toolkit {

  /** A native pointer: null, or an opaque handle the toolkit handed out. */
  datatype Ptr = Null | Live(id: nat)

  /** The handle types the core owns through a wrapper (main.cpp:82-234);
      each has its own create_fn and destroy_fn. */
  datatype Kind =
    | DisplayKind | BackendKind | RendererKind | AllocatorKind
    | OutputLayoutKind | CursorKind | SceneKind | SeatKind | XcursorManagerKind

  /** How a kind's destroy_fn releases the handle: the toolkit's own
      destructor, or plain free (the scene, main.cpp:208). */
  datatype Deleter = ToolkitDestroy | Free

  function DeleterOf(k: Kind): Deleter
  {
    if k == SceneKind then Free else ToolkitDestroy
  }

  /** The protocol globals the display creates lazily and owns itself. */
  datatype Global = XdgShell | Compositor | Subcompositor | DataDeviceManager

  /** Constants passed to a factory besides handles. */
  datatype Config =
    | NoArgs
    | Version(version: nat)
    | SeatName(name: string)
    | DefaultTheme(size: nat)   // a null theme name: the default cursor theme

  /** The signals the server's listeners subscribe to. */
  datatype Signal =
    | NewOutput | NewInput | CursorMotion | CursorFrame
    | RequestSetCursor | NewSurface | OutputFrame

  /** A C int32_t: the hotspot offsets of a cursor-image request. */
  newtype int32 = x: int | -0x8000_0000 <= x < 0x8000_0000

  /** The toolkit functions the core calls. */
  datatype Op =
    | Create(kind: Kind, config: Config)
    | Destroy(kind: Kind, deleter: Deleter)
    | CreateGlobal(global: Global, config: Config)
    | RendererInitWlDisplay
    | SceneAttachOutputLayout
    | CursorAttachOutputLayout
    | Subscribe(signal: Signal)
    | Unsubscribe(signal: Signal)
    | OutputInitRender
    | OutputStateInit
    | OutputStateSetEnabled(enabled: bool)
    | OutputPreferredMode
    | OutputStateSetMode
    | OutputCommitState
    | OutputStateFinish
    | OutputLayoutAddAuto
    | SceneOutputCreate
    | SceneOutputLayoutAddOutput
    | CursorAttachInputDevice
    | KeyboardFromInputDevice
    | SeatSetKeyboard
    | CursorSetSurface(hotspotX: int32, hotspotY: int32)
    | SeatPointerNotifyFrame
    | CursorMove
    | CursorSetXcursor(name: string)
    | SceneXdgSurfaceCreate
    | SceneNodeRaiseToTop
    | SceneGetSceneOutput
    | SceneOutputCommit
    | SceneOutputSendFrameDone

  /** A factory hands out a new handle (or null); every other call does not. */
  predicate IsFactory(op: Op)
  {
    op.Create? || op.CreateGlobal? || op == SceneAttachOutputLayout ||
    op == OutputLayoutAddAuto || op == SceneOutputCreate || op == SceneXdgSurfaceCreate
  }

  /** One logged call: the function, its handle arguments, and its answer. */
  datatype Call = Call(op: Op, args: seq<Ptr>, result: Ptr)

  /** How many times the log destroys the handle p. */
  function Destroys(log: seq<Call>, p: Ptr): nat
  {
    if log == [] then 0
    else
      var c := log[|log| - 1];
      Destroys(log[..|log| - 1], p) + (if c.op.Destroy? && c.args == [p] then 1 else 0)
  }

  lemma {:induction false} DestroysAppend(a: seq<Call>, b: seq<Call>, p: Ptr)
    ensures Destroys(a + b, p) == Destroys(a, p) + Destroys(b, p)
    decreases |b|
  {
    if b == [] {
      assert a + b == a;
    } else {
      var n := |b| - 1;
      assert (a + b)[..|a + b| - 1] == a + b[..n];
      DestroysAppend(a, b[..n], p);
    }
  }

  // Calls logged one after another form one stretch of the log.

  lemma Logged2(log: seq<Call>, a: Call, b: Call)
    ensures log + [a] + [b] == log + [a, b]
  {
  }

  lemma Logged3(log: seq<Call>, a: Call, b: Call, c: Call)
    ensures log + [a] + [b] + [c] == log + [a, b, c]
  {
  }

  lemma Logged4(log: seq<Call>, a: Call, b: Call, c: Call, d: Call)
    ensures log + [a] + [b] + [c] + [d] == log + [a, b, c, d]
  {
  }

  lemma LoggedThen(log: seq<Call>, x: seq<Call>, y: seq<Call>)
    ensures log + x + y == log + (x + y)
  {
  }

  /**
    The toolkit behind the core. `issued` counts factory calls, and the i-th
    one answers the fresh handle Live(i) unless i is in `failing`, in which
    case it answers null: a test double whose failures are chosen in advance.
  */
  class Toolkit {
    ghost var log: seq<Call>
    var issued: nat
    const failing: set<nat>

    constructor (failing: set<nat>)
      ensures log == [] && issued == 0 && this.failing == failing
    {
      log := [];
      issued := 0;
      this.failing := failing;
    }

    /** What the next checked factory call will answer. */
    function Upcoming(): Ptr
      reads this
    {
      if issued in failing then Null else Live(issued)
    }

    /** A factory whose result the core checks: it may answer null. */
    method Create(op: Op, args: seq<Ptr>) returns (p: Ptr)
      requires IsFactory(op)
      modifies this
      ensures p == old(Upcoming())
      ensures issued == old(issued) + 1
      ensures log == old(log) + [Call(op, args, p)]
    {
      p := Upcoming();
      issued := issued + 1;
      log := log + [Call(op, args, p)];
    }

    /** A factory whose result the core never checks; modelled as never failing. */
    method Make(op: Op, args: seq<Ptr>) returns (p: Ptr)
      requires IsFactory(op)
      modifies this
      ensures p == Live(old(issued))
      ensures issued == old(issued) + 1
      ensures log == old(log) + [Call(op, args, p)]
    {
      p := Live(issued);
      issued := issued + 1;
      log := log + [Call(op, args, p)];
    }

    /** A call with no handle result. */
    method Invoke(op: Op, args: seq<Ptr>)
      requires !IsFactory(op)
      modifies this
      ensures issued == old(issued)
      ensures log == old(log) + [Call(op, args, Null)]
    {
      log := log + [Call(op, args, Null)];
    }

    /** A query answered from toolkit state outside the model; `answer` is that answer. */
    method Ask(op: Op, args: seq<Ptr>, answer: Ptr) returns (p: Ptr)
      requires !IsFactory(op)
      modifies this
      ensures p == answer
      ensures issued == old(issued)
      ensures log == old(log) + [Call(op, args, answer)]
    {
      p := answer;
      log := log + [Call(op, args, answer)];
    }
  }
}

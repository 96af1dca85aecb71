/**
  The display wrapper (main.cpp:82-125, 152-156): an owning wrapper of the
  wl_display plus four create-once caches for the protocol globals it owns
  (xdg shell, compositor, subcompositor, data-device manager).
*/
module Displays {
  import opened Options
  import opened Toolkit
  import opened Handles

  /** The create-once rule of every display::init_*: the cached pointer after a
      call, given what the factory would answer if it ran. */
  function Lazy(cache: Ptr, attempt: Ptr): Ptr
  {
    if cache == Null then attempt else cache
  }

  /** The toolkit calls one init_* makes: the factory runs only while the cache is null. */
  function InitCalls(cache: Ptr, g: Global, config: Config, deps: seq<Ptr>, result: Ptr): seq<Call>
  {
    if cache == Null then [Call(CreateGlobal(g, config), deps, result)] else []
  }

  /** What successive init_* calls return, attempts[i] being what the factory
      would answer on the i-th call. */
  function Results(cache: Ptr, attempts: seq<Ptr>): (rs: seq<Ptr>)
    ensures |rs| == |attempts|
    decreases |attempts|
  {
    if attempts == [] then []
    else [Lazy(cache, attempts[0])] + Results(Lazy(cache, attempts[0]), attempts[1..])
  }

  /** How many of those calls ran the factory. */
  function FactoryCalls(cache: Ptr, attempts: seq<Ptr>): nat
    decreases |attempts|
  {
    if attempts == [] then 0
    else (if cache == Null then 1 else 0) + FactoryCalls(Lazy(cache, attempts[0]), attempts[1..])
  }

  /** Once the cache is set, every later call returns it and the factory never runs again. */
  lemma {:induction false} SetCacheIsStable(cache: Ptr, attempts: seq<Ptr>)
    requires cache != Null
    ensures FactoryCalls(cache, attempts) == 0
    ensures forall i :: 0 <= i < |attempts| ==> Results(cache, attempts)[i] == cache
    decreases |attempts|
  {
    if attempts != [] {
      SetCacheIsStable(cache, attempts[1..]);
    }
  }

  /**
    From an empty cache: every null answer leaves the cache empty and the next
    call retries; the first non-null answer, at call k, is cached and returned
    by call k and every later call; the factory runs exactly k + 1 times.
  */
  lemma {:induction false} FirstSuccessIsCached(attempts: seq<Ptr>, k: nat)
    requires k < |attempts| && attempts[k] != Null
    requires forall j :: 0 <= j < k ==> attempts[j] == Null
    ensures FactoryCalls(Null, attempts) == k + 1
    ensures forall i :: 0 <= i < |attempts| ==>
              Results(Null, attempts)[i] == if i < k then Null else attempts[k]
    decreases k
  {
    if k == 0 {
      SetCacheIsStable(attempts[0], attempts[1..]);
    } else {
      FirstSuccessIsCached(attempts[1..], k - 1);
    }
  }

  /** While the factory keeps answering null, every call runs it again and returns null. */
  lemma {:induction false} FailuresRetry(attempts: seq<Ptr>)
    requires forall j :: 0 <= j < |attempts| ==> attempts[j] == Null
    ensures FactoryCalls(Null, attempts) == |attempts|
    ensures forall i :: 0 <= i < |attempts| ==> Results(Null, attempts)[i] == Null
    decreases |attempts|
  {
    if attempts != [] {
      FailuresRetry(attempts[1..]);
    }
  }

  class Display {
    const base: Owner
    var xdgShell: Ptr
    var compositor: Ptr
    var subcompositor: Ptr
    var dataDeviceManager: Ptr

    /** Whether no global has been created yet. */
    predicate NoGlobals()
      reads this
    {
      xdgShell == Null && compositor == Null && subcompositor == Null && dataDeviceManager == Null
    }

    /** The default-constructed display: empty, with empty caches. */
    constructor Empty()
      ensures fresh(base) && base.kind == DisplayKind && base.ptr == Null
      ensures NoGlobals()
    {
      base := new Owner.Empty(DisplayKind);
      xdgShell, compositor, subcompositor, dataDeviceManager := Null, Null, Null, Null;
    }

    /** display{ptr}: the inherited constructor; the caches start empty. */
    constructor Wrap(owner: Owner)
      requires owner.kind == DisplayKind
      ensures base == owner && NoGlobals()
    {
      base := owner;
      xdgShell, compositor, subcompositor, dataDeviceManager := Null, Null, Null, Null;
    }

    /** The implicit move assignment: the wrapper part swaps, the raw cache pointers are copied. */
    method MoveAssign(other: Display)
      requires other != this && other.base.kind == base.kind
      modifies this, base, other.base
      ensures base.ptr == old(other.base.ptr) && other.base.ptr == old(base.ptr)
      ensures xdgShell == other.xdgShell && compositor == other.compositor
      ensures subcompositor == other.subcompositor && dataDeviceManager == other.dataDeviceManager
      ensures other.xdgShell == old(other.xdgShell) && other.compositor == old(other.compositor)
      ensures other.subcompositor == old(other.subcompositor)
      ensures other.dataDeviceManager == old(other.dataDeviceManager)
    {
      base.MoveAssign(other.base);
      xdgShell, compositor := other.xdgShell, other.compositor;
      subcompositor, dataDeviceManager := other.subcompositor, other.dataDeviceManager;
    }

    /** The destructor: destroys the wl_display; the globals go with it. */
    method Drop(tk: Toolkit)
      modifies base, tk
      ensures base.ptr == Null
      ensures tk.issued == old(tk.issued)
      ensures tk.log == old(tk.log) + DropCalls(base.kind, old(base.ptr))
    {
      base.Drop(tk);
    }

    method InitXdgShell(tk: Toolkit, version: nat) returns (r: Ptr)
      modifies this, tk
      ensures xdgShell == Lazy(old(xdgShell), old(tk.Upcoming())) && r == xdgShell
      ensures tk.log == old(tk.log) + InitCalls(old(xdgShell), XdgShell, Version(version), [base.ptr], xdgShell)
      ensures tk.issued == old(tk.issued) + |InitCalls(old(xdgShell), XdgShell, Version(version), [base.ptr], xdgShell)|
      ensures compositor == old(compositor) && subcompositor == old(subcompositor)
      ensures dataDeviceManager == old(dataDeviceManager)
    {
      if xdgShell == Null {
        xdgShell := tk.Create(CreateGlobal(XdgShell, Version(version)), [base.ptr]);
      }
      r := xdgShell;
    }

    method InitCompositor(tk: Toolkit, version: nat, renderer: Owner) returns (r: Ptr)
      modifies this, tk
      ensures compositor == Lazy(old(compositor), old(tk.Upcoming())) && r == compositor
      ensures tk.log == old(tk.log)
        + InitCalls(old(compositor), Compositor, Version(version), [base.ptr, renderer.ptr], compositor)
      ensures tk.issued == old(tk.issued)
        + |InitCalls(old(compositor), Compositor, Version(version), [base.ptr, renderer.ptr], compositor)|
      ensures xdgShell == old(xdgShell) && subcompositor == old(subcompositor)
      ensures dataDeviceManager == old(dataDeviceManager)
    {
      if compositor == Null {
        compositor := tk.Create(CreateGlobal(Compositor, Version(version)), [base.ptr, renderer.ptr]);
      }
      r := compositor;
    }

    method InitSubcompositor(tk: Toolkit) returns (r: Ptr)
      modifies this, tk
      ensures subcompositor == Lazy(old(subcompositor), old(tk.Upcoming())) && r == subcompositor
      ensures tk.log == old(tk.log) + InitCalls(old(subcompositor), Subcompositor, NoArgs, [base.ptr], subcompositor)
      ensures tk.issued == old(tk.issued) + |InitCalls(old(subcompositor), Subcompositor, NoArgs, [base.ptr], subcompositor)|
      ensures xdgShell == old(xdgShell) && compositor == old(compositor)
      ensures dataDeviceManager == old(dataDeviceManager)
    {
      if subcompositor == Null {
        subcompositor := tk.Create(CreateGlobal(Subcompositor, NoArgs), [base.ptr]);
      }
      r := subcompositor;
    }

    method InitDataDeviceManager(tk: Toolkit) returns (r: Ptr)
      modifies this, tk
      ensures dataDeviceManager == Lazy(old(dataDeviceManager), old(tk.Upcoming())) && r == dataDeviceManager
      ensures tk.log == old(tk.log)
        + InitCalls(old(dataDeviceManager), DataDeviceManager, NoArgs, [base.ptr], dataDeviceManager)
      ensures tk.issued == old(tk.issued)
        + |InitCalls(old(dataDeviceManager), DataDeviceManager, NoArgs, [base.ptr], dataDeviceManager)|
      ensures xdgShell == old(xdgShell) && compositor == old(compositor)
      ensures subcompositor == old(subcompositor)
    {
      if dataDeviceManager == Null {
        dataDeviceManager := tk.Create(CreateGlobal(DataDeviceManager, NoArgs), [base.ptr]);
      }
      r := dataDeviceManager;
    }
  }

  /** display::try_create: the inherited try_create, giving a display with empty caches. */
  method TryCreateDisplay(tk: Toolkit) returns (r: Option<Display>)
    modifies tk
    ensures tk.issued == old(tk.issued) + 1
    ensures tk.log == old(tk.log) + [Call(Create(DisplayKind, NoArgs), [], old(tk.Upcoming()))]
    ensures r.None? <==> old(tk.Upcoming()) == Null
    ensures r.Some? ==> fresh(r.value) && fresh(r.value.base) && r.value.NoGlobals()
    ensures r.Some? ==> r.value.base.kind == DisplayKind && r.value.base.ptr == old(tk.Upcoming())
  {
    var made := TryCreate(tk, DisplayKind, NoArgs, []);
    if made.None? {
      return None;
    }
    var d := new Display.Wrap(made.value);
    r := Some(d);
  }

  /** `m_display = display::try_create().value()` on the default-constructed display. */
  method InstallDisplay(tk: Toolkit, display: Display) returns (ok: bool)
    requires display.base.kind == DisplayKind && display.base.ptr == Null && display.NoGlobals()
    modifies tk, display, display.base
    ensures tk.issued == old(tk.issued) + 1
    ensures tk.log == old(tk.log) + [Call(Create(DisplayKind, NoArgs), [], display.base.ptr)]
    ensures display.base.ptr == old(tk.Upcoming())
    ensures display.NoGlobals()
    ensures ok <==> display.base.ptr != Null
    ensures ok ==> display.base.ptr == Live(old(tk.issued))
  {
    var made := TryCreateDisplay(tk);
    if made.None? {
      return false;
    }
    display.MoveAssign(made.value);
    made.value.Drop(tk);
    ok := true;
  }
}

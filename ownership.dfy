/**
  Ownership accounting for w_ptr_wrapper_base (main.cpp:42-78) over any
  sequence of wrapper operations: every handle a wrapper factory produced is,
  at every moment, either held by exactly one wrapper or destroyed exactly
  once, never both. When every wrapper's lifetime has ended, each handle has
  been destroyed exactly once.

  A World lists every wrapper object ever constructed (a slot: its handle
  type, its pointer, whether it is still alive) with the toolkit log. Each
  Action is one of the operations of Handles.Owner and Handles.TryCreate, and
  Step applies it to the slots exactly as those members change their objects.
*/
module Ownership {
  import opened Toolkit
  import opened Handles

  datatype Slot = Slot(kind: Kind, ptr: Ptr, alive: bool)

  datatype World = World(slots: seq<Slot>, log: seq<Call>, issued: nat)

  datatype Action =
    | DefaultConstruct(kind: Kind)
    | TryCreateAction(kind: Kind, config: Config, deps: seq<Ptr>, fails: bool)
    | MoveConstruct(src: nat)
    | MoveAssign(dst: nat, src: nat)
    | Destruct(at: nat)

  /** The world before any wrapper exists. */
  const Initial := World([], [], 0)

  /** An action applies to live wrappers only; move assignment needs two wrappers of the same type. */
  predicate Enabled(w: World, a: Action)
  {
    match a
    case DefaultConstruct(_) => true
    case TryCreateAction(_, _, _, _) => true
    case MoveConstruct(s) => s < |w.slots| && w.slots[s].alive
    case MoveAssign(d, s) =>
      d < |w.slots| && s < |w.slots| && w.slots[d].alive && w.slots[s].alive &&
      w.slots[d].kind == w.slots[s].kind
    case Destruct(i) => i < |w.slots| && w.slots[i].alive
  }

  function Step(w: World, a: Action): World
    requires Enabled(w, a)
  {
    match a
    case DefaultConstruct(k) =>
      w.(slots := w.slots + [Slot(k, Null, true)])
    case TryCreateAction(k, c, deps, fails) =>
      var p := if fails then Null else Live(w.issued);
      // on success: Derived{ptr}, moved into the optional, temporary destroyed empty
      var slots := if p == Null then w.slots else w.slots + [Slot(k, Null, false), Slot(k, p, true)];
      World(slots, w.log + [Call(Create(k, c), deps, p)], w.issued + 1)
    case MoveConstruct(s) =>
      var src := w.slots[s];
      w.(slots := w.slots[s := src.(ptr := Null)] + [Slot(src.kind, src.ptr, true)])
    case MoveAssign(d, s) =>
      var pd, ps := w.slots[d].ptr, w.slots[s].ptr;
      w.(slots := w.slots[d := w.slots[d].(ptr := ps)][s := w.slots[s].(ptr := pd)])
    case Destruct(i) =>
      var slot := w.slots[i];
      w.(slots := w.slots[i := Slot(slot.kind, Null, false)], log := w.log + DropCalls(slot.kind, slot.ptr))
  }

  /** Whether every action of `acts` is enabled when its turn comes. */
  predicate Runs(w: World, acts: seq<Action>)
    decreases |acts|
  {
    acts == [] || (Enabled(w, acts[0]) && Runs(Step(w, acts[0]), acts[1..]))
  }

  function Run(w: World, acts: seq<Action>): World
    requires Runs(w, acts)
    decreases |acts|
  {
    if acts == [] then w else Run(Step(w, acts[0]), acts[1..])
  }

  /** How many wrappers hold p. */
  function Holders(slots: seq<Slot>, p: Ptr): nat
  {
    if slots == [] then 0
    else Holders(slots[..|slots| - 1], p) + (if slots[|slots| - 1].ptr == p then 1 else 0)
  }

  /** The handles wrapper factories have produced so far. */
  function Created(log: seq<Call>): set<nat>
  {
    if log == [] then {}
    else
      var c := log[|log| - 1];
      Created(log[..|log| - 1]) + (if c.op.Create? && c.result.Live? then {c.result.id} else {})
  }

  /** The ownership invariant. */
  ghost predicate Sound(w: World)
  {
    && (forall i :: 0 <= i < |w.slots| && !w.slots[i].alive ==> w.slots[i].ptr == Null)
    && (forall h :: h in Created(w.log) ==> h < w.issued)
    && Destroys(w.log, Null) == 0
    && (forall h: nat ::
          Holders(w.slots, Live(h)) + Destroys(w.log, Live(h)) == if h in Created(w.log) then 1 else 0)
  }

  lemma HoldersAppend(s: seq<Slot>, x: Slot, p: Ptr)
    ensures Holders(s + [x], p) == Holders(s, p) + (if x.ptr == p then 1 else 0)
  {
    assert (s + [x])[..|s|] == s;
  }

  lemma {:induction false} HoldersUpdate(s: seq<Slot>, i: nat, x: Slot, p: Ptr)
    requires i < |s|
    ensures Holders(s[i := x], p) + (if s[i].ptr == p then 1 else 0)
         == Holders(s, p) + (if x.ptr == p then 1 else 0)
    decreases |s|
  {
    var n := |s| - 1;
    if i == n {
      assert s[i := x][..n] == s[..n];
    } else {
      assert s[i := x][..n] == s[..n][i := x];
      HoldersUpdate(s[..n], i, x, p);
    }
  }

  /** A world in which no wrapper holds anything holds nothing for any pointer. */
  lemma {:induction false} NoHolders(s: seq<Slot>, p: Ptr)
    requires forall i :: 0 <= i < |s| ==> s[i].ptr == Null
    requires p != Null
    ensures Holders(s, p) == 0
    decreases |s|
  {
    if s != [] {
      NoHolders(s[..|s| - 1], p);
    }
  }

  lemma CreatedAppend(log: seq<Call>, c: Call)
    ensures Created(log + [c]) == Created(log) + (if c.op.Create? && c.result.Live? then {c.result.id} else {})
    ensures Destroys(log + [c], Null) == Destroys(log, Null) + (if c.op.Destroy? && c.args == [Null] then 1 else 0)
    ensures forall p :: Destroys(log + [c], p) == Destroys(log, p) + (if c.op.Destroy? && c.args == [p] then 1 else 0)
  {
    assert (log + [c])[..|log|] == log;
  }

  lemma InitialSound()
    ensures Sound(Initial)
  {
  }

  /** Every wrapper operation keeps the ownership invariant. */
  lemma StepSound(w: World, a: Action)
    requires Sound(w) && Enabled(w, a)
    ensures Sound(Step(w, a))
  {
    match a
    case DefaultConstruct(k) => DefaultConstructSound(w, k);
    case TryCreateAction(k, c, deps, fails) => TryCreateSound(w, k, c, deps, fails);
    case MoveConstruct(s) => MoveConstructSound(w, s);
    case MoveAssign(d, s) => MoveAssignSound(w, d, s);
    case Destruct(i) => DestructSound(w, i);
  }

  lemma DefaultConstructSound(w: World, k: Kind)
    requires Sound(w)
    ensures Sound(Step(w, DefaultConstruct(k)))
  {
    var w' := Step(w, DefaultConstruct(k));
    forall h: nat ensures Holders(w'.slots, Live(h)) == Holders(w.slots, Live(h)) {
      HoldersAppend(w.slots, Slot(k, Null, true), Live(h));
    }
  }

  lemma TryCreateSound(w: World, k: Kind, c: Config, deps: seq<Ptr>, fails: bool)
    requires Sound(w)
    ensures Sound(Step(w, TryCreateAction(k, c, deps, fails)))
  {
    var w' := Step(w, TryCreateAction(k, c, deps, fails));
    var p := if fails then Null else Live(w.issued);
    CreatedAppend(w.log, Call(Create(k, c), deps, p));
    if p != Null {
      var temp := w.slots + [Slot(k, Null, false)];
      assert w'.slots == temp + [Slot(k, p, true)];
      forall h: nat
        ensures Holders(w'.slots, Live(h)) == Holders(w.slots, Live(h)) + (if h == w.issued then 1 else 0)
      {
        HoldersAppend(w.slots, Slot(k, Null, false), Live(h));
        HoldersAppend(temp, Slot(k, p, true), Live(h));
      }
      assert w.issued !in Created(w.log);
    }
  }

  lemma MoveConstructSound(w: World, s: nat)
    requires Sound(w) && Enabled(w, MoveConstruct(s))
    ensures Sound(Step(w, MoveConstruct(s)))
  {
    var w' := Step(w, MoveConstruct(s));
    var src := w.slots[s];
    forall h: nat ensures Holders(w'.slots, Live(h)) == Holders(w.slots, Live(h)) {
      HoldersUpdate(w.slots, s, src.(ptr := Null), Live(h));
      HoldersAppend(w.slots[s := src.(ptr := Null)], Slot(src.kind, src.ptr, true), Live(h));
    }
  }

  lemma MoveAssignSound(w: World, d: nat, s: nat)
    requires Sound(w) && Enabled(w, MoveAssign(d, s))
    ensures Sound(Step(w, MoveAssign(d, s)))
  {
    var w' := Step(w, MoveAssign(d, s));
    var pd, ps := w.slots[d].ptr, w.slots[s].ptr;
    var mid := w.slots[d := w.slots[d].(ptr := ps)];
    forall h: nat ensures Holders(w'.slots, Live(h)) == Holders(w.slots, Live(h)) {
      HoldersUpdate(w.slots, d, w.slots[d].(ptr := ps), Live(h));
      HoldersUpdate(mid, s, w.slots[s].(ptr := pd), Live(h));
    }
  }

  lemma DestructSound(w: World, i: nat)
    requires Sound(w) && Enabled(w, Destruct(i))
    ensures Sound(Step(w, Destruct(i)))
  {
    var w' := Step(w, Destruct(i));
    var slot := w.slots[i];
    var drop := DropCalls(slot.kind, slot.ptr);
    if slot.ptr != Null {
      assert w'.log == w.log + [drop[0]];
      CreatedAppend(w.log, drop[0]);
    } else {
      assert w'.log == w.log;
    }
    forall h: nat
      ensures Holders(w'.slots, Live(h)) + Destroys(w'.log, Live(h))
           == Holders(w.slots, Live(h)) + Destroys(w.log, Live(h))
    {
      HoldersUpdate(w.slots, i, Slot(slot.kind, Null, false), Live(h));
      DestroysAppend(w.log, drop, Live(h));
    }
    DestroysAppend(w.log, drop, Null);
  }

  lemma {:induction false} RunSound(w: World, acts: seq<Action>)
    requires Sound(w) && Runs(w, acts)
    ensures Sound(Run(w, acts))
    decreases |acts|
  {
    if acts != [] {
      StepSound(w, acts[0]);
      RunSound(Step(w, acts[0]), acts[1..]);
    }
  }

  /** No handle is held by two wrappers at once, and none is destroyed twice. */
  lemma Unique(w: World, h: nat)
    requires Sound(w)
    ensures Holders(w.slots, Live(h)) <= 1
    ensures Destroys(w.log, Live(h)) <= 1
    ensures Holders(w.slots, Live(h)) == 1 ==> Destroys(w.log, Live(h)) == 0
  {
    assert Holders(w.slots, Live(h)) + Destroys(w.log, Live(h)) == if h in Created(w.log) then 1 else 0;
  }

  /**
    Once every wrapper has been destroyed, every handle a factory produced has
    been destroyed exactly once, and nothing else has been destroyed.
  */
  lemma ExactlyOnce(w: World)
    requires Sound(w)
    requires forall i :: 0 <= i < |w.slots| ==> !w.slots[i].alive
    ensures forall h: nat :: Destroys(w.log, Live(h)) == if h in Created(w.log) then 1 else 0
    ensures Destroys(w.log, Null) == 0
  {
    forall h: nat ensures Destroys(w.log, Live(h)) == if h in Created(w.log) then 1 else 0 {
      NoHolders(w.slots, Live(h));
    }
  }

  /** Exactly once, for any run from the initial world that ends with every wrapper destroyed. */
  lemma RunExactlyOnce(acts: seq<Action>)
    requires Runs(Initial, acts)
    requires forall i :: 0 <= i < |Run(Initial, acts).slots| ==> !Run(Initial, acts).slots[i].alive
    ensures forall h: nat :: h in Created(Run(Initial, acts).log) ==> Destroys(Run(Initial, acts).log, Live(h)) == 1
  {
    InitialSound();
    RunSound(Initial, acts);
    ExactlyOnce(Run(Initial, acts));
  }

  /** A failed try_create leaves no wrapper and destroys nothing. */
  lemma FailedCreateOwnsNothing(w: World, k: Kind, c: Config, deps: seq<Ptr>)
    ensures Step(w, TryCreateAction(k, c, deps, true)).slots == w.slots
    ensures forall p :: Destroys(Step(w, TryCreateAction(k, c, deps, true)).log, p) == Destroys(w.log, p)
    ensures Created(Step(w, TryCreateAction(k, c, deps, true)).log) == Created(w.log)
  {
    CreatedAppend(w.log, Call(Create(k, c), deps, Null));
  }

  /**
    Move construction: the new wrapper holds the source's former pointer, the
    source holds null, so destroying the source calls no destroy function,
    and no pointer gains or loses a holder.
  */
  lemma MoveConstructTransfers(w: World, s: nat)
    requires Enabled(w, MoveConstruct(s))
    ensures var w' := Step(w, MoveConstruct(s));
      && w'.slots[|w'.slots| - 1].ptr == w.slots[s].ptr
      && w'.slots[s].ptr == Null
      && Step(w', Destruct(s)).log == w.log
      && forall p :: p != Null ==> Holders(w'.slots, p) == Holders(w.slots, p)
  {
    var w' := Step(w, MoveConstruct(s));
    var src := w.slots[s];
    forall p | p != Null ensures Holders(w'.slots, p) == Holders(w.slots, p) {
      HoldersUpdate(w.slots, s, src.(ptr := Null), p);
      HoldersAppend(w.slots[s := src.(ptr := Null)], Slot(src.kind, src.ptr, true), p);
    }
  }

  /** Move assignment exchanges the two pointers: no pointer gains or loses a holder. */
  lemma MoveAssignSwaps(w: World, d: nat, s: nat)
    requires Enabled(w, MoveAssign(d, s)) && d != s
    ensures var w' := Step(w, MoveAssign(d, s));
      && w'.slots[d].ptr == w.slots[s].ptr
      && w'.slots[s].ptr == w.slots[d].ptr
      && w'.log == w.log
      && forall p :: Holders(w'.slots, p) == Holders(w.slots, p)
  {
    var pd, ps := w.slots[d].ptr, w.slots[s].ptr;
    var mid := w.slots[d := w.slots[d].(ptr := ps)];
    forall p ensures Holders(Step(w, MoveAssign(d, s)).slots, p) == Holders(w.slots, p) {
      HoldersUpdate(w.slots, d, w.slots[d].(ptr := ps), p);
      HoldersUpdate(mid, s, w.slots[s].(ptr := pd), p);
    }
  }
}

/**
  The owning handle wrapper w_ptr_wrapper_base (main.cpp:42-78): empty, or
  owning one native handle that its destructor hands to the kind's destroy_fn.
*/
module Handles {
  import opened Options
  import opened Toolkit

  /** What the destructor logs for a wrapper of kind k holding p: it destroys
      the handle it holds exactly once, and no other handle. */
  function DropCalls(k: Kind, p: Ptr): (cs: seq<Call>)
    ensures forall q :: Destroys(cs, q) == if p != Null && q == p then 1 else 0
  {
    if p == Null then []
    else
      var cs := [Call(Destroy(k, DeleterOf(k)), [p], Null)];
      assert cs[..0] == [];
      cs
  }

  class Owner {
    const kind: Kind
    var ptr: Ptr

    /** w_ptr_wrapper_base() = default: the empty wrapper. */
    constructor Empty(kind: Kind)
      ensures this.kind == kind && ptr == Null
    {
      this.kind := kind;
      ptr := Null;
    }

    /** explicit w_ptr_wrapper_base(T *): adopts a raw pointer. */
    constructor Adopt(kind: Kind, p: Ptr)
      ensures this.kind == kind && ptr == p
    {
      this.kind := kind;
      ptr := p;
    }

    /** Move construction: steals the source's pointer and nulls the source. */
    constructor Steal(other: Owner)
      modifies other
      ensures kind == other.kind
      ensures ptr == old(other.ptr) && other.ptr == Null
    {
      kind := other.kind;
      ptr := other.ptr;
      new;
      other.ptr := Null;
    }

    /** Move assignment: exchanges the two pointers (std::swap). */
    method MoveAssign(other: Owner)
      requires other.kind == kind
      modifies this, other
      ensures ptr == old(other.ptr) && other.ptr == old(ptr)
    {
      var mine := ptr;
      ptr := other.ptr;
      other.ptr := mine;
    }

    /** The destructor: calls destroy_fn only when the pointer is non-null. The
        wrapper is left empty, which stands for the end of its lifetime. */
    method Drop(tk: Toolkit)
      modifies this, tk
      ensures ptr == Null
      ensures tk.issued == old(tk.issued)
      ensures tk.log == old(tk.log) + DropCalls(kind, old(ptr))
    {
      if ptr != Null {
        tk.Invoke(Destroy(kind, DeleterOf(kind)), [ptr]);
      }
      ptr := Null;
    }
  }

  /**
    try_create: runs the kind's factory with `deps`; a non-null answer is
    wrapped (Derived{ptr}, then moved into the optional, whose temporary is
    destroyed empty), a null answer gives no wrapper at all.
  */
  method TryCreate(tk: Toolkit, kind: Kind, config: Config, deps: seq<Ptr>) returns (r: Option<Owner>)
    modifies tk
    ensures tk.issued == old(tk.issued) + 1
    ensures tk.log == old(tk.log) + [Call(Create(kind, config), deps, old(tk.Upcoming()))]
    ensures r.None? <==> old(tk.Upcoming()) == Null
    ensures r.Some? ==> fresh(r.value) && r.value.kind == kind && r.value.ptr == old(tk.Upcoming())
  {
    var p := tk.Create(Create(kind, config), deps);
    if p != Null {
      var made := new Owner.Adopt(kind, p);
      var held := new Owner.Steal(made);
      made.Drop(tk);
      r := Some(held);
    } else {
      r := None;
    }
  }

  /**
    `member = T::try_create(deps).value()` on a default-constructed member:
    the new wrapper is swapped into the member, and the temporary it came in,
    now holding the member's former null, is destroyed without a destroy_fn
    call. On an empty optional `.value()` throws: `ok` is false and the member
    stays empty.
  */
  method Install(tk: Toolkit, member: Owner, config: Config, deps: seq<Ptr>) returns (ok: bool)
    requires member.ptr == Null
    modifies tk, member
    ensures tk.issued == old(tk.issued) + 1
    ensures tk.log == old(tk.log) + [Call(Create(member.kind, config), deps, member.ptr)]
    ensures member.ptr == old(tk.Upcoming())
    ensures ok <==> member.ptr != Null
    ensures ok ==> member.ptr == Live(old(tk.issued))
  {
    var made := TryCreate(tk, member.kind, config, deps);
    if made.None? {
      return false;
    }
    member.MoveAssign(made.value);
    made.value.Drop(tk);
    ok := true;
  }
}

/**
  The signal subscription listener_base (main.cpp:236-267): a listener that
  is linked into at most one signal at a time and unlinks itself when destroyed.
*/
module Subscriptions {
  import opened Toolkit

  class Listener {
    const signal: Signal
    var attached: bool
    var source: Ptr         // the handle whose signal the listener is linked into

    /** Whether an emission of the signal reaches the callback. */
    predicate Delivers()
      reads this
    {
      attached
    }

    constructor (signal: Signal)
      ensures this.signal == signal
      ensures !attached && source == Null
    {
      this.signal := signal;
      attached := false;
      source := Null;
    }

    /** add_to_signal: links the listener into `src`'s signal. Linking a
        listener that is already linked is left out of the model. */
    method AddToSignal(tk: Toolkit, src: Ptr)
      requires !attached
      modifies this, tk
      ensures attached && source == src
      ensures tk.issued == old(tk.issued)
      ensures tk.log == old(tk.log) + [Call(Subscribe(signal), [src], Null)]
    {
      tk.Invoke(Subscribe(signal), [src]);
      attached, source := true, src;
    }

    /** The destructor: unlinks the listener first, so the callback is never
        invoked again. Unlinking a listener that was never linked is left out. */
    method Drop(tk: Toolkit)
      requires attached
      modifies this, tk
      ensures !Delivers() && source == old(source)
      ensures tk.issued == old(tk.issued)
      ensures tk.log == old(tk.log) + [Call(Unsubscribe(signal), [source], Null)]
    {
      tk.Invoke(Unsubscribe(signal), [source]);
      attached := false;
    }
  }
}

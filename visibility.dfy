/**
 * The process-wide count of visible local-discovery pages. Each handler keeps
 * its own visibility flag; the shared counter moves only when a handler's flag
 * actually flips, so that it always equals the number of visible handlers.
 */
module Visibility {

  function B2I(b: bool): int {
    if b then 1 else 0
  }

  /**
   * One SetIsVisible call: from the counter and the handler's previous flag to
   * the new counter and flag. The counter moves by exactly the change of the
   * handler's own flag.
   */
  function Toggle(numVisible: int, wasVisible: bool, visible: bool): (r: (int, bool))
    ensures r.1 == visible
    ensures r.0 == numVisible - B2I(wasVisible) + B2I(visible)
  {
    if visible != wasVisible then (numVisible + (if visible then 1 else -1), visible)
    else (numVisible, wasVisible)
  }

  /** GetHasVisible: whether any page is reported visible. */
  function HasVisible(numVisible: int): bool {
    numVisible != 0
  }

  /** The counter and the flags of every live handler, in creation order. */
  datatype Process = Process(numVisible: int, handlers: seq<bool>)

  function CountVisible(flags: seq<bool>): nat {
    if flags == [] then 0 else B2I(flags[0]) + CountVisible(flags[1..])
  }

  /** The invariant the counter is meant to keep. */
  predicate Consistent(p: Process) {
    p.numVisible == CountVisible(p.handlers)
  }

  /** Handler h receives SetIsVisible(visible). */
  function SetVisibleAt(p: Process, h: nat, visible: bool): (q: Process)
    requires h < |p.handlers|
    ensures |q.handlers| == |p.handlers|
  {
    var t := Toggle(p.numVisible, p.handlers[h], visible);
    Process(t.0, p.handlers[h := t.1])
  }

  /** A handler is created invisible (both constructors, once corrected). */
  function CreateHandler(p: Process): (q: Process)
    ensures |q.handlers| == |p.handlers| + 1
  {
    Process(p.numVisible, p.handlers + [false])
  }

  /**
   * The constructor that takes a device lister as written: it leaves the flag
   * uninitialised, so the new handler's flag is whatever value the memory held.
   */
  function CreateHandlerWithListerAsWritten(p: Process, indeterminate: bool): (q: Process)
    ensures |q.handlers| == |p.handlers| + 1
  {
    Process(p.numVisible, p.handlers + [indeterminate])
  }

  /** The destructor forces the handler invisible, then the handler is gone. */
  function DestroyHandler(p: Process, h: nat): (q: Process)
    requires h < |p.handlers|
    ensures |q.handlers| == |p.handlers| - 1
  {
    var s := SetVisibleAt(p, h, false);
    Process(s.numVisible, s.handlers[..h] + s.handlers[h + 1..])
  }

  lemma {:induction false} CountVisibleUpdate(flags: seq<bool>, h: nat, v: bool)
    requires h < |flags|
    ensures CountVisible(flags[h := v]) == CountVisible(flags) - B2I(flags[h]) + B2I(v)
    decreases h
  {
    if h > 0 {
      assert flags[h := v][1..] == flags[1..][h - 1 := v];
      CountVisibleUpdate(flags[1..], h - 1, v);
    } else {
      assert flags[h := v][1..] == flags[1..];
    }
  }

  lemma {:induction false} CountVisibleAppend(flags: seq<bool>, v: bool)
    ensures CountVisible(flags + [v]) == CountVisible(flags) + B2I(v)
    decreases |flags|
  {
    if flags != [] {
      assert (flags + [v])[1..] == flags[1..] + [v];
      CountVisibleAppend(flags[1..], v);
    }
  }

  lemma {:induction false} CountVisibleRemove(flags: seq<bool>, h: nat)
    requires h < |flags|
    ensures CountVisible(flags[..h] + flags[h + 1..]) == CountVisible(flags) - B2I(flags[h])
    decreases h
  {
    if h > 0 {
      var rest := flags[1..];
      assert (flags[..h] + flags[h + 1..])[1..] == rest[..h - 1] + rest[h..];
      CountVisibleRemove(rest, h - 1);
    } else {
      assert flags[..h] + flags[h + 1..] == flags[1..];
    }
  }

  lemma {:induction false} CountVisibleZero(flags: seq<bool>)
    ensures CountVisible(flags) == 0 <==> true !in flags
    decreases |flags|
  {
    if flags != [] {
      CountVisibleZero(flags[1..]);
      assert flags == [flags[0]] + flags[1..];
    }
  }

  /** Repeating the current value changes nothing; a real flip keeps the counter equal to the visible handlers. */
  lemma SetVisiblePreservesConsistency(p: Process, h: nat, visible: bool)
    requires Consistent(p) && h < |p.handlers|
    ensures Consistent(SetVisibleAt(p, h, visible))
    ensures visible == p.handlers[h] ==> SetVisibleAt(p, h, visible) == p
  {
    CountVisibleUpdate(p.handlers, h, visible);
  }

  lemma CreateHandlerPreservesConsistency(p: Process)
    requires Consistent(p)
    ensures Consistent(CreateHandler(p))
  {
    CountVisibleAppend(p.handlers, false);
  }

  lemma DestroyHandlerPreservesConsistency(p: Process, h: nat)
    requires Consistent(p) && h < |p.handlers|
    ensures Consistent(DestroyHandler(p, h))
  {
    var s := SetVisibleAt(p, h, false);
    SetVisiblePreservesConsistency(p, h, false);
    CountVisibleRemove(s.handlers, h);
  }

  /** GetHasVisible reports exactly whether some live handler is visible. */
  lemma HasVisibleIffSomeHandlerVisible(p: Process)
    requires Consistent(p)
    ensures HasVisible(p.numVisible) <==> true in p.handlers
  {
    CountVisibleZero(p.handlers);
  }

  /**
   * As written, the lister constructor keeps the counter consistent only when
   * the uninitialised flag happens to read false.
   */
  lemma ListerConstructorAsWrittenConsistency(p: Process, indeterminate: bool)
    requires Consistent(p)
    ensures Consistent(CreateHandlerWithListerAsWritten(p, indeterminate)) <==> !indeterminate
  {
    CountVisibleAppend(p.handlers, indeterminate);
  }

  /**
   * The concrete failure: a handler built with a lister whose flag reads true
   * and is destroyed without ever being shown drives the counter to -1, and
   * GetHasVisible then reports a visible page when there is none.
   */
  lemma ListerConstructorAsWrittenUnderflow()
    ensures var q := DestroyHandler(CreateHandlerWithListerAsWritten(Process(0, []), true), 0);
      q.numVisible == -1 && q.handlers == [] && HasVisible(q.numVisible)
  {
  }
}

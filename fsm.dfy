/**
 * The table-driven finite state machine engine (fsm.c / fsm.h).
 *
 * A table is a sequence of rows (origin state, guard, destination state,
 * optional output); a row whose origin is negative is the end-of-table
 * sentinel.  The guard and output of a row are C function pointers; here a
 * guard is an identifier of type `G` that the caller evaluates through
 * `holds`, and an output is an identifier of type `A` that `Update` hands
 * back to the caller to run.
 */
module Fsm {
  import opened CTypes

  datatype Transition<G, A> = Transition(orig: int, guard: Option<G>, dest: int, out: Option<A>)

  /** The table ends with a sentinel row somewhere. */
  predicate HasSentinel<G, A>(tt: seq<Transition<G, A>>) {
    exists s :: 0 <= s < |tt| && tt[s].orig < 0
  }

  /** Every row from `from` through `j` lies before the sentinel. */
  predicate LiveUpTo<G, A>(tt: seq<Transition<G, A>>, from: nat, j: nat)
    requires j < |tt|
  {
    forall k :: from <= k <= j ==> tt[k].orig >= 0
  }

  /** Row `t` is enabled in `state`: its origin is the state and its guard holds. */
  predicate Enabled<G, A>(t: Transition<G, A>, state: int, holds: G -> bool) {
    t.orig >= 0 && t.orig == state && t.guard.Some? && holds(t.guard.value)
  }

  /**
   * The row `fsm_update` fires when it scans from row `from`: the first
   * enabled row before the sentinel, or none.
   */
  function Scan<G, A>(tt: seq<Transition<G, A>>, from: nat, state: int, holds: G -> bool): (r: Option<nat>)
    requires from <= |tt|
    decreases |tt| - from
    ensures r.Some? ==> from <= r.value < |tt| && LiveUpTo(tt, from, r.value)
    ensures r.Some? ==> Enabled(tt[r.value], state, holds)
    ensures r.Some? ==> forall j :: from <= j < r.value ==> !Enabled(tt[j], state, holds)
    ensures r.None? ==> forall j :: from <= j < |tt| && LiveUpTo(tt, from, j) ==> !Enabled(tt[j], state, holds)
  {
    if from == |tt| || tt[from].orig < 0 then None
    else if Enabled(tt[from], state, holds) then Some(from)
    else Scan(tt, from + 1, state, holds)
  }

  /**
   * Rows after the sentinel are never examined: two tables that agree up to
   * and including a sentinel row fire the same row.
   */
  lemma {:induction false} ScanStopsAtSentinel<G, A>(tt1: seq<Transition<G, A>>, tt2: seq<Transition<G, A>>,
                                                     s: nat, from: nat, state: int, holds: G -> bool)
    requires s < |tt1| && s < |tt2| && tt1[..s + 1] == tt2[..s + 1]
    requires tt1[s].orig < 0
    requires from <= s
    decreases s - from
    ensures Scan(tt1, from, state, holds) == Scan(tt2, from, state, holds)
  {
    assert tt1[from] == tt1[..s + 1][from] == tt2[..s + 1][from] == tt2[from];
    if from < s {
      ScanStopsAtSentinel(tt1, tt2, s, from + 1, state, holds);
    }
  }

  /** One step of the scan: a live row is fired when enabled and passed over otherwise. */
  lemma ScanAt<G, A>(tt: seq<Transition<G, A>>, from: nat, state: int, holds: G -> bool)
    requires from < |tt| && tt[from].orig >= 0
    ensures Scan(tt, from, state, holds) ==
            if Enabled(tt[from], state, holds) then Some(from) else Scan(tt, from + 1, state, holds)
  {
  }

  /** A stretch of live rows none of which is enabled is passed over. */
  lemma {:induction false} ScanSkips<G, A>(tt: seq<Transition<G, A>>, from: nat, stop: nat, state: int, holds: G -> bool)
    requires from <= stop <= |tt|
    requires forall j :: from <= j < stop ==> tt[j].orig >= 0 && !Enabled(tt[j], state, holds)
    decreases stop - from
    ensures Scan(tt, from, state, holds) == Scan(tt, stop, state, holds)
  {
    if from < stop {
      ScanSkips(tt, from + 1, stop, state, holds);
    }
  }

  /** A state machine: its transition table and its current state. */
  class Machine<G, A> {
    const tt: seq<Transition<G, A>>
    var currentState: int

    /** fsm_init: the first state is the origin of the table's first row. */
    constructor Init(table: seq<Transition<G, A>>)
      requires |table| > 0
      ensures tt == table
      ensures currentState == table[0].orig
    {
      tt := table;
      currentState := table[0].orig;
    }

    /**
     * fsm_update: walks the table up to the sentinel and fires the first
     * enabled row: the state becomes that row's destination and its output,
     * if any, is returned as `output` for the caller to run (at most one
     * per call).  When no row is enabled nothing changes.  A self-loop row
     * still yields its output.
     */
    method Update(holds: G -> bool) returns (fired: Option<nat>, output: Option<A>)
      requires HasSentinel(tt)
      modifies this`currentState
      ensures fired == Scan(tt, 0, old(currentState), holds)
      ensures fired.Some? ==> currentState == tt[fired.value].dest && output == tt[fired.value].out
      ensures fired.None? ==> currentState == old(currentState) && output == None
    {
      fired, output := None, None;
      var i := 0;
      while tt[i].orig >= 0
        invariant 0 <= i < |tt|
        invariant exists s :: i <= s < |tt| && tt[s].orig < 0
        invariant currentState == old(currentState)
        invariant Scan(tt, 0, currentState, holds) == Scan(tt, i, currentState, holds)
        decreases |tt| - i
      {
        if currentState == tt[i].orig && tt[i].guard.Some? && holds(tt[i].guard.value) {
          currentState := tt[i].dest;
          fired, output := Some(i), tt[i].out;
          break;
        }
        i := i + 1;
      }
    }
  }
}

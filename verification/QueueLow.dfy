/** The edge-triggered QUEUE_LOW event.  QueueChanged reads the queue's length and swaps the low
    flag as separate steps, so concurrent calls interleave. */
module QueueLow {

  /** length: the queue's; pending: the length each call in progress has read but not yet acted on;
      swaps: the lengths acted on, in the order of the swaps; firings: which of them fired. */
  datatype State = State(length: nat, wasLow: bool, pending: map<nat, nat>, swaps: seq<nat>, firings: set<nat>)

  datatype Label =
    | Resize(length: nat)     // any queue operation
    | Read(call: nat)         // a call reads the length and publishes QUEUE_UPDATED
    | Swap(call: nat)         // ... and swaps the flag, firing on a rising edge

  function Step(s: State, threshold: nat, l: Label): State {
    match l
    case Resize(n) => s.(length := n)
    case Read(call) => if call in s.pending then s else s.(pending := s.pending[call := s.length])
    case Swap(call) =>
      if call !in s.pending then s else
      var isLow := s.pending[call] <= threshold;
      s.(wasLow := isLow, pending := s.pending - {call}, swaps := s.swaps + [s.pending[call]],
         firings := if isLow && !s.wasLow then s.firings + {|s.swaps|} else s.firings)
  }

  function Run(n: nat, threshold: nat, ls: seq<Label>): State {
    if ls == [] then State(n, false, map[], [], {})
    else Step(Run(n, threshold, ls[..|ls| - 1]), threshold, ls[|ls| - 1])
  }

  ghost predicate EdgeInv(s: State, threshold: nat) {
    && s.wasLow == (s.swaps != [] && s.swaps[|s.swaps| - 1] <= threshold)
    && (forall i <- s.firings :: i < |s.swaps|)
    && (forall i :: 0 <= i < |s.swaps| ==>
          (i in s.firings <==> s.swaps[i] <= threshold && !(PreviousLow(s.swaps, i, threshold))))
  }

  predicate PreviousLow(swaps: seq<nat>, i: int, threshold: nat)
    requires i <= |swaps|
  {
    i > 0 && swaps[i - 1] <= threshold
  }

  lemma {:induction false} EdgeRun(n: nat, threshold: nat, ls: seq<Label>)
    ensures EdgeInv(Run(n, threshold, ls), threshold)
  {
    if ls != [] {
      EdgeRun(n, threshold, ls[..|ls| - 1]);
    }
  }

  /** Under any interleaving of calls, between two firings some call that read a length above the
      threshold performed its swap. */
  lemma RisesBetweenFirings(n: nat, threshold: nat, ls: seq<Label>, i: nat, j: nat)
    requires i < j && i in Run(n, threshold, ls).firings && j in Run(n, threshold, ls).firings
    ensures var swaps := Run(n, threshold, ls).swaps;
            j < |swaps| && exists k :: i < k < j && swaps[k] > threshold
  {
    EdgeRun(n, threshold, ls);
    var swaps := Run(n, threshold, ls).swaps;
    assert !PreviousLow(swaps, j, threshold) && swaps[j - 1] > threshold;
  }

  /** The positions at which a sequence of lengths comes down to the threshold. */
  function RisingEdges(lengths: seq<nat>, threshold: nat): set<nat> {
    set i | 0 <= i < |lengths| && lengths[i] <= threshold && !PreviousLow(lengths, i, threshold)
  }

  /** QUEUE_LOW fires on exactly the rising edges of "length at most the threshold", along the
      lengths in the order their calls swapped. */
  lemma FiringsAreRisingEdges(n: nat, threshold: nat, ls: seq<Label>)
    ensures Run(n, threshold, ls).firings == RisingEdges(Run(n, threshold, ls).swaps, threshold)
  {
    EdgeRun(n, threshold, ls);
  }

  /** Calls made one at a time, each after the queue has taken a new length. */
  function OneAtATime(lengths: seq<nat>): seq<Label> {
    if lengths == [] then [] else
    OneAtATime(lengths[..|lengths| - 1]) + [Resize(lengths[|lengths| - 1]), Read(0), Swap(0)]
  }

  /** ... then those lengths are simply the queue's, in order. */
  lemma {:induction false} SequentialLengths(n: nat, threshold: nat, lengths: seq<nat>)
    ensures var s := Run(n, threshold, OneAtATime(lengths));
            s.swaps == lengths && s.pending == map[] && s.firings == RisingEdges(lengths, threshold)
  {
    if lengths != [] {
      var most, last := lengths[..|lengths| - 1], lengths[|lengths| - 1];
      SequentialLengths(n, threshold, most);
      ThreeSteps(n, threshold, OneAtATime(most), Resize(last), Read(0), Swap(0));
    }
    FiringsAreRisingEdges(n, threshold, OneAtATime(lengths));
  }

  lemma ThreeSteps(n: nat, threshold: nat, ls: seq<Label>, a: Label, b: Label, c: Label)
    ensures Run(n, threshold, ls + [a, b, c])
         == Step(Step(Step(Run(n, threshold, ls), threshold, a), threshold, b), threshold, c)
  {
    hide Step;
    var l3, l2, l1 := ls + [a, b, c], ls + [a, b], ls + [a];
    assert l3[..|l3| - 1] == l2 && l3[|l3| - 1] == c;
    assert l2[..|l2| - 1] == l1 && l2[|l2| - 1] == b;
    assert l1[..|l1| - 1] == ls && l1[|l1| - 1] == a;
    assert Run(n, threshold, l1) == Step(Run(n, threshold, ls), threshold, a);
    assert Run(n, threshold, l2) == Step(Run(n, threshold, l1), threshold, b);
  }

  class Flag {
    var length: nat            // the queue's
    var wasQueueLow: bool

    ghost var model: State

    ghost predicate Valid()
      reads this
    {
      && model.length == length && model.wasLow == wasQueueLow && model.pending == map[]
      && forall i <- model.firings :: i < |model.swaps|
    }

    constructor ()
      ensures Valid() && forall threshold :: model == Run(0, threshold, [])
    {
      length, wasQueueLow := 0, false;
      model := State(0, false, map[], [], {});
    }

    /** The queue takes a new length. */
    method Resize(length: nat)
      requires Valid()
      modifies this
      ensures Valid() && forall threshold :: model == Step(old(model), threshold, Label.Resize(length))
    {
      this.length := length;
      model := model.(length := length);
    }

    /** A whole call is a read and then a swap, and fires exactly when the swap does; a threshold of
        zero or less turns the event off. */
    method QueueChanged(threshold: int) returns (fired: bool)
      requires Valid()
      modifies this`wasQueueLow, this`model
      ensures Valid()
      ensures threshold <= 0 ==> !fired && model == old(model)
      ensures threshold > 0 ==>
                && model == Step(Step(old(model), threshold, Read(0)), threshold, Swap(0))
                && fired == (|old(model).swaps| in model.firings)
    {
      var length := this.length;
      if threshold <= 0 {
        return false;
      }
      model := Step(Step(model, threshold, Read(0)), threshold, Swap(0));
      var isLow := length <= threshold;
      var wasLow := wasQueueLow;
      wasQueueLow := isLow;
      return isLow && !wasLow;
    }
  }
}

/**
 * The animations of Frontened/src/components/dsaVisualize.jsx: the table of
 * demo algorithms, the initial state of each card, and the body of each
 * interval tick of the bubble sort, the binary search and the stack. Each tick
 * is a step function on a state value, proved to keep an invariant; each
 * animation is a class whose `Tick` performs that step in place and records
 * the frame handed to `setAnimationStates`. The frame at position `k` of
 * `frames` is the one published with `step: k`.
 */
module DsaVisualize {
  import opened Wrappers

  // ---------------------------------------------------------------------------
  // The algorithm table and the initial states
  // ---------------------------------------------------------------------------

  const Sorting: string := "sorting"
  const Searching: string := "searching"
  const Structures: string := "structures"

  /** An entry of `algorithms`; the colour classes are presentation only. */
  datatype Algorithm = Algorithm(
    id: nat,
    title: string,
    category: string,
    values: Option<seq<int>>,
    target: Option<int>,
    elements: Option<seq<int>>)

  const Algorithms: seq<Algorithm> := [
    Algorithm(1, "Bubble Sort", Sorting, Some([45, 23, 78, 12, 56, 67]), None, None),
    Algorithm(2, "Binary Search", Searching, Some([10, 20, 30, 100, 220]), Some(70), None),
    Algorithm(3, "Stack", Structures, None, None, Some([45, 32, 12])),
    Algorithm(4, "Queue", Structures, None, None, Some([15, 28, 59]))
  ]

  /** The `data` of a card: an array snapshot, a search window, or nothing. */
  datatype AnimationData = Items(values: seq<int>) | Window(low: int, high: int, mid: int) | NoData

  datatype AnimationState = AnimationState(step: nat, data: AnimationData)

  /**
   * The initial state of one card; `None` is the TypeError raised by reading
   * a missing `array` or `elements` (`values` here).
   */
  function InitialState(algo: Algorithm): (r: Option<AnimationState>)
    ensures r.Some? ==> r.value.step == 0
    ensures r.None? <==>
      ((algo.category == Sorting || algo.category == Searching) && algo.values.None?)
      || (algo.category == Structures && algo.elements.None?)
  {
    if algo.category == Sorting then
      if algo.values.Some? then Some(AnimationState(0, Items(algo.values.value))) else None
    else if algo.category == Searching then
      if algo.values.Some? then Some(AnimationState(0, Window(0, |algo.values.value| - 1, -1))) else None
    else if algo.category == Structures then
      if algo.elements.Some? then Some(AnimationState(0, Items(algo.elements.value))) else None
    else Some(AnimationState(0, NoData))
  }

  /**
   * Every card of the table starts at step 0: the sort and the structures with
   * copies of their arrays, the search with the window over the whole array
   * and no midpoint yet.
   */
  lemma InitialStatesOfTable()
    ensures InitialState(Algorithms[0]) == Some(AnimationState(0, Items([45, 23, 78, 12, 56, 67])))
    ensures InitialState(Algorithms[1]) == Some(AnimationState(0, Window(0, 4, -1)))
    ensures InitialState(Algorithms[2]) == Some(AnimationState(0, Items([45, 32, 12])))
    ensures InitialState(Algorithms[3]) == Some(AnimationState(0, Items([15, 28, 59])))
  {
  }

  // ---------------------------------------------------------------------------
  // Orderings on sequences
  // ---------------------------------------------------------------------------

  predicate Sorted(s: seq<int>)
  {
    forall p, q :: 0 <= p < q < |s| ==> s[p] <= s[q]
  }

  /** The elements from position `k` on are in order. */
  predicate SortedFrom(s: seq<int>, k: int)
  {
    forall p, q :: k <= p < q < |s| && 0 <= p ==> s[p] <= s[q]
  }

  /** Every element before position `k` is at most every element from `k` on. */
  predicate Partitioned(s: seq<int>, k: int)
  {
    forall p, q :: 0 <= p < k <= q < |s| ==> s[p] <= s[q]
  }

  /** The elements up to and including position `j` are in order. */
  predicate SortedUpTo(s: seq<int>, j: int)
  {
    forall p, q :: 0 <= p < q <= j && q < |s| ==> s[p] <= s[q]
  }

  /** Position `j` holds the largest of the elements up to it. */
  predicate MaxAt(s: seq<int>, j: int)
  {
    0 <= j < |s| && forall p :: 0 <= p <= j ==> s[p] <= s[j]
  }

  // ---------------------------------------------------------------------------
  // Bubble sort
  // ---------------------------------------------------------------------------

  /** The variables a bubble-sort tick reads and writes, and whether the interval runs. */
  datatype BubbleState = BubbleState(a: seq<int>, i: nat, j: nat, swapped: bool, running: bool)

  /** `[array[k], array[k + 1]] = [array[k + 1], array[k]]`. */
  function SwapAdjacent(s: seq<int>, k: nat): (r: seq<int>)
    requires k + 1 < |s|
    ensures |r| == |s| && r[k] == s[k + 1] && r[k + 1] == s[k]
    ensures forall p :: 0 <= p < |s| && p != k && p != k + 1 ==> r[p] == s[p]
    ensures multiset(r) == multiset(s)
  {
    var r := s[k := s[k + 1]][k + 1 := s[k]];
    assert s == s[..k] + [s[k], s[k + 1]] + s[k + 2..];
    assert r == s[..k] + [s[k + 1], s[k]] + s[k + 2..];
    r
  }

  function BubbleInit(original: seq<int>): BubbleState
  {
    BubbleState(original, 0, 0, false, true)
  }

  /** One tick of animateBubbleSort, with the `isAnimating` guard passing. */
  function BubbleStep(st: BubbleState): BubbleState
    requires st.running
  {
    var n := |st.a|;
    if st.i < n - 1 then
      if st.j < n - st.i - 1 then
        if st.a[st.j] > st.a[st.j + 1] then
          st.(a := SwapAdjacent(st.a, st.j), swapped := true, j := st.j + 1)
        else st.(j := st.j + 1)
      else if !st.swapped then st.(running := false)
      else st.(i := st.i + 1, j := 0, swapped := false)
    else st.(running := false)
  }

  /**
   * The state of a pass: the last `i` positions hold the largest elements in
   * order, the element at `j` is the largest seen in this pass, and while no
   * swap has happened in the pass the part walked so far is in order.
   */
  predicate PassInv(st: BubbleState)
  {
    var n := |st.a|;
    && st.i <= n
    && SortedFrom(st.a, n - st.i)
    && Partitioned(st.a, n - st.i)
    && (st.i < n - 1 ==>
          && st.j <= n - st.i - 1
          && MaxAt(st.a, st.j)
          && (!st.swapped ==> SortedUpTo(st.a, st.j)))
  }

  /** A permutation of the original, in a pass while running and sorted once stopped. */
  predicate BubbleInv(st: BubbleState, original: seq<int>)
  {
    && multiset(st.a) == multiset(original)
    && st.i <= |st.a| && st.j <= |st.a|
    && (st.running ==> PassInv(st))
    && (!st.running ==> Sorted(st.a))
  }

  lemma BubbleInitInv(original: seq<int>)
    ensures BubbleInv(BubbleInit(original), original)
  {
  }

  /**
   * A tick keeps the invariant, so the array stays a permutation of the
   * original and is sorted when the interval stops. It swaps at most one
   * adjacent pair, and only one out of order. It publishes a frame exactly when
   * the interval goes on, and then it moves `(i, j)` forward in lexicographic order.
   */
  lemma BubbleStepPreserves(st: BubbleState, original: seq<int>)
    requires BubbleInv(st, original) && st.running
    ensures BubbleInv(BubbleStep(st), original)
    ensures var r := BubbleStep(st);
      r.a == st.a
      || (st.j + 1 < |st.a| && st.a[st.j] > st.a[st.j + 1] && r.a == SwapAdjacent(st.a, st.j))
    ensures var r := BubbleStep(st);
      !r.running || st.i < r.i || (st.i == r.i && st.j < r.j)
  {
    var n := |st.a|;
    if st.i < n - 1 && st.j < n - st.i - 1 {
      CompareTick(st, original);
    } else if st.i < n - 1 && st.swapped {
      PassEndTick(st, original);
    } else {
      StopTick(st, original);
    }
  }

  /** A tick inside a pass compares, and perhaps swaps, one adjacent pair. */
  lemma CompareTick(st: BubbleState, original: seq<int>)
    requires BubbleInv(st, original) && st.running
    requires st.i < |st.a| - 1 && st.j < |st.a| - st.i - 1
    ensures BubbleInv(BubbleStep(st), original)
    ensures var r := BubbleStep(st);
      r.running && r.i == st.i && r.j == st.j + 1
      && (r.a == st.a || (st.a[st.j] > st.a[st.j + 1] && r.a == SwapAdjacent(st.a, st.j)))
  {
    if st.a[st.j] > st.a[st.j + 1] {
      SwapTick(st, original);
    } else {
      KeepTick(st, original);
    }
  }

  lemma SwapTick(st: BubbleState, original: seq<int>)
    requires BubbleInv(st, original) && st.running
    requires st.i < |st.a| - 1 && st.j < |st.a| - st.i - 1 && st.a[st.j] > st.a[st.j + 1]
    ensures BubbleStep(st) == BubbleState(SwapAdjacent(st.a, st.j), st.i, st.j + 1, true, true)
    ensures BubbleInv(BubbleStep(st), original)
  {
    var r := BubbleState(SwapAdjacent(st.a, st.j), st.i, st.j + 1, true, true);
    SwapStep(st.a, st.j, |st.a| - st.i);
    assert PassInv(r);
  }

  lemma KeepTick(st: BubbleState, original: seq<int>)
    requires BubbleInv(st, original) && st.running
    requires st.i < |st.a| - 1 && st.j < |st.a| - st.i - 1 && st.a[st.j] <= st.a[st.j + 1]
    ensures BubbleStep(st) == st.(j := st.j + 1)
    ensures BubbleInv(BubbleStep(st), original)
  {
    KeepStep(st.a, st.j, |st.a| - st.i);
    assert PassInv(st.(j := st.j + 1));
  }

  /** The tick after a pass that swapped starts the next, shorter pass. */
  lemma PassEndTick(st: BubbleState, original: seq<int>)
    requires BubbleInv(st, original) && st.running && st.swapped
    requires st.i < |st.a| - 1 && st.j >= |st.a| - st.i - 1
    ensures BubbleStep(st) == st.(i := st.i + 1, j := 0, swapped := false)
    ensures BubbleInv(BubbleStep(st), original)
  {
    PassEnd(st.a, |st.a| - st.i);
  }

  /** The tick after a pass with no swap, or after the last pass, stops on a sorted array. */
  lemma StopTick(st: BubbleState, original: seq<int>)
    requires BubbleInv(st, original) && st.running
    requires st.i >= |st.a| - 1 || (st.j >= |st.a| - st.i - 1 && !st.swapped)
    ensures BubbleStep(st) == st.(running := false)
    ensures BubbleInv(BubbleStep(st), original)
  {
    PassSorted(st.a, |st.a| - st.i);
  }

  /** Comparing an out-of-order pair inside the unsorted part and swapping it. */
  lemma SwapStep(s: seq<int>, j: nat, k: int)
    requires j + 1 < k <= |s| && s[j] > s[j + 1]
    requires SortedFrom(s, k) && Partitioned(s, k) && MaxAt(s, j)
    ensures var t := SwapAdjacent(s, j);
      SortedFrom(t, k) && Partitioned(t, k) && MaxAt(t, j + 1)
  {
    var t := SwapAdjacent(s, j);
    assert forall p :: k <= p < |s| ==> t[p] == s[p];
    assert forall p :: 0 <= p < k ==> t[p] == s[p] || t[p] == s[j] || t[p] == s[j + 1];
  }

  /** Comparing an in-order pair inside the unsorted part and leaving it. */
  lemma KeepStep(s: seq<int>, j: nat, k: int)
    requires j + 1 < k <= |s| && s[j] <= s[j + 1]
    requires MaxAt(s, j)
    ensures MaxAt(s, j + 1)
    ensures SortedUpTo(s, j) ==> SortedUpTo(s, j + 1)
  {
  }

  /** At the end of a pass its largest element joins the sorted suffix. */
  lemma PassEnd(s: seq<int>, k: int)
    requires 1 <= k <= |s|
    requires SortedFrom(s, k) && Partitioned(s, k) && MaxAt(s, k - 1)
    ensures SortedFrom(s, k - 1) && Partitioned(s, k - 1)
  {
  }

  /** An ordered prefix before an ordered suffix that dominates it is a sorted whole. */
  lemma PassSorted(s: seq<int>, k: int)
    requires k <= |s|
    requires SortedFrom(s, k) && Partitioned(s, k) && SortedUpTo(s, k - 1)
    ensures Sorted(s)
  {
  }

  /** Runs the animation until the interval is cleared. */
  ghost function BubbleFinal(st: BubbleState, original: seq<int>): (r: BubbleState)
    requires BubbleInv(st, original)
    ensures BubbleInv(r, original) && !r.running
    decreases (if st.running then 1 else 0), |st.a| - st.i, |st.a| - st.j
  {
    if !st.running then st
    else
      BubbleStepPreserves(st, original);
      BubbleFinal(BubbleStep(st), original)
  }

  /** Any array the animation starts from ends sorted and a permutation of itself. */
  lemma BubbleSortSorts(original: seq<int>)
    ensures var f := BubbleFinal(BubbleInit(original), original);
      Sorted(f.a) && multiset(f.a) == multiset(original)
  {
  }

  /** The closure of animateBubbleSort: `array` is updated in place. */
  class BubbleSortAnimation {
    const values: array<int>
    var i: nat
    var j: nat
    var swapped: bool
    var running: bool
    var frames: seq<seq<int>>
    ghost const original: seq<int>

    function State(): BubbleState
      reads this, values
    {
      BubbleState(values[..], i, j, swapped, running)
    }

    ghost predicate Valid()
      reads this, values
    {
      BubbleInv(State(), original)
    }

    /** `let array = [...algo.array]` with `i`, `j` and `swapped` at their start values. */
    constructor (index: nat)
      requires index < |Algorithms| && Algorithms[index].values.Some?
      ensures fresh(values) && values[..] == Algorithms[index].values.value
      ensures original == values[..] && State() == BubbleInit(original)
      ensures frames == []
      ensures Valid()
    {
      var initial := Algorithms[index].values.value;
      original := initial;
      var copy := new int[|initial|];
      var k := 0;
      while k < |initial|
        invariant 0 <= k <= |initial|
        invariant copy[..k] == initial[..k]
      {
        copy[k] := initial[k];
        k := k + 1;
      }
      values := copy;
      i, j, swapped, running := 0, 0, false, true;
      frames := [];
    }

    /** One interval tick. */
    method Tick()
      requires Valid() && running
      modifies this, values
      ensures State() == BubbleStep(old(State()))
      ensures frames == old(frames) + (if running then [values[..]] else [])
      ensures Valid()
      ensures !running ==> Sorted(values[..]) && multiset(values[..]) == multiset(original)
    {
      var n := values.Length;
      if i < n - 1 {
        if j < n - i - 1 {
          CompareAdjacent();
        } else {
          if !swapped {
            StopTick(State(), original);
            running := false;
            return;
          }
          NextPass();
        }
        frames := frames + [values[..]];
      } else {
        StopTick(State(), original);
        running := false;
      }
    }

    /** Inside a pass: swap `array[j]` and `array[j + 1]` when out of order, then advance `j`. */
    method CompareAdjacent()
      requires Valid() && running && i < values.Length - 1 && j < values.Length - i - 1
      modifies this, values
      ensures State() == BubbleStep(old(State())) && frames == old(frames)
      ensures Valid()
    {
      ghost var before := State();
      if values[j] > values[j + 1] {
        SwapTick(before, original);
        SwapInPlace(values, j);
        swapped := true;
      } else {
        KeepTick(before, original);
      }
      j := j + 1;
    }

    /** `[array[k], array[k + 1]] = [array[k + 1], array[k]]` on the array itself. */
    static method SwapInPlace(a: array<int>, k: nat)
      requires k + 1 < a.Length
      modifies a
      ensures a[..] == SwapAdjacent(old(a[..]), k)
    {
      a[k], a[k + 1] := a[k + 1], a[k];
    }

    /** After a pass that swapped: start the next pass. */
    method NextPass()
      requires Valid() && running && swapped && i < values.Length - 1 && j >= values.Length - i - 1
      modifies this
      ensures State() == BubbleStep(old(State())) && frames == old(frames)
      ensures Valid()
    {
      PassEndTick(State(), original);
      i := i + 1;
      j := 0;
      swapped := false;
    }
  }

  // ---------------------------------------------------------------------------
  // Binary search
  // ---------------------------------------------------------------------------

  datatype SearchState = SearchState(low: int, high: int, running: bool)

  /** The data of a published search frame. */
  datatype SearchFrame = SearchFrame(low: int, high: int, mid: int)

  /**
   * `Math.floor((low + high) / 2)`; division by a positive number rounds down,
   * as `Math.floor` does.
   */
  function Mid(low: int, high: int): (r: int)
    ensures low <= high ==> low <= r <= high
  {
    (low + high) / 2
  }

  function SearchInit(values: seq<int>): SearchState
  {
    SearchState(0, |values| - 1, true)
  }

  /** One tick of animateBinarySearch, with the `isAnimating` guard passing. */
  function SearchStep(values: seq<int>, target: int, st: SearchState): SearchState
    requires st.running && 0 <= st.low && st.high < |values|
  {
    if st.low <= st.high then
      var mid := Mid(st.low, st.high);
      if values[mid] == target then st.(running := false)
      else if values[mid] < target then st.(low := mid + 1)
      else st.(high := mid - 1)
    else st.(running := false)
  }

  /**
   * The window stays inside the array and is never inverted by more than one.
   * A stop inside the window means the midpoint holds the target. On a sorted
   * array the target lies in no position outside the window.
   */
  predicate SearchInv(values: seq<int>, target: int, st: SearchState)
  {
    && 0 <= st.low && st.high < |values| && st.low <= st.high + 1
    && (!st.running && st.low <= st.high ==> values[Mid(st.low, st.high)] == target)
    && (Sorted(values) ==>
          (forall k :: 0 <= k < st.low ==> values[k] != target)
          && (forall k :: st.high < k < |values| ==> values[k] != target))
  }

  lemma SearchInitInv(values: seq<int>, target: int)
    ensures SearchInv(values, target, SearchInit(values))
  {
  }

  /**
   * A tick keeps the invariant; a frame is published exactly while the window
   * is not empty, and a tick that keeps the interval running strictly shrinks
   * `high - low`.
   */
  lemma SearchStepPreserves(values: seq<int>, target: int, st: SearchState)
    requires SearchInv(values, target, st) && st.running
    ensures SearchInv(values, target, SearchStep(values, target, st))
    ensures var r := SearchStep(values, target, st);
      r.running ==> st.low <= st.high && r.high - r.low < st.high - st.low
  {
    if st.low <= st.high && Sorted(values) {
      var mid := Mid(st.low, st.high);
      if values[mid] < target {
        assert forall k :: 0 <= k <= mid ==> values[k] <= values[mid];
      } else if values[mid] > target {
        assert forall k :: mid <= k < |values| ==> values[mid] <= values[k];
      }
    }
  }

  /** Runs the search until the interval is cleared. */
  ghost function SearchFinal(values: seq<int>, target: int, st: SearchState): (r: SearchState)
    requires SearchInv(values, target, st)
    ensures SearchInv(values, target, r) && !r.running
    decreases (if st.running then 1 else 0), st.high - st.low + 1
  {
    if !st.running then st
    else
      SearchStepPreserves(values, target, st);
      SearchFinal(values, target, SearchStep(values, target, st))
  }

  /**
   * On a sorted array the search ends inside its window exactly when the
   * target is present, and then the last midpoint holds it.
   */
  lemma {:induction false} BinarySearchFinds(values: seq<int>, target: int)
    requires Sorted(values)
    ensures var f := SearchFinal(values, target, SearchInit(values));
      (f.low <= f.high <==> target in values)
      && (f.low <= f.high ==> values[Mid(f.low, f.high)] == target)
  {
    SearchInitInv(values, target);
    var f := SearchFinal(values, target, SearchInit(values));
    if f.low > f.high {
      assert f.low == f.high + 1;
      forall k | 0 <= k < |values|
        ensures values[k] != target
      {
        if k < f.low {
        } else {
          assert f.high < k;
        }
      }
    }
  }

  /**
   * The demo search looks for 70 in [10, 20, 30, 100, 220]: it shows the
   * windows (0, 4) and (3, 4) and stops with the window (3, 2), not found.
   */
  lemma DemoSearch()
    ensures var values := Algorithms[1].values.value;
      var s0 := SearchInit(values);
      var s1 := SearchStep(values, 70, s0);
      var s2 := SearchStep(values, 70, s1);
      && Mid(s0.low, s0.high) == 2 && s1 == SearchState(3, 4, true)
      && Mid(s1.low, s1.high) == 3 && s2 == SearchState(3, 2, true)
      && SearchStep(values, 70, s2) == SearchState(3, 2, false)
  {
  }

  /** The closure of animateBinarySearch: `low` and `high` are updated in place. */
  class BinarySearchAnimation {
    const values: seq<int>
    const target: int
    var low: int
    var high: int
    var running: bool
    var frames: seq<SearchFrame>

    function State(): SearchState
      reads this
    {
      SearchState(low, high, running)
    }

    predicate Valid()
      reads this
    {
      SearchInv(values, target, State())
    }

    constructor (index: nat)
      requires index < |Algorithms| && Algorithms[index].values.Some? && Algorithms[index].target.Some?
      ensures values == Algorithms[index].values.value && target == Algorithms[index].target.value
      ensures State() == SearchInit(values) && frames == []
      ensures Valid()
    {
      values := Algorithms[index].values.value;
      target := Algorithms[index].target.value;
      low := 0;
      high := |Algorithms[index].values.value| - 1;
      running := true;
      frames := [];
    }

    /** One interval tick. */
    method Tick()
      requires Valid() && running
      modifies this
      ensures State() == SearchStep(values, target, old(State()))
      ensures frames == old(frames)
        + (if old(low) <= old(high) then [SearchFrame(old(low), old(high), Mid(old(low), old(high)))] else [])
      ensures Valid()
    {
      SearchStepPreserves(values, target, State());
      if low <= high {
        var mid := (low + high) / 2;
        frames := frames + [SearchFrame(low, high, mid)];
        if values[mid] == target {
          running := false;
        } else if values[mid] < target {
          low := mid + 1;
        } else {
          high := mid - 1;
        }
      } else {
        running := false;
      }
    }
  }

  // ---------------------------------------------------------------------------
  // Stack
  // ---------------------------------------------------------------------------

  datatype Direction = Push | Pop

  datatype StackState = StackState(elements: seq<int>, direction: Direction, value: int)

  /** `Math.floor(Math.random() * 50) + 50`, where `roll` is the floored product. */
  function RandomValue(roll: nat): (r: int)
    requires roll < 50
    ensures 50 <= r <= 99
  {
    roll + 50
  }

  function StackInit(initial: seq<int>, roll: nat): StackState
    requires roll < 50
  {
    StackState(initial, Push, RandomValue(roll))
  }

  /** `elements.pop()`, which leaves an empty array empty. */
  function PopLast(s: seq<int>): seq<int>
  {
    if s == [] then [] else s[..|s| - 1]
  }

  /** A pop undoes a push: the two moves of the stack animation are inverses. */
  lemma PopUndoesPush(s: seq<int>, v: int)
    ensures PopLast(s + [v]) == s
    ensures |PopLast(s)| == if s == [] then 0 else |s| - 1
  {
    assert (s + [v])[..|s|] == s;
  }

  /** One tick of animateStack; `roll` is the draw for the next value to push. */
  function StackStep(st: StackState, roll: nat): StackState
    requires roll < 50
  {
    if st.direction == Push then
      var e := st.elements + [st.value];
      StackState(e, if |e| >= 6 then Pop else Push, RandomValue(roll))
    else
      var e := PopLast(st.elements);
      StackState(e, if |e| <= 2 then Push else Pop, st.value)
  }

  /**
   * While pushing the stack holds two to five elements, while popping three to
   * six. The bottom two are the initial ones, and every element that is not an
   * initial element in its place was pushed and lies in [50, 99].
   */
  predicate StackInv(initial: seq<int>, st: StackState)
  {
    var e := st.elements;
    && 50 <= st.value <= 99
    && (st.direction == Push ==> 2 <= |e| <= 5)
    && (st.direction == Pop ==> 3 <= |e| <= 6)
    && |initial| >= 2 && |e| >= 2 && e[..2] == initial[..2]
    && forall k :: 0 <= k < |e| ==> (k < |initial| && e[k] == initial[k]) || 50 <= e[k] <= 99
  }

  lemma StackInitInv(initial: seq<int>, roll: nat)
    requires 2 <= |initial| <= 5 && roll < 50
    ensures StackInv(initial, StackInit(initial, roll))
  {
  }

  /**
   * A tick keeps the invariant, so the length stays within [2, 6]. A push adds
   * the held value, which lies in [50, 99], on top, and a pop removes the top.
   */
  lemma StackStepPreserves(initial: seq<int>, st: StackState, roll: nat)
    requires StackInv(initial, st) && roll < 50
    ensures var r := StackStep(st, roll);
      StackInv(initial, r) && 2 <= |r.elements| <= 6
    ensures st.direction == Push ==>
      StackStep(st, roll).elements == st.elements + [st.value] && 50 <= st.value <= 99
    ensures st.direction == Pop ==>
      StackStep(st, roll).elements == st.elements[..|st.elements| - 1]
  {
    var r := StackStep(st, roll);
    assert r.elements[..2] == st.elements[..2];
  }

  /** The closure of animateStack: `elements` is pushed and popped in place. */
  class StackAnimation {
    var elements: seq<int>
    var direction: Direction
    var value: int
    var frames: seq<seq<int>>
    ghost const initial: seq<int>

    function State(): StackState
      reads this
    {
      StackState(elements, direction, value)
    }

    ghost predicate Valid()
      reads this
    {
      StackInv(initial, State())
    }

    /** `index` is a structures entry of the table; `roll` draws the first value. */
    constructor (index: nat, roll: nat)
      requires index < |Algorithms| && Algorithms[index].category == Structures && roll < 50
      ensures Algorithms[index].elements.Some? && initial == Algorithms[index].elements.value
      ensures State() == StackInit(initial, roll) && frames == []
      ensures Valid()
    {
      var start := Algorithms[index].elements.value;
      initial := start;
      elements := start;
      direction := Push;
      value := roll + 50;
      frames := [];
    }

    /** One interval tick; `roll` draws the value for the next push. */
    method Tick(roll: nat)
      requires Valid() && roll < 50
      modifies this
      ensures State() == StackStep(old(State()), roll)
      ensures frames == old(frames) + [elements]
      ensures Valid() && 2 <= |elements| <= 6
    {
      StackStepPreserves(initial, State(), roll);
      if direction == Push {
        elements := elements + [value];
        value := roll + 50;
        if |elements| >= 6 {
          direction := Pop;
        }
      } else {
        if elements != [] {
          elements := elements[..|elements| - 1];
        }
        if |elements| <= 2 {
          direction := Push;
        }
      }
      frames := frames + [elements];
    }
  }
}

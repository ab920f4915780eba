/**
 * The animated statistic: once the element has scrolled into view, a timer
 * counts `start` up by one per firing and shows `floor(min(start / end, 1) * end)`
 * until `start` reaches the target value `end`.
 *
 * Each timer firing is one call of `Tick`; the firing period is left out.
 */
module StatCounter {

  /** `Math.min(start / end, 1)`. */
  function Progress(start: int, end: real): real
    requires end > 0.0
  {
    if (start as real) / end < 1.0 then (start as real) / end else 1.0
  }

  /** The value shown after the timer has fired `start` times. */
  function Shown(start: int, end: real): int
    requires end > 0.0
  {
    (Progress(start, end) * end).Floor
  }

  /** `Math.ceil`. */
  function Ceil(x: real): (c: int)
    ensures c as real - 1.0 < x <= c as real
  {
    -((-x).Floor)
  }

  /** Before the target the count is the number of firings; from the target on it is `floor(end)`. */
  lemma ShownValue(k: nat, end: real)
    requires end > 0.0
    ensures Shown(k, end) == if (k as real) < end then k else end.Floor
  {
    var q := (k as real) / end;
    assert q * end == k as real;
    if (k as real) < end {
      assert q < 1.0;
    } else {
      assert q >= 1.0;
    }
  }

  /** The count shown stays between 0 and the target. */
  lemma ShownBounds(k: nat, end: real)
    requires end > 0.0
    ensures 0 <= Shown(k, end) && Shown(k, end) as real <= end
  {
    ShownValue(k, end);
  }

  /** The count shown never goes down from one firing to the next. */
  lemma ShownMonotone(j: nat, k: nat, end: real)
    requires end > 0.0 && j <= k
    ensures Shown(j, end) <= Shown(k, end)
  {
    ShownValue(j, end);
    ShownValue(k, end);
  }

  /** For a whole target `n` the count after `k` firings is `min(k, n)`. */
  lemma WholeTarget(k: nat, n: nat)
    requires n > 0
    ensures Shown(k, n as real) == if k < n then k else n
  {
    ShownValue(k, n as real);
  }

  /** For the target 4.8 the timer fires five times and shows 1, 2, 3, 4 and then 4 again. */
  lemma FractionalTarget()
    ensures Ceil(4.8) == 5
    ensures Shown(4, 4.8) == 4 && Shown(5, 4.8) == 4
  {
    ShownValue(4, 4.8);
    ShownValue(5, 4.8);
  }

  class Counter {
    /** The target value `end`. */
    const value: real
    var count: int
    var isInView: bool
    /** The timer's local `start`. */
    var start: int
    /** Whether the timer is armed. */
    var running: bool

    constructor (value: real)
      ensures this.value == value
      ensures count == 0 && !isInView && start == 0 && !running
    {
      this.value := value;
      count := 0;
      isInView := false;
      start := 0;
      running := false;
    }

    /** An intersection report: an intersecting entry sets the flag, nothing clears it. */
    method Observe(isIntersecting: bool)
      modifies this`isInView
      ensures isInView == (old(isInView) || isIntersecting)
    {
      if isIntersecting {
        isInView := true;
      }
    }

    /** One firing of the timer: count one more, show the new value, disarm on reaching the target. */
    method Tick()
      requires running && value > 0.0
      modifies this`start, this`count, this`running
      ensures start == old(start) + 1
      ensures count == Shown(start, value)
      ensures running <==> (start as real) < value
    {
      start := start + 1;
      var progress := if (start as real) / value < 1.0 then (start as real) / value else 1.0;
      count := (progress * value).Floor;
      if start as real >= value {
        running := false;
      }
    }

    /**
     * The counting effect run to completion: nothing before the element is in view;
     * afterwards `Ceil(value)` firings, returned as the values shown in turn.
     */
    method Run() returns (shown: seq<int>)
      requires value > 0.0
      modifies this`start, this`count, this`running
      ensures !old(isInView) ==> shown == [] && count == old(count) && running == old(running) && start == old(start)
      ensures old(isInView) ==> |shown| == Ceil(value) && start == Ceil(value) && !running
      ensures old(isInView) ==> forall i :: 0 <= i < |shown| ==> shown[i] == Shown(i + 1, value)
      ensures old(isInView) ==> count == value.Floor
    {
      shown := [];
      if !isInView {
        return;
      }
      start := 0;
      running := true;
      while running
        invariant 0 <= start <= Ceil(value)
        invariant running <==> (start as real) < value
        invariant |shown| == start
        invariant forall i :: 0 <= i < start ==> shown[i] == Shown(i + 1, value)
        invariant start > 0 ==> count == Shown(start, value)
        decreases Ceil(value) - start
      {
        Tick();
        shown := shown + [count];
      }
      ShownValue(start, value);
    }
  }
}

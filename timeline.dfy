/**
 * The timeline component: shows the steps of a process sorted by their order,
 * and chooses the classes and icon of each step node and of the line after it.
 */
module Timeline {
  import opened Wrappers
  import opened Models
  import opened ApiConfig

  // ---------------------------------------------------------------------------
  // The sort by `order`
  // ---------------------------------------------------------------------------

  predicate SortedByOrder(s: seq<ProcessStep>) {
    forall i, j :: 0 <= i < j < |s| ==> s[i].order <= s[j].order
  }

  /** The steps with the given order, in their order in `s`. */
  function WithOrder(s: seq<ProcessStep>, order: int): seq<ProcessStep> {
    if s == [] then []
    else (if s[0].order == order then [s[0]] else []) + WithOrder(s[1..], order)
  }

  /** Puts `x` in front of the first step of `s` whose order is not smaller than its own. */
  function Insert(x: ProcessStep, s: seq<ProcessStep>): (r: seq<ProcessStep>)
    ensures |r| == |s| + 1
    ensures multiset(r) == multiset(s) + multiset{x}
  {
    if s == [] then [x]
    else if x.order <= s[0].order then [x] + s
    else
      assert s == [s[0]] + s[1..];
      [s[0]] + Insert(x, s[1..])
  }

  /** A bound below `x` and below every step of `s` is below every step after insertion. */
  lemma InsertBounded(x: ProcessStep, s: seq<ProcessStep>, bound: int)
    requires bound <= x.order
    requires forall k :: 0 <= k < |s| ==> bound <= s[k].order
    ensures forall k :: 0 <= k < |s| + 1 ==> bound <= Insert(x, s)[k].order
  {
    var r := Insert(x, s);
    forall k | 0 <= k < |s| + 1 ensures bound <= r[k].order {
      assert r[k] in multiset(r);
      if r[k] != x {
        assert r[k] in multiset(s);
        var j :| 0 <= j < |s| && s[j] == r[k];
      }
    }
  }

  /** Inserting into a sorted list gives a sorted list. */
  lemma {:induction false} InsertSorted(x: ProcessStep, s: seq<ProcessStep>)
    requires SortedByOrder(s)
    ensures SortedByOrder(Insert(x, s))
  {
    if s != [] && x.order > s[0].order {
      InsertSorted(x, s[1..]);
      InsertBounded(x, s[1..], s[0].order);
      var rest := Insert(x, s[1..]);
      assert Insert(x, s) == [s[0]] + rest;
    }
  }

  /**
   * `[...steps].sort((a, b) => a.order - b.order)`: the same steps, sorted by
   * order. The comparator sorts stably, which `SortIsStable` states.
   */
  function SortByOrder(s: seq<ProcessStep>): (r: seq<ProcessStep>)
    ensures |r| == |s|
    ensures multiset(r) == multiset(s)
    ensures SortedByOrder(r)
  {
    if s == [] then []
    else
      assert s == [s[0]] + s[1..];
      InsertSorted(s[0], SortByOrder(s[1..]));
      Insert(s[0], SortByOrder(s[1..]))
  }

  lemma SortedTail(s: seq<ProcessStep>)
    requires s != [] && SortedByOrder(s)
    ensures SortedByOrder(s[1..])
  {
    assert forall i :: 0 <= i < |s| - 1 ==> s[1..][i] == s[i + 1];
  }

  /** `WithOrder` of a list with a known head. */
  lemma WithOrderCons(y: ProcessStep, t: seq<ProcessStep>, order: int)
    ensures WithOrder([y] + t, order) == (if y.order == order then [y] else []) + WithOrder(t, order)
  {
    assert ([y] + t)[0] == y && ([y] + t)[1..] == t;
  }

  /** The step of `Insert` that passes over a head ordered before `x`. */
  lemma InsertPastHead(x: ProcessStep, s: seq<ProcessStep>, order: int)
    requires s != [] && x.order > s[0].order
    requires WithOrder(Insert(x, s[1..]), order) == (if x.order == order then [x] else []) + WithOrder(s[1..], order)
    ensures WithOrder(Insert(x, s), order) == (if x.order == order then [x] else []) + WithOrder(s, order)
  {
    var rest := Insert(x, s[1..]);
    assert Insert(x, s) == [s[0]] + rest;
    WithOrderCons(s[0], rest, order);
    assert s == [s[0]] + s[1..];
    WithOrderCons(s[0], s[1..], order);
    if x.order == order {
      assert s[0].order != order;
      assert WithOrder(Insert(x, s), order) == [x] + WithOrder(s[1..], order);
      assert WithOrder(s, order) == WithOrder(s[1..], order);
    } else {
      assert WithOrder(rest, order) == WithOrder(s[1..], order);
    }
  }

  /** Inserting into a sorted list puts `x` in front of every step with its order. */
  lemma {:induction false} InsertKeepsOrderClasses(x: ProcessStep, s: seq<ProcessStep>, order: int)
    requires SortedByOrder(s)
    ensures WithOrder(Insert(x, s), order) == (if x.order == order then [x] else []) + WithOrder(s, order)
  {
    if s == [] {
      WithOrderCons(x, [], order);
    } else if x.order <= s[0].order {
      WithOrderCons(x, s, order);
    } else {
      SortedTail(s);
      InsertKeepsOrderClasses(x, s[1..], order);
      InsertPastHead(x, s, order);
    }
  }

  /** The sort is stable: the steps of each order keep their relative order. */
  lemma {:induction false} SortIsStable(s: seq<ProcessStep>, order: int)
    ensures WithOrder(SortByOrder(s), order) == WithOrder(s, order)
  {
    if s != [] {
      SortIsStable(s[1..], order);
      InsertKeepsOrderClasses(s[0], SortByOrder(s[1..]), order);
    }
  }

  // ---------------------------------------------------------------------------
  // Node classes, line classes and icons
  // ---------------------------------------------------------------------------

  /** `getStepNodeClassMap`: exactly one colour class set, chosen by the status, and `clickable` false. */
  function StepNodeClassMap(step: ProcessStep): (m: map<string, bool>)
    ensures "clickable" in m && !m["clickable"]
    ensures |m.Keys| == 2
    ensures forall c :: c in m && c != "clickable" ==> m[c]
    ensures step.status == Completed ==> "green" in m
    ensures step.status == InProgress ==> "orange" in m
    ensures step.status == Cancelled ==> "red" in m
    ensures step.status == NotStarted ==> "gray" in m
  {
    var colour :=
      match step.status
      case Completed => "green"
      case InProgress => "orange"
      case Cancelled => "red"
      case _ => "gray";
    var m := map[colour := true, "clickable" := false];
    assert m.Keys == {colour, "clickable"};
    m
  }

  /** `getStepStatusIcon`: the status's icon, or `''` when it has none. */
  function StepStatusIcon(step: ProcessStep): (icon: string)
    ensures var config := GetStepStatusConfig(step.status);
      icon == if config.icon.Some? then config.icon.value else ""
    ensures icon == "" <==> step.status == NotStarted
  {
    var config := GetStepStatusConfig(step.status);
    if config.icon.Some? && config.icon.value != "" then config.icon.value else ""
  }

  /** The component; `process` is the bound input, absent before binding. */
  class TimelineComponent {
    var process: Option<Process>
    var steps: seq<ProcessStep>

    constructor(input: Option<Process>)
      ensures process == input && steps == []
    {
      process := input;
      steps := [];
    }

    /** `ngOnInit`: show the bound process's steps sorted by order; its own list is left as it is. */
    method NgOnInit()
      modifies this`steps
      ensures process.Some? ==> steps == SortByOrder(process.value.steps)
      ensures process.None? ==> steps == old(steps)
    {
      if process.Some? {
        steps := SortByOrder(process.value.steps);
      }
    }

    /** `ngOnChanges`: the same, when the change set names `process`. */
    method NgOnChanges(processChanged: bool)
      modifies this`steps
      ensures processChanged && process.Some? ==> steps == SortByOrder(process.value.steps)
      ensures !(processChanged && process.Some?) ==> steps == old(steps)
    {
      if processChanged && process.Some? {
        steps := SortByOrder(process.value.steps);
      }
    }

    /**
     * `getConnectionLineClass`: nothing after the last step; otherwise a colour
     * class chosen by the step's status. A negative index is out of the
     * source's domain (it reads the status of an undefined step).
     */
    function GetConnectionLineClass(index: int): (r: string)
      requires 0 <= index
      reads this
      ensures index >= |steps| - 1 <==> r == ""
    {
      if index >= |steps| - 1 then ""
      else
        var status := steps[index].status;
        if status == Completed then "green-line"
        else if status == InProgress then "orange-line"
        else if status == Cancelled then "red-line"
        else "gray-line"
    }

    /** The line after a step has the colour of the step's node, with `-line` appended. */
    lemma LineFollowsNode(index: int)
      requires 0 <= index < |steps| - 1
      ensures forall c :: c in StepNodeClassMap(steps[index]) && StepNodeClassMap(steps[index])[c] ==>
        GetConnectionLineClass(index) == c + "-line"
    {
      var m := StepNodeClassMap(steps[index]);
      match steps[index].status
      case Completed =>
        assert m == map["green" := true, "clickable" := false];
      case InProgress =>
        assert m == map["orange" := true, "clickable" := false];
      case Cancelled =>
        assert m == map["red" := true, "clickable" := false];
      case NotStarted =>
        assert m == map["gray" := true, "clickable" := false];
    }
  }
}

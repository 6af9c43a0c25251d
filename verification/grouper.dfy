/**
 * The stack grouping that both the analyzer (`toGroups`) and the line
 * pipeline (`getBreakdown`) run over a sequence of lines in which a missing
 * entry (`null` in the source) stands for a blank line. Each open group on
 * the stack is keyed by the indentation of its head line; a group is emitted
 * when it is popped, so children come out before their parents and nesting
 * is not flattened.
 *
 * The lines are generic: `Ind` gives a line's indentation and `Dot` says
 * whether it starts with a block marker.
 */
module Grouper {
  import opened Text

  datatype State<T> = State(stack: seq<seq<T>>, done: seq<seq<T>>)

  function Last<T>(s: seq<T>): T
    requires |s| > 0
  {
    s[|s| - 1]
  }

  function Init<T>(s: seq<T>): seq<T>
    requires |s| > 0
  {
    s[..|s| - 1]
  }

  predicate NonEmpty<T>(gs: seq<seq<T>>)
  {
    forall g :: 0 <= g < |gs| ==> |gs[g]| > 0
  }

  predicate Wf<T>(st: State<T>)
  {
    NonEmpty(st.stack) && NonEmpty(st.done)
  }

  /** Pop every open group whose head is indented deeper than `n`. */
  function PopAbove<T>(st: State<T>, n: nat, Ind: T -> nat): (r: State<T>)
    requires Wf(st)
    ensures Wf(r) && |r.stack| <= |st.stack| && r.stack == st.stack[..|r.stack|]
    ensures r.stack != [] ==> Ind(Last(r.stack)[0]) <= n
    decreases |st.stack|
  {
    if |st.stack| > 0 && Ind(Last(st.stack)[0]) > n then
      PopAbove(State(Init(st.stack), st.done + [Last(st.stack)]), n, Ind)
    else st
  }

  /** Pop every open group (end of input, or a blank line). */
  function FlushAll<T>(st: State<T>): (r: State<T>)
    requires Wf(st)
    ensures Wf(r) && r.stack == []
    decreases |st.stack|
  {
    if |st.stack| > 0 then FlushAll(State(Init(st.stack), st.done + [Last(st.stack)]))
    else st
  }

  /** One line through the grouper; `None` when the pop loop empties the stack (the source throws there). */
  function Step<T>(st: State<T>, item: Option<T>, Ind: T -> nat, Dot: T -> bool): (r: Option<State<T>>)
    requires Wf(st)
    ensures r.Some? ==> Wf(r.value)
  {
    match item
    case None => Some(FlushAll(st))
    case Some(x) =>
      if st.stack == [] then Some(State([[x]], st.done))
      else
        var top := Last(st.stack);
        var peek := top[0];
        if Ind(x) == Ind(peek) && !Dot(x) then
          Some(State(Init(st.stack) + [top + [x]], st.done))
        else if Ind(x) == Ind(peek) && Dot(x) then
          Some(State(Init(st.stack) + [[x]], st.done + [top]))
        else if Ind(x) > Ind(peek) then
          Some(State(st.stack + [[x]], st.done))
        else
          var p := PopAbove(st, Ind(x), Ind);
          if p.stack == [] then None
          else Some(State(Init(p.stack) + [Last(p.stack) + [x]], p.done))
  }

  function Run<T>(st: State<T>, items: seq<Option<T>>, Ind: T -> nat, Dot: T -> bool): (r: Option<State<T>>)
    requires Wf(st)
    ensures r.Some? ==> Wf(r.value)
    decreases |items|
  {
    if items == [] then Some(st)
    else
      match Step(st, items[0], Ind, Dot)
      case None => None
      case Some(st') => Run(st', items[1..], Ind, Dot)
  }

  /** The groups the grouper emits for `items`, or `None` when it would crash. */
  function Breakdown<T>(items: seq<Option<T>>, Ind: T -> nat, Dot: T -> bool): Option<seq<seq<T>>>
  {
    match Run(State([], []), items, Ind, Dot)
    case None => None
    case Some(st) => Some(FlushAll(st).done)
  }

  /**
   * The grouping loop over the lines, with the stack of open groups. It
   * returns `None` exactly where the source's `stack[stack.length - 1].push`
   * would fail on an empty stack.
   */
  method GroupLines<T>(items: seq<Option<T>>, Ind: T -> nat, Dot: T -> bool) returns (r: Option<seq<seq<T>>>)
    ensures r == Breakdown(items, Ind, Dot)
    ensures r.Some? ==> NonEmpty(r.value) && HeadIsShallowest(r.value, Ind)
    ensures r.Some? ==> multiset(Flatten(r.value)) == multiset(Values(items))
  {
    var result: seq<seq<T>> := [];
    var stack: seq<seq<T>> := [];
    for k := 0 to |items|
      invariant Wf(State(stack, result))
      invariant Run(State([], []), items, Ind, Dot) == Run(State(stack, result), items[k..], Ind, Dot)
    {
      assert items[k..][1..] == items[k + 1..];
      match items[k]
      case None =>
        stack, result := FlushLoop(stack, result);
      case Some(item) =>
        var next := PushLine(stack, result, item, Ind, Dot);
        if next.None? {
          return None;
        }
        stack, result := next.value.stack, next.value.done;
    }
    stack, result := FlushLoop(stack, result);
    r := Some(result);
    BreakdownShape(items, Ind, Dot);
    BreakdownConserves(items, Ind, Dot);
  }

  /** The loop that pops every open group into the result. */
  method FlushLoop<T>(stack0: seq<seq<T>>, result0: seq<seq<T>>) returns (stack: seq<seq<T>>, result: seq<seq<T>>)
    requires Wf(State(stack0, result0))
    ensures State(stack, result) == FlushAll(State(stack0, result0))
  {
    stack, result := stack0, result0;
    while |stack| > 0
      invariant Wf(State(stack, result))
      invariant FlushAll(State(stack0, result0)) == FlushAll(State(stack, result))
    {
      result := result + [stack[|stack| - 1]];
      stack := stack[..|stack| - 1];
    }
  }

  /** The loop that pops the open groups whose head is indented deeper than `n`. */
  method PopLoop<T>(stack0: seq<seq<T>>, result0: seq<seq<T>>, n: nat, Ind: T -> nat) returns (stack: seq<seq<T>>, result: seq<seq<T>>)
    requires Wf(State(stack0, result0))
    ensures State(stack, result) == PopAbove(State(stack0, result0), n, Ind)
  {
    stack, result := stack0, result0;
    while |stack| > 0 && Ind(stack[|stack| - 1][0]) > n
      invariant Wf(State(stack, result))
      invariant PopAbove(State(stack0, result0), n, Ind) == PopAbove(State(stack, result), n, Ind)
    {
      result := result + [stack[|stack| - 1]];
      stack := stack[..|stack| - 1];
    }
  }

  /** One non-blank line through the grouping loop; `None` where the source throws. */
  method PushLine<T>(stack0: seq<seq<T>>, result0: seq<seq<T>>, item: T, Ind: T -> nat, Dot: T -> bool) returns (r: Option<State<T>>)
    requires Wf(State(stack0, result0))
    ensures r == Step(State(stack0, result0), Some(item), Ind, Dot)
  {
    var stack, result := stack0, result0;
    if |stack| == 0 {
      stack := [[item]];
    } else {
      var peekArr := stack[|stack| - 1];
      var peek := peekArr[0];
      if Ind(item) == Ind(peek) && !Dot(item) {
        stack := stack[..|stack| - 1] + [peekArr + [item]];
      } else if Ind(item) == Ind(peek) && Dot(item) {
        result := result + [stack[|stack| - 1]];
        stack := stack[..|stack| - 1];
        stack := stack + [[item]];
      } else if Ind(item) > Ind(peek) {
        stack := stack + [[item]];
      } else {
        stack, result := PopLoop(stack, result, Ind(item), Ind);
        if |stack| == 0 {
          assert Step(State(stack0, result0), Some(item), Ind, Dot) == None;
          return None;
        }
        stack := stack[..|stack| - 1] + [stack[|stack| - 1] + [item]];
      }
    }
    r := Some(State(stack, result));
  }

  // ---------------------------------------------------------------------
  // The stack invariant: open heads strictly deepen from bottom to top, and
  // no line of a group is indented less than the group's head.

  predicate HeadsIncrease<T>(stack: seq<seq<T>>, Ind: T -> nat)
    requires NonEmpty(stack)
  {
    forall a, b :: 0 <= a < b < |stack| ==> Ind(stack[a][0]) < Ind(stack[b][0])
  }

  predicate HeadIsShallowest<T>(gs: seq<seq<T>>, Ind: T -> nat)
    requires NonEmpty(gs)
  {
    forall g, e :: 0 <= g < |gs| && 0 <= e < |gs[g]| ==> Ind(gs[g][0]) <= Ind(gs[g][e])
  }

  predicate Inv<T>(st: State<T>, Ind: T -> nat)
  {
    Wf(st) && HeadsIncrease(st.stack, Ind) && HeadIsShallowest(st.stack, Ind) && HeadIsShallowest(st.done, Ind)
  }

  lemma {:induction false} PopAboveInv<T>(st: State<T>, n: nat, Ind: T -> nat)
    requires Inv(st, Ind)
    ensures Inv(PopAbove(st, n, Ind), Ind)
    decreases |st.stack|
  {
    if |st.stack| > 0 && Ind(Last(st.stack)[0]) > n {
      PopAboveInv(State(Init(st.stack), st.done + [Last(st.stack)]), n, Ind);
    }
  }

  lemma {:induction false} FlushAllInv<T>(st: State<T>, Ind: T -> nat)
    requires Inv(st, Ind)
    ensures Inv(FlushAll(st), Ind)
    decreases |st.stack|
  {
    if |st.stack| > 0 {
      FlushAllInv(State(Init(st.stack), st.done + [Last(st.stack)]), Ind);
    }
  }

  /** Every step keeps the stack invariant. */
  lemma StepInv<T>(st: State<T>, item: Option<T>, Ind: T -> nat, Dot: T -> bool)
    requires Inv(st, Ind)
    ensures Step(st, item, Ind, Dot).Some? ==> Inv(Step(st, item, Ind, Dot).value, Ind)
  {
    match item
    case None => FlushAllInv(st, Ind);
    case Some(x) =>
      if st.stack == [] {
        assert Inv(State([[x]], st.done), Ind);
      } else {
        var top := Last(st.stack);
        if Ind(x) == Ind(top[0]) && !Dot(x) {
          ExtendTopInv(st, x, Ind);
        } else if Ind(x) == Ind(top[0]) && Dot(x) {
          ReplaceTopInv(st, x, Ind);
        } else if Ind(x) > Ind(top[0]) {
          OpenInv(st, x, Ind);
        } else {
          PopAboveInv(st, Ind(x), Ind);
          var p := PopAbove(st, Ind(x), Ind);
          if p.stack != [] {
            ExtendTopInv(p, x, Ind);
          }
        }
      }
  }

  /** Adding a line no shallower than the top head to the top group. */
  lemma ExtendTopInv<T>(st: State<T>, x: T, Ind: T -> nat)
    requires Inv(st, Ind) && st.stack != [] && Ind(Last(st.stack)[0]) <= Ind(x)
    ensures Inv(State(Init(st.stack) + [Last(st.stack) + [x]], st.done), Ind)
  {
    var s' := Init(st.stack) + [Last(st.stack) + [x]];
    assert forall g :: 0 <= g < |s'| ==> s'[g][0] == st.stack[g][0];
    assert forall g :: 0 <= g < |s'| - 1 ==> s'[g] == st.stack[g];
  }

  /** Emitting the top group and opening a new one at the same depth. */
  lemma ReplaceTopInv<T>(st: State<T>, x: T, Ind: T -> nat)
    requires Inv(st, Ind) && st.stack != [] && Ind(Last(st.stack)[0]) == Ind(x)
    ensures Inv(State(Init(st.stack) + [[x]], st.done + [Last(st.stack)]), Ind)
  {
    var s' := Init(st.stack) + [[x]];
    assert forall g :: 0 <= g < |s'| ==> Ind(s'[g][0]) == Ind(st.stack[g][0]);
    assert forall g :: 0 <= g < |s'| - 1 ==> s'[g] == st.stack[g];
  }

  /** Opening a group deeper than the top head. */
  lemma OpenInv<T>(st: State<T>, x: T, Ind: T -> nat)
    requires Inv(st, Ind) && st.stack != [] && Ind(Last(st.stack)[0]) < Ind(x)
    ensures Inv(State(st.stack + [[x]], st.done), Ind)
  {
  }

  lemma {:induction false} RunInv<T>(st: State<T>, items: seq<Option<T>>, Ind: T -> nat, Dot: T -> bool)
    requires Inv(st, Ind)
    ensures Run(st, items, Ind, Dot).Some? ==> Inv(Run(st, items, Ind, Dot).value, Ind)
    decreases |items|
  {
    if items != [] {
      StepInv(st, items[0], Ind, Dot);
      match Step(st, items[0], Ind, Dot)
      case None =>
      case Some(st') => RunInv(st', items[1..], Ind, Dot);
    }
  }

  // ---------------------------------------------------------------------
  // When the grouper crashes.

  /** The pop loop empties the stack exactly when even the bottom head is deeper than `n`. */
  lemma {:induction false} PopAboveEmpties<T>(st: State<T>, n: nat, Ind: T -> nat)
    requires Inv(st, Ind) && st.stack != []
    ensures PopAbove(st, n, Ind).stack == [] <==> Ind(st.stack[0][0]) > n
    decreases |st.stack|
  {
    if Ind(Last(st.stack)[0]) > n && |st.stack| > 1 {
      var st' := State(Init(st.stack), st.done + [Last(st.stack)]);
      PopAboveEmpties(st', n, Ind);
    }
  }

  /**
   * A line crashes the grouper exactly when some group is open and the line
   * is indented less than the bottom (outermost) open head.
   */
  lemma StepCrashes<T>(st: State<T>, x: T, Ind: T -> nat, Dot: T -> bool)
    requires Inv(st, Ind)
    ensures Step(st, Some(x), Ind, Dot).None? <==> st.stack != [] && Ind(x) < Ind(st.stack[0][0])
  {
    if st.stack != [] {
      var top := Last(st.stack);
      assert Ind(st.stack[0][0]) <= Ind(top[0]);
      if Ind(x) < Ind(top[0]) {
        PopAboveEmpties(st, Ind(x), Ind);
      }
    }
  }

  /** Running `a + b` is running `a`, then `b` from where `a` left off. */
  lemma {:induction false} RunAppend<T>(st: State<T>, a: seq<Option<T>>, b: seq<Option<T>>, Ind: T -> nat, Dot: T -> bool)
    requires Wf(st)
    ensures Run(st, a + b, Ind, Dot) ==
      match Run(st, a, Ind, Dot)
      case None => None
      case Some(s) => Run(s, b, Ind, Dot)
    decreases |a|
  {
    if a == [] {
      assert a + b == b;
    } else {
      assert (a + b)[0] == a[0];
      assert (a + b)[1..] == a[1..] + b;
      match Step(st, a[0], Ind, Dot)
      case None =>
      case Some(st') => RunAppend(st', a[1..], b, Ind, Dot);
    }
  }

  /**
   * `Breakdown` fails exactly at a line that dedents below every open head:
   * the lines before it run without failing and leave a non-empty stack
   * whose bottom head is deeper than that line.
   */
  lemma {:induction false} CrashWitness<T>(st: State<T>, items: seq<Option<T>>, Ind: T -> nat, Dot: T -> bool)
    requires Inv(st, Ind)
    ensures Run(st, items, Ind, Dot).None? <==>
      exists k :: 0 <= k < |items| && CrashesAt(st, items, k, Ind, Dot)
    decreases |items|
  {
    if items != [] {
      StepInv(st, items[0], Ind, Dot);
      assert items[..0] == [];
      if items[0].Some? {
        StepCrashes(st, items[0].value, Ind, Dot);
      }
      if Step(st, items[0], Ind, Dot).None? {
        assert CrashesAt(st, items, 0, Ind, Dot);
      } else {
        var st' := Step(st, items[0], Ind, Dot).value;
        assert !CrashesAt(st, items, 0, Ind, Dot);
        CrashWitness(st', items[1..], Ind, Dot);
        CrashShift(st, items, Ind, Dot);
        if Run(st, items, Ind, Dot).None? {
          var k' :| 0 <= k' < |items[1..]| && CrashesAt(st', items[1..], k', Ind, Dot);
          assert CrashesAt(st, items, k' + 1, Ind, Dot);
        }
      }
    }
  }

  /** After running `items[..k]` from `st`, the line `items[k]` dedents below the bottom open head. */
  predicate CrashesAt<T>(st: State<T>, items: seq<Option<T>>, k: nat, Ind: T -> nat, Dot: T -> bool)
    requires Wf(st) && k < |items|
  {
    var before := Run(st, items[..k], Ind, Dot);
    && before.Some? && items[k].Some?
    && before.value.stack != []
    && Ind(items[k].value) < Ind(before.value.stack[0][0])
  }

  lemma CrashShift<T>(st: State<T>, items: seq<Option<T>>, Ind: T -> nat, Dot: T -> bool)
    requires Wf(st) && items != [] && Step(st, items[0], Ind, Dot).Some?
    ensures var st' := Step(st, items[0], Ind, Dot).value;
      forall k :: 1 <= k < |items| ==> (CrashesAt(st, items, k, Ind, Dot) <==> CrashesAt(st', items[1..], k - 1, Ind, Dot))
  {
    var st' := Step(st, items[0], Ind, Dot).value;
    forall k | 1 <= k < |items|
      ensures CrashesAt(st, items, k, Ind, Dot) <==> CrashesAt(st', items[1..], k - 1, Ind, Dot)
    {
      assert items[..k][0] == items[0];
      assert items[..k][1..] == items[1..][..k - 1];
    }
  }

  // ---------------------------------------------------------------------
  // Every line ends up in exactly one group.

  function Flatten<T>(gs: seq<seq<T>>): seq<T>
  {
    if gs == [] then [] else Flatten(Init(gs)) + Last(gs)
  }

  /** The lines of `items`, blank entries dropped. */
  function Values<T>(items: seq<Option<T>>): seq<T>
  {
    if items == [] then []
    else (if items[0].Some? then [items[0].value] else []) + Values(items[1..])
  }

  ghost function Mass<T>(st: State<T>): multiset<T>
  {
    multiset(Flatten(st.stack)) + multiset(Flatten(st.done))
  }

  lemma FlattenSnoc<T>(gs: seq<seq<T>>, g: seq<T>)
    ensures Flatten(gs + [g]) == Flatten(gs) + g
  {
    assert Init(gs + [g]) == gs;
  }

  lemma {:induction false} PopAboveMass<T>(st: State<T>, n: nat, Ind: T -> nat)
    requires Wf(st)
    ensures Mass(PopAbove(st, n, Ind)) == Mass(st)
    decreases |st.stack|
  {
    if |st.stack| > 0 && Ind(Last(st.stack)[0]) > n {
      FlattenSnoc(st.done, Last(st.stack));
      assert st.stack == Init(st.stack) + [Last(st.stack)];
      FlattenSnoc(Init(st.stack), Last(st.stack));
      PopAboveMass(State(Init(st.stack), st.done + [Last(st.stack)]), n, Ind);
    }
  }

  lemma {:induction false} FlushAllMass<T>(st: State<T>)
    requires Wf(st)
    ensures Mass(FlushAll(st)) == Mass(st)
    decreases |st.stack|
  {
    if |st.stack| > 0 {
      FlattenSnoc(st.done, Last(st.stack));
      assert st.stack == Init(st.stack) + [Last(st.stack)];
      FlattenSnoc(Init(st.stack), Last(st.stack));
      FlushAllMass(State(Init(st.stack), st.done + [Last(st.stack)]));
    }
  }

  /** Adding a line to the top open group adds it to the groups. */
  lemma AppendTopMass<T>(st: State<T>, x: T)
    requires Wf(st) && st.stack != []
    ensures Mass(State(Init(st.stack) + [Last(st.stack) + [x]], st.done)) == Mass(st) + multiset{x}
  {
    var rest, top := Init(st.stack), Last(st.stack);
    assert st.stack == rest + [top];
    FlattenSnoc(rest, top);
    FlattenSnoc(rest, top + [x]);
  }

  /** Closing the top group and opening one for `x` adds `x` to the groups. */
  lemma ReplaceTopMass<T>(st: State<T>, x: T)
    requires Wf(st) && st.stack != []
    ensures Mass(State(Init(st.stack) + [[x]], st.done + [Last(st.stack)])) == Mass(st) + multiset{x}
  {
    var rest, top := Init(st.stack), Last(st.stack);
    assert st.stack == rest + [top];
    FlattenSnoc(rest, top);
    FlattenSnoc(rest, [x]);
    FlattenSnoc(st.done, top);
  }

  /** Opening a group for `x` adds `x` to the groups. */
  lemma PushMass<T>(st: State<T>, x: T)
    ensures Mass(State(st.stack + [[x]], st.done)) == Mass(st) + multiset{x}
  {
    FlattenSnoc(st.stack, [x]);
  }

  /** A step adds its line, and only that line, to the groups. */
  lemma StepMass<T>(st: State<T>, item: Option<T>, Ind: T -> nat, Dot: T -> bool)
    requires Wf(st) && Step(st, item, Ind, Dot).Some?
    ensures Mass(Step(st, item, Ind, Dot).value) == Mass(st) + (if item.Some? then multiset{item.value} else multiset{})
  {
    if item.None? {
      FlushAllMass(st);
    } else {
      var x := item.value;
      if st.stack == [] {
        PushMass(st, x);
      } else {
        var top := Last(st.stack);
        if Ind(x) == Ind(top[0]) && !Dot(x) {
          AppendTopMass(st, x);
        } else if Ind(x) == Ind(top[0]) && Dot(x) {
          ReplaceTopMass(st, x);
        } else if Ind(x) > Ind(top[0]) {
          PushMass(st, x);
        } else {
          var p := PopAbove(st, Ind(x), Ind);
          PopAboveMass(st, Ind(x), Ind);
          AppendTopMass(p, x);
        }
      }
    }
  }

  lemma {:induction false} RunMass<T>(st: State<T>, items: seq<Option<T>>, Ind: T -> nat, Dot: T -> bool)
    requires Wf(st) && Run(st, items, Ind, Dot).Some?
    ensures Mass(Run(st, items, Ind, Dot).value) == Mass(st) + multiset(Values(items))
    decreases |items|
  {
    if items != [] {
      var st' := Step(st, items[0], Ind, Dot).value;
      StepMass(st, items[0], Ind, Dot);
      RunMass(st', items[1..], Ind, Dot);
    }
  }

  // ---------------------------------------------------------------------
  // A blank line closes every open group.

  function Shift<T>(st: State<T>, d: seq<seq<T>>): State<T>
  {
    State(st.stack, d + st.done)
  }

  lemma {:induction false} PopAboveShift<T>(st: State<T>, d: seq<seq<T>>, n: nat, Ind: T -> nat)
    requires Wf(st) && NonEmpty(d)
    ensures PopAbove(Shift(st, d), n, Ind) == Shift(PopAbove(st, n, Ind), d)
    decreases |st.stack|
  {
    if |st.stack| > 0 && Ind(Last(st.stack)[0]) > n {
      assert d + st.done + [Last(st.stack)] == d + (st.done + [Last(st.stack)]);
      PopAboveShift(State(Init(st.stack), st.done + [Last(st.stack)]), d, n, Ind);
    }
  }

  lemma {:induction false} FlushAllShift<T>(st: State<T>, d: seq<seq<T>>)
    requires Wf(st) && NonEmpty(d)
    ensures FlushAll(Shift(st, d)) == Shift(FlushAll(st), d)
    decreases |st.stack|
  {
    if |st.stack| > 0 {
      assert d + st.done + [Last(st.stack)] == d + (st.done + [Last(st.stack)]);
      FlushAllShift(State(Init(st.stack), st.done + [Last(st.stack)]), d);
    }
  }

  /** What has already been emitted never influences the grouping of later lines. */
  lemma {:induction false} RunShift<T>(st: State<T>, d: seq<seq<T>>, items: seq<Option<T>>, Ind: T -> nat, Dot: T -> bool)
    requires Wf(st) && NonEmpty(d)
    ensures Run(Shift(st, d), items, Ind, Dot) ==
      match Run(st, items, Ind, Dot)
      case None => None
      case Some(s) => Some(Shift(s, d))
    decreases |items|
  {
    if items != [] {
      var x := items[0];
      if x.None? {
        FlushAllShift(st, d);
      } else {
        var v := x.value;
        if st.stack != [] && Ind(v) < Ind(Last(st.stack)[0]) {
          PopAboveShift(st, d, Ind(v), Ind);
        }
        if st.stack != [] && Ind(v) == Ind(Last(st.stack)[0]) && Dot(v) {
          assert d + st.done + [Last(st.stack)] == d + (st.done + [Last(st.stack)]);
        }
      }
      if Step(st, x, Ind, Dot).Some? {
        var s' := Step(st, x, Ind, Dot).value;
        assert Step(Shift(st, d), x, Ind, Dot) == Some(Shift(s', d));
        RunShift(s', d, items[1..], Ind, Dot);
      }
    }
  }

  /**
   * A blank line splits the input: the groups of `a + [blank] + b` are the
   * groups of `a` followed by the groups of `b`, and the whole fails exactly
   * when one of the halves does.
   */
  lemma BlankSplits<T>(a: seq<Option<T>>, b: seq<Option<T>>, Ind: T -> nat, Dot: T -> bool)
    ensures Breakdown(a + [None] + b, Ind, Dot) ==
      if Breakdown(a, Ind, Dot).None? || Breakdown(b, Ind, Dot).None? then None
      else Some(Breakdown(a, Ind, Dot).value + Breakdown(b, Ind, Dot).value)
  {
    var init := State([], []);
    RunAppend(init, a, [None] + b, Ind, Dot);
    assert a + [None] + b == a + ([None] + b);
    match Run(init, a, Ind, Dot)
    case None =>
    case Some(sa) =>
      var fa := FlushAll(sa);
      assert ([None] + b)[0] == None && ([None] + b)[1..] == b;
      assert Run(sa, [None] + b, Ind, Dot) == Run(fa, b, Ind, Dot);
      assert fa == Shift(init, fa.done);
      RunShift(init, fa.done, b, Ind, Dot);
      match Run(init, b, Ind, Dot)
      case None =>
      case Some(sb) =>
        FlushAllShift(sb, fa.done);
  }

  /** A second blank line changes nothing. */
  lemma BlankIdempotent<T>(a: seq<Option<T>>, b: seq<Option<T>>, Ind: T -> nat, Dot: T -> bool)
    ensures Breakdown(a + [None] + [None] + b, Ind, Dot) == Breakdown(a + [None] + b, Ind, Dot)
  {
    BlankSplits(a + [None], b, Ind, Dot);
    BlankSplits(a, [], Ind, Dot);
    BlankSplits(a, b, Ind, Dot);
    assert a + [None] + [] == a + [None];
    assert Breakdown([], Ind, Dot) == Some([]);
    if Breakdown(a, Ind, Dot).Some? {
      assert Breakdown(a, Ind, Dot).value + [] == Breakdown(a, Ind, Dot).value;
    }
  }

  // ---------------------------------------------------------------------
  // Groups keep their lines in input order. `Key` is any quantity that
  // strictly increases along the input lines (the source's line numbers).

  predicate SortedBy<T>(g: seq<T>, Key: T -> int)
  {
    forall a, b :: 0 <= a < b < |g| ==> Key(g[a]) < Key(g[b])
  }

  ghost predicate GroupsSorted<T>(gs: seq<seq<T>>, Key: T -> int)
  {
    forall g :: g in gs ==> SortedBy(g, Key)
  }

  ghost predicate KeysBelow<T>(gs: seq<seq<T>>, Key: T -> int, bound: int)
  {
    forall g, e :: g in gs && e in g ==> Key(e) < bound
  }

  predicate KeysIncrease<T>(items: seq<Option<T>>, Key: T -> int)
  {
    forall a, b :: 0 <= a < b < |items| && items[a].Some? && items[b].Some? ==>
      Key(items[a].value) < Key(items[b].value)
  }

  predicate KeysFrom<T>(items: seq<Option<T>>, Key: T -> int, bound: int)
  {
    forall j :: 0 <= j < |items| && items[j].Some? ==> bound <= Key(items[j].value)
  }

  /** Ordered groups whose lines all precede `bound`. */
  ghost predicate OrderedBelow<T>(st: State<T>, Key: T -> int, bound: int)
  {
    GroupsSorted(st.stack, Key) && GroupsSorted(st.done, Key) &&
    KeysBelow(st.stack, Key, bound) && KeysBelow(st.done, Key, bound)
  }

  lemma {:induction false} PopAboveOrdered<T>(st: State<T>, n: nat, Ind: T -> nat, Key: T -> int, bound: int)
    requires Wf(st) && OrderedBelow(st, Key, bound)
    ensures OrderedBelow(PopAbove(st, n, Ind), Key, bound)
    decreases |st.stack|
  {
    if |st.stack| > 0 && Ind(Last(st.stack)[0]) > n {
      var st' := State(Init(st.stack), st.done + [Last(st.stack)]);
      assert forall g :: g in Init(st.stack) ==> g in st.stack;
      PopAboveOrdered(st', n, Ind, Key, bound);
    }
  }

  lemma {:induction false} FlushAllOrdered<T>(st: State<T>, Key: T -> int, bound: int)
    requires Wf(st) && OrderedBelow(st, Key, bound)
    ensures OrderedBelow(FlushAll(st), Key, bound)
    decreases |st.stack|
  {
    if |st.stack| > 0 {
      var st' := State(Init(st.stack), st.done + [Last(st.stack)]);
      assert forall g :: g in Init(st.stack) ==> g in st.stack;
      FlushAllOrdered(st', Key, bound);
    }
  }

  lemma {:induction false} FlushAllSorted<T>(st: State<T>, Key: T -> int)
    requires Wf(st) && GroupsSorted(st.stack, Key) && GroupsSorted(st.done, Key)
    ensures GroupsSorted(FlushAll(st).done, Key)
    decreases |st.stack|
  {
    if |st.stack| > 0 {
      assert forall g :: g in Init(st.stack) ==> g in st.stack;
      FlushAllSorted(State(Init(st.stack), st.done + [Last(st.stack)]), Key);
    }
  }

  lemma RaiseBound<T>(st: State<T>, Key: T -> int, bound: int, bound': int)
    requires OrderedBelow(st, Key, bound) && bound <= bound'
    ensures OrderedBelow(st, Key, bound')
  {
  }

  /** A line later than every grouped line keeps every group in order. */
  lemma StepOrdered<T>(st: State<T>, x: T, Ind: T -> nat, Dot: T -> bool, Key: T -> int, bound: int)
    requires Wf(st) && OrderedBelow(st, Key, bound) && bound <= Key(x)
    requires Step(st, Some(x), Ind, Dot).Some?
    ensures OrderedBelow(Step(st, Some(x), Ind, Dot).value, Key, Key(x) + 1)
  {
    RaiseBound(st, Key, bound, Key(x));
    var s := st;
    if st.stack != [] {
      var top := Last(st.stack);
      if !(Ind(x) == Ind(top[0]) || Ind(x) > Ind(top[0])) {
        PopAboveOrdered(st, Ind(x), Ind, Key, Key(x));
        s := PopAbove(st, Ind(x), Ind);
      }
    }
    if s.stack != [] {
      var top := Last(s.stack);
      assert top in s.stack;
      assert forall g :: g in Init(s.stack) ==> g in s.stack;
      assert SortedBy(top + [x], Key) by {
        forall a | 0 <= a < |top| ensures Key(top[a]) < Key(x) {
          assert top[a] in top;
        }
      }
    }
  }

  lemma {:induction false} RunOrdered<T>(st: State<T>, items: seq<Option<T>>, Ind: T -> nat, Dot: T -> bool, Key: T -> int, bound: int)
    requires Wf(st) && OrderedBelow(st, Key, bound)
    requires KeysIncrease(items, Key) && KeysFrom(items, Key, bound)
    requires Run(st, items, Ind, Dot).Some?
    ensures GroupsSorted(Run(st, items, Ind, Dot).value.stack, Key)
    ensures GroupsSorted(Run(st, items, Ind, Dot).value.done, Key)
    decreases |items|
  {
    if items != [] {
      var st' := Step(st, items[0], Ind, Dot).value;
      var bound' := bound;
      if items[0].Some? {
        StepOrdered(st, items[0].value, Ind, Dot, Key, bound);
        bound' := Key(items[0].value) + 1;
      } else {
        FlushAllOrdered(st, Key, bound);
      }
      assert KeysFrom(items[1..], Key, bound') by {
        forall j | 0 <= j < |items[1..]| && items[1..][j].Some? ensures bound' <= Key(items[1..][j].value) {
          assert items[1..][j] == items[j + 1];
        }
      }
      RunOrdered(st', items[1..], Ind, Dot, Key, bound');
    }
  }

  /** The smallest key among the lines, a bound below every one of them. */
  function KeyFloor<T>(items: seq<Option<T>>, Key: T -> int): (b: int)
    ensures KeysFrom(items, Key, b)
  {
    if items == [] then 0
    else
      var rest := KeyFloor(items[1..], Key);
      assert forall j :: 1 <= j < |items| ==> items[j] == items[1..][j - 1];
      if items[0].Some? && Key(items[0].value) < rest then Key(items[0].value) else rest
  }

  // ---------------------------------------------------------------------
  // What the grouper promises, in one place.

  /** When the grouper succeeds, every group is non-empty and no line of a group is indented less than its head. */
  lemma BreakdownShape<T>(items: seq<Option<T>>, Ind: T -> nat, Dot: T -> bool)
    requires Breakdown(items, Ind, Dot).Some?
    ensures NonEmpty(Breakdown(items, Ind, Dot).value)
    ensures HeadIsShallowest(Breakdown(items, Ind, Dot).value, Ind)
  {
    var init: State<T> := State([], []);
    RunInv(init, items, Ind, Dot);
    FlushAllInv(Run(init, items, Ind, Dot).value, Ind);
  }

  /** When the grouper succeeds, every line of the input is in exactly one group. */
  lemma BreakdownConserves<T>(items: seq<Option<T>>, Ind: T -> nat, Dot: T -> bool)
    requires Breakdown(items, Ind, Dot).Some?
    ensures multiset(Flatten(Breakdown(items, Ind, Dot).value)) == multiset(Values(items))
  {
    var init: State<T> := State([], []);
    RunMass(init, items, Ind, Dot);
    var st := Run(init, items, Ind, Dot).value;
    FlushAllMass(st);
    assert Mass(init) == multiset{};
    assert FlushAll(st).stack == [] && Flatten(FlushAll(st).stack) == [];
    assert Mass(FlushAll(st)) == multiset(Flatten(FlushAll(st).done));
  }

  /** When the lines' keys increase, each group keeps its lines in input order. */
  lemma BreakdownOrdered<T>(items: seq<Option<T>>, Ind: T -> nat, Dot: T -> bool, Key: T -> int)
    requires Breakdown(items, Ind, Dot).Some? && KeysIncrease(items, Key)
    ensures GroupsSorted(Breakdown(items, Ind, Dot).value, Key)
  {
    var init: State<T> := State([], []);
    RunOrdered(init, items, Ind, Dot, Key, KeyFloor(items, Key));
    FlushAllSorted(Run(init, items, Ind, Dot).value, Key);
  }

  /** The grouper fails exactly at a line that dedents below every open head. */
  lemma BreakdownCrashes<T>(items: seq<Option<T>>, Ind: T -> nat, Dot: T -> bool)
    ensures Breakdown(items, Ind, Dot).None? <==>
      exists k :: 0 <= k < |items| && CrashesAt(State([], []), items, k, Ind, Dot)
  {
    CrashWitness(State([], []), items, Ind, Dot);
  }
}

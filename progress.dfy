/**
  The step-completion rule of `handle_post_progress` (src/handlers.rs), on values:
  push the step, sort the list, point `current_step` just past the recorded step.
  `Vec::sort` is modelled by insertion sort, which gives the same list of integers.
 */
module ProgressManager {
  import opened Types

  /** The record a read returns, and a reset writes, when nothing is stored. */
  function ZeroProgress(topicId: string): (r: Progress)
    ensures r.topicId == topicId && r.completedSteps == [] && r.currentStep == 0
  {
    Progress(topicId, [], 0)
  }

  ghost predicate Sorted(xs: seq<Usize>)
  {
    forall i, j :: 0 <= i < j < |xs| ==> xs[i] <= xs[j]
  }

  /** Sorted with no step twice: the shape the handler keeps when it starts from it. */
  ghost predicate StrictlySorted(xs: seq<Usize>)
  {
    forall i, j :: 0 <= i < j < |xs| ==> xs[i] < xs[j]
  }

  /** Insert `x` after every element not greater than it. */
  function Insert(x: Usize, xs: seq<Usize>): (r: seq<Usize>)
    ensures |r| == |xs| + 1
    ensures multiset(r) == multiset(xs) + multiset{x}
  {
    if xs == [] then [x]
    else if x < xs[0] then [x] + xs
    else
      assert xs == [xs[0]] + xs[1..];
      [xs[0]] + Insert(x, xs[1..])
  }

  /** Every element of `Insert(x, xs)` is `x` or an element of `xs`. */
  lemma InsertMembers(x: Usize, xs: seq<Usize>, y: Usize)
    ensures y in Insert(x, xs) <==> y in xs || y == x
  {
    assert y in Insert(x, xs) <==> y in multiset(Insert(x, xs));
    assert y in xs <==> y in multiset(xs);
  }

  lemma {:induction false} InsertSorted(x: Usize, xs: seq<Usize>)
    requires Sorted(xs)
    ensures Sorted(Insert(x, xs))
  {
    if xs != [] && x >= xs[0] {
      var tail := Insert(x, xs[1..]);
      InsertSorted(x, xs[1..]);
      forall j | 0 <= j < |tail| ensures xs[0] <= tail[j] {
        InsertMembers(x, xs[1..], tail[j]);
        if tail[j] != x {
          var k :| 0 <= k < |xs[1..]| && xs[1..][k] == tail[j];
          assert xs[k + 1] == tail[j];
        }
      }
    }
  }

  /** `Vec::sort` on a list of step indices: ascending, and a permutation of its input. */
  function Sort(xs: seq<Usize>): (r: seq<Usize>)
    ensures |r| == |xs|
    ensures multiset(r) == multiset(xs)
    ensures Sorted(r)
  {
    if xs == [] then []
    else
      assert xs == xs[..|xs| - 1] + [xs[|xs| - 1]];
      var sortedInit := Sort(xs[..|xs| - 1]);
      InsertSorted(xs[|xs| - 1], sortedInit);
      Insert(xs[|xs| - 1], sortedInit)
  }

  /** The largest completed step (0 for none). */
  function Max(xs: seq<Usize>): (m: Usize)
    ensures xs == [] ==> m == 0
    ensures xs != [] ==> m in xs && forall y :: y in xs ==> y <= m
  {
    if xs == [] then 0
    else if |xs| == 1 then xs[0]
    else
      assert xs == [xs[0]] + xs[1..];
      var m := Max(xs[1..]); if xs[0] < m then m else xs[0]
  }

  /**
    Record `step` as completed: a step already in the list changes nothing;
    otherwise the list becomes sort(old ++ [step]) and `current_step` is step + 1.
   */
  function RecordStep(p: Progress, step: Usize): (r: Progress)
    ensures r.topicId == p.topicId
    ensures step in r.completedSteps
    ensures step in p.completedSteps ==> r == p
    ensures step !in p.completedSteps ==>
              && multiset(r.completedSteps) == multiset(p.completedSteps) + multiset{step}
              && Sorted(r.completedSteps)
              && r.currentStep == WrappingSucc(step)
  {
    if step in p.completedSteps then p
    else
      var steps := Sort(p.completedSteps + [step]);
      assert step in multiset(steps);
      p.(completedSteps := steps, currentStep := WrappingSucc(step))
  }

  /** Sorting an appended list is inserting into the sorted prefix. */
  lemma SortAppend(xs: seq<Usize>, x: Usize)
    ensures Sort(xs + [x]) == Insert(x, Sort(xs))
  {
    assert (xs + [x])[..|xs|] == xs;
  }

  /** Inserting a value no smaller than every element appends it. */
  lemma {:induction false} InsertLargest(x: Usize, xs: seq<Usize>)
    requires forall y :: y in xs ==> y <= x
    ensures Insert(x, xs) == xs + [x]
  {
    if xs != [] {
      assert xs[0] in xs;
      assert forall y :: y in xs[1..] ==> y in xs;
      InsertLargest(x, xs[1..]);
      assert xs == [xs[0]] + xs[1..];
    }
  }

  /** Sorting a sorted list changes nothing. */
  lemma {:induction false} SortOfSorted(xs: seq<Usize>)
    requires Sorted(xs)
    ensures Sort(xs) == xs
  {
    if xs != [] {
      var init, last := xs[..|xs| - 1], xs[|xs| - 1];
      assert xs == init + [last];
      SortedPrefix(xs);
      SortOfSorted(init);
      SortedLastIsLargest(init, last);
      InsertLargest(last, init);
      SortAppend(init, last);
    }
  }

  lemma SortedPrefix(xs: seq<Usize>)
    requires Sorted(xs) && xs != []
    ensures Sorted(xs[..|xs| - 1])
  {
  }

  lemma SortedLastIsLargest(init: seq<Usize>, last: Usize)
    requires Sorted(init + [last])
    ensures forall y :: y in init ==> y <= last
  {
    forall y | y in init ensures y <= last {
      var k :| 0 <= k < |init| && init[k] == y;
      assert (init + [last])[k] == y;
      assert (init + [last])[|init|] == last;
    }
  }

  /** Inserting a new value into a duplicate-free sorted list keeps it duplicate-free. */
  lemma {:induction false} InsertStrict(x: Usize, xs: seq<Usize>)
    requires StrictlySorted(xs) && x !in xs
    ensures StrictlySorted(Insert(x, xs))
  {
    if xs != [] && x > xs[0] {
      assert forall y :: y in xs[1..] ==> y in xs;
      InsertStrict(x, xs[1..]);
      var tail := Insert(x, xs[1..]);
      forall y | y in tail ensures xs[0] < y {
        InsertMembers(x, xs[1..], y);
      }
      ConsStrict(xs[0], tail);
    } else if xs != [] {
      assert x < xs[0] by {
        assert xs[0] in xs;
      }
      ConsStrict(x, xs);
    }
  }

  /** Putting a value below every element in front of a strictly sorted list keeps it so. */
  lemma ConsStrict(a: Usize, t: seq<Usize>)
    requires StrictlySorted(t)
    requires forall y :: y in t ==> a < y
    ensures StrictlySorted([a] + t)
  {
    var r := [a] + t;
    forall i, j | 0 <= i < j < |r| ensures r[i] < r[j] {
      assert r[j] == t[j - 1];
      if i > 0 {
        assert r[i] == t[i - 1];
      } else {
        assert t[j - 1] in t;
      }
    }
  }

  /** No step occurs twice, whatever the order. */
  ghost predicate NoDuplicates(xs: seq<Usize>)
  {
    forall i, j :: 0 <= i < j < |xs| ==> xs[i] != xs[j]
  }

  /** A list is duplicate-free exactly when every value occurs in it at most once. */
  lemma {:induction false} NoDuplicatesCounts(xs: seq<Usize>)
    ensures NoDuplicates(xs) <==> forall v :: multiset(xs)[v] <= 1
  {
    if xs != [] {
      var t := xs[1..];
      assert xs == [xs[0]] + t;
      NoDuplicatesCounts(t);
      assert NoDuplicates(xs) <==> xs[0] !in t && NoDuplicates(t) by {
        if NoDuplicates(xs) {
          forall i, j | 0 <= i < j < |t| ensures t[i] != t[j] {
            assert t[i] == xs[i + 1] && t[j] == xs[j + 1];
          }
        }
        if xs[0] !in t && NoDuplicates(t) {
          forall i, j | 0 <= i < j < |xs| ensures xs[i] != xs[j] {
            assert xs[j] == t[j - 1];
            if i > 0 {
              assert xs[i] == t[i - 1];
            }
          }
        }
      }
      assert forall v :: multiset(xs)[v] == multiset(t)[v] + (if v == xs[0] then 1 else 0);
      assert xs[0] in t <==> multiset(t)[xs[0]] >= 1;
    }
  }

  /**
    A post leaves completed_steps duplicate-free if and only if it was so before: the
    membership test keeps a new duplicate out, and an old duplicate survives the sort.
   */
  lemma RecordStepNoDuplicatesIff(p: Progress, step: Usize)
    ensures NoDuplicates(RecordStep(p, step).completedSteps) <==> NoDuplicates(p.completedSteps)
  {
    if step !in p.completedSteps {
      var r := RecordStep(p, step).completedSteps;
      NoDuplicatesCounts(r);
      NoDuplicatesCounts(p.completedSteps);
      assert multiset(p.completedSteps)[step] == 0;
      assert forall v :: multiset(r)[v] == multiset(p.completedSteps)[v] + (if v == step then 1 else 0);
    }
  }

  /**
    A post keeps completed_steps sorted and duplicate-free when it was so before:
    the membership test is the only guard against duplicates.
   */
  lemma RecordStepKeepsStrictlySorted(p: Progress, step: Usize)
    requires StrictlySorted(p.completedSteps)
    ensures StrictlySorted(RecordStep(p, step).completedSteps)
  {
    if step !in p.completedSteps {
      SortAppend(p.completedSteps, step);
      SortOfSorted(p.completedSteps);
      InsertStrict(step, p.completedSteps);
    }
  }

  /** Recording the same step twice is the same as recording it once. */
  lemma RecordStepIdempotent(p: Progress, step: Usize)
    ensures RecordStep(RecordStep(p, step), step) == RecordStep(p, step)
  {
  }

  /** The set of completed steps grows by exactly the recorded step. */
  lemma RecordStepAddsExactlyStep(p: Progress, step: Usize, other: Usize)
    ensures other in RecordStep(p, step).completedSteps <==> other in p.completedSteps || other == step
  {
    var r := RecordStep(p, step);
    if step !in p.completedSteps {
      assert other in r.completedSteps <==> other in multiset(r.completedSteps);
      assert other in p.completedSteps <==> other in multiset(p.completedSteps);
    }
  }

  /** Applying a sequence of posts in order. */
  function RecordAll(p: Progress, steps: seq<Usize>): Progress
    decreases |steps|
  {
    if steps == [] then p else RecordAll(RecordStep(p, steps[0]), steps[1..])
  }

  /** Any sequence of posts from a sorted, duplicate-free record leaves the list sorted and duplicate-free. */
  lemma {:induction false} RecordAllStrictlySorted(p: Progress, steps: seq<Usize>)
    requires StrictlySorted(p.completedSteps)
    ensures StrictlySorted(RecordAll(p, steps).completedSteps)
    decreases |steps|
  {
    if steps != [] {
      RecordStepKeepsStrictlySorted(p, steps[0]);
      RecordAllStrictlySorted(RecordStep(p, steps[0]), steps[1..]);
    }
  }

  /**
    When steps are recorded in increasing order, `current_step` is one past the largest
    completed step.
   */
  lemma RecordLargerStepIsMaxPlusOne(p: Progress, step: Usize)
    requires Sorted(p.completedSteps)
    requires forall y :: y in p.completedSteps ==> y < step
    ensures RecordStep(p, step).completedSteps == p.completedSteps + [step]
    ensures RecordStep(p, step).currentStep == WrappingSucc(Max(p.completedSteps + [step]))
  {
    assert step !in p.completedSteps;
    SortAppend(p.completedSteps, step);
    SortOfSorted(p.completedSteps);
    InsertLargest(step, p.completedSteps);
    MaxOfLargestLast(p.completedSteps, step);
  }

  lemma {:induction false} MaxOfLargestLast(xs: seq<Usize>, x: Usize)
    requires forall y :: y in xs ==> y <= x
    ensures Max(xs + [x]) == x
  {
    if xs != [] {
      assert xs[0] in xs;
      assert (xs + [x])[1..] == xs[1..] + [x];
      assert forall y :: y in xs[1..] ==> y in xs;
      MaxOfLargestLast(xs[1..], x);
    }
  }

  /**
    The code points `current_step` past the step just recorded, not past the largest
    one: recording 5 and then 2 leaves current_step at 3 while the largest step is 5.
   */
  lemma CurrentStepFollowsLatestNotLargest()
    ensures var p := RecordStep(RecordStep(ZeroProgress("github-setup"), 5), 2);
            p.completedSteps == [2, 5] && p.currentStep == 3 &&
            p.currentStep != Max(p.completedSteps) + 1
  {
    RecordFiveOnFresh();
    RecordTwoAfterFive();
    assert Max([2, 5]) == 5 by {
      assert [2, 5][1..] == [5];
    }
  }

  lemma RecordFiveOnFresh()
    ensures RecordStep(ZeroProgress("github-setup"), 5) == Progress("github-setup", [5], 6)
  {
    assert Sort([5]) == [5] by {
      SortOfSorted([5]);
    }
    assert [] + [5] == [5];
  }

  lemma RecordTwoAfterFive()
    ensures RecordStep(Progress("github-setup", [5], 6), 2) == Progress("github-setup", [2, 5], 3)
  {
    assert Sort([5]) == [5] by {
      SortOfSorted([5]);
    }
    assert Sort([5, 2]) == [2, 5] by {
      SortAppend([5], 2);
      assert [5] + [2] == [5, 2];
      assert Insert(2, [5]) == [2, 5];
    }
    assert [5] + [2] == [5, 2];
  }

  /** Posting step 0 twice from a fresh record: completed_steps = [0], current_step = 1. */
  lemma PostStepZeroTwice(topicId: string)
    ensures RecordStep(RecordStep(ZeroProgress(topicId), 0), 0) == Progress(topicId, [0], 1)
  {
    assert Sort([] + [0]) == [0] by {
      SortAppend([], 0);
    }
  }
}

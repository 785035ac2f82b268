/**
 * The daily plan card of the dashboard
 * (src/components/dashboard/DailyPlanCard.tsx): a local copy of the day's
 * tasks whose completion the user toggles, its completed count, total
 * minutes and progress, and the start button that is disabled once every
 * task is done.
 */
module DailyPlanCard {
  import opened Wrappers
  import Seqs

  /** A task of the day's plan. */
  datatype Task = Task(id: string, kind: string, title: string, description: string, duration: int, completed: bool)

  predicate IsDone(t: Task) {
    t.completed
  }

  /** `handleTaskToggle`'s update: every task with the id has its completion flipped. */
  function Toggle(tasks: seq<Task>, id: string): (r: seq<Task>)
    ensures |r| == |tasks|
    ensures forall k :: 0 <= k < |r| ==> r[k].id == tasks[k].id && r[k].(completed := tasks[k].completed) == tasks[k]
    ensures forall k :: 0 <= k < |r| ==> (r[k].completed != tasks[k].completed <==> tasks[k].id == id)
  {
    seq(|tasks|, k requires 0 <= k < |tasks| =>
      if tasks[k].id == id then tasks[k].(completed := !tasks[k].completed) else tasks[k])
  }

  /** Toggling the same task twice gives back the list. */
  lemma ToggleInvolution(tasks: seq<Task>, id: string)
    ensures Toggle(Toggle(tasks, id), id) == tasks
  {
    var r := Toggle(Toggle(tasks, id), id);
    forall k | 0 <= k < |tasks| ensures r[k] == tasks[k] {
      var once := Toggle(tasks, id);
      assert once[k].(completed := tasks[k].completed) == tasks[k];
    }
  }

  /** Toggling one id leaves a different id's toggle unaffected: toggles commute. */
  lemma ToggleCommutes(tasks: seq<Task>, a: string, b: string)
    ensures Toggle(Toggle(tasks, a), b) == Toggle(Toggle(tasks, b), a)
  {
    var l, r := Toggle(Toggle(tasks, a), b), Toggle(Toggle(tasks, b), a);
    forall k | 0 <= k < |tasks| ensures l[k] == r[k] {
      var la, rb := Toggle(tasks, a), Toggle(tasks, b);
      assert la[k].(completed := tasks[k].completed) == tasks[k];
      assert rb[k].(completed := tasks[k].completed) == tasks[k];
    }
  }

  /** `completedCount`: the number of completed tasks. */
  function CompletedCount(tasks: seq<Task>): (n: nat)
    ensures n <= |tasks|
  {
    Seqs.Count(tasks, IsDone)
  }

  /** With ids unique, a toggle completes or un-completes exactly one task. */
  lemma ToggleCount(tasks: seq<Task>, j: nat)
    requires j < |tasks| && forall k :: 0 <= k < |tasks| && k != j ==> tasks[k].id != tasks[j].id
    ensures CompletedCount(Toggle(tasks, tasks[j].id))
      == if tasks[j].completed then CompletedCount(tasks) - 1 else CompletedCount(tasks) + 1
  {
    var t := tasks[j].(completed := !tasks[j].completed);
    assert Toggle(tasks, tasks[j].id) == tasks[j := t];
    Seqs.CountUpdate(tasks, j, t, IsDone);
  }

  /** The durations of the tasks, in order. */
  function Durations(tasks: seq<Task>): (r: seq<int>)
    ensures |r| == |tasks| && forall k :: 0 <= k < |r| ==> r[k] == tasks[k].duration
  {
    seq(|tasks|, k requires 0 <= k < |tasks| => tasks[k].duration)
  }

  /** `totalDuration`: the minutes of all tasks. */
  function TotalDuration(tasks: seq<Task>): (total: int)
    ensures (forall k :: 0 <= k < |tasks| ==> tasks[k].duration >= 0) ==> total >= 0
  {
    Seqs.SumNonnegative(Durations(tasks));
    Seqs.Sum(Durations(tasks))
  }

  /** Completion does not change the planned minutes. */
  lemma ToggleKeepsDuration(tasks: seq<Task>, id: string)
    ensures TotalDuration(Toggle(tasks, id)) == TotalDuration(tasks)
  {
    assert Durations(Toggle(tasks, id)) == Durations(tasks);
  }

  /** The percentage `done / total * 100` of a part of a non-empty whole lies in 0..100 and is 100 only for the whole. */
  lemma ShareBounds(done: nat, total: nat)
    requires done <= total && total > 0
    ensures 0.0 <= done as real / total as real * 100.0 <= 100.0
    ensures done as real / total as real * 100.0 == 100.0 <==> done == total
  {
    var q := done as real / total as real;
    assert q * total as real == done as real;
    assert (q - 1.0) * total as real == done as real - total as real;
    Seqs.ProductSign(q, total as real);
    Seqs.ProductSign(q - 1.0, total as real);
    assert 0.0 <= q <= 1.0;
    assert q == 1.0 <==> done == total;
  }

  /** `progress`: the completed share as a percentage; `None` stands for the NaN of an empty list. */
  function Progress(tasks: seq<Task>): (p: Option<real>)
    ensures p.None? <==> tasks == []
    ensures p.Some? ==> 0.0 <= p.value <= 100.0
    ensures p.Some? ==> (p.value == 100.0 <==> CompletedCount(tasks) == |tasks|)
  {
    if tasks == [] then None
    else
      ShareBounds(CompletedCount(tasks), |tasks|);
      Some(CompletedCount(tasks) as real / |tasks| as real * 100.0)
  }

  /** The start button is disabled once the completed count reaches the task count. */
  predicate StartDisabled(tasks: seq<Task>) {
    CompletedCount(tasks) == |tasks|
  }

  /** The start button is disabled exactly when every task is completed (so also for an empty plan). */
  lemma StartDisabledIff(tasks: seq<Task>)
    ensures StartDisabled(tasks) <==> forall k :: 0 <= k < |tasks| ==> tasks[k].completed
  {
    Seqs.CountAll(tasks, IsDone);
  }

  /** The card's local copy of the tasks. */
  class Card {
    var localTasks: seq<Task>

    constructor (tasks: seq<Task>)
      ensures localTasks == tasks
    {
      localTasks := tasks;
    }

    /**
     * `handleTaskToggle`: flip the tasks with that id and tell the parent,
     * if it listens, whether the task was completed or un-completed.
     */
    method ToggleTask(id: string, listening: bool) returns (notified: Option<string>)
      modifies this
      ensures localTasks == Toggle(old(localTasks), id)
      ensures notified == if listening then Some(id) else None
    {
      localTasks := Toggle(localTasks, id);
      notified := if listening then Some(id) else None;
    }
  }
}

/**
 What one completion sets off (scheduler.go): a completed task makes some of its dependents due, which run and complete
 in turn. Scheduled runs and loop conditions play no part here.
 */
module Cascade {
  import opened Rows
  import Lifecycle
  import LifecycleSafety
  import Retry

  /** The task whose completion may trigger `i`; which dependents are active and meet their branch condition at that
      moment is left open. */
  function TriggeringParent(tasks: Tasks, i: Uuid): Option<Uuid> {
    if i !in tasks || !tasks[i].def.triggerOnCompletion then None
    else match tasks[i].def.dependsOn
      case None => None
      case Some(p) => if p in tasks && tasks[p].user == tasks[i].user then Some(p) else None
  }

  lemma TriggeredByParent(tasks: Tasks, parent: Uuid, child: Uuid)
    requires Triggerable(tasks, parent, child)
    ensures TriggeringParent(tasks, child) == Some(parent)
  {
  }

  /** n steps up. */
  function Ancestor(tasks: Tasks, i: Uuid, n: nat): Option<Uuid>
    decreases n
  {
    if n == 0 then Some(i)
    else match TriggeringParent(tasks, i)
      case None => None
      case Some(p) => Ancestor(tasks, p, n - 1)
  }

  ghost predicate Under(tasks: Tasks, i: Uuid, root: Uuid) {
    exists n: nat :: Ancestor(tasks, i, n) == Some(root)
  }

  /** A task whose completion can come back to it. */
  ghost predicate OnCycle(tasks: Tasks, i: Uuid) {
    exists n: nat :: n > 0 && Ancestor(tasks, i, n) == Some(i)
  }

  ghost function Subtree(tasks: Tasks, root: Uuid): set<Uuid> {
    set i | i in tasks && Under(tasks, i, root)
  }

  /** Tasks made due and not completed yet; completions so far. */
  datatype Wave = Wave(queued: seq<Uuid>, done: seq<Uuid>)

  /** One queued task completes and makes the chosen dependents due. */
  datatype Completion = Completion(at: nat, chosen: seq<Uuid>)

  predicate Possible(tasks: Tasks, w: Wave, c: Completion) {
    && c.at < |w.queued| && NoDuplicates(c.chosen)
    && forall k :: 0 <= k < |c.chosen| ==> TriggeringParent(tasks, c.chosen[k]) == Some(w.queued[c.at])
  }

  function Complete(tasks: Tasks, w: Wave, c: Completion): Wave
    requires Possible(tasks, w, c)
  {
    Wave(w.queued[..c.at] + w.queued[c.at + 1..] + c.chosen, w.done + [w.queued[c.at]])
  }

  ghost predicate IsRun(tasks: Tasks, w: Wave, run: seq<Completion>)
    decreases |run|
  {
    run == [] || (Possible(tasks, w, run[0]) && IsRun(tasks, Complete(tasks, w, run[0]), run[1..]))
  }

  ghost function After(tasks: Tasks, w: Wave, run: seq<Completion>): Wave
    requires IsRun(tasks, w, run)
    decreases |run|
  {
    if run == [] then w else After(tasks, Complete(tasks, w, run[0]), run[1..])
  }

  function From(root: Uuid): Wave { Wave([root], []) }

  // ----- Ancestors -----

  lemma {:induction false} AncestorsAdd(tasks: Tasks, i: Uuid, m: nat, n: nat)
    ensures Ancestor(tasks, i, m + n)
            == match Ancestor(tasks, i, m) case None => None case Some(a) => Ancestor(tasks, a, n)
    decreases m
  {
    if m > 0 && TriggeringParent(tasks, i).Some? {
      AncestorsAdd(tasks, TriggeringParent(tasks, i).value, m - 1, n);
    }
  }

  lemma UnderSelf(tasks: Tasks, i: Uuid)
    ensures Under(tasks, i, i)
  {
    assert Ancestor(tasks, i, 0) == Some(i);
  }

  lemma UnderTrans(tasks: Tasks, i: Uuid, j: Uuid, k: Uuid)
    requires Under(tasks, i, j) && Under(tasks, j, k)
    ensures Under(tasks, i, k)
  {
    var m: nat :| Ancestor(tasks, i, m) == Some(j);
    var n: nat :| Ancestor(tasks, j, n) == Some(k);
    AncestorsAdd(tasks, i, m, n);
  }

  lemma UnderParent(tasks: Tasks, i: Uuid, p: Uuid)
    requires TriggeringParent(tasks, i) == Some(p)
    ensures Under(tasks, i, p)
  {
    assert Ancestor(tasks, p, 0) == Some(p);
    assert Ancestor(tasks, i, 1) == Some(p);
  }

  /** No cycle below a task that is on none. */
  lemma CyclesComeFromAbove(tasks: Tasks, i: Uuid, root: Uuid)
    requires Under(tasks, i, root) && OnCycle(tasks, i)
    ensures OnCycle(tasks, root)
  {
    var m: nat :| m > 0 && Ancestor(tasks, i, m) == Some(i);
    var n: nat :| Ancestor(tasks, i, n) == Some(root);
    AncestorsAdd(tasks, i, m, n);
    AncestorsAdd(tasks, i, n, m);
  }

  lemma ChildAboveParent(tasks: Tasks, p: Uuid, c: Uuid)
    requires TriggeringParent(tasks, c) == Some(p) && Under(tasks, p, c)
    ensures OnCycle(tasks, p)
  {
    var n: nat :| Ancestor(tasks, p, n) == Some(c);
    AncestorsAdd(tasks, p, n, 1);
    assert Ancestor(tasks, p, 0) == Some(p);
    assert Ancestor(tasks, c, 1) == Some(p);
    assert Ancestor(tasks, p, n + 1) == Some(p);
  }

  /** Two dependents of one task have no descendant in common. */
  lemma SiblingsDisjoint(tasks: Tasks, p: Uuid, c: Uuid, d: Uuid, x: Uuid)
    requires TriggeringParent(tasks, c) == Some(p) && TriggeringParent(tasks, d) == Some(p) && c != d
    requires Under(tasks, x, c) && Under(tasks, x, d)
    ensures OnCycle(tasks, p)
  {
    var m: nat :| Ancestor(tasks, x, m) == Some(c);
    var n: nat :| Ancestor(tasks, x, n) == Some(d);
    if m < n {
      AncestorsAdd(tasks, x, m, n - m);
      assert Ancestor(tasks, p, n - m - 1) == Some(d);
      ChildAboveParent(tasks, p, d);
    } else {
      AncestorsAdd(tasks, x, n, m - n);
      assert Ancestor(tasks, p, m - n - 1) == Some(c);
      ChildAboveParent(tasks, p, c);
    }
  }

  // ----- The invariant of a wave -----

  ghost predicate Apart(tasks: Tasks, a: Uuid, b: Uuid) {
    forall x :: Under(tasks, x, a) ==> !Under(tasks, x, b)
  }

  ghost predicate Spread(tasks: Tasks, queued: seq<Uuid>) {
    forall i, j :: 0 <= i < j < |queued| ==> Apart(tasks, queued[i], queued[j])
  }

  ghost predicate WaveOk(tasks: Tasks, root: Uuid, w: Wave) {
    && Spread(tasks, w.queued) && NoDuplicates(w.done)
    && (forall i :: i in w.queued || i in w.done ==> i in tasks && Under(tasks, i, root))
    && (forall d, q :: d in w.done && q in w.queued ==> !Under(tasks, d, q))
  }

  lemma BelowApart(tasks: Tasks, a: Uuid, b: Uuid, c: Uuid)
    requires Apart(tasks, a, b) && Under(tasks, c, b)
    ensures Apart(tasks, a, c)
  {
    forall x | Under(tasks, x, a)
      ensures !Under(tasks, x, c)
    {
      if Under(tasks, x, c) { UnderTrans(tasks, x, c, b); }
    }
  }

  lemma SpreadAfter(tasks: Tasks, root: Uuid, w: Wave, c: Completion)
    requires WaveOk(tasks, root, w) && Possible(tasks, w, c) && !OnCycle(tasks, w.queued[c.at])
    ensures Spread(tasks, Complete(tasks, w, c).queued)
  {
    var q, rest := w.queued[c.at], w.queued[..c.at] + w.queued[c.at + 1..];
    var queued := Complete(tasks, w, c).queued;
    forall i, j | 0 <= i < j < |queued|
      ensures Apart(tasks, queued[i], queued[j])
    {
      if i >= |rest| {
        forall x | Under(tasks, x, queued[i])
          ensures !Under(tasks, x, queued[j])
        {
          if Under(tasks, x, queued[j]) { SiblingsDisjoint(tasks, q, queued[i], queued[j], x); }
        }
      } else if j >= |rest| {
        var i' := if i < c.at then i else i + 1;
        assert queued[i] == w.queued[i'];
        assert Apart(tasks, w.queued[i'], q) by {
          if c.at < i' { assert Apart(tasks, q, w.queued[i']); }
        }
        UnderParent(tasks, queued[j], q);
        BelowApart(tasks, queued[i], q, queued[j]);
      } else {
        assert Apart(tasks, w.queued[if i < c.at then i else i + 1], w.queued[if j < c.at then j else j + 1]);
      }
    }
  }

  lemma DoneAfter(tasks: Tasks, root: Uuid, w: Wave, c: Completion, d: Uuid, q': Uuid)
    requires WaveOk(tasks, root, w) && Possible(tasks, w, c) && !OnCycle(tasks, w.queued[c.at])
    requires d in Complete(tasks, w, c).done && q' in Complete(tasks, w, c).queued
    ensures !Under(tasks, d, q')
  {
    var q := w.queued[c.at];
    if q' in c.chosen {
      UnderParent(tasks, q', q);
      if Under(tasks, d, q') {
        UnderTrans(tasks, d, q', q);
        assert d == q;
        ChildAboveParent(tasks, q, q');
      }
    } else {
      var k :| 0 <= k < |w.queued| && k != c.at && w.queued[k] == q';
      UnderSelf(tasks, q);
      assert if k < c.at then Apart(tasks, q', q) else Apart(tasks, q, q');
    }
  }

  lemma WaveStaysOk(tasks: Tasks, root: Uuid, w: Wave, c: Completion)
    requires WaveOk(tasks, root, w) && Possible(tasks, w, c) && !OnCycle(tasks, root)
    ensures !OnCycle(tasks, w.queued[c.at]) && WaveOk(tasks, root, Complete(tasks, w, c))
  {
    var q, w' := w.queued[c.at], Complete(tasks, w, c);
    assert q in w.queued;
    if OnCycle(tasks, q) { CyclesComeFromAbove(tasks, q, root); }
    SpreadAfter(tasks, root, w, c);
    UnderSelf(tasks, q);
    assert q !in w.done;
    forall i | i in w'.queued || i in w'.done
      ensures i in tasks && Under(tasks, i, root)
    {
      if i in c.chosen {
        UnderParent(tasks, i, q);
        UnderTrans(tasks, i, q, root);
      } else {
        assert i in w.queued || i in w.done;
      }
    }
    forall d, q' | d in w'.done && q' in w'.queued
      ensures !Under(tasks, d, q')
    {
      DoneAfter(tasks, root, w, c, d, q');
    }
  }

  /** The tasks that can still come up: the queued ones and everything below them. */
  ghost function Ahead(tasks: Tasks, w: Wave): set<Uuid> {
    set i | i in tasks && exists q :: q in w.queued && Under(tasks, i, q)
  }

  /** Every completion takes at least one task out of reach for good. */
  lemma AheadShrinks(tasks: Tasks, root: Uuid, w: Wave, c: Completion)
    requires WaveOk(tasks, root, w) && Possible(tasks, w, c) && !OnCycle(tasks, root)
    ensures Ahead(tasks, Complete(tasks, w, c)) < Ahead(tasks, w)
  {
    var q, w' := w.queued[c.at], Complete(tasks, w, c);
    WaveStaysOk(tasks, root, w, c);
    forall i | i in Ahead(tasks, w')
      ensures i in Ahead(tasks, w)
    {
      var q' :| q' in w'.queued && Under(tasks, i, q');
      if q' in c.chosen {
        UnderParent(tasks, q', q);
        UnderTrans(tasks, i, q', q);
        assert q in w.queued;
      } else {
        assert q' in w.queued;
      }
    }
    UnderSelf(tasks, q);
    assert q in w.queued && q in Ahead(tasks, w);
    assert q in w'.done && q !in Ahead(tasks, w');
  }

  lemma {:induction false} DistinctMembers<T>(s: seq<T>, all: set<T>)
    requires NoDuplicates(s) && forall x :: x in s ==> x in all
    ensures |s| <= |all|
  {
    if s != [] {
      var last := s[|s| - 1];
      assert forall x :: x in s[..|s| - 1] ==> x in s && x != last;
      DistinctMembers(s[..|s| - 1], all - {last});
    }
  }

  lemma {:induction false} WaveOkThroughout(tasks: Tasks, root: Uuid, w: Wave, run: seq<Completion>)
    requires WaveOk(tasks, root, w) && IsRun(tasks, w, run) && !OnCycle(tasks, root)
    ensures WaveOk(tasks, root, After(tasks, w, run))
    ensures |After(tasks, w, run).done| == |w.done| + |run|
    decreases |run|
  {
    if run != [] {
      WaveStaysOk(tasks, root, w, run[0]);
      WaveOkThroughout(tasks, root, Complete(tasks, w, run[0]), run[1..]);
    }
  }

  /** From a task that is on no cycle: whatever is chosen, in whatever order tasks complete, every task of its subtree
      is made due at most once, nothing outside of it is, and the cascade ends within one completion a task. */
  lemma CascadeStops(tasks: Tasks, root: Uuid, run: seq<Completion>)
    requires root in tasks && !OnCycle(tasks, root) && IsRun(tasks, From(root), run)
    ensures var w := After(tasks, From(root), run);
            && NoDuplicates(w.done + w.queued)
            && (forall i :: i in w.done + w.queued ==> i in Subtree(tasks, root))
            && |run| == |w.done| <= |Subtree(tasks, root)|
  {
    UnderSelf(tasks, root);
    WaveOkThroughout(tasks, root, From(root), run);
    var w := After(tasks, From(root), run);
    DistinctMembers(w.done, Subtree(tasks, root));
    forall i, j | 0 <= i < j < |w.done + w.queued|
      ensures (w.done + w.queued)[i] != (w.done + w.queued)[j]
    {
      if j >= |w.done| {
        var b := w.queued[j - |w.done|];
        UnderSelf(tasks, b);
        if i >= |w.done| {
          assert Apart(tasks, w.queued[i - |w.done|], b);
        }
      }
    }
  }

  // ----- The machine's steps follow this graph -----

  predicate SameEdges(before: Tasks, after: Tasks) {
    after.Keys == before.Keys
    && forall i :: i in before ==> after[i].def == before[i].def && after[i].user == before[i].user
  }

  lemma SameEdgesSameParents(before: Tasks, after: Tasks, i: Uuid)
    requires SameEdges(before, after)
    ensures TriggeringParent(after, i) == TriggeringParent(before, i)
  {
  }

  lemma StatementKeepsDefinition(statement: Statement, t: Task)
    ensures statement.On(t).def == t.def && statement.On(t).user == t.user
  {
  }

  lemma EditKeepsEdges(tasks: Tasks, id: Uuid, statement: Statement)
    ensures SameEdges(tasks, Update(tasks, id, statement))
  {
    if id in tasks {
      StatementKeepsDefinition(statement, tasks[id]);
    }
  }

  lemma EdgesTransitive(a: Tasks, b: Tasks, c: Tasks)
    requires SameEdges(a, b) && SameEdges(b, c)
    ensures SameEdges(a, c)
  {
  }

  lemma TwoEditsKeepEdges(tasks: Tasks, id: Uuid, statement: Statement, other: Uuid, second: Statement)
    ensures SameEdges(tasks, Update(Update(tasks, id, statement), other, second))
  {
    EditKeepsEdges(tasks, id, statement);
    EditKeepsEdges(Update(tasks, id, statement), other, second);
    EdgesTransitive(tasks, Update(tasks, id, statement), Update(Update(tasks, id, statement), other, second));
  }

  lemma RetriesKeepEdges(tasks: Tasks, id: Uuid, row: Task, now: int)
    ensures SameEdges(tasks, Retry.FailDispatch(tasks, id, row, now))
  {
  }

  lemma CountingKeepsEdges(tasks: Tasks, id: Uuid)
    ensures SameEdges(tasks, Lifecycle.CountFailure(tasks, id))
  {
    TwoEditsKeepEdges(tasks, id, IncrementFailures, id, SetStatus(Error));
    TwoEditsKeepEdges(tasks, id, IncrementFailures, id, SetStatus(Active));
  }

  lemma RouterKeepsEdges(tasks: Tasks, router: Uuid, dependents: seq<Lifecycle.Branching>, key: string, now: int)
    ensures SameEdges(tasks, Lifecycle.RouteTasks(tasks, router, dependents, key, now))
  {
    var k := Lifecycle.RouteIndex(dependents, key);
    if k < |dependents| {
      TwoEditsKeepEdges(tasks, dependents[k].id, SetNextRun(Active, now), router, SetStatusAndRun(Completed, now));
    } else {
      EditKeepsEdges(tasks, router, SetApprovalAndRun(NeedsRouting, Halted, now));
    }
  }

  lemma BulkKeepsEdges(tasks: Tasks, before: int, worker: string)
    ensures SameEdges(tasks, Reaped(tasks, before)) && SameEdges(tasks, Reverted(tasks, worker))
  {
  }

  predicate Restructures(step: Lifecycle.Step) {
    step.Create? || step.Delete? || step.Redefine?
  }

  /** Only creating, deleting and editing tasks changes who may trigger whom. */
  lemma StepsKeepGraph(s: Lifecycle.Sys, step: Lifecycle.Step, i: Uuid)
    requires Lifecycle.Named(s, step) && !Restructures(step)
    ensures TriggeringParent(Lifecycle.TasksAfter(s, step), i) == TriggeringParent(s.tasks, i)
  {
    StepsKeepEdges(s, step);
    SameEdgesSameParents(s.tasks, Lifecycle.TasksAfter(s, step), i);
  }

  lemma StepsKeepEdges(s: Lifecycle.Sys, step: Lifecycle.Step)
    requires Lifecycle.Named(s, step) && !Restructures(step)
    ensures SameEdges(s.tasks, Lifecycle.TasksAfter(s, step))
  {
    var edit := Lifecycle.EditOf(s, step);
    if edit.Some? {
      EditKeepsEdges(s.tasks, edit.value.id, edit.value.statement);
    } else {
      match step
      case RouterEnd(k, Choice(key)) =>
        RouterKeepsEdges(s.tasks, s.routers[k].task, s.routers[k].dependents, key, s.now);
      case ManualRoute(source, target, _) =>
        TwoEditsKeepEdges(s.tasks, target, SetNextRun(Active, s.now), source, SetApprovalAndRun(ManualRouted, Completed, s.now));
      case Dispatch(k, _) => RetriesKeepEdges(s.tasks, s.flight.tokens[k].task, s.flight.tokens[k].row, s.now);
      case Finish(k, _) => CountingKeepsEdges(s.tasks, s.flight.tokens[k].task);
      case Reap(before) => BulkKeepsEdges(s.tasks, before, "");
      case Revert(worker) => BulkKeepsEdges(s.tasks, 0, worker);
      case _ =>
    }
  }

  /** The dependents the machine selects for a completed task are a possible choice of the cascade. */
  lemma SelectionsFollowGraph(s: Lifecycle.Sys, k: nat, chosen: seq<Uuid>, done: seq<Uuid>)
    requires Lifecycle.Enabled(s, Lifecycle.Select(k, chosen))
    ensures Possible(s.tasks, Wave([s.fanouts[k]], done), Completion(0, chosen))
  {
    forall j | 0 <= j < |chosen|
      ensures TriggeringParent(s.tasks, chosen[j]) == Some(s.fanouts[k])
    {
      assert chosen[j] in chosen;
      TriggeredByParent(s.tasks, s.fanouts[k], chosen[j]);
    }
  }

  /** Task i is never claimed in this run without a trigger by p that no earlier claim has used up. */
  ghost predicate ClaimedWhenTriggered(s: Lifecycle.Sys, steps: seq<Lifecycle.Step>, i: Uuid, p: Uuid)
    requires Lifecycle.IsRun(s, steps)
    decreases |steps|
  {
    steps == [] ||
    (&& (LifecycleSafety.ClaimOf(steps[0], i) ==> Get(s.flight.claims, i) < Get(s.triggered, Lifecycle.Edge(p, i)))
     && ClaimedWhenTriggered(Lifecycle.Apply(s, steps[0]), steps[1..], i, p))
  }

  lemma {:induction false} ClaimsWithinTriggers(s: Lifecycle.Sys, steps: seq<Lifecycle.Step>, i: Uuid, p: Uuid)
    requires Lifecycle.IsRun(s, steps) && ClaimedWhenTriggered(s, steps, i, p)
    requires Get(s.flight.claims, i) <= Get(s.triggered, Lifecycle.Edge(p, i))
    ensures var t := Lifecycle.After(s, steps); Get(t.flight.claims, i) <= Get(t.triggered, Lifecycle.Edge(p, i))
    decreases |steps|
  {
    if steps != [] {
      LifecycleSafety.ClaimsCounted(s, steps[0], i);
      ClaimsWithinTriggers(Lifecycle.Apply(s, steps[0]), steps[1..], i, p);
    }
  }

  /** Below the root every task is claimed only when triggered, and no connection acts late on its messages. */
  ghost predicate TriggerDriven(now: int, steps: seq<Lifecycle.Step>, root: Uuid)
    requires Lifecycle.IsRun(Lifecycle.Initial(now), steps)
  {
    var s := Lifecycle.After(Lifecycle.Initial(now), steps);
    forall i, p :: i != root && TriggeringParent(s.tasks, i) == Some(p) && Under(s.tasks, i, root) ==>
      i !in s.flight.late && ClaimedWhenTriggered(Lifecycle.Initial(now), steps, i, p)
  }

  /** In every run of the machine, cycles and all: as long as the tasks below the root run only when triggered, none of
      them completes, or has executions under way, more often than the root completes. */
  lemma {:induction false} NoneCompletesMoreOften(now: int, steps: seq<Lifecycle.Step>, root: Uuid, i: Uuid, n: nat)
    requires Lifecycle.IsRun(Lifecycle.Initial(now), steps) && TriggerDriven(now, steps, root) && i != root
    requires Ancestor(Lifecycle.After(Lifecycle.Initial(now), steps).tasks, i, n) == Some(root)
    ensures var s := Lifecycle.After(Lifecycle.Initial(now), steps);
            Get(s.completions, i) + Lifecycle.Outstanding(s.flight, i) <= Get(s.completions, root)
    decreases n
  {
    var s := Lifecycle.After(Lifecycle.Initial(now), steps);
    var p := TriggeringParent(s.tasks, i).value;
    assert Under(s.tasks, i, root);
    ClaimsWithinTriggers(Lifecycle.Initial(now), steps, i, p);
    LifecycleSafety.CompletionsNeverExceedClaims(now, steps, i);
    LifecycleSafety.TriggersNeverExceedCompletions(now, steps, Lifecycle.Edge(p, i));
    if p != root {
      NoneCompletesMoreOften(now, steps, root, p, n - 1);
    }
  }

  // ----- On a cycle -----

  /** The one dependent on the way down the cycle, again and again. */
  lemma {:induction false} AroundTheCycle(tasks: Tasks, i: Uuid, n: nat, length: nat, done: seq<Uuid>)
    returns (run: seq<Completion>)
    requires n > 0 && Ancestor(tasks, i, n) == Some(i)
    ensures |run| == length && IsRun(tasks, Wave([i], done), run)
    decreases length
  {
    if length == 0 {
      run := [];
    } else {
      AncestorsAdd(tasks, i, n - 1, 1);
      var child := Ancestor(tasks, i, n - 1).value;
      assert TriggeringParent(tasks, child) == Some(i) by {
        assert Ancestor(tasks, child, 1) == Some(i);
        assert TriggeringParent(tasks, child).Some?;
        assert Ancestor(tasks, TriggeringParent(tasks, child).value, 0) == Some(i);
      }
      AncestorsAdd(tasks, child, 1, n - 1);
      var rest := AroundTheCycle(tasks, child, n, length - 1, done + [i]);
      var c := Completion(0, [child]);
      assert Complete(tasks, Wave([i], done), c) == Wave([child], done + [i]);
      run := [c] + rest;
    }
  }

  ghost predicate AtMost(tasks: Tasks, root: Uuid, bound: nat) {
    forall run :: IsRun(tasks, From(root), run) ==> |run| <= bound
  }

  /** Exactly the tasks on no cycle have cascades of bounded length. */
  lemma BoundedIffOnNoCycle(tasks: Tasks, root: Uuid)
    requires root in tasks
    ensures (exists bound :: AtMost(tasks, root, bound)) <==> !OnCycle(tasks, root)
  {
    if OnCycle(tasks, root) {
      var n: nat :| n > 0 && Ancestor(tasks, root, n) == Some(root);
      forall bound: nat
        ensures !AtMost(tasks, root, bound)
      {
        var run := AroundTheCycle(tasks, root, n, bound + 1, []);
        assert IsRun(tasks, From(root), run);
      }
    } else {
      forall run | IsRun(tasks, From(root), run)
        ensures |run| <= |Subtree(tasks, root)|
      {
        CascadeStops(tasks, root, run);
      }
      assert AtMost(tasks, root, |Subtree(tasks, root)|);
    }
  }

  // ----- Writing one dependency -----

  ghost predicate Acyclic(tasks: Tasks) {
    forall j :: j in tasks ==> !OnCycle(tasks, j)
  }

  /** The parent that a definition gives to a task of this user. */
  function ParentGiven(tasks: Tasks, user: string, def: Definition): Option<Uuid> {
    if !def.triggerOnCompletion then None
    else match def.dependsOn
      case None => None
      case Some(p) => if p in tasks && tasks[p].user == user then Some(p) else None
  }

  /** Only the edge of task i differs. */
  ghost predicate OnlyEdgeOf(tasks: Tasks, after: Tasks, i: Uuid) {
    forall j :: j != i ==> TriggeringParent(after, j) == TriggeringParent(tasks, j)
  }

  lemma {:induction false} PathsToStay(tasks: Tasks, after: Tasks, i: Uuid, j: Uuid, n: nat)
    requires OnlyEdgeOf(tasks, after, i) && Ancestor(tasks, j, n) == Some(i)
    ensures Under(after, j, i)
    decreases n
  {
    if j == i {
      UnderSelf(after, i);
    } else {
      var p := TriggeringParent(tasks, j).value;
      PathsToStay(tasks, after, i, p, n - 1);
      UnderParent(after, j, p);
      UnderTrans(after, j, p, i);
    }
  }

  lemma CycleThroughParent(tasks: Tasks, i: Uuid)
    ensures OnCycle(tasks, i)
            <==> TriggeringParent(tasks, i).Some? && Under(tasks, TriggeringParent(tasks, i).value, i)
  {
    if OnCycle(tasks, i) {
      var n: nat :| n > 0 && Ancestor(tasks, i, n) == Some(i);
      assert Ancestor(tasks, TriggeringParent(tasks, i).value, n - 1) == Some(i);
    }
    if TriggeringParent(tasks, i).Some? && Under(tasks, TriggeringParent(tasks, i).value, i) {
      var n: nat :| Ancestor(tasks, TriggeringParent(tasks, i).value, n) == Some(i);
      assert Ancestor(tasks, i, n + 1) == Some(i);
    }
  }

  /** A new edge of task i closes a cycle exactly if, before, the new parent was i or below it. */
  lemma EdgeClosesCycleIff(tasks: Tasks, after: Tasks, i: Uuid)
    requires OnlyEdgeOf(tasks, after, i)
    ensures OnCycle(after, i) <==> TriggeringParent(after, i).Some? && Under(tasks, TriggeringParent(after, i).value, i)
  {
    CycleThroughParent(after, i);
    if TriggeringParent(after, i).Some? {
      var p := TriggeringParent(after, i).value;
      if Under(tasks, p, i) {
        var n: nat :| Ancestor(tasks, p, n) == Some(i);
        PathsToStay(tasks, after, i, p, n);
      }
      if Under(after, p, i) {
        var n: nat :| Ancestor(after, p, n) == Some(i);
        PathsToStay(after, tasks, i, p, n);
      }
    }
  }

  /** Fewer than n steps up from j comes i. */
  ghost predicate Meets(tasks: Tasks, j: Uuid, i: Uuid, n: nat) {
    exists m: nat :: m < n && Ancestor(tasks, j, m) == Some(i)
  }

  lemma MeetsAbove(tasks: Tasks, j: Uuid, p: Uuid, i: Uuid, n: nat)
    requires TriggeringParent(tasks, j) == Some(p) && Meets(tasks, p, i, n)
    ensures Meets(tasks, j, i, n + 1)
  {
    var m: nat :| m < n && Ancestor(tasks, p, m) == Some(i);
    assert Ancestor(tasks, j, m + 1) == Some(i);
  }

  lemma MeetsItself(tasks: Tasks, i: Uuid, n: nat)
    requires n > 0
    ensures Meets(tasks, i, i, n)
  {
    var m: nat := 0;
    assert Ancestor(tasks, i, m) == Some(i);
  }

  lemma {:induction false} PathsAvoiding(tasks: Tasks, after: Tasks, i: Uuid, j: Uuid, n: nat)
    requires OnlyEdgeOf(tasks, after, i)
    ensures Ancestor(after, j, n) == Ancestor(tasks, j, n) || Meets(after, j, i, n)
    decreases n
  {
    if n > 0 {
      if j == i {
        MeetsItself(after, i, n);
      } else if TriggeringParent(after, j).Some? {
        var p := TriggeringParent(after, j).value;
        PathsAvoiding(tasks, after, i, p, n - 1);
        if Meets(after, p, i, n - 1) {
          MeetsAbove(after, j, p, i, n - 1);
        }
      }
    }
  }

  /** Every cycle the new edge brings about goes through i. */
  lemma NewCyclesAreThere(tasks: Tasks, after: Tasks, i: Uuid, j: Uuid)
    requires OnlyEdgeOf(tasks, after, i) && OnCycle(after, j) && !OnCycle(tasks, j)
    ensures OnCycle(after, i)
  {
    var n: nat :| n > 0 && Ancestor(after, j, n) == Some(j);
    PathsAvoiding(tasks, after, i, j, n);
    var m: nat :| m < n && Ancestor(after, j, m) == Some(i);
    AncestorsAdd(after, j, m, n - m);
    AncestorsAdd(after, i, n - m, m);
  }

  /** Replacing the definition of task i in an acyclic graph keeps it acyclic iff the parent it gives is neither i nor
      below it. */
  lemma DefinitionKeepsAcyclicIff(tasks: Tasks, i: Uuid, t: Task)
    requires i in tasks && t.user == tasks[i].user
    ensures OnlyEdgeOf(tasks, tasks[i := t], i)
    ensures TriggeringParent(tasks[i := t], i) == ParentGiven(tasks, t.user, t.def)
    ensures var p := ParentGiven(tasks, t.user, t.def);
            && (OnCycle(tasks[i := t], i) <==> p.Some? && Under(tasks, p.value, i))
            && (Acyclic(tasks) ==> (Acyclic(tasks[i := t]) <==> !(p.Some? && Under(tasks, p.value, i))))
  {
    var after := tasks[i := t];
    EdgeClosesCycleIff(tasks, after, i);
    if Acyclic(tasks) && !OnCycle(after, i) {
      forall j | j in after
        ensures !OnCycle(after, j)
      {
        if OnCycle(after, j) { NewCyclesAreThere(tasks, after, i, j); }
      }
    }
  }
}

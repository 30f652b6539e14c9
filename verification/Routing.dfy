/** What routers and manual routing do to the rows (scheduler.go, task_rest_handlers.go). */
module Routing {
  import opened Rows
  import opened Lifecycle
  import opened LifecycleSafety
  import opened Uuids

  /** The first dependent whose key is `key`. */
  predicate IsFirstMatch(dependents: seq<Branching>, key: string, k: nat) {
    && k < |dependents| && KeyMatches(dependents[k].branch, key)
    && forall j :: 0 <= j < k ==> !KeyMatches(dependents[j].branch, key)
  }

  lemma {:induction false} FirstMatchIsFirst(dependents: seq<Branching>, key: string)
    ensures var k := FirstMatch(dependents, key);
            if k < |dependents| then IsFirstMatch(dependents, key, k)
            else forall j :: 0 <= j < |dependents| ==> !KeyMatches(dependents[j].branch, key)
  {
    if dependents != [] && !KeyMatches(dependents[0].branch, key) {
      var rest := dependents[1..];
      FirstMatchIsFirst(rest, key);
      assert forall j :: 0 < j < |dependents| ==> dependents[j] == rest[j - 1];
    }
  }

  /** Apart from router and target every row is what it was, and rows neither appear nor vanish. */
  predicate OnlyTwoChange(before: Tasks, after: Tasks, router: Uuid, target: Uuid) {
    after.Keys == before.Keys && forall i :: i in before && i != router && i != target ==> after[i] == before[i]
  }

  /** Due now and free, otherwise as before. */
  predicate Activated(before: Task, after: Task, now: int) {
    after == before.(status := Active, lockedBy := None, nextRun := now)
  }

  /** The router's row afterwards: a router that matched itself keeps the due time the activation gave it. */
  function RouterRow(before: Task, now: int, matched: bool, itself: bool): Task {
    if !matched then before.(status := Halted, approval := NeedsRouting, lockedBy := None, lastRun := Some(now))
    else (if itself then before.(nextRun := now) else before).(status := Completed, lockedBy := None, lastRun := Some(now))
  }

  /** Where a choice finds its first match, on any table: the matched dependent and the router change, nothing else. */
  lemma MatchedChoice(tasks: Tasks, router: Uuid, dependents: seq<Branching>, key: string, now: int, k: nat)
    requires key != "" && IsFirstMatch(dependents, key, k)
    ensures var target, after := dependents[k].id, RouteTasks(tasks, router, dependents, key, now);
            && OnlyTwoChange(tasks, after, router, target)
            && (target in tasks && target != router ==> Activated(tasks[target], after[target], now))
            && (router in tasks ==> after[router] == RouterRow(tasks[router], now, true, target == router))
  {
    FirstMatchIsFirst(dependents, key);
    assert k == FirstMatch(dependents, key);
  }

  /** A choice, with the dependents as they were read before it was made and the rows as they are now: the first
      dependent whose key matches is activated and the router completed; when none matches no dependent changes and the
      router is halted for manual routing. */
  lemma RouterActivatesFirstMatch(tasks: Tasks, router: Uuid, dependents: seq<Branching>, key: string, now: int)
    requires key != ""
    ensures var after := RouteTasks(tasks, router, dependents, key, now);
            && (forall k: nat :: IsFirstMatch(dependents, key, k) ==>
                  var target := dependents[k].id;
                  && OnlyTwoChange(tasks, after, router, target)
                  && (target in tasks && target != router ==> Activated(tasks[target], after[target], now))
                  && (router in tasks ==> after[router] == RouterRow(tasks[router], now, true, target == router)))
            && ((forall k: nat :: !IsFirstMatch(dependents, key, k)) ==>
                  && OnlyTwoChange(tasks, after, router, router)
                  && (router in tasks ==> after[router] == RouterRow(tasks[router], now, false, false)))
  {
    FirstMatchIsFirst(dependents, key);
    forall k: nat | IsFirstMatch(dependents, key, k)
      ensures var target, after := dependents[k].id, RouteTasks(tasks, router, dependents, key, now);
              && OnlyTwoChange(tasks, after, router, target)
              && (target in tasks && target != router ==> Activated(tasks[target], after[target], now))
              && (router in tasks ==> after[router] == RouterRow(tasks[router], now, true, target == router))
    {
      MatchedChoice(tasks, router, dependents, key, now, k);
    }
  }

  ghost predicate IsActivated(before: Tasks, after: Tasks, i: Uuid, now: int) {
    i in before && i in after && Activated(before[i], after[i], now)
  }

  /** The matched dependent is activated exactly if its row still exists and is not the router's own. */
  lemma MatchActivatedIff(tasks: Tasks, router: Uuid, dependents: seq<Branching>, key: string, now: int, k: nat)
    requires key != "" && router in tasks && IsFirstMatch(dependents, key, k)
    ensures IsActivated(tasks, RouteTasks(tasks, router, dependents, key, now), dependents[k].id, now)
            <==> dependents[k].id in tasks && dependents[k].id != router
    ensures dependents[k].id !in tasks ==>
              OnlyTwoChange(tasks, RouteTasks(tasks, router, dependents, key, now), router, router)
  {
    MatchedChoice(tasks, router, dependents, key, now, k);
  }

  /** Completed iff some key matches; otherwise halted. No choice at all halts too. */
  lemma RouterCompletesIffMatched(tasks: Tasks, router: Uuid, dependents: seq<Branching>, key: string, now: int)
    requires router in tasks
    ensures var after := RouteTasks(tasks, router, dependents, key, now);
            router in after && after[router].status in {Completed, Halted}
            && (after[router].status == Completed <==>
                  key != "" && exists k :: 0 <= k < |dependents| && KeyMatches(dependents[k].branch, key))
  {
    FirstMatchIsFirst(dependents, key);
  }

  // ----- Manual routing -----

  datatype RouteError = SourceNotFound | NotWaiting | TargetNotFound | NotDependent

  /** The handler compares the id in the path, as text, with the printed id of the target's parent. */
  function ManuallyRouted(tasks: Tasks, user: string, path: string, body: string, now: int): Result<Tasks, RouteError> {
    var source, target := IdOf(path), IdOf(body);
    if source.None? || !Owns(tasks, user, source.value) then Err(SourceNotFound)
    else if tasks[source.value].approval != NeedsRouting then Err(NotWaiting)
    else if target.None? || !Owns(tasks, user, target.value) then Err(TargetNotFound)
    else
      var parent := tasks[target.value].def.dependsOn;
      if parent.None? || Text(parent.value) != path then Err(NotDependent)
      else Ok(RouteByHand(tasks, source.value, target.value, now))
  }

  /** Routing is accepted iff the machine's manual routing step would act and the path is in canonical form;
      then it has the effect of that step. */
  lemma ManualRoutingAccepted(tasks: Tasks, user: string, path: string, body: string, now: int)
    ensures var r := ManuallyRouted(tasks, user, path, body, now);
            && (r.Ok? <==> Canonical(path) && Parse(path).Ok? && Parse(body).Ok?
                           && CanRoute(tasks, Parse(path).value, Parse(body).value, user))
            && (r.Ok? ==> r.value == RouteByHand(tasks, Parse(path).value, Parse(body).value, now))
  {
    CanonicalTexts(path);
    if Parse(path).Ok? && Parse(body).Ok? && Parse(body).value in tasks {
      var parent := tasks[Parse(body).value].def.dependsOn;
      if parent.Some? {
        ParseFormat(parent.value);
      }
    }
  }

  /** The same row under any other spelling of its id is refused. */
  lemma OtherSpellingsRefused(tasks: Tasks, user: string, path: string, body: string, now: int)
    requires Parse(path).Ok? && !Canonical(path) && Parse(body).Ok?
    requires CanRoute(tasks, Parse(path).value, Parse(body).value, user)
    ensures ManuallyRouted(tasks, user, path, body, now) == Err(NotDependent)
    ensures ManuallyRouted(tasks, user, Text(Parse(path).value), body, now).Ok?
  {
    CanonicalTexts(path);
    Normalised(path);
    ManualRoutingAccepted(tasks, user, Text(Parse(path).value), body, now);
  }

  /** What an accepted request does; a task that depends on itself is its own source and target. */
  predicate RoutedByHand(before: Tasks, after: Tasks, source: Uuid, target: Uuid, now: int) {
    && OnlyTwoChange(before, after, source, target)
    && (target in before && target != source ==> Activated(before[target], after[target], now))
    && (source in before ==>
          after[source] == (if target == source then before[source].(nextRun := now) else before[source])
                           .(status := Completed, approval := ManualRouted, lockedBy := None, lastRun := Some(now)))
  }

  lemma WaitingCanBeRouted(tasks: Tasks, source: Uuid, target: Uuid, now: int)
    requires source in tasks && target in tasks
    requires CanRoute(tasks, source, target, tasks[source].user)
    ensures var r := ManuallyRouted(tasks, tasks[source].user, Text(source), Text(target), now);
            r.Ok? && RoutedByHand(tasks, r.value, source, target, now)
  {
    ParseFormat(source);
    ParseFormat(target);
    FormatIsCanonical(source);
    ManualRoutingAccepted(tasks, tasks[source].user, Text(source), Text(target), now);
  }

  /** In every reachable state a halted task can be routed by hand to any dependent of the same user: the dependent
      becomes due, the halted task completed, and nothing else changes. */
  lemma HaltedCanBeRouted(start: int, steps: seq<Step>, source: Uuid, target: Uuid)
    requires IsRun(Initial(start), steps)
    requires var tasks := After(Initial(start), steps).tasks;
             && source in tasks && tasks[source].status == Halted
             && target in tasks && tasks[target].user == tasks[source].user
             && tasks[target].def.dependsOn == Some(source)
    ensures var s := After(Initial(start), steps);
            var r := ManuallyRouted(s.tasks, s.tasks[source].user, Text(source), Text(target), s.now);
            r.Ok? && RoutedByHand(s.tasks, r.value, source, target, s.now)
  {
    StatusAndLockAgree(start, steps, source);
    WaitingCanBeRouted(After(Initial(start), steps).tasks, source, target, After(Initial(start), steps).now);
  }
}

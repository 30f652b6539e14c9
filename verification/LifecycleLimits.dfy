/** Runs that show why the safety theorems exclude what they exclude. */
module LifecycleLimits {
  import opened Rows
  import opened Lifecycle
  import opened LifecycleSafety

  ghost predicate Reaches(s: Sys, t: Sys) {
    exists steps :: IsRun(s, steps) && After(s, steps) == t
  }

  lemma Next(s: Sys, t: Sys, step: Step)
    requires Reaches(s, t) && Enabled(t, step)
    ensures Reaches(s, Apply(t, step))
  {
    var steps :| IsRun(s, steps) && After(s, steps) == t;
    Extend(s, steps, step);
  }

  lemma Here(s: Sys)
    ensures Reaches(s, s)
  {
    assert IsRun(s, []) && After(s, []) == s;
  }

  /** Nothing but the execution of one task: what the runs below start from. */
  predicate Calm(s: Sys, id: Uuid) {
    && id in s.tasks && s.tasks[id].def.taskType != NativeAction
    && s.tasks[id].nextRun <= s.now && s.tasks[id].status == Active
    && GatePassed(s.tasks[id])
    && Exec(id, s.now) !in s.flight.locks
  }

  /** The stations on the way of an active, due task to the LLM. */
  function Claimed(s: Sys, id: Uuid, worker: string): Sys
    requires id in s.tasks
  {
    s.(tasks := Update(s.tasks, id, Claim(worker)),
       flight := Launch(s.flight, Notice(id, s.tasks[id].user, worker)))
  }

  function Accepted(s: Sys, id: Uuid, worker: string): Sys
    requires id in s.tasks
  {
    var c := Claimed(s, id, worker);
    c.(flight := c.flight.(tokens := s.flight.tokens + [Job(id, Claim(worker).On(s.tasks[id]), Exec(id, s.now))]))
  }

  function Announced(s: Sys, id: Uuid, worker: string): Sys
    requires id in s.tasks
  {
    var c := Claimed(s, id, worker);
    c.(flight := c.flight.(tokens := s.flight.tokens, wire := s.flight.wire + {Exec(id, s.now)},
                           published := Inc(s.flight.published, id)))
  }

  function Sampled(s: Sys, id: Uuid, worker: string): Sys
    requires id in s.tasks
  {
    var a := Announced(s, id, worker);
    a.(flight := Take(a.flight, Exec(id, s.now), s.now))
  }

  lemma ToClaimed(start: Sys, s: Sys, id: Uuid, worker: string)
    requires Reaches(start, s) && Calm(s, id)
    ensures Reaches(start, Claimed(s, id, worker))
  {
    Next(start, s, ClaimDue(id, worker));
    assert Apply(s, ClaimDue(id, worker)) == Claimed(s, id, worker);
  }

  lemma ToAccepted(start: Sys, s: Sys, id: Uuid, worker: string)
    requires Calm(s, id) && Reaches(start, Claimed(s, id, worker))
    ensures Reaches(start, Accepted(s, id, worker))
  {
    var c, n := Claimed(s, id, worker), |s.flight.tokens|;
    Next(start, c, Accept(n));
    assert c.flight.tokens[n := Job(id, c.tasks[id], Exec(id, s.now))] == Accepted(s, id, worker).flight.tokens;
    assert Apply(c, Accept(n)) == Accepted(s, id, worker);
  }

  lemma ToAnnounced(start: Sys, s: Sys, id: Uuid, worker: string)
    requires Calm(s, id) && Reaches(start, Accepted(s, id, worker))
    ensures Reaches(start, Announced(s, id, worker))
  {
    var c, n := Accepted(s, id, worker), |s.flight.tokens|;
    Next(start, c, Dispatch(n, Published));
    assert Without(c.flight.tokens, n) == s.flight.tokens;
    assert Apply(c, Dispatch(n, Published)) == Announced(s, id, worker);
  }

  lemma ToWire(start: Sys, s: Sys, id: Uuid, worker: string)
    requires Reaches(start, s) && Calm(s, id)
    ensures Reaches(start, Announced(s, id, worker))
  {
    ToClaimed(start, s, id, worker);
    ToAccepted(start, s, id, worker);
    ToAnnounced(start, s, id, worker);
  }

  lemma TakeForm(s: Sys, e: Exec)
    requires e in s.flight.wire && e.task in s.tasks && !IsRouter(s.tasks[e.task].def)
    ensures Enabled(s, Attempt(e, [], 1)) && Apply(s, Attempt(e, [], 1)) == s.(flight := Take(s.flight, e, s.now))
  {
  }

  lemma ToSampled(start: Sys, s: Sys, id: Uuid, worker: string)
    requires Reaches(start, s) && Calm(s, id) && !IsRouter(s.tasks[id].def)
    ensures Reaches(start, Sampled(s, id, worker))
  {
    ToWire(start, s, id, worker);
    var a := Announced(s, id, worker);
    TakeForm(a, Exec(id, s.now));
    Next(start, a, Attempt(Exec(id, s.now), [], 1));
  }

  function Created(def: Definition): Sys {
    Initial(0).(tasks := map[NIL := Inserted(def, "u", 0)])
  }

  lemma ToCreated(def: Definition)
    ensures Reaches(Initial(0), Created(def))
  {
    Here(Initial(0));
    Next(Initial(0), Initial(0), Create(NIL, def, "u", 0));
    assert Apply(Initial(0), Create(NIL, def, "u", 0)) == Created(def);
  }

  lemma ToLater(start: Sys, s: Sys, elapsed: nat)
    requires Reaches(start, s)
    ensures Reaches(start, s.(now := s.now + elapsed))
  {
    TickForm(s, elapsed);
    Next(start, s, Tick(elapsed));
  }

  lemma TickForm(s: Sys, elapsed: nat)
    ensures Apply(s, Tick(elapsed)) == s.(now := s.now + elapsed)
  {
  }

  /** One claim, one message, and a connection that acts on it after the lock has expired: two samplings. */
  lemma LateAttemptSamplesTwice()
    ensures exists s :: Reaches(Initial(0), s) && NIL in s.flight.late
              && Get(s.flight.claims, NIL) == 1 && Get(s.flight.published, NIL) == 1 && Get(s.flight.samplings, NIL) == 2
  {
    var e := Exec(NIL, 0);
    ToCreated(PLAIN);
    ToSampled(Initial(0), Created(PLAIN), NIL, "w");
    ToLater(Initial(0), Sampled(Created(PLAIN), NIL, "w"), LOCK_TTL);
    var s := Sampled(Created(PLAIN), NIL, "w").(now := LOCK_TTL);
    TakeForm(s, e);
    Next(Initial(0), s, Attempt(e, [], 1));
    var t := s.(flight := Take(s.flight, e, LOCK_TTL));
    assert Reaches(Initial(0), t);
  }

  const GUARDED: Definition := PLAIN.(requiresApproval := true)

  function ApprovedOnce(): Sys {
    var s := Created(GUARDED);
    s.(tasks := Update(s.tasks, NIL, SetApproval(Approved, Active)), approvals := map[NIL := 1])
  }

  lemma ToApprovedOnce()
    ensures Reaches(Initial(0), ApprovedOnce())
  {
    ToCreated(GUARDED);
    Next(Initial(0), Created(GUARDED), Approve(NIL, "u"));
    assert Apply(Created(GUARDED), Approve(NIL, "u")) == ApprovedOnce();
  }

  /** What the reaper is configured to by default. */
  const THRESHOLD: int := 5 * MINUTE

  /** The task waits for as long as the reaper's threshold. */
  function Waited(): Sys {
    ApprovedOnce().(now := THRESHOLD)
  }

  /** The only approved execution is at the LLM, and the clock has moved on. */
  function Executing(): Sys {
    Sampled(Waited(), NIL, "w").(now := THRESHOLD + 1)
  }

  lemma ToExecuting()
    ensures Reaches(Initial(0), Executing())
  {
    ToApprovedOnce();
    ToLater(Initial(0), ApprovedOnce(), THRESHOLD);
    ToSampled(Initial(0), Waited(), NIL, "w");
    ToLater(Initial(0), Sampled(Waited(), NIL, "w"), 1);
  }

  lemma ExecutingForm()
    ensures Executing().flight.tokens == [Run(NIL, Exec(NIL, THRESHOLD))] && Outstanding(Executing().flight, NIL) > 0
    ensures Executing().tasks == map[NIL := Claim("w").On(ApprovedOnce().tasks[NIL])]
    ensures Executing().disturbed == {}
    ensures Unlock.On(Executing().tasks[NIL]) == ApprovedOnce().tasks[NIL]
  {
    CountAppend([], Run(NIL, Exec(NIL, THRESHOLD)), InFlight, NIL);
  }

  lemma ReapForm(s: Sys, row: Task)
    requires s.tasks == map[NIL := row] && row.status == Processing && row.nextRun < 1
    requires Outstanding(s.flight, NIL) > 0 && s.disturbed == {}
    ensures Apply(s, Reap(1)) == s.(tasks := map[NIL := Unlock.On(row)], disturbed := {NIL})
  {
    assert Reaped(s.tasks, 1) == map[NIL := Unlock.On(row)];
    assert DisturbedAfter(s, Reap(1)) == {NIL};
  }

  /** Now the reaper comes: the task was due more than its threshold ago, and claimed just before. */
  function Reclaimed(): Sys {
    Executing().(tasks := map[NIL := ApprovedOnce().tasks[NIL]], disturbed := {NIL})
  }

  lemma ToReclaimed()
    ensures Reaches(Initial(0), Reclaimed())
  {
    ToExecuting();
    ExecutingForm();
    ReapForm(Executing(), Executing().tasks[NIL]);
    Next(Initial(0), Executing(), Reap(Executing().now - THRESHOLD));
  }

  lemma TwoRuns(f: Flight, first: Token, second: Token)
    requires f.tokens == [first, second] && first.Run? && second.Run? && first.task == NIL && second.task == NIL
    requires f.wire <= f.locks.Keys
    ensures PastTheGate(f, NIL) == 2
  {
    CountAppend([], first, PastGate, NIL);
    CountAppend([first], second, PastGate, NIL);
    assert [first] + [second] == f.tokens;
    assert ExecsOf(Waiting(f), NIL) == {};
  }

  function Doubled(): Sys {
    Sampled(Reclaimed(), NIL, "w")
  }

  lemma DoubledForm()
    ensures Doubled().flight.tokens == [Run(NIL, Exec(NIL, THRESHOLD)), Run(NIL, Exec(NIL, THRESHOLD + 1))]
    ensures Doubled().flight.wire <= Doubled().flight.locks.Keys
  {
    ExecutingForm();
  }

  lemma ToDoubled()
    ensures Reaches(Initial(0), Doubled())
  {
    ToReclaimed();
    ToSampled(Initial(0), Reclaimed(), NIL, "w");
  }

  /** One approval, and a reap in the middle of the execution it paid for: two executions past the gate at once. */
  lemma ReapBreaksExclusionAndGate()
    ensures exists s :: Reaches(Initial(0), s) && NIL in s.disturbed
              && Get(s.approvals, NIL) == 1 && PastTheGate(s.flight, NIL) == 2
  {
    ToDoubled();
    DoubledForm();
    TwoRuns(Doubled().flight, Run(NIL, Exec(NIL, THRESHOLD)), Run(NIL, Exec(NIL, THRESHOLD + 1)));
  }

  // ----- A router whose chosen dependent is gone -----

  function Chooser(): Definition { PLAIN.(taskType := DecisionRouter) }

  function Chosen(router: Uuid, key: string): Definition {
    PLAIN.(dependsOn := Some(router), branch := Fields(map["key" := key]))
  }

  function BothCreated(router: Uuid, child: Uuid, key: string): Sys {
    Initial(0).(tasks := map[router := Inserted(Chooser(), "u", 0)][child := Inserted(Chosen(router, key), "u", 0)])
  }

  lemma ToBothCreated(router: Uuid, child: Uuid, key: string)
    requires router != child
    ensures Reaches(Initial(0), BothCreated(router, child, key))
  {
    Here(Initial(0));
    Next(Initial(0), Initial(0), Create(router, Chooser(), "u", 0));
    var one := Initial(0).(tasks := map[router := Inserted(Chooser(), "u", 0)]);
    assert Apply(Initial(0), Create(router, Chooser(), "u", 0)) == one;
    Next(Initial(0), one, Create(child, Chosen(router, key), "u", 0));
    assert Apply(one, Create(child, Chosen(router, key), "u", 0)) == BothCreated(router, child, key);
  }

  /** The router's execution has read its dependents and waits for the judge. */
  function Asks(s: Sys, e: Exec, read: seq<Branching>): Sys {
    s.(flight := Ask(s.flight, e.task, 4), routers := s.routers + [RouterRun(e.task, read)])
  }

  lemma AskForm(s: Sys, e: Exec, read: seq<Branching>)
    requires e in s.flight.wire && e.task in s.tasks && s.tasks[e.task].def.taskType == DecisionRouter
    requires forall k :: 0 <= k < |read| ==> IsDependent(s.tasks, e.task, read[k])
    ensures Enabled(s, Attempt(e, read, 4)) && Apply(s, Attempt(e, read, 4)) == Asks(s, e, read)
  {
  }

  /** One more connection asks. */
  lemma ToAsks(s: Sys, e: Exec, read: seq<Branching>)
    requires Reaches(Initial(0), s)
    requires e in s.flight.wire && e.task in s.tasks && s.tasks[e.task].def.taskType == DecisionRouter
    requires forall k :: 0 <= k < |read| ==> IsDependent(s.tasks, e.task, read[k])
    ensures Reaches(Initial(0), Asks(s, e, read))
  {
    AskForm(s, e, read);
    Next(Initial(0), s, Attempt(e, read, 4));
  }

  lemma DeleteForm(s: Sys, id: Uuid, user: string)
    requires Owns(s.tasks, user, id)
    ensures Apply(s, Delete(id, user)) == s.(tasks := DeleteRow(s.tasks, id))
  {
  }

  function Read(child: Uuid, key: string): Branching {
    Branching(child, Fields(map["key" := key]))
  }

  function Asking(router: Uuid, child: Uuid, key: string): Sys {
    Asks(Announced(BothCreated(router, child, key), router, "w"), Exec(router, 0), [Read(child, key)])
  }

  lemma BothCreatedForm(router: Uuid, child: Uuid, key: string)
    requires router != child
    ensures Calm(BothCreated(router, child, key), router)
    ensures var a := Announced(BothCreated(router, child, key), router, "w");
            && Exec(router, 0) in a.flight.wire && router in a.tasks && child in a.tasks && a.routers == []
            && a.tasks.Keys == {router, child} && a.tasks[router] == Claim("w").On(Inserted(Chooser(), "u", 0))
            && a.tasks[child] == Inserted(Chosen(router, key), "u", 0)
  {
  }

  lemma ToAsking(router: Uuid, child: Uuid, key: string)
    requires router != child
    ensures Reaches(Initial(0), Asking(router, child, key))
  {
    var s := BothCreated(router, child, key);
    BothCreatedForm(router, child, key);
    ToBothCreated(router, child, key);
    ToWire(Initial(0), s, router, "w");
    ToAsks(Announced(s, router, "w"), Exec(router, 0), [Read(child, key)]);
  }

  function Bereft(router: Uuid, child: Uuid, key: string): Sys {
    Asking(router, child, key).(tasks := map[router := Claim("w").On(Inserted(Chooser(), "u", 0))])
  }

  lemma ChildDeleted(router: Uuid, child: Uuid, key: string)
    requires router != child
    ensures Owns(Asking(router, child, key).tasks, "u", child)
    ensures DeleteRow(Asking(router, child, key).tasks, child) == Bereft(router, child, key).tasks
  {
    BothCreatedForm(router, child, key);
  }

  lemma ToBereft(router: Uuid, child: Uuid, key: string)
    requires router != child
    ensures Reaches(Initial(0), Bereft(router, child, key))
  {
    var s := Asking(router, child, key);
    ToAsking(router, child, key);
    ChildDeleted(router, child, key);
    DeleteForm(s, child, "u");
    Next(Initial(0), s, Delete(child, "u"));
  }

  lemma EndForm(s: Sys, key: string)
    requires |s.routers| > 0
    ensures Enabled(s, RouterEnd(0, Choice(key)))
    ensures var r, t := s.routers[0], Apply(s, RouterEnd(0, Choice(key)));
            && t.tasks == RouteTasks(s.tasks, r.task, r.dependents, key, s.now)
            && t.routers == s.routers[1..] && t.flight == s.flight && t.now == s.now
  {
    assert Without(s.routers, 0) == s.routers[1..];
  }

  lemma MatchGone(tasks: Tasks, router: Uuid, dependents: seq<Branching>, key: string, now: int)
    requires router in tasks && key != "" && |dependents| == 1 && KeyMatches(dependents[0].branch, key)
    requires dependents[0].id !in tasks
    ensures var after := RouteTasks(tasks, router, dependents, key, now);
            after.Keys == tasks.Keys && after[router].status == Completed
  {
  }

  /** A dependent deleted while the LLM is asked: the router ends completed, and there is nothing it has activated. */
  lemma RouterCompletesForNothing(router: Uuid, child: Uuid, key: string)
    requires router != child && key != ""
    ensures exists s :: Reaches(Initial(0), s) && s.tasks.Keys == {router} && s.tasks[router].status == Completed
  {
    var s := Bereft(router, child, key);
    BothCreatedForm(router, child, key);
    ToBereft(router, child, key);
    EndForm(s, key);
    MatchGone(s.tasks, router, s.routers[0].dependents, key, s.now);
    Next(Initial(0), s, RouterEnd(0, Choice(key)));
    assert Reaches(Initial(0), Apply(s, RouterEnd(0, Choice(key))));
  }

  // ----- A router that two connections run -----

  function Children(router: Uuid, left: Uuid, x: string, right: Uuid, y: string): Tasks {
    map[router := Inserted(Chooser(), "u", 0)]
    [left := Inserted(Chosen(router, x), "u", 10)][right := Inserted(Chosen(router, y), "u", 10)]
  }

  function AllCreated(router: Uuid, left: Uuid, x: string, right: Uuid, y: string): Sys {
    Initial(0).(tasks := Children(router, left, x, right, y))
  }

  lemma CreateForm(tasks: Tasks, id: Uuid, def: Definition, nextRun: int)
    requires Reaches(Initial(0), Initial(0).(tasks := tasks)) && id !in tasks
    ensures Reaches(Initial(0), Initial(0).(tasks := tasks[id := Inserted(def, "u", nextRun)]))
  {
    var s := Initial(0).(tasks := tasks);
    Next(Initial(0), s, Create(id, def, "u", nextRun));
    assert Apply(s, Create(id, def, "u", nextRun)) == s.(tasks := tasks[id := Inserted(def, "u", nextRun)]);
  }

  lemma ToAllCreated(router: Uuid, left: Uuid, x: string, right: Uuid, y: string)
    requires NoDuplicates([router, left, right])
    ensures Reaches(Initial(0), AllCreated(router, left, x, right, y))
  {
    var ids := [router, left, right];
    assert ids[0] == router && ids[1] == left && ids[2] == right;
    Here(Initial(0));
    assert Initial(0).(tasks := map[]) == Initial(0);
    CreateForm(map[], router, Chooser(), 0);
    var one := map[][router := Inserted(Chooser(), "u", 0)];
    CreateForm(one, left, Chosen(router, x), 10);
    CreateForm(one[left := Inserted(Chosen(router, x), "u", 10)], right, Chosen(router, y), 10);
    assert one == map[router := Inserted(Chooser(), "u", 0)];
  }

  function BothRead(left: Uuid, x: string, right: Uuid, y: string): seq<Branching> {
    [Read(left, x), Read(right, y)]
  }

  /** Two connections have got the one message, and ask. */
  function TwoAsking(router: Uuid, left: Uuid, x: string, right: Uuid, y: string): Sys {
    var a, e := Announced(AllCreated(router, left, x, right, y), router, "w"), Exec(router, 0);
    Asks(Asks(a, e, BothRead(left, x, right, y)), e, BothRead(left, x, right, y))
  }

  lemma AllCreatedForm(router: Uuid, left: Uuid, x: string, right: Uuid, y: string)
    requires NoDuplicates([router, left, right])
    ensures Calm(AllCreated(router, left, x, right, y), router)
    ensures var a := Announced(AllCreated(router, left, x, right, y), router, "w");
            && Exec(router, 0) in a.flight.wire && a.routers == [] && a.now == 0
            && Get(a.flight.claims, router) == 1 && Get(a.flight.published, router) == 1
            && Get(a.flight.samplings, router) == 0 && a.flight.late == {}
            && router in a.tasks && a.tasks[router] == Claim("w").On(Inserted(Chooser(), "u", 0))
            && left in a.tasks && a.tasks[left] == Inserted(Chosen(router, x), "u", 10)
            && right in a.tasks && a.tasks[right] == Inserted(Chosen(router, y), "u", 10)
  {
    var ids := [router, left, right];
    assert ids[0] == router && ids[1] == left && ids[2] == right;
  }

  lemma ToTwoAsking(router: Uuid, left: Uuid, x: string, right: Uuid, y: string)
    requires NoDuplicates([router, left, right])
    ensures Reaches(Initial(0), TwoAsking(router, left, x, right, y))
  {
    var s, e, read := AllCreated(router, left, x, right, y), Exec(router, 0), BothRead(left, x, right, y);
    var a := Announced(s, router, "w");
    AllCreatedForm(router, left, x, right, y);
    ToAllCreated(router, left, x, right, y);
    ToWire(Initial(0), s, router, "w");
    assert forall k :: 0 <= k < |read| ==> IsDependent(a.tasks, router, read[k]);
    ToAsks(a, e, read);
    ToAsks(Asks(a, e, read), e, read);
  }

  lemma ChoicesMatch(left: Uuid, x: string, right: Uuid, y: string)
    requires x != y && x != "" && y != ""
    ensures RouteIndex(BothRead(left, x, right, y), x) == 0 && RouteIndex(BothRead(left, x, right, y), y) == 1
  {
    var read := BothRead(left, x, right, y);
    assert KeyMatches(read[0].branch, x) && !KeyMatches(read[0].branch, y);
    assert read[1..] == [Read(right, y)];
    assert KeyMatches(read[1..][0].branch, y);
    assert FirstMatch(read[1..], y) == 0;
  }

  lemma RouteNextRuns(tasks: Tasks, router: Uuid, dependents: seq<Branching>, key: string, now: int, k: nat)
    requires RouteIndex(dependents, key) == k < |dependents|
    ensures var after := RouteTasks(tasks, router, dependents, key, now);
            forall i :: i in tasks ==>
              i in after && after[i].nextRun == if i == dependents[k].id then now else tasks[i].nextRun
  {
  }

  /** The first router run ends with a choice that matches its k-th dependent. */
  lemma EndRouter(s: Sys, key: string, k: nat) returns (t: Sys)
    requires Reaches(Initial(0), s) && |s.routers| > 0
    requires RouteIndex(s.routers[0].dependents, key) == k < |s.routers[0].dependents|
    ensures Reaches(Initial(0), t) && t.routers == s.routers[1..] && t.flight == s.flight && t.now == s.now
    ensures var target := s.routers[0].dependents[k].id;
            forall i :: i in s.tasks ==>
              i in t.tasks && t.tasks[i].nextRun == if i == target then s.now else s.tasks[i].nextRun
  {
    EndForm(s, key);
    RouteNextRuns(s.tasks, s.routers[0].task, s.routers[0].dependents, key, s.now, k);
    Next(Initial(0), s, RouterEnd(0, Choice(key)));
    t := Apply(s, RouterEnd(0, Choice(key)));
  }

  /** Two runs of the router, one message, eight requests. */
  predicate BothAsked(s: Sys, router: Uuid, left: Uuid, x: string, right: Uuid, y: string) {
    && s.now == 0 && s.flight.late == {}
    && Get(s.flight.claims, router) == 1 && Get(s.flight.published, router) == 1 && Get(s.flight.samplings, router) == 8
    && router in s.tasks && left in s.tasks && right in s.tasks
    && s.routers == [RouterRun(router, BothRead(left, x, right, y)), RouterRun(router, BothRead(left, x, right, y))]
  }

  lemma TwoAskingForm(router: Uuid, left: Uuid, x: string, right: Uuid, y: string)
    requires NoDuplicates([router, left, right])
    ensures BothAsked(TwoAsking(router, left, x, right, y), router, left, x, right, y)
  {
    AllCreatedForm(router, left, x, right, y);
  }

  /** One end after the other: each makes its own choice due. */
  lemma BothEnd(s: Sys, router: Uuid, left: Uuid, x: string, right: Uuid, y: string) returns (done: Sys)
    requires Reaches(Initial(0), s) && BothAsked(s, router, left, x, right, y)
    requires router != left && router != right && left != right && x != y && x != "" && y != ""
    ensures Reaches(Initial(0), done) && done.flight == s.flight
    ensures left in done.tasks && done.tasks[left].nextRun == 0 && right in done.tasks && done.tasks[right].nextRun == 0
  {
    ChoicesMatch(left, x, right, y);
    var t := EndRouter(s, x, 0);
    assert t.routers[0] == s.routers[1];
    done := EndRouter(t, y, 1);
  }

  /** One claim and one message of a decision router, nobody late, and two connections whose judges choose differently:
      eight requests, and two dependents made due. */
  lemma OneMessageTwoBranches(router: Uuid, left: Uuid, x: string, right: Uuid, y: string)
    requires NoDuplicates([router, left, right]) && x != y && x != "" && y != ""
    ensures exists s :: Reaches(Initial(0), s) && s.flight.late == {}
              && Get(s.flight.claims, router) == 1 && Get(s.flight.published, router) == 1
              && Get(s.flight.samplings, router) == 8
              && left in s.tasks && s.tasks[left].nextRun == 0 && right in s.tasks && s.tasks[right].nextRun == 0
  {
    var ids := [router, left, right];
    assert ids[0] == router && ids[1] == left && ids[2] == right;
    ToTwoAsking(router, left, x, right, y);
    TwoAskingForm(router, left, x, right, y);
    var done := BothEnd(TwoAsking(router, left, x, right, y), router, left, x, right, y);
    assert Reaches(Initial(0), done);
  }
}

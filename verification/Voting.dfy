/**
 Consensus of a swarm router in voting mode (scheduler.go). The agents answer concurrently, so their answers are
 recorded in any order; the record is a map, so it is counted in any order.
 */
module Voting {
  import opened Rows

  /** An agent's answer; "" when the agent failed or named no choice. */
  datatype Vote = Vote(agent: string, choice: string)

  function RecordOne(responses: map<string, string>, v: Vote): map<string, string> {
    if v.choice == "" then responses else responses[v.agent := v.choice]
  }

  /** What is recorded once every agent is done. */
  function Recorded(order: seq<Vote>): map<string, string> {
    if order == [] then map[] else RecordOne(Recorded(order[..|order| - 1]), order[|order| - 1])
  }

  function Voters(responses: map<string, string>, among: set<string>, choice: string): set<string> {
    set a | a in among && a in responses && responses[a] == choice
  }

  function Votes(responses: map<string, string>, choice: string): nat {
    |Voters(responses, responses.Keys, choice)|
  }

  /** More votes than any other choice. */
  ghost predicate Wins(responses: map<string, string>, choice: string) {
    Votes(responses, choice) > 0 && forall other :: other != choice ==> Votes(responses, other) < Votes(responses, choice)
  }

  /** The unique plurality choice, or "" when there is none. */
  ghost predicate IsConsensus(responses: map<string, string>, choice: string) {
    if choice == "" then forall c :: !Wins(responses, c) else Wins(responses, choice)
  }

  lemma ConsensusIsUnique(responses: map<string, string>, a: string, b: string)
    requires IsConsensus(responses, a) && IsConsensus(responses, b)
    ensures a == b
  {
    if a != "" && b != "" {
      assert b == a || Votes(responses, b) < Votes(responses, a);
    }
  }

  lemma {:induction false} RecordedAre(order: seq<Vote>, agent: string)
    ensures agent in Recorded(order) ==>
              Recorded(order)[agent] != "" && Vote(agent, Recorded(order)[agent]) in order
    ensures forall c :: c != "" && Vote(agent, c) in order ==> agent in Recorded(order)
  {
    if order != [] {
      RecordedAre(order[..|order| - 1], agent);
      assert order == order[..|order| - 1] + [order[|order| - 1]];
    }
  }

  // ----- Order of completion -----

  /** Answers under one name agree; in particular when the names are distinct. */
  predicate Consistent(votes: seq<Vote>) {
    forall i, j :: 0 <= i < j < |votes| && votes[i].agent == votes[j].agent && votes[i].choice != "" && votes[j].choice != ""
      ==> votes[i].choice == votes[j].choice
  }

  lemma SameRecord(a: seq<Vote>, b: seq<Vote>)
    requires multiset(a) == multiset(b) && Consistent(a)
    ensures Recorded(a) == Recorded(b)
  {
    forall agent
      ensures agent in Recorded(a) <==> agent in Recorded(b)
      ensures agent in Recorded(a) ==> Recorded(a)[agent] == Recorded(b)[agent]
    {
      RecordedAre(a, agent);
      RecordedAre(b, agent);
      assert forall v :: v in a <==> v in multiset(a);
      assert forall v :: v in b <==> v in multiset(b);
      if agent in Recorded(a) {
        var x, y := Vote(agent, Recorded(a)[agent]), Vote(agent, Recorded(b)[agent]);
        var i :| 0 <= i < |a| && a[i] == x;
        var j :| 0 <= j < |a| && a[j] == y;
      }
    }
  }

  lemma Permuted(votes: seq<Vote>, i: nat, j: nat)
    requires i < j < |votes|
    ensures var rest := votes[..i] + votes[i + 1..j] + votes[j + 1..];
            && multiset(rest + [votes[i]] + [votes[j]]) == multiset(votes)
            && multiset(rest + [votes[j]] + [votes[i]]) == multiset(votes)
  {
    assert votes == votes[..i] + [votes[i]] + votes[i + 1..j] + [votes[j]] + votes[j + 1..];
  }

  lemma RecordedAppend(votes: seq<Vote>, v: Vote)
    ensures Recorded(votes + [v]) == RecordOne(Recorded(votes), v)
  {
    assert (votes + [v])[..|votes|] == votes;
  }

  lemma LastRecorded(votes: seq<Vote>, v: Vote)
    requires v.choice != ""
    ensures v.agent in Recorded(votes + [v]) && Recorded(votes + [v])[v.agent] == v.choice
  {
    RecordedAppend(votes, v);
  }

  /** Two orders of the same votes whose records differ. */
  lemma OrderMatters(votes: seq<Vote>, i: nat, j: nat) returns (a: seq<Vote>, b: seq<Vote>)
    requires i < j < |votes| && votes[i].agent == votes[j].agent
    requires votes[i].choice != "" && votes[j].choice != "" && votes[i].choice != votes[j].choice
    ensures multiset(a) == multiset(votes) == multiset(b) && Recorded(a) != Recorded(b)
  {
    var rest := votes[..i] + votes[i + 1..j] + votes[j + 1..];
    Permuted(votes, i, j);
    a, b := rest + [votes[i]] + [votes[j]], rest + [votes[j]] + [votes[i]];
    LastRecorded(rest + [votes[i]], votes[j]);
    LastRecorded(rest + [votes[j]], votes[i]);
  }

  /** The record does not depend on the order of completion exactly if answers under one name agree. */
  lemma RecordIgnoresOrder(votes: seq<Vote>)
    ensures Consistent(votes)
            <==> forall a, b :: multiset(a) == multiset(votes) && multiset(b) == multiset(votes) ==> Recorded(a) == Recorded(b)
  {
    if Consistent(votes) {
      forall a, b | multiset(a) == multiset(votes) && multiset(b) == multiset(votes)
        ensures Recorded(a) == Recorded(b)
      {
        SameRecord(votes, a);
        SameRecord(votes, b);
      }
    } else {
      var i, j :| 0 <= i < j < |votes| && votes[i].agent == votes[j].agent
                  && votes[i].choice != "" && votes[j].choice != "" && votes[i].choice != votes[j].choice;
      var a, b := OrderMatters(votes, i, j);
    }
  }

  /** With distinct agent names the outcome is the same for every order of completion. */
  lemma DistinctNamesDecideAlike(a: seq<Vote>, b: seq<Vote>, ca: string, cb: string)
    requires multiset(a) == multiset(b)
    requires forall i, j :: 0 <= i < j < |a| ==> a[i].agent != a[j].agent
    requires IsConsensus(Recorded(a), ca) && IsConsensus(Recorded(b), cb)
    ensures ca == cb
  {
    SameRecord(a, b);
    ConsensusIsUnique(Recorded(a), ca, cb);
  }

  lemma SoleVote(agent: string, choice: string)
    requires choice != ""
    ensures IsConsensus(map[agent := choice], choice)
  {
    var r := map[agent := choice];
    assert Voters(r, r.Keys, choice) == {agent};
    forall other | other != choice
      ensures Votes(r, other) == 0
    {
      assert Voters(r, r.Keys, other) == {};
    }
  }

  /** Two council members under one name: whoever answers last decides. */
  lemma SharedNameDecidesByOrder(agent: string, x: string, y: string)
    requires x != y && x != "" && y != ""
    ensures IsConsensus(Recorded([Vote(agent, x), Vote(agent, y)]), y)
    ensures IsConsensus(Recorded([Vote(agent, y), Vote(agent, x)]), x)
  {
    LastOfTwo([], agent, x, y);
    LastOfTwo([], agent, y, x);
    assert [] + [Vote(agent, x)] + [Vote(agent, y)] == [Vote(agent, x), Vote(agent, y)];
    assert [] + [Vote(agent, y)] + [Vote(agent, x)] == [Vote(agent, y), Vote(agent, x)];
    SoleVote(agent, x);
    SoleVote(agent, y);
  }

  // ----- Which councils decide alike in every order -----

  /** What the members of a council answer. */
  function Ballots(names: seq<string>, answers: seq<string>): (votes: seq<Vote>)
    requires |names| == |answers|
    ensures |votes| == |names| && forall k :: 0 <= k < |votes| ==> votes[k] == Vote(names[k], answers[k])
  {
    seq(|names|, k requires 0 <= k < |names| => Vote(names[k], answers[k]))
  }

  /** The outcome of these votes when they come in this order. */
  ghost predicate Outcome(votes: seq<Vote>, order: seq<Vote>, choice: string) {
    multiset(order) == multiset(votes) && IsConsensus(Recorded(order), choice)
  }

  ghost predicate OneOutcome(votes: seq<Vote>) {
    forall a, b, x, y :: Outcome(votes, a, x) && Outcome(votes, b, y) ==> x == y
  }

  ghost predicate DecidesAlike(names: seq<string>) {
    forall answers: seq<string> :: |answers| == |names| ==> OneOutcome(Ballots(names, answers))
  }

  lemma {:induction false} SilenceRecordsNothing(votes: seq<Vote>)
    requires forall k :: 0 <= k < |votes| ==> votes[k].choice == ""
    ensures Recorded(votes) == map[]
  {
    if votes != [] {
      SilenceRecordsNothing(votes[..|votes| - 1]);
    }
  }

  lemma LastOfTwo(silent: seq<Vote>, agent: string, x: string, y: string)
    requires x != "" && y != "" && forall k :: 0 <= k < |silent| ==> silent[k].choice == ""
    ensures Recorded(silent + [Vote(agent, x)] + [Vote(agent, y)]) == map[agent := y]
  {
    SilenceRecordsNothing(silent);
    RecordedAppend(silent, Vote(agent, x));
    RecordedAppend(silent + [Vote(agent, x)], Vote(agent, y));
    assert map[agent := x][agent := y] == map[agent := y];
  }

  /** Everybody but the namesakes i and j is silent, and these two disagree. */
  function Dispute(n: nat, i: nat, j: nat): (answers: seq<string>)
    ensures |answers| == n
    ensures forall k :: 0 <= k < n ==> answers[k] == if k == i then "x" else if k == j then "y" else ""
  {
    seq(n, k => if k == i then "x" else if k == j then "y" else "")
  }

  lemma TwoOutcomes(votes: seq<Vote>, a: seq<Vote>, b: seq<Vote>, agent: string, x: string, y: string)
    requires multiset(a) == multiset(votes) == multiset(b) && x != "" && y != "" && x != y
    requires Recorded(a) == map[agent := y] && Recorded(b) == map[agent := x]
    ensures !OneOutcome(votes)
  {
    SoleVote(agent, x);
    SoleVote(agent, y);
    assert Outcome(votes, a, y) && Outcome(votes, b, x);
  }

  lemma NamesakesDecideByOrder(names: seq<string>, i: nat, j: nat)
    requires i < j < |names| && names[i] == names[j]
    ensures !OneOutcome(Ballots(names, Dispute(|names|, i, j)))
  {
    var votes := Ballots(names, Dispute(|names|, i, j));
    var rest := votes[..i] + votes[i + 1..j] + votes[j + 1..];
    assert forall k :: 0 <= k < |rest| ==> rest[k].choice == "";
    Permuted(votes, i, j);
    LastOfTwo(rest, names[i], "x", "y");
    LastOfTwo(rest, names[i], "y", "x");
    TwoOutcomes(votes, rest + [votes[i]] + [votes[j]], rest + [votes[j]] + [votes[i]], names[i], "x", "y");
  }

  lemma DistinctNamesOneOutcome(names: seq<string>, answers: seq<string>)
    requires NoDuplicates(names) && |answers| == |names|
    ensures OneOutcome(Ballots(names, answers))
  {
    var votes := Ballots(names, answers);
    forall a, b, x, y | Outcome(votes, a, x) && Outcome(votes, b, y)
      ensures x == y
    {
      SameRecord(votes, a);
      SameRecord(votes, b);
      ConsensusIsUnique(Recorded(votes), x, y);
    }
  }

  /** Whatever the members may answer, the outcome is the same for every order of completion exactly if the names of the
      council are distinct. */
  lemma DecidesAlikeIffDistinctNames(names: seq<string>)
    ensures DecidesAlike(names) <==> NoDuplicates(names)
  {
    if NoDuplicates(names) {
      forall answers: seq<string> | |answers| == |names|
        ensures OneOutcome(Ballots(names, answers))
      {
        DistinctNamesOneOutcome(names, answers);
      }
    } else {
      var i, j :| 0 <= i < j < |names| && names[i] == names[j];
      NamesakesDecideByOrder(names, i, j);
    }
  }

  // ----- The counting loops -----

  method Record(order: seq<Vote>) returns (responses: map<string, string>)
    ensures responses == Recorded(order)
    ensures "" !in responses.Values
  {
    responses := map[];
    for k := 0 to |order|
      invariant responses == Recorded(order[..k]) && "" !in responses.Values
    {
      assert order[..k + 1][..k] == order[..k];
      if order[k].choice != "" {
        responses := responses[order[k].agent := order[k].choice];
      }
    }
    assert order[..|order|] == order;
  }

  /** An order in which Go may walk the map. */
  ghost predicate IsListing(responses: map<string, string>, order: seq<string>) {
    NoDuplicates(order) && forall a :: a in order <==> a in responses
  }

  /** Votes for a choice among the agents of a list. */
  function VotesIn(responses: map<string, string>, agents: seq<string>, choice: string): nat
    requires forall a :: a in agents ==> a in responses
  {
    if agents == [] then 0
    else
      var last := agents[|agents| - 1];
      VotesIn(responses, agents[..|agents| - 1], choice) + (if responses[last] == choice then 1 else 0)
  }

  function Members(agents: seq<string>): set<string> {
    set a | a in agents
  }

  /** Every order counts the same. */
  lemma VotersWithOneMore(responses: map<string, string>, among: set<string>, last: string, choice: string)
    requires last in responses && last !in among
    ensures |Voters(responses, among + {last}, choice)|
            == |Voters(responses, among, choice)| + (if responses[last] == choice then 1 else 0)
  {
    assert Voters(responses, among + {last}, choice)
           == Voters(responses, among, choice) + (if responses[last] == choice then {last} else {});
  }

  lemma {:induction false} VotesAreVoters(responses: map<string, string>, agents: seq<string>, choice: string)
    requires NoDuplicates(agents) && forall a :: a in agents ==> a in responses
    ensures VotesIn(responses, agents, choice) == |Voters(responses, Members(agents), choice)|
  {
    if agents != [] {
      var before, last := agents[..|agents| - 1], agents[|agents| - 1];
      assert agents == before + [last] && last !in before;
      VotesAreVoters(responses, before, choice);
      VotersWithOneMore(responses, Members(before), last, choice);
      assert Members(agents) == Members(before) + {last};
    }
  }

  /** The counts after the answers of some agents. */
  ghost predicate Counted(responses: map<string, string>, agents: seq<string>, counts: map<string, nat>)
    requires forall a :: a in agents ==> a in responses
  {
    forall c :: (c in counts <==> VotesIn(responses, agents, c) > 0) && Get(counts, c) == VotesIn(responses, agents, c)
  }

  lemma CountOne(responses: map<string, string>, agents: seq<string>, counts: map<string, nat>, a: string)
    requires (forall x :: x in agents ==> x in responses) && Counted(responses, agents, counts) && a in responses
    ensures (forall x :: x in agents + [a] ==> x in responses)
    ensures Counted(responses, agents + [a], Inc(counts, responses[a]))
  {
    assert (agents + [a])[..|agents|] == agents;
    assert forall c :: VotesIn(responses, agents + [a], c)
                       == VotesIn(responses, agents, c) + (if responses[a] == c then 1 else 0);
  }

  /** The counts of a whole record, and a choice with the most votes. */
  ghost predicate Leads(responses: map<string, string>, counts: map<string, nat>, most: nat, leader: string) {
    && (forall c :: (c in counts <==> Votes(responses, c) > 0) && Get(counts, c) == Votes(responses, c))
    && (forall c :: c in counts ==> counts[c] <= most)
    && if responses == map[] then most == 0 && leader == "" else leader in counts && counts[leader] == most > 0
  }

  lemma AllCounted(responses: map<string, string>, order: seq<string>, counts: map<string, nat>)
    requires IsListing(responses, order) && Counted(responses, order, counts)
    ensures forall c :: (c in counts <==> Votes(responses, c) > 0) && Get(counts, c) == Votes(responses, c)
  {
    assert Members(order) == responses.Keys;
    forall c
      ensures VotesIn(responses, order, c) == Votes(responses, c)
    {
      VotesAreVoters(responses, order, c);
    }
  }

  /** The first loop, in any order. */
  method Tally(responses: map<string, string>, order: seq<string>) returns (counts: map<string, nat>, most: nat, leader: string)
    requires IsListing(responses, order)
    ensures Leads(responses, counts, most, leader)
  {
    counts, most, leader := map[], 0, "";
    for k := 0 to |order|
      invariant forall a :: a in order[..k] ==> a in responses
      invariant Counted(responses, order[..k], counts)
      invariant forall c :: c in counts ==> counts[c] <= most
      invariant if k == 0 then most == 0 && leader == "" else leader in counts && counts[leader] == most > 0
    {
      var a := order[k];
      assert a in order && order[..k + 1] == order[..k] + [a];
      var c := responses[a];
      CountOne(responses, order[..k], counts, a);
      counts := Inc(counts, c);
      if counts[c] > most {
        most, leader := counts[c], c;
      }
    }
    assert order[..|order|] == order;
    AllCounted(responses, order, counts);
    assert responses == map[] <==> order == [];
  }

  function TopChoices(counts: map<string, nat>, among: set<string>, most: nat): set<string> {
    set c | c in among && c in counts && counts[c] == most
  }

  lemma TopWithOneMore(counts: map<string, nat>, among: set<string>, c: string, most: nat)
    requires c in counts && c !in among
    ensures |TopChoices(counts, among + {c}, most)|
            == |TopChoices(counts, among, most)| + (if counts[c] == most then 1 else 0)
  {
    assert TopChoices(counts, among + {c}, most) == TopChoices(counts, among, most) + (if counts[c] == most then {c} else {});
  }

  method CountTop(counts: map<string, nat>, most: nat) returns (top: nat)
    ensures top == |TopChoices(counts, counts.Keys, most)|
  {
    top := 0;
    var remaining := counts.Keys;
    ghost var done: set<string> := {};
    while remaining != {}
      invariant done !! remaining && done + remaining == counts.Keys
      invariant top == |TopChoices(counts, done, most)|
      decreases |remaining|
    {
      var c :| c in remaining;
      TopWithOneMore(counts, done, c, most);
      if counts[c] == most {
        top := top + 1;
      }
      remaining, done := remaining - {c}, done + {c};
    }
  }

  lemma LeaderWinsAlone(responses: map<string, string>, counts: map<string, nat>, most: nat, leader: string)
    requires Leads(responses, counts, most, leader) && responses != map[]
    ensures |TopChoices(counts, counts.Keys, most)| <= 1 <==> Wins(responses, leader)
    ensures forall c :: Wins(responses, c) ==> c == leader
  {
    var top := TopChoices(counts, counts.Keys, most);
    assert leader in top;
    assert forall c :: Votes(responses, c) == Get(counts, c);
    if |top| <= 1 {
      assert |top - {leader}| == |top| - 1;
      assert top == {leader};
      forall other | other != leader
        ensures Votes(responses, other) < Votes(responses, leader)
      {
        assert other !in top;
      }
    }
    if Wins(responses, leader) {
      assert top == {leader};
    }
    forall c | Wins(responses, c)
      ensures c == leader
    {
      assert c == leader || Votes(responses, leader) < Votes(responses, c);
    }
  }

  /** In whatever order the map is walked, the outcome is the unique plurality choice, or "" without one. */
  method Resolve(responses: map<string, string>, order: seq<string>) returns (choice: string)
    requires "" !in responses.Values && IsListing(responses, order)
    ensures IsConsensus(responses, choice)
  {
    var counts, most, leader := Tally(responses, order);
    var ties := CountTop(counts, most);
    choice := leader;
    if ties > 1 {
      choice := "";
    }
    if responses == map[] {
      assert forall c :: Voters(responses, responses.Keys, c) == {};
    } else {
      LeaderWinsAlone(responses, counts, most, leader);
      assert Voters(responses, responses.Keys, leader) != {};
      var a :| a in Voters(responses, responses.Keys, leader);
      assert responses[a] == leader;
    }
  }
}

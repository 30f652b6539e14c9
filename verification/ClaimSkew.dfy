/**
 Two runs of concurrent claims. In the first, over two dependency chains, no sequential order explains them: each takes
 the parent of a row the other takes, which both snapshots still show active. In the second a due row is left behind
 although no claim takes it and nothing ever writes it.
 */
module ClaimSkew {
  import opened Rows
  import opened ClaimRace

  ghost predicate Reaches(s: Race, t: Race) {
    exists moves :: IsRun(s, moves) && After(s, moves) == t
  }

  lemma {:induction false} Extend(r: Race, moves: seq<Move>, m: Move)
    requires IsRun(r, moves) && Possible(After(r, moves), m)
    ensures IsRun(r, moves + [m]) && After(r, moves + [m]) == Apply(After(r, moves), m)
    decreases |moves|
  {
    if moves == [] {
      assert [m][1..] == [];
    } else {
      assert (moves + [m])[1..] == moves[1..] + [m];
      Extend(Apply(r, moves[0]), moves[1..], m);
    }
  }

  lemma Next(s: Race, r: Race, m: Move)
    requires Reaches(s, r) && Possible(r, m)
    ensures Reaches(s, Apply(r, m))
  {
    var moves :| IsRun(s, moves) && After(s, moves) == r;
    Extend(s, moves, m);
  }

  /** b depends on a, d on c; all four are due since 0 and belong to one user. */
  predicate Chains(first: Tasks, a: Uuid, b: Uuid, c: Uuid, d: Uuid) {
    && NoDuplicates([a, b, c, d]) && first.Keys == {a, b, c, d}
    && (forall i :: i in first ==> first[i].status == Active && first[i].nextRun == 0 && first[i].user == first[a].user)
    && first[a].def.dependsOn == None && first[b].def.dependsOn == Some(a)
    && first[c].def.dependsOn == None && first[d].def.dependsOn == Some(c)
  }

  /** A claim that has scanned the first `n` rows of its order and taken them all. */
  function Taking(first: Tasks, since: nat, order: seq<Uuid>, n: nat): Tx
    requires n <= |order|
  {
    Tx("w", 2, 0, 0, since, first, order, n, order[..n], map[])
  }

  function Open(first: Tasks, left: seq<Uuid>, n: nat, right: seq<Uuid>, m: nat): Race
    requires n <= |left| && m <= |right|
  {
    Race(first, map[0 := Taking(first, 0, left, n), 1 := Taking(first, 1, right, m)], {}, [], {0, 1}, 2 + n + m)
  }

  lemma BeginBoth(first: Tasks, left: seq<Uuid>, right: seq<Uuid>)
    requires IsScanOrder(left, first, 0) && IsScanOrder(right, first, 0)
    ensures Reaches(Start(first), Open(first, left, 0, right, 0))
  {
    var s := Start(first);
    assert IsRun(s, []) && After(s, []) == s;
    Next(s, s, Begin(0, "w", 2, 0, left));
    Next(s, Apply(s, Begin(0, "w", 2, 0, left)), Begin(1, "w", 2, 0, right));
    assert Apply(Apply(s, Begin(0, "w", 2, 0, left)), Begin(1, "w", 2, 0, right)) == Open(first, left, 0, right, 0);
  }

  lemma ScanFree(r: Race, tx: nat, id: Uuid)
    requires r.locks == {} && forall other :: other != tx ==> !HeldBy(r, other, id)
    ensures !LockedByOthers(r, tx, id)
  {
    forall holder | holder != ByClaim(tx)
      ensures !HasLock(r, Hold(holder, id))
    {
    }
  }

  /** The next row of a claim that only took rows so far is taken too. */
  lemma TakesNext(r: Race, tx: nat, first: Tasks, since: nat, order: seq<Uuid>, n: nat)
    requires Possible(r, Scan(tx)) && n < |order| && r.open[tx] == Taking(first, since, order, n)
    requires r.rows == first && Eligible(first, 0, order[n]) && !LockedByOthers(r, tx, order[n])
    ensures ScanOne(r, tx) == Taking(first, since, order, n + 1)
  {
    assert order[..n + 1] == order[..n] + [order[n]];
  }

  lemma ScanLeft(first: Tasks, left: seq<Uuid>, n: nat, right: seq<Uuid>, m: nat)
    requires n < |left| && n < 2 && m <= |right| && Eligible(first, 0, left[n]) && left[n] !in right[..m]
    requires Reaches(Start(first), Open(first, left, n, right, m))
    ensures Reaches(Start(first), Open(first, left, n + 1, right, m))
  {
    var r := Open(first, left, n, right, m);
    ScanFree(r, 0, left[n]);
    TakesNext(r, 0, first, 0, left, n);
    Next(Start(first), r, Scan(0));
    assert Apply(r, Scan(0)) == Open(first, left, n + 1, right, m);
  }

  lemma ScanRight(first: Tasks, left: seq<Uuid>, n: nat, right: seq<Uuid>, m: nat)
    requires m < |right| && m < 2 && n <= |left| && Eligible(first, 0, right[m]) && right[m] !in left[..n]
    requires Reaches(Start(first), Open(first, left, n, right, m))
    ensures Reaches(Start(first), Open(first, left, n, right, m + 1))
  {
    var r := Open(first, left, n, right, m);
    ScanFree(r, 1, right[m]);
    TakesNext(r, 1, first, 1, right, m);
    Next(Start(first), r, Scan(1));
    assert Apply(r, Scan(1)) == Open(first, left, n, right, m + 1);
  }

  function BothLogged(first: Tasks, left: seq<Uuid>, right: seq<Uuid>): seq<Entry>
    requires |left| >= 2 && |right| >= 2
  {
    [Claimed(0, Taking(first, 0, left, 2), 6), Claimed(1, Taking(first, 1, right, 2), 7)]
  }

  lemma CommitBoth(first: Tasks, left: seq<Uuid>, right: seq<Uuid>)
    requires |left| >= 2 && |right| >= 2 && Reaches(Start(first), Open(first, left, 2, right, 2))
    ensures exists r :: Reaches(Start(first), r) && r.log == BothLogged(first, left, right)
  {
    var s, r := Start(first), Open(first, left, 2, right, 2);
    Next(s, r, Commit(0));
    Next(s, Apply(r, Commit(0)), Commit(1));
    var r' := Apply(Apply(r, Commit(0)), Commit(1));
    assert r'.log == BothLogged(first, left, right);
    assert Reaches(s, r');
  }

  lemma ScanOrders(first: Tasks, a: Uuid, b: Uuid, c: Uuid, d: Uuid)
    requires Chains(first, a, b, c, d)
    ensures IsScanOrder([a, d, b, c], first, 0) && IsScanOrder([c, b, a, d], first, 0)
  {
    assert forall id :: id in first ==> Eligible(first, 0, id);
    var ids := [a, b, c, d];
    assert ids[0] == a && ids[1] == b && ids[2] == c && ids[3] == d;
  }

  lemma ParentsGone(first: Tasks, a: Uuid, b: Uuid, c: Uuid, d: Uuid)
    requires Chains(first, a, b, c, d)
    ensures !Eligible(ClaimAll(first, [a, d], "w"), 0, b) && !Eligible(ClaimAll(first, [c, b], "w"), 0, d)
  {
    var ids := [a, b, c, d];
    assert ids[0] == a && ids[1] == b && ids[2] == c && ids[3] == d;
    ClaimAllRow(first, [a, d], "w", a);
    ClaimAllRow(first, [a, d], "w", b);
    ClaimAllRow(first, [c, b], "w", c);
    ClaimAllRow(first, [c, b], "w", d);
  }

  lemma ScanLeftTwice(first: Tasks, left: seq<Uuid>, right: seq<Uuid>)
    requires |left| >= 2 && Eligible(first, 0, left[0]) && Eligible(first, 0, left[1])
    requires Reaches(Start(first), Open(first, left, 0, right, 0))
    ensures Reaches(Start(first), Open(first, left, 2, right, 0))
  {
    ScanLeft(first, left, 0, right, 0);
    ScanLeft(first, left, 1, right, 0);
  }

  lemma ScanRightTwice(first: Tasks, left: seq<Uuid>, right: seq<Uuid>)
    requires |left| >= 2 && |right| >= 2 && Eligible(first, 0, right[0]) && Eligible(first, 0, right[1])
    requires right[0] !in left[..2] && right[1] !in left[..2]
    requires Reaches(Start(first), Open(first, left, 2, right, 0))
    ensures Reaches(Start(first), Open(first, left, 2, right, 2))
  {
    ScanRight(first, left, 2, right, 0);
    ScanRight(first, left, 2, right, 1);
  }

  lemma BothCommit(first: Tasks, left: seq<Uuid>, right: seq<Uuid>)
    requires IsScanOrder(left, first, 0) && IsScanOrder(right, first, 0) && |left| >= 2 && |right| >= 2
    requires right[0] !in left[..2] && right[1] !in left[..2]
    ensures exists r :: Reaches(Start(first), r) && r.log == BothLogged(first, left, right)
  {
    BeginBoth(first, left, right);
    assert left[0] in left && left[1] in left && right[0] in right && right[1] in right;
    ScanLeftTwice(first, left, right);
    ScanRightTwice(first, left, right);
    CommitBoth(first, left, right);
  }

  /** The two claims commit, yet after either one a row of the other is no longer eligible. */
  lemma NoSequentialOrder(first: Tasks, a: Uuid, b: Uuid, c: Uuid, d: Uuid)
    requires Chains(first, a, b, c, d)
    ensures exists r :: Reaches(Start(first), r) && |r.log| == 2
              && r.log[0].Claimed? && r.log[0].claim.picked == [a, d]
              && r.log[1].Claimed? && r.log[1].claim.picked == [c, b]
    ensures !Eligible(ClaimAll(first, [a, d], "w"), 0, b) && !Eligible(ClaimAll(first, [c, b], "w"), 0, d)
  {
    var left, right, ids := [a, d, b, c], [c, b, a, d], [a, b, c, d];
    assert ids[0] == a && ids[1] == b && ids[2] == c && ids[3] == d;
    ScanOrders(first, a, b, c, d);
    assert left[..2] == [a, d] && right[..2] == [c, b];
    BothCommit(first, left, right);
    ParentsGone(first, a, b, c, d);
  }

  // ----- A row that is locked but not written -----

  /** One row, due since 0 and without parent. */
  predicate OneDue(first: Tasks, id: Uuid) {
    first.Keys == {id} && first[id].status == Active && first[id].nextRun == 0 && first[id].def.dependsOn == None
  }

  /** The claim has come to the row while another transaction held its lock. */
  function PassedOver(first: Tasks, id: Uuid): Tx {
    Tx("w", 1, 0, 0, 0, first, [id], 1, [], map[id := Held(ByOther(1), 2)])
  }

  function Begun(first: Tasks, id: Uuid): Race {
    Race(first, map[0 := Tx("w", 1, 0, 0, 0, first, [id], 0, [], map[])], {}, [], {0}, 1)
  }

  function Locked(first: Tasks, id: Uuid): Race {
    Begun(first, id).(locks := {Hold(ByOther(1), id)}, clock := 2)
  }

  lemma BeginThenLock(first: Tasks, id: Uuid)
    requires OneDue(first, id)
    ensures Reaches(Start(first), Locked(first, id))
  {
    var s, begin := Start(first), Begin(0, "w", 1, 0, [id]);
    assert Eligible(first, 0, id);
    assert IsRun(s, []) && After(s, []) == s;
    Next(s, s, begin);
    assert Apply(s, begin) == Begun(first, id);
    Next(s, Begun(first, id), Lock(1, id));
    assert Apply(Begun(first, id), Lock(1, id)) == Locked(first, id);
  }

  lemma ScanPassesOver(first: Tasks, id: Uuid)
    ensures Possible(Locked(first, id), Scan(0)) && ScanOne(Locked(first, id), 0) == PassedOver(first, id)
  {
    assert HasLock(Locked(first, id), Hold(ByOther(1), id));
    OnlyLock(Locked(first, id), id);
  }

  lemma LockThenScan(first: Tasks, id: Uuid)
    requires OneDue(first, id)
    ensures Reaches(Start(first), Race(first, map[0 := PassedOver(first, id)], {Hold(ByOther(1), id)}, [], {0}, 3))
  {
    BeginThenLock(first, id);
    ScanPassesOver(first, id);
    Next(Start(first), Locked(first, id), Scan(0));
    assert Apply(Locked(first, id), Scan(0))
           == Race(first, map[0 := PassedOver(first, id)], {Hold(ByOther(1), id)}, [], {0}, 3);
  }

  lemma OnlyLock(r: Race, id: Uuid)
    requires r.locks == {Hold(ByOther(1), id)} && r.open.Keys == {0}
    ensures forall holder :: holder != ByClaim(0) && HasLock(r, Hold(holder, id)) ==> holder == ByOther(1)
  {
    forall holder | holder != ByClaim(0) && HasLock(r, Hold(holder, id))
      ensures holder == ByOther(1)
    {
    }
  }

  /** A transaction that locks a due row and ends without writing it makes a claim end with an empty batch: the row is
      left behind, and nothing in the log ever touches it. */
  lemma LockedRowLeftBehind(first: Tasks, id: Uuid)
    requires OneDue(first, id)
    ensures exists r :: Reaches(Start(first), r) && r.log == [Claimed(0, PassedOver(first, id), 4)] && r.rows == first
    ensures Eligible(first, 0, id) && |PassedOver(first, id).picked| < PassedOver(first, id).batch
  {
    var s := Start(first);
    var r := Race(first, map[0 := PassedOver(first, id)], {Hold(ByOther(1), id)}, [], {0}, 3);
    LockThenScan(first, id);
    Next(s, r, Finish(1));
    var ended := Apply(r, Finish(1));
    Next(s, ended, Commit(0));
    var done := Apply(ended, Commit(0));
    assert done.log == [Claimed(0, PassedOver(first, id), 4)] && done.rows == first;
    assert Reaches(s, done);
  }
}

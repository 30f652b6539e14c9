/**
 fn_claim_due_tasks run by many workers at once. Every claim reads a snapshot, locks rows one by one with FOR UPDATE
 SKIP LOCKED, checks each row it locks again, and writes at commit. Other transactions lock rows as well: to write
 them, or only because a row that refers to them is inserted; they wait for the locks of claims. The log lists
 committed changes in commit order.
 */
module ClaimRace {
  import opened Rows

  predicate ParentAllows(tasks: Tasks, t: Task) {
    t.def.dependsOn.None? ||
    (var p := t.def.dependsOn.value;
     p in tasks && tasks[p].user == t.user && (tasks[p].status == Completed || tasks[p].status == Active))
  }

  predicate Due(t: Task, now: int) {
    t.nextRun <= now && t.status == Active
  }

  /** The WHERE clause of the claim. */
  predicate Eligible(tasks: Tasks, now: int, id: Uuid) {
    id in tasks && Due(tasks[id], now) && ParentAllows(tasks, tasks[id])
  }

  datatype Holder = ByClaim(tx: nat) | ByOther(tx: nat)

  /** A lock on a row that keeps FOR UPDATE out. */
  datatype Hold = Hold(holder: Holder, id: Uuid)

  /** Why an eligible row of the snapshot was passed over; `at` counts the moves before that. */
  datatype Skip = Held(holder: Holder, at: nat) | Changed

  datatype Tx = Tx(
    worker: string,
    batch: nat,
    now: int,
    begun: nat,                // length of the log when the snapshot was taken
    since: nat,                // moves before that
    snapshot: Tasks,
    order: seq<Uuid>,          // the eligible rows of the snapshot by next_run
    scanned: nat,
    picked: seq<Uuid>,
    skipped: map<Uuid, Skip>)

  datatype Entry = Claimed(tx: nat, claim: Tx, when: nat) | Written(id: Uuid, row: Option<Task>)

  datatype Race = Race(
    rows: Tasks,
    open: map<nat, Tx>,        // claims under way
    locks: set<Hold>,          // row locks of other transactions
    log: seq<Entry>,
    started: set<nat>,
    clock: nat)                // moves so far

  datatype Move =
    | Begin(tx: nat, worker: string, batch: nat, now: int, order: seq<Uuid>)
    | Scan(tx: nat)
    | Commit(tx: nat)
    | Lock(tx: nat, id: Uuid)                          // another transaction locks a row
    | Write(tx: nat, id: Uuid, row: Option<Task>)      // a new version of a row it locked, a deletion, or a new row
    | Finish(tx: nat)                                  // it ends, having written the rows it locked or not

  /** `ORDER BY next_run` over exactly the eligible rows. */
  ghost predicate IsScanOrder(order: seq<Uuid>, tasks: Tasks, now: int) {
    && NoDuplicates(order)
    && (forall id :: id in order <==> Eligible(tasks, now, id))
    && (forall i, j :: 0 <= i < j < |order| && order[i] in tasks && order[j] in tasks ==>
          tasks[order[i]].nextRun <= tasks[order[j]].nextRun)
  }

  ghost predicate HeldBy(r: Race, tx: nat, id: Uuid) {
    tx in r.open && id in r.open[tx].picked
  }

  /** Every row lock there is. */
  ghost predicate HasLock(r: Race, h: Hold) {
    match h.holder
    case ByClaim(tx) => HeldBy(r, tx, h.id)
    case ByOther(_) => h in r.locks
  }

  predicate Done(t: Tx) {
    t.scanned == |t.order| || |t.picked| == t.batch
  }

  ghost predicate Possible(r: Race, m: Move) {
    match m
    case Begin(tx, _, _, now, order) => tx !in r.started && IsScanOrder(order, r.rows, now)
    case Scan(tx) => tx in r.open && r.open[tx].scanned < |r.open[tx].order| && !Done(r.open[tx])
    case Commit(tx) => tx in r.open && Done(r.open[tx])
    case Lock(tx, id) => id in r.rows && forall claim :: !HeldBy(r, claim, id)
    case Write(tx, id, _) =>
      (id in r.rows ==> Hold(ByOther(tx), id) in r.locks) && forall claim :: !HeldBy(r, claim, id)
    case Finish(_) => true
  }

  function ClaimAll(tasks: Tasks, ids: seq<Uuid>, worker: string): Tasks {
    if ids == [] then tasks else Update(ClaimAll(tasks, ids[..|ids| - 1], worker), ids[|ids| - 1], Claim(worker))
  }

  function WriteRow(tasks: Tasks, id: Uuid, row: Option<Task>): Tasks {
    match row
    case Some(t) => tasks[id := t]
    case None => tasks - {id}
  }

  /** The check of the locked row: its latest version, joined with the parent as the snapshot shows it. */
  predicate StillEligible(t: Tx, rows: Tasks, id: Uuid) {
    && id in rows && id in t.snapshot
    && Due(rows[id], t.now) && ParentAllows(t.snapshot, rows[id])
    && (rows[id].def.dependsOn.Some? ==> rows[id].def.dependsOn == t.snapshot[id].def.dependsOn)
  }

  ghost predicate LockedByOthers(r: Race, tx: nat, id: Uuid) {
    exists holder :: holder != ByClaim(tx) && HasLock(r, Hold(holder, id))
  }

  ghost function ScanOne(r: Race, tx: nat): Tx
    requires Possible(r, Scan(tx))
  {
    var t := r.open[tx];
    var id := t.order[t.scanned];
    var t' := t.(scanned := t.scanned + 1);
    if LockedByOthers(r, tx, id) then
      var holder :| holder != ByClaim(tx) && HasLock(r, Hold(holder, id));
      t'.(skipped := t.skipped[id := Held(holder, r.clock)])
    else if StillEligible(t, r.rows, id) then t'.(picked := t.picked + [id])
    else t'.(skipped := t.skipped[id := Changed])
  }

  ghost function Effect(r: Race, m: Move): Race
    requires Possible(r, m)
  {
    match m
    case Begin(tx, worker, batch, now, order) =>
      r.(open := r.open[tx := Tx(worker, batch, now, |r.log|, r.clock, r.rows, order, 0, [], map[])],
         started := r.started + {tx})
    case Scan(tx) => r.(open := r.open[tx := ScanOne(r, tx)])
    case Commit(tx) =>
      var t := r.open[tx];
      r.(rows := ClaimAll(r.rows, t.picked, t.worker), open := r.open - {tx},
         log := r.log + [Claimed(tx, t, r.clock)])
    case Lock(tx, id) => r.(locks := r.locks + {Hold(ByOther(tx), id)})
    case Write(_, id, row) => r.(rows := WriteRow(r.rows, id, row), log := r.log + [Written(id, row)])
    case Finish(tx) => r.(locks := set h | h in r.locks && h.holder != ByOther(tx))
  }

  ghost function Apply(r: Race, m: Move): Race
    requires Possible(r, m)
  {
    Effect(r, m).(clock := r.clock + 1)
  }

  ghost predicate IsRun(r: Race, moves: seq<Move>)
    decreases |moves|
  {
    moves == [] || (Possible(r, moves[0]) && IsRun(Apply(r, moves[0]), moves[1..]))
  }

  ghost function After(r: Race, moves: seq<Move>): Race
    requires IsRun(r, moves)
    decreases |moves|
  {
    if moves == [] then r else After(Apply(r, moves[0]), moves[1..])
  }

  function Start(first: Tasks): Race {
    Race(first, map[], {}, [], {}, 0)
  }

  /** The states of a run, each before one of its moves. */
  ghost function History(r: Race, moves: seq<Move>): (past: seq<Race>)
    requires IsRun(r, moves)
    ensures |past| == |moves|
    decreases |moves|
  {
    if moves == [] then [] else [r] + History(Apply(r, moves[0]), moves[1..])
  }

  // ----- The sequential reading of the log -----

  function Play(tasks: Tasks, e: Entry): Tasks {
    match e
    case Claimed(_, t, _) => ClaimAll(tasks, t.picked, t.worker)
    case Written(id, row) => WriteRow(tasks, id, row)
  }

  function PlayAll(tasks: Tasks, log: seq<Entry>): Tasks {
    if log == [] then tasks else Play(PlayAll(tasks, log[..|log| - 1]), log[|log| - 1])
  }

  predicate Touches(e: Entry, id: Uuid) {
    match e
    case Claimed(_, t, _) => id in t.picked
    case Written(j, _) => j == id
  }

  /** A claim that runs on its own, on the table as the earlier log entries left it: distinct rows, at most a batch,
      all eligible in its snapshot, and there still due and with a parent that its snapshot allows. */
  ghost predicate Legal(first: Tasks, log: seq<Entry>, n: nat)
    requires n < |log| && log[n].Claimed?
  {
    var before, t := PlayAll(first, log[..n]), log[n].claim;
    && t.begun <= n && t.snapshot == PlayAll(first, log[..t.begun])
    && NoDuplicates(t.picked) && |t.picked| <= t.batch
    && (forall id :: id in t.picked ==> StillEligible(t, before, id) && Eligible(t.snapshot, t.now, id))
  }

  ghost predicate TouchedSince(log: seq<Entry>, begun: nat, end: nat, id: Uuid) {
    exists k :: begun <= k < end && k < |log| && Touches(log[k], id)
  }

  /** Somebody else, a claim or not, held a lock on the row at that point of the past, within these bounds. */
  ghost predicate WasLocked(past: seq<Race>, holder: Holder, tx: nat, id: Uuid, since: nat, at: nat, until: nat) {
    holder != ByClaim(tx) && since < at < until && at < |past| && HasLock(past[at], Hold(holder, id))
  }

  ghost predicate SkippedFor(past: seq<Race>, log: seq<Entry>, tx: nat, t: Tx, end: nat, until: nat, id: Uuid) {
    id in t.skipped &&
    match t.skipped[id]
    case Held(holder, at) => WasLocked(past, holder, tx, id, t.since, at, until)
    case Changed => TouchedSince(log, t.begun, end, id)
  }

  /** The batch is full, of rows that come no later. */
  ghost predicate BatchCameFirst(t: Tx, id: Uuid)
    requires id in t.snapshot
  {
    |t.picked| == t.batch && forall i :: i in t.picked ==> i in t.snapshot && t.snapshot[i].nextRun <= t.snapshot[id].nextRun
  }

  /** Every eligible row a claim left behind was locked by another transaction when the claim came to it, or changed
      since the snapshot, or comes no earlier than any row of a full batch. */
  ghost predicate LeftBehind(past: seq<Race>, log: seq<Entry>, n: nat)
    requires n < |log| && log[n].Claimed?
  {
    var t := log[n].claim;
    forall id :: Eligible(t.snapshot, t.now, id) && id !in t.picked ==>
      SkippedFor(past, log, log[n].tx, t, n, log[n].when, id) || BatchCameFirst(t, id)
  }

  // ----- The invariant -----

  ghost predicate TxOk(first: Tasks, past: seq<Race>, r: Race, tx: nat, t: Tx) {
    && t.begun <= |r.log| && t.snapshot == PlayAll(first, r.log[..t.begun]) && t.since < r.clock
    && IsScanOrder(t.order, t.snapshot, t.now)
    && t.scanned <= |t.order| && |t.picked| <= t.batch && NoDuplicates(t.picked)
    && (forall id :: id in t.picked ==> id in t.order[..t.scanned] && StillEligible(t, r.rows, id))
    && (forall id :: id in t.order[..t.scanned] && id !in t.picked ==>
          SkippedFor(past, r.log, tx, t, |r.log|, r.clock, id))
  }

  ghost predicate LogOk(first: Tasks, past: seq<Race>, log: seq<Entry>) {
    forall n :: 0 <= n < |log| && log[n].Claimed? ==> Legal(first, log, n) && LeftBehind(past, log, n)
  }

  ghost predicate RaceOk(first: Tasks, past: seq<Race>, r: Race) {
    && r.rows == PlayAll(first, r.log) && |past| == r.clock
    && (forall tx :: tx in r.open ==> TxOk(first, past, r, tx, r.open[tx]))
    && (forall a, b, id :: a != b && HeldBy(r, a, id) ==> !HeldBy(r, b, id))
    && LogOk(first, past, r.log)
    && r.open.Keys <= r.started
  }

  predicate Agree(a: Tasks, b: Tasks, id: Uuid) {
    (id in a <==> id in b) && (id in a ==> a[id] == b[id])
  }

  lemma {:induction false} ClaimAllRow(tasks: Tasks, ids: seq<Uuid>, worker: string, id: Uuid)
    ensures id !in ids ==> Agree(tasks, ClaimAll(tasks, ids, worker), id)
    ensures id in ids && id in tasks ==>
              id in ClaimAll(tasks, ids, worker) && ClaimAll(tasks, ids, worker)[id] == Claim(worker).On(tasks[id])
    ensures id !in tasks ==> id !in ClaimAll(tasks, ids, worker)
  {
    if ids != [] {
      ClaimAllRow(tasks, ids[..|ids| - 1], worker, id);
    }
  }

  lemma {:induction false} UntouchedAgree(first: Tasks, log: seq<Entry>, begun: nat, end: nat, id: Uuid)
    requires begun <= end <= |log| && !TouchedSince(log, begun, end, id)
    ensures Agree(PlayAll(first, log[..begun]), PlayAll(first, log[..end]), id)
  {
    if begun < end {
      UntouchedAgree(first, log, begun, end - 1, id);
      assert log[..end][..end - 1] == log[..end - 1];
      assert !Touches(log[end - 1], id);
      if log[end - 1].Claimed? {
        ClaimAllRow(PlayAll(first, log[..end - 1]), log[end - 1].claim.picked, log[end - 1].claim.worker, id);
      }
    }
  }

  // ----- What stays when log and past grow -----

  ghost predicate Extends<T>(s: seq<T>, s': seq<T>) {
    |s| <= |s'| && s'[..|s|] == s
  }

  lemma ExtendsAt<T>(s: seq<T>, s': seq<T>, k: nat)
    requires Extends(s, s') && k < |s|
    ensures s'[k] == s[k]
  {
    assert s'[k] == s'[..|s|][k];
  }

  lemma ExtendsPrefix<T>(s: seq<T>, s': seq<T>, k: nat)
    requires Extends(s, s') && k <= |s|
    ensures s'[..k] == s[..k]
  {
    assert s'[..k] == s'[..|s|][..k];
  }

  lemma SkippedStays(past: seq<Race>, past': seq<Race>, log: seq<Entry>, log': seq<Entry>, tx: nat, t: Tx,
                     end: nat, end': nat, until: nat, until': nat, id: Uuid)
    requires Extends(past, past') && Extends(log, log') && end <= end' && until <= until'
    requires SkippedFor(past, log, tx, t, end, until, id)
    ensures SkippedFor(past', log', tx, t, end', until', id)
  {
    match t.skipped[id] {
      case Held(_, at) => ExtendsAt(past, past', at);
      case Changed =>
        var k :| t.begun <= k < end && k < |log| && Touches(log[k], id);
        ExtendsAt(log, log', k);
    }
  }

  lemma EntryStays(first: Tasks, past: seq<Race>, past': seq<Race>, log: seq<Entry>, log': seq<Entry>, n: nat)
    requires Extends(past, past') && Extends(log, log') && LogOk(first, past, log) && n < |log| && log[n].Claimed?
    ensures log'[n] == log[n] && Legal(first, log', n) && LeftBehind(past', log', n)
  {
    var tx, t, when := log[n].tx, log[n].claim, log[n].when;
    assert Legal(first, log, n);
    ExtendsAt(log, log', n);
    ExtendsPrefix(log, log', n);
    ExtendsPrefix(log, log', t.begun);
    forall id | Eligible(t.snapshot, t.now, id) && id !in t.picked && SkippedFor(past, log, tx, t, n, when, id)
      ensures SkippedFor(past', log', tx, t, n, when, id)
    {
      SkippedStays(past, past', log, log', tx, t, n, n, when, when, id);
    }
  }

  /** At most one entry is new. */
  lemma LogStays(first: Tasks, past: seq<Race>, past': seq<Race>, log: seq<Entry>, log': seq<Entry>)
    requires Extends(past, past') && Extends(log, log') && LogOk(first, past, log) && |log'| <= |log| + 1
    requires |log'| > |log| && log'[|log|].Claimed? ==> Legal(first, log', |log|) && LeftBehind(past', log', |log|)
    ensures LogOk(first, past', log')
  {
    forall n | 0 <= n < |log'| && log'[n].Claimed?
      ensures Legal(first, log', n) && LeftBehind(past', log', n)
    {
      if n < |log| {
        ExtendsAt(log, log', n);
        EntryStays(first, past, past', log, log', n);
      }
    }
  }

  lemma TxStays(first: Tasks, past: seq<Race>, past': seq<Race>, r: Race, r': Race, tx: nat)
    requires RaceOk(first, past, r) && tx in r.open
    requires Extends(past, past') && Extends(r.log, r'.log) && r.clock <= r'.clock
    requires forall id :: id in r.open[tx].picked ==> Agree(r.rows, r'.rows, id)
    ensures TxOk(first, past', r', tx, r.open[tx])
  {
    var t := r.open[tx];
    ExtendsPrefix(r.log, r'.log, t.begun);
    forall id | id in t.order[..t.scanned] && id !in t.picked
      ensures SkippedFor(past', r'.log, tx, t, |r'.log|, r'.clock, id)
    {
      SkippedStays(past, past', r.log, r'.log, tx, t, |r.log|, |r'.log|, r.clock, r'.clock, id);
    }
  }

  // ----- Begin, and the moves of other transactions -----

  lemma ExtendsItself<T>(s: seq<T>, x: T)
    ensures Extends(s, s) && Extends(s, s + [x])
  {
  }

  lemma BeginTx(first: Tasks, past: seq<Race>, r: Race, m: Move, tx: nat)
    requires RaceOk(first, past, r) && m.Begin? && Possible(r, m)
    requires tx in r.open || tx == m.tx
    ensures TxOk(first, past + [r], Apply(r, m), tx, Apply(r, m).open[tx])
  {
    ExtendsItself(past, r);
    ExtendsItself(r.log, Written(NIL, None));
    if tx == m.tx {
      assert r.log[..|r.log|] == r.log;
    } else {
      TxStays(first, past, past + [r], r, Apply(r, m), tx);
    }
  }

  lemma BeginStays(first: Tasks, past: seq<Race>, r: Race, m: Move)
    requires RaceOk(first, past, r) && m.Begin? && Possible(r, m)
    ensures RaceOk(first, past + [r], Apply(r, m))
  {
    var r' := Apply(r, m);
    ExtendsItself(past, r);
    ExtendsItself(r.log, Written(NIL, None));
    forall tx | tx in r'.open
      ensures TxOk(first, past + [r], r', tx, r'.open[tx])
    {
      BeginTx(first, past, r, m, tx);
    }
    LogStays(first, past, past + [r], r.log, r'.log);
    assert forall a, id :: HeldBy(r', a, id) ==> HeldBy(r, a, id);
  }

  /** Locks come and go without anything else. */
  lemma LocksStay(first: Tasks, past: seq<Race>, r: Race, m: Move)
    requires RaceOk(first, past, r) && (m.Lock? || m.Finish?) && Possible(r, m)
    ensures RaceOk(first, past + [r], Apply(r, m))
  {
    var r' := Apply(r, m);
    ExtendsItself(past, r);
    ExtendsItself(r.log, Written(NIL, None));
    forall tx | tx in r'.open
      ensures TxOk(first, past + [r], r', tx, r'.open[tx])
    {
      TxStays(first, past, past + [r], r, r', tx);
    }
    LogStays(first, past, past + [r], r.log, r'.log);
    assert forall a, id :: HeldBy(r', a, id) ==> HeldBy(r, a, id);
  }

  lemma WriteSparesClaims(first: Tasks, past: seq<Race>, r: Race, m: Move, tx: nat)
    requires RaceOk(first, past, r) && m.Write? && Possible(r, m) && tx in r.open
    ensures TxOk(first, past + [r], Apply(r, m), tx, r.open[tx])
  {
    ExtendsItself(past, r);
    ExtendsItself(r.log, Written(m.id, m.row));
    forall j | j in r.open[tx].picked
      ensures Agree(r.rows, Apply(r, m).rows, j)
    {
      assert HeldBy(r, tx, j);
    }
    TxStays(first, past, past + [r], r, Apply(r, m), tx);
  }

  lemma WriteStays(first: Tasks, past: seq<Race>, r: Race, m: Move)
    requires RaceOk(first, past, r) && m.Write? && Possible(r, m)
    ensures RaceOk(first, past + [r], Apply(r, m))
  {
    var r' := Apply(r, m);
    ExtendsItself(past, r);
    ExtendsItself(r.log, Written(m.id, m.row));
    assert r'.log[..|r.log|] == r.log;
    forall tx | tx in r'.open
      ensures TxOk(first, past + [r], r', tx, r'.open[tx])
    {
      WriteSparesClaims(first, past, r, m, tx);
    }
    LogStays(first, past, past + [r], r.log, r'.log);
    assert forall a, id :: HeldBy(r', a, id) ==> HeldBy(r, a, id);
  }

  // ----- Scan -----

  /** A row of the snapshot that fails the second check was touched in between. */
  lemma ChangedWasTouched(first: Tasks, r: Race, t: Tx, id: Uuid)
    requires r.rows == PlayAll(first, r.log) && t.begun <= |r.log| && t.snapshot == PlayAll(first, r.log[..t.begun])
    requires Eligible(t.snapshot, t.now, id) && !StillEligible(t, r.rows, id)
    ensures TouchedSince(r.log, t.begun, |r.log|, id)
  {
    assert r.log[..|r.log|] == r.log;
    if !TouchedSince(r.log, t.begun, |r.log|, id) {
      UntouchedAgree(first, r.log, t.begun, |r.log|, id);
    }
  }

  lemma ScanLatest(first: Tasks, past: seq<Race>, r: Race, tx: nat)
    requires RaceOk(first, past, r) && Possible(r, Scan(tx))
    ensures var id, t := r.open[tx].order[r.open[tx].scanned], ScanOne(r, tx);
            id !in t.picked ==> SkippedFor(past + [r], r.log, tx, t, |r.log|, r.clock + 1, id)
  {
    var t := r.open[tx];
    var id := t.order[t.scanned];
    assert Eligible(t.snapshot, t.now, id);
    if !LockedByOthers(r, tx, id) && !StillEligible(t, r.rows, id) {
      ChangedWasTouched(first, r, t, id);
    }
  }

  lemma ScanEarlier(first: Tasks, past: seq<Race>, r: Race, tx: nat, id: Uuid)
    requires RaceOk(first, past, r) && Possible(r, Scan(tx))
    requires id in r.open[tx].order[..r.open[tx].scanned] && id !in r.open[tx].picked
    ensures SkippedFor(past + [r], r.log, tx, ScanOne(r, tx), |r.log|, r.clock + 1, id)
  {
    var t := r.open[tx];
    assert t.order[t.scanned] !in t.order[..t.scanned];
    ExtendsItself(past, r);
    ExtendsItself(r.log, Written(NIL, None));
    SkippedStays(past, past + [r], r.log, r.log, tx, t, |r.log|, |r.log|, r.clock, r.clock + 1, id);
    assert id in ScanOne(r, tx).skipped && ScanOne(r, tx).skipped[id] == t.skipped[id];
  }

  lemma ScanPicks(first: Tasks, past: seq<Race>, r: Race, tx: nat)
    requires RaceOk(first, past, r) && Possible(r, Scan(tx))
    ensures var t, t' := r.open[tx], ScanOne(r, tx);
            && t'.scanned == t.scanned + 1 && |t'.picked| <= t.batch && NoDuplicates(t'.picked)
            && forall id :: id in t'.picked ==> id in t.order[..t'.scanned] && StillEligible(t', r.rows, id)
  {
    var t, t' := r.open[tx], ScanOne(r, tx);
    var latest := t.order[t.scanned];
    assert t.order[..t'.scanned] == t.order[..t.scanned] + [latest];
    assert latest !in t.order[..t.scanned];
    if latest in t'.picked {
      assert t'.picked == t.picked + [latest];
    }
  }

  lemma ScanSkips(first: Tasks, past: seq<Race>, r: Race, tx: nat, id: Uuid)
    requires RaceOk(first, past, r) && Possible(r, Scan(tx))
    requires id in r.open[tx].order[..r.open[tx].scanned + 1] && id !in ScanOne(r, tx).picked
    ensures SkippedFor(past + [r], r.log, tx, ScanOne(r, tx), |r.log|, r.clock + 1, id)
  {
    var t := r.open[tx];
    assert t.order[..t.scanned + 1] == t.order[..t.scanned] + [t.order[t.scanned]];
    if id == t.order[t.scanned] {
      ScanLatest(first, past, r, tx);
    } else {
      ScanEarlier(first, past, r, tx, id);
    }
  }

  lemma ScannedTx(first: Tasks, past: seq<Race>, r: Race, tx: nat)
    requires RaceOk(first, past, r) && Possible(r, Scan(tx))
    ensures TxOk(first, past + [r], Apply(r, Scan(tx)), tx, ScanOne(r, tx))
  {
    var t' := ScanOne(r, tx);
    ScanPicks(first, past, r, tx);
    forall id | id in t'.order[..t'.scanned] && id !in t'.picked
      ensures SkippedFor(past + [r], r.log, tx, t', |r.log|, r.clock + 1, id)
    {
      ScanSkips(first, past, r, tx, id);
    }
  }

  lemma ScanTakesFreeRows(r: Race, tx: nat, holder: nat, id: Uuid)
    requires Possible(r, Scan(tx)) && HeldBy(Apply(r, Scan(tx)), holder, id)
    ensures HeldBy(r, holder, id) || (holder == tx && forall other :: other != tx ==> !HeldBy(r, other, id))
  {
    forall other | other != tx && HeldBy(r, other, id)
      ensures HasLock(r, Hold(ByClaim(other), id))
    {
    }
  }

  lemma ScanStaysDisjoint(first: Tasks, past: seq<Race>, r: Race, tx: nat, a: nat, b: nat, id: Uuid)
    requires RaceOk(first, past, r) && Possible(r, Scan(tx)) && a != b
    requires HeldBy(Apply(r, Scan(tx)), a, id)
    ensures !HeldBy(Apply(r, Scan(tx)), b, id)
  {
    ScanTakesFreeRows(r, tx, a, id);
    if HeldBy(Apply(r, Scan(tx)), b, id) {
      ScanTakesFreeRows(r, tx, b, id);
    }
  }

  lemma ScanStays(first: Tasks, past: seq<Race>, r: Race, tx: nat)
    requires RaceOk(first, past, r) && Possible(r, Scan(tx))
    ensures RaceOk(first, past + [r], Apply(r, Scan(tx)))
  {
    var r' := Apply(r, Scan(tx));
    ExtendsItself(past, r);
    ExtendsItself(r.log, Written(NIL, None));
    ScannedTx(first, past, r, tx);
    forall other | other in r.open && other != tx
      ensures TxOk(first, past + [r], r', other, r'.open[other])
    {
      TxStays(first, past, past + [r], r, r', other);
    }
    LogStays(first, past, past + [r], r.log, r'.log);
    forall a, b, id | a != b && HeldBy(r', a, id)
      ensures !HeldBy(r', b, id)
    {
      ScanStaysDisjoint(first, past, r, tx, a, b, id);
    }
  }

  // ----- Commit -----

  lemma CommittedLeftBehind(first: Tasks, past: seq<Race>, r: Race, tx: nat, id: Uuid)
    requires RaceOk(first, past, r) && Possible(r, Commit(tx))
    requires Eligible(r.open[tx].snapshot, r.open[tx].now, id) && id !in r.open[tx].picked
    ensures SkippedFor(past, r.log, tx, r.open[tx], |r.log|, r.clock, id) || BatchCameFirst(r.open[tx], id)
  {
    var t := r.open[tx];
    if id !in t.order[..t.scanned] {
      assert forall i :: i in t.order[..t.scanned] ==> i in t.order;
      var j :| 0 <= j < |t.order| && t.order[j] == id;
      assert forall i :: 0 <= i < t.scanned ==> t.order[i] == t.order[..t.scanned][i];
      assert t.scanned <= j;
      forall i | i in t.picked
        ensures i in t.snapshot && t.snapshot[i].nextRun <= t.snapshot[id].nextRun
      {
        var k :| 0 <= k < t.scanned && t.order[..t.scanned][k] == i;
        assert t.order[k] == i && Eligible(t.snapshot, t.now, i);
      }
    }
  }

  lemma CommitEntry(first: Tasks, past: seq<Race>, r: Race, tx: nat)
    requires RaceOk(first, past, r) && Possible(r, Commit(tx))
    ensures var log := Apply(r, Commit(tx)).log; Legal(first, log, |r.log|) && LeftBehind(past + [r], log, |r.log|)
  {
    var t, log := r.open[tx], Apply(r, Commit(tx)).log;
    ExtendsItself(past, r);
    ExtendsItself(r.log, Claimed(tx, t, r.clock));
    ExtendsPrefix(r.log, log, t.begun);
    assert log[..|r.log|] == r.log;
    assert forall id :: id in t.order[..t.scanned] ==> id in t.order;
    forall id | Eligible(t.snapshot, t.now, id) && id !in t.picked
      ensures SkippedFor(past + [r], log, tx, t, |r.log|, r.clock, id) || BatchCameFirst(t, id)
    {
      CommittedLeftBehind(first, past, r, tx, id);
      if SkippedFor(past, r.log, tx, t, |r.log|, r.clock, id) {
        SkippedStays(past, past + [r], r.log, log, tx, t, |r.log|, |r.log|, r.clock, r.clock, id);
      }
    }
  }

  lemma CommitSparesOthers(first: Tasks, past: seq<Race>, r: Race, tx: nat, other: nat)
    requires RaceOk(first, past, r) && Possible(r, Commit(tx)) && other in r.open && other != tx
    ensures TxOk(first, past + [r], Apply(r, Commit(tx)), other, r.open[other])
  {
    ExtendsItself(past, r);
    ExtendsItself(r.log, Claimed(tx, r.open[tx], r.clock));
    forall id | id in r.open[other].picked
      ensures Agree(r.rows, Apply(r, Commit(tx)).rows, id)
    {
      assert HeldBy(r, other, id);
      assert !HeldBy(r, tx, id);
      ClaimAllRow(r.rows, r.open[tx].picked, r.open[tx].worker, id);
    }
    TxStays(first, past, past + [r], r, Apply(r, Commit(tx)), other);
  }

  lemma CommitLog(first: Tasks, past: seq<Race>, r: Race, tx: nat)
    requires RaceOk(first, past, r) && Possible(r, Commit(tx))
    ensures var r' := Apply(r, Commit(tx)); r'.rows == PlayAll(first, r'.log) && LogOk(first, past + [r], r'.log)
  {
    var r' := Apply(r, Commit(tx));
    ExtendsItself(past, r);
    ExtendsItself(r.log, Claimed(tx, r.open[tx], r.clock));
    assert r'.log[..|r.log|] == r.log;
    CommitEntry(first, past, r, tx);
    LogStays(first, past, past + [r], r.log, r'.log);
  }

  lemma CommitStays(first: Tasks, past: seq<Race>, r: Race, tx: nat)
    requires RaceOk(first, past, r) && Possible(r, Commit(tx))
    ensures RaceOk(first, past + [r], Apply(r, Commit(tx)))
  {
    var r' := Apply(r, Commit(tx));
    CommitLog(first, past, r, tx);
    forall other | other in r'.open
      ensures TxOk(first, past + [r], r', other, r'.open[other])
    {
      CommitSparesOthers(first, past, r, tx, other);
    }
    assert forall a, id :: HeldBy(r', a, id) ==> HeldBy(r, a, id);
  }

  // ----- Runs -----

  lemma MoveStays(first: Tasks, past: seq<Race>, r: Race, m: Move)
    requires RaceOk(first, past, r) && Possible(r, m)
    ensures RaceOk(first, past + [r], Apply(r, m))
  {
    match m
    case Begin(_, _, _, _, _) => BeginStays(first, past, r, m);
    case Scan(tx) => ScanStays(first, past, r, tx);
    case Commit(tx) => CommitStays(first, past, r, tx);
    case Lock(_, _) => LocksStay(first, past, r, m);
    case Write(_, _, _) => WriteStays(first, past, r, m);
    case Finish(_) => LocksStay(first, past, r, m);
  }

  lemma {:induction false} RunStays(first: Tasks, past: seq<Race>, r: Race, moves: seq<Move>)
    requires RaceOk(first, past, r) && IsRun(r, moves)
    ensures RaceOk(first, past + History(r, moves), After(r, moves))
    decreases |moves|
  {
    if moves == [] {
      assert past + [] == past;
    } else {
      MoveStays(first, past, r, moves[0]);
      RunStays(first, past + [r], Apply(r, moves[0]), moves[1..]);
      assert past + History(r, moves) == past + [r] + History(Apply(r, moves[0]), moves[1..]);
    }
  }

  /** The history of a run is what its beginnings lead to. */
  lemma {:induction false} HistoryIsPast(r: Race, moves: seq<Move>, k: nat)
    requires IsRun(r, moves) && k < |moves|
    ensures IsRun(r, moves[..k]) && History(r, moves)[k] == After(r, moves[..k])
    decreases |moves|
  {
    if k > 0 {
      HistoryIsPast(Apply(r, moves[0]), moves[1..], k - 1);
      assert moves[..k][1..] == moves[1..][..k - 1];
    }
  }

  // ----- What concurrent claims guarantee -----

  /** Any interleaving of claims with each other and with other transactions has the effect of running them one after
      the other in commit order, each of them legal on its own, and each leaving behind only what it had to. */
  lemma ClaimsRunInCommitOrder(first: Tasks, moves: seq<Move>)
    requires IsRun(Start(first), moves)
    ensures var r := After(Start(first), moves);
            && r.rows == PlayAll(first, r.log)
            && forall n :: 0 <= n < |r.log| && r.log[n].Claimed? ==>
                 Legal(first, r.log, n) && LeftBehind(History(Start(first), moves), r.log, n)
  {
    RunStays(first, [], Start(first), moves);
    assert [] + History(Start(first), moves) == History(Start(first), moves);
  }

  /** In terms of the run: an eligible row that a claim neither took, nor found changed, nor had to leave to a full batch
      was locked by another transaction in a state of this run between the claim's snapshot and its commit. */
  lemma UntakenRowWasLocked(first: Tasks, moves: seq<Move>, n: nat, id: Uuid) returns (at: nat, holder: Holder)
    requires IsRun(Start(first), moves)
    requires var log := After(Start(first), moves).log; n < |log| && log[n].Claimed?
    requires var t := After(Start(first), moves).log[n].claim;
             && Eligible(t.snapshot, t.now, id) && id !in t.picked && !BatchCameFirst(t, id)
             && !TouchedSince(After(Start(first), moves).log, t.begun, n, id)
    ensures var e := After(Start(first), moves).log[n];
            && e.claim.since < at < e.when && at < |moves| && holder != ByClaim(e.tx)
            && IsRun(Start(first), moves[..at]) && HasLock(After(Start(first), moves[..at]), Hold(holder, id))
  {
    ClaimsRunInCommitOrder(first, moves);
    var e := After(Start(first), moves).log[n];
    assert SkippedFor(History(Start(first), moves), After(Start(first), moves).log, e.tx, e.claim, n, e.when, id);
    at, holder := e.claim.skipped[id].at, e.claim.skipped[id].holder;
    HistoryIsPast(Start(first), moves, at);
  }

  ghost predicate WrittenBetween(log: seq<Entry>, from: nat, to: nat, id: Uuid) {
    exists k :: from < k < to && k < |log| && log[k].Written? && log[k].id == id
  }

  lemma {:induction false} StaysClaimed(first: Tasks, log: seq<Entry>, n: nat, m: nat, id: Uuid)
    requires n < m <= |log| && log[n].Claimed? && id in log[n].claim.picked
    requires id in PlayAll(first, log[..n]) && !WrittenBetween(log, n, m, id)
    ensures id in PlayAll(first, log[..m]) && PlayAll(first, log[..m])[id].status == Processing
  {
    assert log[..m][..m - 1] == log[..m - 1];
    if n == m - 1 {
      ClaimAllRow(PlayAll(first, log[..n]), log[n].claim.picked, log[n].claim.worker, id);
    } else {
      StaysClaimed(first, log, n, m - 1, id);
      if log[m - 1].Claimed? {
        ClaimAllRow(PlayAll(first, log[..m - 1]), log[m - 1].claim.picked, log[m - 1].claim.worker, id);
      }
    }
  }

  /** No row goes to two claims unless another statement wrote it in between. */
  lemma NoRowClaimedTwice(first: Tasks, moves: seq<Move>, n: nat, m: nat, id: Uuid)
    requires IsRun(Start(first), moves)
    requires var log := After(Start(first), moves).log;
             && n < m < |log| && log[n].Claimed? && log[m].Claimed?
             && id in log[n].claim.picked && id in log[m].claim.picked
    ensures WrittenBetween(After(Start(first), moves).log, n, m, id)
  {
    ClaimsRunInCommitOrder(first, moves);
    var log := After(Start(first), moves).log;
    if !WrittenBetween(log, n, m, id) {
      StaysClaimed(first, log, n, m, id);
    }
  }

  // ----- The parent condition is only as fresh as the snapshot -----

  /** The last entry in this stretch of the log that touches a row. */
  function LastTouch(log: seq<Entry>, from: nat, to: nat, id: Uuid): (k: Option<nat>)
    requires from <= to <= |log|
    ensures k.Some? ==> from <= k.value < to && Touches(log[k.value], id) && !TouchedSince(log, k.value + 1, to, id)
    ensures k.None? ==> !TouchedSince(log, from, to, id)
  {
    if from == to then None
    else if Touches(log[to - 1], id) then Some(to - 1)
    else LastTouch(log, from, to - 1, id)
  }

  predicate Allows(parent: Option<Task>, user: string) {
    parent.Some? && parent.value.user == user && (parent.value.status == Completed || parent.value.status == Active)
  }

  /** Nothing has touched the parent since the snapshot, or the last to do so was a write that left it active or
      completed. */
  ghost predicate ParentLeftAllowing(log: seq<Entry>, n: nat, user: string, p: Uuid)
    requires n < |log| && log[n].Claimed? && log[n].claim.begun <= n
  {
    match LastTouch(log, log[n].claim.begun, n, p)
    case None => true
    case Some(k) => log[k].Written? && Allows(log[k].row, user)
  }

  /** The parent as it stands when the log has grown to n entries, the k-th being the last to touch it. */
  lemma ParentAfterTouch(first: Tasks, log: seq<Entry>, k: nat, n: nat, p: Uuid, user: string)
    requires k < n <= |log| && Touches(log[k], p) && !TouchedSince(log, k + 1, n, p)
    requires log[k].Claimed? ==> Legal(first, log, k)
    ensures var after := PlayAll(first, log[..n]);
            (p in after && Allows(Some(after[p]), user)) <==> log[k].Written? && Allows(log[k].row, user)
  {
    TouchedLast(first, log, k, p);
    UntouchedAgree(first, log, k + 1, n, p);
  }

  /** A claimed row meets the parent condition at the point where its claim runs in commit order, exactly if its parent
      was left so by whoever touched it last since the snapshot. */
  lemma ParentConditionHolds(first: Tasks, moves: seq<Move>, n: nat, id: Uuid, p: Uuid)
    requires IsRun(Start(first), moves)
    requires var log := After(Start(first), moves).log;
             && n < |log| && log[n].Claimed? && log[n].claim.begun <= n && id in log[n].claim.picked
             && id in PlayAll(first, log[..n]) && PlayAll(first, log[..n])[id].def.dependsOn == Some(p)
    ensures var log := After(Start(first), moves).log;
            var before := PlayAll(first, log[..n]);
            ParentAllows(before, before[id]) <==> ParentLeftAllowing(log, n, before[id].user, p)
  {
    ClaimsRunInCommitOrder(first, moves);
    var log := After(Start(first), moves).log;
    assert StillEligible(log[n].claim, PlayAll(first, log[..n]), id);
    match LastTouch(log, log[n].claim.begun, n, p) {
      case None => UntouchedAgree(first, log, log[n].claim.begun, n, p);
      case Some(k) => ParentAfterTouch(first, log, k, n, p, PlayAll(first, log[..n])[id].user);
    }
  }

  /** A claim is an atomic one at its turn in commit order: every row it takes is eligible there. */
  ghost predicate IsAtomic(first: Tasks, log: seq<Entry>, n: nat)
    requires n < |log| && log[n].Claimed?
  {
    forall id :: id in log[n].claim.picked ==> Eligible(PlayAll(first, log[..n]), log[n].claim.now, id)
  }

  /** A whole claim is atomic exactly if for each of its rows that has a parent, that parent was left so by whoever touched
      it last since the snapshot. */
  lemma ClaimIsAtomicIff(first: Tasks, moves: seq<Move>, n: nat)
    requires IsRun(Start(first), moves)
    requires var log := After(Start(first), moves).log; n < |log| && log[n].Claimed? && log[n].claim.begun <= n
    ensures var log := After(Start(first), moves).log;
            var before := PlayAll(first, log[..n]);
            IsAtomic(first, log, n)
            <==> forall id :: id in log[n].claim.picked && id in before && before[id].def.dependsOn.Some? ==>
                   ParentLeftAllowing(log, n, before[id].user, before[id].def.dependsOn.value)
  {
    ClaimsRunInCommitOrder(first, moves);
    var log := After(Start(first), moves).log;
    var before, t := PlayAll(first, log[..n]), log[n].claim;
    forall id | id in t.picked
      ensures id in before
      ensures Eligible(before, t.now, id)
              <==> before[id].def.dependsOn.None?
                   || ParentLeftAllowing(log, n, before[id].user, before[id].def.dependsOn.value)
    {
      assert StillEligible(t, before, id);
      if before[id].def.dependsOn.Some? {
        ParentConditionHolds(first, moves, n, id, before[id].def.dependsOn.value);
      }
    }
  }

  lemma TouchedLast(first: Tasks, log: seq<Entry>, k: nat, p: Uuid)
    requires k < |log| && Touches(log[k], p)
    requires log[k].Claimed? ==> Legal(first, log, k)
    ensures var after := PlayAll(first, log[..k + 1]);
            if log[k].Written? then (if p in after then log[k].row == Some(after[p]) else log[k].row == None)
            else p in after && after[p].status == Processing
  {
    assert log[..k + 1][..k] == log[..k];
    if log[k].Claimed? {
      assert StillEligible(log[k].claim, PlayAll(first, log[..k]), p);
      ClaimAllRow(PlayAll(first, log[..k]), log[k].claim.picked, log[k].claim.worker, p);
    }
  }
}

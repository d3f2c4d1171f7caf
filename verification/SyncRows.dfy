/** What the block and transaction tables hold in every run. */
module SyncRows {
  import opened Options
  import opened Bag
  import opened Ledger
  import opened SyncMachine
  import opened SyncLocks

  // ------------------------------------------------------------- block tasks

  function Txs(w: World, j: Job): seq<Tx> {
    w.ledger(j.net, j.channel, j.num).txs
  }

  /** How many transactions of its block the task has seen stored. */
  function Progress(w: World, j: Job): nat {
    match j.pc
    case Stamp => 0
    case TxCount(k) => k
    case TxInsert(k) => k
    case TxChaincode(k) => k + 1
    case TxTrans(k) => k + 1
    case _ => |Txs(w, j)|
  }

  /** How many of its transactions the task has come past without a throw. */
  function Walked(w: World, j: Job): nat {
    match j.pc
    case Stamp => 0
    case TxCount(k) => k
    case TxInsert(k) => k + 1
    case TxChaincode(k) => k + 1
    case TxTrans(k) => k + 1
    case _ => |Txs(w, j)|
  }

  ghost predicate NoneThrew(w: World, j: Job) {
    forall k :: 0 <= k < Walked(w, j) && k < |Txs(w, j)| ==> !TxThrows(Txs(w, j)[k])
  }

  predicate PastInsert(j: Job) {
    j.pc.BlkUpdate? || j.pc.Finish? || j.pc.Released?
  }

  /** The task's own data: its channel's hash, a block the guard admits, a position inside the block,
      and what the sections behind it have tested. */
  ghost predicate Sane(w: World, j: Job) {
    && j.channel in w.channels(j.net)
    && (j.num != 0 || Loads(w.boot(j.net)))
    && j.hash == Genesis(w, j.net, j.channel)
    && |Txs(w, j)| > 0
    && Progress(w, j) <= |Txs(w, j)|
    && (j.pc.TxCount? || j.pc.TxInsert? ==> Progress(w, j) < |Txs(w, j)|)
    && (!j.pc.Stamp? && !j.pc.TxCount? ==> j.num <= MAX_INTEGER)
    && NoneThrew(w, j)
  }

  /** The first n transactions of a block are stored. */
  ghost predicate StoredTxs(w: World, db: Db, net: Net, channel: Channel, num: nat, n: nat) {
    forall k :: 0 <= k < n && k < |w.ledger(net, channel, num).txs| ==> TxRowOf(w, net, channel, num, k) in db.txs
  }

  /** What the task has achieved is in the tables. */
  ghost predicate Achieved(w: World, db: Db, j: Job) {
    && StoredTxs(w, db, j.net, j.channel, j.num, Progress(w, j))
    && (PastInsert(j) ==> HasBlock(db, j.net, j.hash, j.num))
  }

  /** A task about to insert a row is right that the row is not there yet. */
  ghost predicate Fresh(w: World, db: Db, j: Job) {
    && (j.pc.BlkInsert? ==> !HasBlock(db, j.net, j.hash, j.num))
    && (j.pc.TxInsert? && j.pc.k < |Txs(w, j)| ==> TxRowOf(w, j.net, j.channel, j.num, j.pc.k) !in db.txs)
  }

  ghost predicate JobsOk(w: World, db: Db, jobs: seq<Job>) {
    forall j <- jobs :: Sane(w, j) && Achieved(w, db, j) && (Holds(j) ==> Fresh(w, db, j))
  }

  // -------------------------------------------------------------------- rows

  /** A stored row is the ledger's block, and every transaction of that block is stored. */
  ghost predicate RowOk(w: World, db: Db, r: BlockRow) {
    var channel := w.nameOf(r.net, r.hash);
    && channel in w.channels(r.net)
    && r == RowOf(w, r.net, channel, r.num)
    && Storable(w, r.net, channel, r.num)
    && StoredTxs(w, db, r.net, channel, r.num, |w.ledger(r.net, channel, r.num).txs|)
  }

  /** A stored transaction is one of its block's. */
  ghost predicate TxOk(w: World, t: TxRow) {
    var channel := w.nameOf(t.net, t.hash);
    exists k :: 0 <= k < |w.ledger(t.net, channel, t.num).txs| && t == TxRowOf(w, t.net, channel, t.num, k)
  }

  ghost predicate RowsOk(w: World, db: Db) {
    && (forall r <- db.blocks :: RowOk(w, db, r))
    && (forall t <- db.txs :: TxOk(w, t))
  }

  /** The identity of a block row, as the notice that announces it. */
  function NoticeOf(r: BlockRow): Event {
    Notified(r.net, r.hash, r.num)
  }

  ghost predicate UniqueRows(db: Db) {
    && (forall e :: Tally(db.blocks, NoticeOf)[e] <= 1)
    && (forall t :: multiset(db.txs)[t] <= 1)
  }

  lemma StoredIsTallied(db: Db, net: Net, hash: Hash, num: nat)
    ensures HasBlock(db, net, hash, num) <==> Tally(db.blocks, NoticeOf)[Notified(net, hash, num)] > 0
  {
    var e := Notified(net, hash, num);
    TallyMember(db.blocks, NoticeOf, e);
    if HasBlock(db, net, hash, num) {
      var r :| r in db.blocks && NoticeOf(r) == e;
      var i :| 0 <= i < |db.blocks| && db.blocks[i] == r;
      assert NoticeOf(db.blocks[i]) == e;
    }
    if i :| 0 <= i < |db.blocks| && NoticeOf(db.blocks[i]) == e {
      assert db.blocks[i] in db.blocks;
    }
  }

  // ---------------------------------------------------------------- invariant

  ghost predicate TablesOk(w: World, db: Db, jobs: seq<Job>) {
    JobsOk(w, db, jobs) && RowsOk(w, db) && UniqueRows(db)
  }

  /** Rows are only ever added. */
  ghost predicate Grows(before: Db, after: Db) {
    && (forall r <- before.blocks :: r in after.blocks)
    && (forall t <- before.txs :: t in after.txs)
  }

  lemma GrowthKeeps(w: World, before: Db, after: Db, j: Job)
    requires Grows(before, after) && Achieved(w, before, j)
    ensures Achieved(w, after, j)
  {
    if HasBlock(before, j.net, j.hash, j.num) {
      var r :| r in before.blocks && r.net == j.net && r.hash == j.hash && r.num == j.num;
      assert r in after.blocks;
    }
  }

  /** A new row of another block, or another transaction, leaves a task's freshness alone. */
  ghost predicate Spares(w: World, before: Db, after: Db, j: Job) {
    && (HasBlock(after, j.net, j.hash, j.num) ==> HasBlock(before, j.net, j.hash, j.num))
    && (j.pc.TxInsert? && j.pc.k < |Txs(w, j)| ==>
          var t := TxRowOf(w, j.net, j.channel, j.num, j.pc.k); t in after.txs ==> t in before.txs)
  }

  /** Two unreleased tasks of different index insert different rows. */
  lemma OthersSpared(w: World, s: State, i: nat, m: nat)
    requires WellFormed(w) && LocksOk(s.locks, s.jobs) && Runs(s, i) && m < |s.jobs| && m != i && Holds(s.jobs[m])
    requires Sane(w, s.jobs[i]) && Sane(w, s.jobs[m])
    ensures Spares(w, s.db, RunJob(w, s.db, s.jobs[i]).1, s.jobs[m])
  {
    var j, o := s.jobs[i], s.jobs[m];
    assert w.nameOf(j.net, Genesis(w, j.net, j.channel)) == j.channel;
    assert w.nameOf(o.net, Genesis(w, o.net, o.channel)) == o.channel;
    assert !(j.net == o.net && j.hash == o.hash && j.num == o.num);
  }

  lemma RunJobGrows(w: World, db: Db, j: Job)
    ensures Grows(db, RunJob(w, db, j).1)
  {
  }

  /** The task after its section: sane, its new achievement stored, fresh where it is about to insert. */
  ghost predicate MovedOk(w: World, db: Db, j: Job) {
    var (pc, after, _) := RunJob(w, db, j);
    var moved := j.(pc := pc);
    Sane(w, moved) && Achieved(w, after, moved) && Fresh(w, after, moved)
  }

  lemma AdvancedTx(w: World, db: Db, j: Job)
    requires Sane(w, j) && Achieved(w, db, j) && !Throws(w, j)
    requires j.pc.Stamp? || j.pc.TxCount? || j.pc.TxInsert? || j.pc.TxChaincode? || j.pc.TxTrans?
    ensures MovedOk(w, db, j)
  {
    match j.pc
    case TxCount(k) =>
      if HasTx(db, TxRowOf(w, j.net, j.channel, j.num, k)) {
        StoredStep(w, db, j, k);
      }
    case TxInsert(k) =>
      StoredStep(w, RunJob(w, db, j).1, j, k);
    case _ =>
  }

  lemma AdvancedJob(w: World, db: Db, j: Job)
    requires WellFormed(w) && Sane(w, j) && Achieved(w, db, j) && RowsOk(w, db) && !Throws(w, j)
    ensures MovedOk(w, db, j)
  {
    match j.pc
    case BlkCount =>
      SameBlockIsStored(w, db, j);
    case BlkInsert =>
      assert RowOf(w, j.net, j.channel, j.num) in RunJob(w, db, j).1.blocks;
    case BlkUpdate =>
    case Finish(_) =>
    case Released =>
    case _ => AdvancedTx(w, db, j);
  }

  lemma StoredStep(w: World, db: Db, j: Job, k: nat)
    requires k < |Txs(w, j)| && StoredTxs(w, db, j.net, j.channel, j.num, k)
    requires TxRowOf(w, j.net, j.channel, j.num, k) in db.txs
    ensures StoredTxs(w, db, j.net, j.channel, j.num, k + 1)
  {
  }

  /** The six-column count of `saveBlock` finds a row exactly when the block's key is stored. */
  lemma SameBlockIsStored(w: World, db: Db, j: Job)
    requires WellFormed(w) && RowsOk(w, db) && j.channel in w.channels(j.net) && j.hash == Genesis(w, j.net, j.channel)
    ensures HasSameBlock(db, RowOf(w, j.net, j.channel, j.num)) <==> HasBlock(db, j.net, j.hash, j.num)
  {
    assert w.nameOf(j.net, j.hash) == j.channel;
    if HasBlock(db, j.net, j.hash, j.num) {
      var r :| r in db.blocks && r.net == j.net && r.hash == j.hash && r.num == j.num;
      assert RowOk(w, db, r);
      assert SameBlock(r, RowOf(w, j.net, j.channel, j.num));
    }
  }

  lemma AdvanceKeepsJobs(w: World, s: State, i: nat)
    requires WellFormed(w) && LocksOk(s.locks, s.jobs) && Runs(s, i) && !Throws(w, s.jobs[i])
    requires JobsOk(w, s.db, s.jobs) && RowsOk(w, s.db)
    ensures JobsOk(w, JobStep(w, s, i).db, JobStep(w, s, i).jobs)
  {
    var t := JobStep(w, s, i);
    assert s.jobs[i] in s.jobs;
    AdvancedJob(w, s.db, s.jobs[i]);
    RunJobGrows(w, s.db, s.jobs[i]);
    forall j | j in t.jobs
      ensures Sane(w, j) && Achieved(w, t.db, j) && (Holds(j) ==> Fresh(w, t.db, j))
    {
      var m :| 0 <= m < |t.jobs| && t.jobs[m] == j;
      if m != i {
        assert s.jobs[m] in s.jobs;
        GrowthKeeps(w, s.db, t.db, j);
        if Holds(j) {
          OthersSpared(w, s, i, m);
        }
      }
    }
  }

  lemma AdvanceKeepsRows(w: World, db: Db, j: Job)
    requires WellFormed(w) && Sane(w, j) && Achieved(w, db, j) && RowsOk(w, db)
    ensures RowsOk(w, RunJob(w, db, j).1)
  {
    var after := RunJob(w, db, j).1;
    RunJobGrows(w, db, j);
    assert w.nameOf(j.net, Genesis(w, j.net, j.channel)) == j.channel;
    forall r | r in after.blocks
      ensures RowOk(w, after, r)
    {
      if r in db.blocks {
        assert RowOk(w, db, r);
      }
    }
    forall t | t in after.txs
      ensures TxOk(w, t)
    {
      if t !in db.txs {
        assert t == TxRowOf(w, j.net, j.channel, j.num, j.pc.k);
      }
    }
  }

  lemma InsertedBlockIsUnique(w: World, db: Db, j: Job)
    requires j.hash == Genesis(w, j.net, j.channel) && !HasBlock(db, j.net, j.hash, j.num) && UniqueRows(db)
    ensures UniqueRows(db.(blocks := db.blocks + [RowOf(w, j.net, j.channel, j.num)]))
  {
    TallyAppend(db.blocks, RowOf(w, j.net, j.channel, j.num), NoticeOf);
    StoredIsTallied(db, j.net, j.hash, j.num);
  }

  lemma InsertedTxIsUnique(db: Db, t: TxRow)
    requires t !in db.txs && UniqueRows(db)
    ensures UniqueRows(db.(txs := db.txs + [t]))
  {
    assert multiset(db.txs)[t] == 0;
    assert multiset(db.txs + [t]) == multiset(db.txs) + multiset{t};
  }

  lemma AdvanceKeepsUnique(w: World, db: Db, j: Job)
    requires Sane(w, j) && Fresh(w, db, j) && UniqueRows(db)
    ensures UniqueRows(RunJob(w, db, j).1)
  {
    if j.pc.BlkInsert? {
      InsertedBlockIsUnique(w, db, j);
    } else if j.pc.TxInsert? {
      InsertedTxIsUnique(db, TxRowOf(w, j.net, j.channel, j.num, j.pc.k));
    }
  }

  /** What holds of every block that enters processing. */
  predicate Admitted(w: World, net: Net, channel: Channel, num: nat) {
    channel in w.channels(net) && (num != 0 || Loads(w.boot(net)))
  }

  lemma EnterKeepsJobs(w: World, s: State, net: Net, channel: Channel, num: nat, pass: Option<nat>)
    requires JobsOk(w, s.db, s.jobs) && GuardPasses(w, s, net, channel, num) && Admitted(w, net, channel, num)
    ensures JobsOk(w, s.db, Enter(w, s, net, channel, num, pass).jobs)
  {
  }

  lemma StatusKeepsJobs(w: World, db: Db, jobs: seq<Job>, after: seq<Job>)
    requires JobsOk(w, db, jobs) && |after| == |jobs|
    requires forall m :: 0 <= m < |jobs| ==>
      after[m] == jobs[m] || (after[m] == jobs[m].(status := after[m].status) && (Holds(after[m]) ==> Holds(jobs[m])))
    ensures JobsOk(w, db, after)
  {
    forall j | j in after
      ensures Sane(w, j) && Achieved(w, db, j) && (Holds(j) ==> Fresh(w, db, j))
    {
      var m :| 0 <= m < |after| && after[m] == j;
      assert jobs[m] in jobs;
    }
  }

  lemma ChannelsKeepTables(w: World, db: Db, channels: seq<ChannelRow>, jobs: seq<Job>)
    requires TablesOk(w, db, jobs)
    ensures TablesOk(w, db.(channels := channels), jobs)
  {
    var after := db.(channels := channels);
    forall r | r in after.blocks
      ensures RowOk(w, after, r)
    {
      assert RowOk(w, db, r);
    }
    forall j | j in jobs
      ensures Achieved(w, after, j) && (Holds(j) ==> Fresh(w, after, j))
    {
      assert Achieved(w, db, j);
    }
  }

  lemma StepKeepsTables(w: World, s: State, e: Effect, t: State)
    requires WellFormed(w) && LocksOk(s.locks, s.jobs) && TablesOk(w, s.db, s.jobs) && Explains(w, s, e, t)
    requires e.Entered? ==> Admitted(w, e.net, e.channel, e.num)
    ensures TablesOk(w, t.db, t.jobs)
  {
    match e
    case Idle =>
    case Entered(net, channel, num, pass) => EnterKeepsJobs(w, s, net, channel, num, pass);
    case Advanced(i) =>
      assert s.jobs[i] in s.jobs;
      AdvanceKeepsJobs(w, s, i);
      AdvanceKeepsRows(w, s.db, s.jobs[i]);
      AdvanceKeepsUnique(w, s.db, s.jobs[i]);
    case Failed(i) => StatusKeepsJobs(w, s.db, s.jobs, t.jobs);
    case ChannelsWritten => ChannelsKeepTables(w, s.db, t.db.channels, s.jobs);
    case Died(net) => StatusKeepsJobs(w, s.db, s.jobs, t.jobs);
  }
}

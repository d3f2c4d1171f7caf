/** Rows, channel counters and notices balance in every run. */
module SyncCounters {
  import opened Bag
  import opened Ledger
  import opened SyncMachine
  import opened SyncLocks
  import opened SyncRows

  // -------------------------------------------------- what a task still owes

  /** Between its INSERT and the end of its counting UPDATE. */
  function OwedBlockCount(j: Job): Event {
    if j.pc.BlkUpdate? then BlockCounted(j.net, j.hash) else Quiet
  }

  function OwedTxCount(j: Job): Event {
    if j.pc.TxChaincode? || j.pc.TxTrans? then TxCounted(j.net, j.hash) else Quiet
  }

  /** Between its INSERT and the send. */
  function OwedNotice(j: Job): Event {
    if j.pc.BlkUpdate? || j.pc == Finish(true) then Notified(j.net, j.hash, j.num) else Quiet
  }

  function BlockCountOf(r: BlockRow): Event {
    BlockCounted(r.net, r.hash)
  }

  function TxCountOf(t: TxRow): Event {
    TxCounted(t.net, t.hash)
  }

  // ---------------------------------------------------------------- invariant

  /** Rows = events logged + events still owed by tasks, paused or dead. */
  ghost predicate BalancedAt<R>(rows: seq<R>, of: R -> Event, jobs: seq<Job>, owed: Job -> Event, log: multiset<Event>, e: Event) {
    Tally(rows, of)[e] == log[e] + Tally(jobs, owed)[e]
  }

  ghost predicate Balanced(db: Db, jobs: seq<Job>, log: multiset<Event>) {
    && (forall e: Event | e.Notified? :: BalancedAt(db.blocks, NoticeOf, jobs, OwedNotice, log, e))
    && (forall e: Event | e.BlockCounted? :: BalancedAt(db.blocks, BlockCountOf, jobs, OwedBlockCount, log, e))
    && (forall e: Event | e.TxCounted? :: BalancedAt(db.txs, TxCountOf, jobs, OwedTxCount, log, e))
  }

  /** A counter holds the counting statements executed since its row was last set. */
  ghost predicate CounterOk(log: multiset<Event>, c: ChannelRow) {
    && c.blocks + c.blocksBefore == log[BlockCounted(c.net, c.hash)]
    && c.trans + c.transBefore == log[TxCounted(c.net, c.hash)]
  }

  ghost predicate CountersOk(channels: seq<ChannelRow>, log: multiset<Event>) {
    forall c <- channels :: CounterOk(log, c)
  }

  // -------------------------------------------------------------- preservation

  /** A section keeps a balance when what it adds to the rows is what it adds to log and debt together. */
  lemma BalanceMoves<R>(rows: seq<R>, after: seq<R>, of: R -> Event, jobs: seq<Job>, i: nat, moved: Job, owed: Job -> Event,
                        log: multiset<Event>, logAfter: multiset<Event>, e: Event)
    requires i < |jobs| && BalancedAt(rows, of, jobs, owed, log, e)
    requires after == rows || (|after| > 0 && after == rows + [after[|after| - 1]])
    requires logAfter[e] + Unit(owed(moved), e) == log[e] + Unit(owed(jobs[i]), e)
             + (if after == rows then 0 else Unit(of(after[|after| - 1]), e))
    ensures BalancedAt(after, of, jobs[i := moved], owed, logAfter, e)
  {
    TallyUpdateAt(jobs, i, moved, owed, e);
    if after != rows {
      TallyAppendAt(rows, after[|after| - 1], of, e);
    }
  }

  /** A section adds at most one row to each table. */
  lemma RowsMove(w: World, db: Db, j: Job)
    ensures var after := RunJob(w, db, j).1;
      && after.blocks == (if j.pc.BlkInsert? then db.blocks + [RowOf(w, j.net, j.channel, j.num)] else db.blocks)
      && after.txs == (if j.pc.TxInsert? && j.pc.k < |Txs(w, j)|
                       then db.txs + [TxRowOf(w, j.net, j.channel, j.num, j.pc.k)] else db.txs)
  {
  }

  /** Log plus debt moves by one exactly when a section inserts. */
  lemma NoticeMoves(w: World, db: Db, j: Job, log: multiset<Event>, e: Event)
    requires e.Notified?
    ensures var (pc, _, event) := RunJob(w, db, j);
      Log(log, event)[e] + Unit(OwedNotice(j.(pc := pc)), e)
      == log[e] + Unit(OwedNotice(j), e) + (if j.pc.BlkInsert? then Unit(Notified(j.net, j.hash, j.num), e) else 0)
  {
  }

  lemma AdvanceKeepsNotice(w: World, s: State, i: nat, e: Event)
    requires Runs(s, i) && !Throws(w, s.jobs[i]) && Sane(w, s.jobs[i]) && e.Notified?
    requires BalancedAt(s.db.blocks, NoticeOf, s.jobs, OwedNotice, s.log, e)
    ensures var t := JobStep(w, s, i); BalancedAt(t.db.blocks, NoticeOf, t.jobs, OwedNotice, t.log, e)
  {
    var j := s.jobs[i];
    var (pc, db, event) := RunJob(w, s.db, j);
    assert j.hash == Genesis(w, j.net, j.channel);
    RowsMove(w, s.db, j);
    NoticeMoves(w, s.db, j, s.log, e);
    BalanceMoves(s.db.blocks, db.blocks, NoticeOf, s.jobs, i, j.(pc := pc), OwedNotice, s.log, Log(s.log, event), e);
  }

  lemma BlockCountMoves(w: World, db: Db, j: Job, log: multiset<Event>, e: Event)
    requires e.BlockCounted?
    ensures var (pc, _, event) := RunJob(w, db, j);
      Log(log, event)[e] + Unit(OwedBlockCount(j.(pc := pc)), e)
      == log[e] + Unit(OwedBlockCount(j), e) + (if j.pc.BlkInsert? then Unit(BlockCounted(j.net, j.hash), e) else 0)
  {
  }

  lemma TxCountMoves(w: World, db: Db, j: Job, log: multiset<Event>, e: Event)
    requires e.TxCounted?
    ensures var (pc, _, event) := RunJob(w, db, j);
      Log(log, event)[e] + Unit(OwedTxCount(j.(pc := pc)), e)
      == log[e] + Unit(OwedTxCount(j), e) + (if j.pc.TxInsert? then Unit(TxCounted(j.net, j.hash), e) else 0)
  {
  }

  lemma AdvanceKeepsBlockCount(w: World, s: State, i: nat, e: Event)
    requires Runs(s, i) && !Throws(w, s.jobs[i]) && Sane(w, s.jobs[i]) && e.BlockCounted?
    requires BalancedAt(s.db.blocks, BlockCountOf, s.jobs, OwedBlockCount, s.log, e)
    ensures var t := JobStep(w, s, i); BalancedAt(t.db.blocks, BlockCountOf, t.jobs, OwedBlockCount, t.log, e)
  {
    var j := s.jobs[i];
    var (pc, db, event) := RunJob(w, s.db, j);
    assert j.hash == Genesis(w, j.net, j.channel);
    RowsMove(w, s.db, j);
    BlockCountMoves(w, s.db, j, s.log, e);
    BalanceMoves(s.db.blocks, db.blocks, BlockCountOf, s.jobs, i, j.(pc := pc), OwedBlockCount, s.log, Log(s.log, event), e);
  }

  lemma AdvanceKeepsTxCount(w: World, s: State, i: nat, e: Event)
    requires Runs(s, i) && !Throws(w, s.jobs[i]) && Sane(w, s.jobs[i]) && e.TxCounted?
    requires BalancedAt(s.db.txs, TxCountOf, s.jobs, OwedTxCount, s.log, e)
    ensures var t := JobStep(w, s, i); BalancedAt(t.db.txs, TxCountOf, t.jobs, OwedTxCount, t.log, e)
  {
    var j := s.jobs[i];
    var (pc, db, event) := RunJob(w, s.db, j);
    assert j.hash == Genesis(w, j.net, j.channel);
    RowsMove(w, s.db, j);
    TxCountMoves(w, s.db, j, s.log, e);
    BalanceMoves(s.db.txs, db.txs, TxCountOf, s.jobs, i, j.(pc := pc), OwedTxCount, s.log, Log(s.log, event), e);
  }

  lemma AdvanceKeepsBalance(w: World, s: State, i: nat)
    requires Runs(s, i) && !Throws(w, s.jobs[i]) && Sane(w, s.jobs[i]) && Balanced(s.db, s.jobs, s.log)
    ensures var t := JobStep(w, s, i); Balanced(t.db, t.jobs, t.log)
  {
    var t := JobStep(w, s, i);
    forall e: Event | e.Notified?
      ensures BalancedAt(t.db.blocks, NoticeOf, t.jobs, OwedNotice, t.log, e)
    {
      AdvanceKeepsNotice(w, s, i, e);
    }
    forall e: Event | e.BlockCounted?
      ensures BalancedAt(t.db.blocks, BlockCountOf, t.jobs, OwedBlockCount, t.log, e)
    {
      AdvanceKeepsBlockCount(w, s, i, e);
    }
    forall e: Event | e.TxCounted?
      ensures BalancedAt(t.db.txs, TxCountOf, t.jobs, OwedTxCount, t.log, e)
    {
      AdvanceKeepsTxCount(w, s, i, e);
    }
  }

  lemma AppendKeeps<R>(rows: seq<R>, of: R -> Event, jobs: seq<Job>, j: Job, owed: Job -> Event, log: multiset<Event>, e: Event)
    requires BalancedAt(rows, of, jobs, owed, log, e) && owed(j) != e
    ensures BalancedAt(rows, of, jobs + [j], owed, log, e)
  {
    TallyAppendAt(jobs, j, owed, e);
  }

  lemma EnterKeepsBalance(db: Db, jobs: seq<Job>, j: Job, log: multiset<Event>)
    requires Balanced(db, jobs, log) && j.pc.Stamp?
    ensures Balanced(db, jobs + [j], log)
  {
    forall e: Event | e.Notified?
      ensures BalancedAt(db.blocks, NoticeOf, jobs + [j], OwedNotice, log, e)
    {
      AppendKeeps(db.blocks, NoticeOf, jobs, j, OwedNotice, log, e);
    }
    forall e: Event | e.BlockCounted?
      ensures BalancedAt(db.blocks, BlockCountOf, jobs + [j], OwedBlockCount, log, e)
    {
      AppendKeeps(db.blocks, BlockCountOf, jobs, j, OwedBlockCount, log, e);
    }
    forall e: Event | e.TxCounted?
      ensures BalancedAt(db.txs, TxCountOf, jobs + [j], OwedTxCount, log, e)
    {
      AppendKeeps(db.txs, TxCountOf, jobs, j, OwedTxCount, log, e);
    }
  }

  lemma PointwiseKeeps<R>(rows: seq<R>, of: R -> Event, jobs: seq<Job>, after: seq<Job>, owed: Job -> Event, log: multiset<Event>, e: Event)
    requires BalancedAt(rows, of, jobs, owed, log, e)
    requires |after| == |jobs| && forall m :: 0 <= m < |jobs| ==> owed(jobs[m]) == owed(after[m])
    ensures BalancedAt(rows, of, after, owed, log, e)
  {
    TallyPointwise(jobs, after, owed);
  }

  lemma StatusKeepsBalance(db: Db, jobs: seq<Job>, after: seq<Job>, log: multiset<Event>)
    requires Balanced(db, jobs, log) && |after| == |jobs|
    requires forall m :: 0 <= m < |jobs| ==> after[m] == jobs[m].(status := after[m].status)
    ensures Balanced(db, after, log)
  {
    forall e: Event | e.Notified?
      ensures BalancedAt(db.blocks, NoticeOf, after, OwedNotice, log, e)
    {
      PointwiseKeeps(db.blocks, NoticeOf, jobs, after, OwedNotice, log, e);
    }
    forall e: Event | e.BlockCounted?
      ensures BalancedAt(db.blocks, BlockCountOf, after, OwedBlockCount, log, e)
    {
      PointwiseKeeps(db.blocks, BlockCountOf, jobs, after, OwedBlockCount, log, e);
    }
    forall e: Event | e.TxCounted?
      ensures BalancedAt(db.txs, TxCountOf, after, OwedTxCount, log, e)
    {
      PointwiseKeeps(db.txs, TxCountOf, jobs, after, OwedTxCount, log, e);
    }
  }

  lemma StepKeepsBalance(w: World, s: State, e: Effect, t: State)
    requires JobsOk(w, s.db, s.jobs) && Balanced(s.db, s.jobs, s.log) && Explains(w, s, e, t)
    ensures Balanced(t.db, t.jobs, t.log)
  {
    match e
    case Entered(_, _, _, _) => EnterKeepsBalance(s.db, s.jobs, t.jobs[|s.jobs|], s.log);
    case Advanced(i) =>
      assert s.jobs[i] in s.jobs;
      AdvanceKeepsBalance(w, s, i);
    case Failed(i) => StatusKeepsBalance(s.db, s.jobs, t.jobs, s.log);
    case Died(net) => StatusKeepsBalance(s.db, s.jobs, t.jobs, s.log);
    case _ =>
  }

  lemma BumpKeepsCounters(channels: seq<ChannelRow>, log: multiset<Event>, net: Net, hash: Hash)
    requires CountersOk(channels, log)
    ensures CountersOk(Bump(channels, net, hash, 1, 0), log + multiset{BlockCounted(net, hash)})
    ensures CountersOk(Bump(channels, net, hash, 0, 1), log + multiset{TxCounted(net, hash)})
  {
    forall i | 0 <= i < |channels|
      ensures CounterOk(log, channels[i])
    {
      assert channels[i] in channels;
    }
  }

  lemma AdvanceKeepsCounters(w: World, s: State, i: nat)
    requires Runs(s, i) && CountersOk(s.db.channels, s.log)
    ensures var t := JobStep(w, s, i); CountersOk(t.db.channels, t.log)
  {
    var j := s.jobs[i];
    BumpKeepsCounters(s.db.channels, s.log, j.net, j.hash);
    forall c | c in s.db.channels
      ensures CounterOk(Log(s.log, Notified(j.net, j.hash, j.num)), c)
    {
      assert CounterOk(s.log, c);
    }
  }

  lemma RegKeepsCounters(s: State, r: nat)
    requires RegRuns(s, r) && CountersOk(s.db.channels, s.log)
    ensures CountersOk(RegStep(s, r).db.channels, s.log)
    ensures RegStep(s, r).log == s.log
  {
  }

  lemma StepKeepsCounters(w: World, s: State, a: Action)
    requires CountersOk(s.db.channels, s.log)
    ensures var t := Step(w, s, a); CountersOk(t.db.channels, t.log)
  {
    match a
    case RunBlock(i) => if Runs(s, i) && !Throws(w, s.jobs[i]) { AdvanceKeepsCounters(w, s, i); }
    case RunReg(r) => if RegRuns(s, r) { RegKeepsCounters(s, r); }
    case RunPass(p, fetched, height) => PassStepEffect(w, s, p, fetched, height);
    case _ =>
  }
}

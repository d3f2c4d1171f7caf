/** Locks, notices, counters, passes and the stored hash chain, in every run. */
module SyncResults {
  import opened Options
  import opened Text
  import opened JsArrays
  import opened Bag
  import opened JsonTree
  import opened Ledger
  import opened SyncMachine
  import opened SyncLocks
  import opened SyncRows
  import opened SyncCounters
  import opened SyncPasses
  import opened SyncSafety

  // ------------------------------------------------------------------- locks

  /** `blocksInProcess` has no duplicates and holds exactly the keys of the tasks that passed the guard
      and did not release: those still running and those that threw. */
  lemma LockListIsExact(w: World, schedule: seq<Action>, net: Net)
    requires WellFormed(w)
    ensures var s := After(w, schedule);
      && NoDuplicates(Locks(s.locks, net))
      && (forall key :: key in Locks(s.locks, net) <==> (exists j <- s.jobs :: Holds(j) && j.net == net && Key(j) == key))
  {
    AfterIsGood(w, schedule);
    var s := After(w, schedule);
    assert NoDuplicates(Locks(s.locks, net));
    assert forall key :: key in Locks(s.locks, net) <==> HeldBy(s.jobs, net, key);
  }

  /** A release finds its key, removes that one entry and leaves every other key where it was. */
  lemma ReleaseTakesOwnKey(w: World, schedule: seq<Action>, i: nat)
    requires WellFormed(w) && Runs(After(w, schedule), i) && After(w, schedule).jobs[i].pc.Finish?
    ensures var s, t := After(w, schedule), After(w, schedule + [RunBlock(i)]);
      var j := s.jobs[i];
      && 0 <= IndexOf(Locks(s.locks, j.net), Key(j)) < |Locks(s.locks, j.net)|
      && (forall net, key :: key in Locks(t.locks, net) <==> key in Locks(s.locks, net) && !(net == j.net && key == Key(j)))
  {
    AfterIsGood(w, schedule);
    RunAppend(w, INITIAL, schedule, [RunBlock(i)]);
    RunOne(w, After(w, schedule), RunBlock(i));
    FinishReleases(w, After(w, schedule), i);
  }

  lemma FinishReleases(w: World, s: State, i: nat)
    requires LocksOk(s.locks, s.jobs) && Runs(s, i) && s.jobs[i].pc.Finish?
    ensures var t, j := JobStep(w, s, i), s.jobs[i];
      && 0 <= IndexOf(Locks(s.locks, j.net), Key(j)) < |Locks(s.locks, j.net)|
      && (forall net, key :: key in Locks(t.locks, net) <==> key in Locks(s.locks, net) && !(net == j.net && key == Key(j)))
  {
    var j := s.jobs[i];
    OwnKeyIsHeld(s, i);
    IndexOfRange(Locks(s.locks, j.net), Key(j));
    assert JobStep(w, s, i).locks == s.locks[j.net := TakeOut(Locks(s.locks, j.net), Key(j))];
    ListWithout(s.locks, j.net, Key(j));
  }

  // ----------------------------------------------------------------- notices

  /** A task is between its INSERT of this block and the send, running or stopped there. */
  ghost predicate SendPending(s: State, e: Event) {
    exists j <- s.jobs :: OwedNotice(j) == e
  }

  /** Per stored block at most one notice over all restarts; exactly one unless the storing task is,
      or was stopped, between the INSERT and the send; none for a block that is not stored. */
  lemma NoticesMatchRows(w: World, schedule: seq<Action>, net: Net, hash: Hash, num: nat)
    requires WellFormed(w)
    ensures var s, e := After(w, schedule), Notified(net, hash, num);
      && s.log[e] <= 1
      && (s.log[e] == 1 ==> HasBlock(s.db, net, hash, num))
      && (HasBlock(s.db, net, hash, num) ==> (s.log[e] == 1 <==> !SendPending(s, e)))
  {
    AfterIsGood(w, schedule);
    var s, e := After(w, schedule), Notified(net, hash, num);
    assert BalancedAt(s.db.blocks, NoticeOf, s.jobs, OwedNotice, s.log, e);
    assert Tally(s.db.blocks, NoticeOf)[e] <= 1;
    StoredIsTallied(s.db, net, hash, num);
    SendPendingIsTallied(s, e);
  }

  lemma SendPendingIsTallied(s: State, e: Event)
    ensures SendPending(s, e) <==> Tally(s.jobs, OwedNotice)[e] > 0
  {
    TallyMember(s.jobs, OwedNotice, e);
    if SendPending(s, e) {
      var j :| j in s.jobs && OwedNotice(j) == e;
      var i :| 0 <= i < |s.jobs| && s.jobs[i] == j;
      assert OwedNotice(s.jobs[i]) == e;
    }
    if i :| 0 <= i < |s.jobs| && OwedNotice(s.jobs[i]) == e {
      assert s.jobs[i] in s.jobs;
    }
  }

  // ---------------------------------------------------------------- counters

  /** Saves paused between INSERT and counting UPDATE, and saves aborted there. */
  function PausedBlock(j: Job): Event {
    if j.status == Running then OwedBlockCount(j) else Quiet
  }

  function AbortedBlock(j: Job): Event {
    if j.status == Running then Quiet else OwedBlockCount(j)
  }

  function PausedTx(j: Job): Event {
    if j.status == Running then OwedTxCount(j) else Quiet
  }

  function AbortedTx(j: Job): Event {
    if j.status == Running then Quiet else OwedTxCount(j)
  }

  lemma {:induction false} OwedBlocksSplit(jobs: seq<Job>, e: Event)
    requires e != Quiet
    ensures Tally(jobs, OwedBlockCount)[e] == Tally(jobs, PausedBlock)[e] + Tally(jobs, AbortedBlock)[e]
  {
    if jobs != [] {
      OwedBlocksSplit(jobs[..|jobs| - 1], e);
      UnfoldAt(jobs, OwedBlockCount, e);
      UnfoldAt(jobs, PausedBlock, e);
      UnfoldAt(jobs, AbortedBlock, e);
    }
  }

  lemma {:induction false} OwedTxsSplit(jobs: seq<Job>, e: Event)
    requires e != Quiet
    ensures Tally(jobs, OwedTxCount)[e] == Tally(jobs, PausedTx)[e] + Tally(jobs, AbortedTx)[e]
  {
    if jobs != [] {
      OwedTxsSplit(jobs[..|jobs| - 1], e);
      UnfoldAt(jobs, OwedTxCount, e);
      UnfoldAt(jobs, PausedTx, e);
      UnfoldAt(jobs, AbortedTx, e);
    }
  }

  lemma UnfoldAt(jobs: seq<Job>, f: Job -> Event, e: Event)
    requires jobs != []
    ensures Tally(jobs, f)[e] == Tally(jobs[..|jobs| - 1], f)[e] + Unit(f(jobs[|jobs| - 1]), e)
  {
    TallyUnfold(jobs, f);
  }

  /** Rows of a channel = counter + what was counted before the counter was last set + saves paused or
      aborted between INSERT and UPDATE. So no counter ever exceeds its rows. */
  lemma CountersBalance(w: World, schedule: seq<Action>, c: ChannelRow)
    requires WellFormed(w) && c in After(w, schedule).db.channels
    ensures var s := After(w, schedule);
      var b, t := BlockCounted(c.net, c.hash), TxCounted(c.net, c.hash);
      && Tally(s.db.blocks, BlockCountOf)[b]
         == c.blocks + c.blocksBefore + Tally(s.jobs, PausedBlock)[b] + Tally(s.jobs, AbortedBlock)[b]
      && Tally(s.db.txs, TxCountOf)[t]
         == c.trans + c.transBefore + Tally(s.jobs, PausedTx)[t] + Tally(s.jobs, AbortedTx)[t]
      && c.blocks <= Tally(s.db.blocks, BlockCountOf)[b]
      && c.trans <= Tally(s.db.txs, TxCountOf)[t]
  {
    AfterIsGood(w, schedule);
    var s := After(w, schedule);
    var b, t := BlockCounted(c.net, c.hash), TxCounted(c.net, c.hash);
    assert CounterOk(s.log, c);
    assert BalancedAt(s.db.blocks, BlockCountOf, s.jobs, OwedBlockCount, s.log, b);
    assert BalancedAt(s.db.txs, TxCountOf, s.jobs, OwedTxCount, s.log, t);
    OwedBlocksSplit(s.jobs, b);
    OwedTxsSplit(s.jobs, t);
  }

  // ------------------------------------------------------------------ passes

  /** When a pass has finished, each number of its window is stored for its own network, or is being
      held by a task of its process, or was not delivered by the ledger to this pass. */
  lemma FinishedPassCovers(w: World, schedule: seq<Action>, p: nat, n: nat)
    requires WellFormed(w)
    requires var s := After(w, schedule); p < |s.passes| && s.passes[p].pc.Finished? && s.passes[p].status == Running
    requires After(w, schedule).passes[p].start <= n <= After(w, schedule).passes[p].latest
    ensures var s := After(w, schedule);
      var a := s.passes[p];
      || HasBlock(s.db, a.net, Genesis(w, a.net, a.channel), n)
      || HeldBy(s.jobs, a.net, BlockKey(a.channel, n))
      || n in a.undelivered
  {
    AfterIsGood(w, schedule);
    var s := After(w, schedule);
    var a := s.passes[p];
    assert a in s.passes && PassOk(w, s, a);
    assert Covered(s.db, s.locks, a, n) || n in Todo(a.pc);
    assert BlockKey(a.channel, n) in Locks(s.locks, a.net) <==> HeldBy(s.jobs, a.net, BlockKey(a.channel, n));
  }

  /** The window of a pass that got past the height query: with CUSTOM n it is the newest min(n, height)
      blocks of the height reported then, with ALL every block, and with any other mode none. */
  lemma PassWindowIsConfigured(w: World, schedule: seq<Action>, p: nat)
    requires WellFormed(w) && p < |After(w, schedule).passes|
    requires var pc := After(w, schedule).passes[p].pc; !pc.ChainInfo? && !pc.Abandoned?
    requires After(w, schedule).passes[p].latest >= -1
    ensures var a := After(w, schedule).passes[p];
      var mode, height := w.boot(a.net), a.latest + 1;
      && !mode.CustomNaN?
      && WindowSize(a.start, a.latest) == (
           if mode.All? then height
           else if mode.Custom? && mode.count > 0 then (if mode.count < height then mode.count else height)
           else 0)
  {
    AfterIsGood(w, schedule);
    var a := After(w, schedule).passes[p];
    assert a in After(w, schedule).passes && PassOk(w, After(w, schedule), a);
    WindowHolds(w.boot(a.net), a.latest + 1);
  }

  /** A row of the pass's network and channel, inside its window. */
  predicate OfWindow(w: World, a: Pass, net: Net, hash: Hash, num: nat) {
    net == a.net && hash == Genesis(w, a.net, a.channel) && a.start <= num <= a.latest
  }

  /** Whatever a pass's own task inserts, block or transaction, is of the pass's window, network and channel. */
  lemma PassInsertsInWindow(w: World, schedule: seq<Action>, i: nat, p: nat)
    requires WellFormed(w) && Runs(After(w, schedule), i) && After(w, schedule).jobs[i].pass == Some(p)
    ensures p < |After(w, schedule).passes|
    ensures var s, t := After(w, schedule), After(w, schedule + [RunBlock(i)]);
      && (forall r <- t.db.blocks :: r in s.db.blocks || OfWindow(w, s.passes[p], r.net, r.hash, r.num))
      && (forall x <- t.db.txs :: x in s.db.txs || OfWindow(w, s.passes[p], x.net, x.hash, x.num))
  {
    AfterIsGood(w, schedule);
    RunAppend(w, INITIAL, schedule, [RunBlock(i)]);
    RunOne(w, After(w, schedule), RunBlock(i));
    var s := After(w, schedule);
    assert s.jobs[i] in s.jobs && JobInWindow(s.passes, s.jobs[i]);
    SectionInsertsOwn(w, s, i);
  }

  /** A section inserts rows of its own task's block only. */
  lemma SectionInsertsOwn(w: World, s: State, i: nat)
    requires Runs(s, i)
    ensures var t, j := JobStep(w, s, i), s.jobs[i];
      && (forall r <- t.db.blocks :: r in s.db.blocks || (r.net == j.net && r.hash == Genesis(w, j.net, j.channel) && r.num == j.num))
      && (forall x <- t.db.txs :: x in s.db.txs || (x.net == j.net && x.hash == Genesis(w, j.net, j.channel) && x.num == j.num))
  {
    RowsMove(w, s.db, s.jobs[i]);
  }

  // -------------------------------------------------------------- hash chain

  /** Consecutive stored rows of a network and genesis hash are chained, in whatever order they were inserted. */
  lemma StoredRowsChain(w: World, schedule: seq<Action>, r: BlockRow, next: BlockRow)
    requires WellFormed(w) && (forall channel <- w.channels(r.net) :: Chained(w, r.net, channel))
    requires r in After(w, schedule).db.blocks && next in After(w, schedule).db.blocks
    requires r.net == next.net && r.hash == next.hash && next.num == r.num + 1
    ensures r.blockhash == next.prehash
  {
    AfterIsGood(w, schedule);
    var db := After(w, schedule).db;
    assert RowOk(w, db, r) && RowOk(w, db, next);
    HeaderChain(w, r.net, w.nameOf(r.net, r.hash), r.num);
  }

  // ------------------------------------------------------------- stored values

  /** A stored block row tells its block: hashes as hexadecimal text that reads back, the number of
      transactions, the time, the size in kilobytes to the nearest, and as block hash the digest of the
      header's DER form. */
  lemma StoredRowTellsBlock(w: World, schedule: seq<Action>, r: BlockRow)
    requires WellFormed(w) && r in After(w, schedule).db.blocks
    ensures var channel := w.nameOf(r.net, r.hash);
      var block := w.ledger(r.net, channel, r.num);
      && channel in w.channels(r.net)
      && ReadHex(r.hash) == w.digest(CutHeader(w, r.net, channel, 0))
      && ReadHex(r.datahash) == block.header.dataHash && ReadHex(r.prehash) == block.header.previousHash
      && ReadHex(r.blockhash) == w.digest(CutHeader(w, r.net, channel, r.num))
      && r.txcount == |block.txs| && r.createdt == block.time
      && Distance(1024 * r.blksize, Bytes(block.json)) <= 512
  {
    AfterIsGood(w, schedule);
    assert RowOk(w, After(w, schedule).db, r);
    var channel := w.nameOf(r.net, r.hash);
    var block := w.ledger(r.net, channel, r.num);
    HexReadsBack(w.digest(CutHeader(w, r.net, channel, 0)));
    HexReadsBack(w.digest(CutHeader(w, r.net, channel, r.num)));
    HexReadsBack(block.header.dataHash);
    HexReadsBack(block.header.previousHash);
    KiloBytesNearest(Bytes(block.json), 0);
  }

  /** The row of each transaction of a stored block carries its id, or, for a CONFIG transaction, the digest of
      its JSON text as hexadecimal text. */
  lemma StoredTxTellsId(w: World, schedule: seq<Action>, net: Net, channel: Channel, num: nat, k: nat)
    requires WellFormed(w) && channel in w.channels(net) && HasBlock(After(w, schedule).db, net, Genesis(w, net, channel), num)
    requires k < |w.ledger(net, channel, num).txs|
    ensures var tx := w.ledger(net, channel, num).txs[k];
      exists t <- After(w, schedule).db.txs ::
        t.net == net && t.hash == Genesis(w, net, channel) && t.num == num
        && (if tx.config then ReadHex(t.txhash) == w.digest(w.jsonBytes(tx.json)) else t.txhash == tx.id)
  {
    StoredBlockIsComplete(w, schedule, net, channel, num);
    var tx := w.ledger(net, channel, num).txs[k];
    HexReadsBack(w.digest(w.jsonBytes(tx.json)));
    assert TxRowOf(w, net, channel, num, k) in After(w, schedule).db.txs;
  }
}

/** The tables and what is stored in them, over every schedule of tasks, passes, failures and crashes. */
module SyncSafety {
  import opened Bag
  import opened Ledger
  import opened SyncMachine
  import opened SyncLocks
  import opened SyncRows
  import opened SyncCounters
  import opened SyncPasses

  // ---------------------------------------------------------------- invariant

  ghost predicate Good(w: World, s: State) {
    && LocksOk(s.locks, s.jobs)
    && TablesOk(w, s.db, s.jobs)
    && Balanced(s.db, s.jobs, s.log)
    && CountersOk(s.db.channels, s.log)
    && PassesOk(w, s)
    && KnownOk(w, s)
  }

  lemma StepKeepsGood(w: World, s: State, a: Action)
    requires WellFormed(w) && Good(w, s)
    ensures Good(w, Step(w, s, a))
  {
    Classify(w, s, a);
    var e := EffectOf(w, s, a);
    EntryIsAdmitted(w, s, a);
    StepKeepsKnown(w, s, a);
    StepKeepsLocks(w, s, e, Step(w, s, a));
    StepKeepsTables(w, s, e, Step(w, s, a));
    StepKeepsBalance(w, s, e, Step(w, s, a));
    StepKeepsCounters(w, s, a);
    StepKeepsPasses(w, s, a);
  }

  lemma {:induction false} RunKeepsGood(w: World, s: State, schedule: seq<Action>)
    requires WellFormed(w) && Good(w, s)
    ensures Good(w, Run(w, s, schedule))
  {
    if schedule != [] {
      RunKeepsGood(w, s, schedule[..|schedule| - 1]);
      StepKeepsGood(w, Run(w, s, schedule[..|schedule| - 1]), schedule[|schedule| - 1]);
    }
  }

  lemma InitialIsGood(w: World)
    ensures Good(w, INITIAL)
  {
    forall net
      ensures Locks(INITIAL.locks, net) == []
    {
    }
  }

  /** The state a schedule leads to from empty tables. */
  function After(w: World, schedule: seq<Action>): State {
    Run(w, INITIAL, schedule)
  }

  lemma AfterIsGood(w: World, schedule: seq<Action>)
    requires WellFormed(w)
    ensures Good(w, After(w, schedule))
  {
    InitialIsGood(w);
    RunKeepsGood(w, INITIAL, schedule);
  }

  lemma {:induction false} RunAppend(w: World, s: State, first: seq<Action>, second: seq<Action>)
    ensures Run(w, s, first + second) == Run(w, Run(w, s, first), second)
  {
    var all := first + second;
    if second == [] {
      assert all == first;
    } else {
      RunAppend(w, s, first, second[..|second| - 1]);
      assert all[..|all| - 1] == first + second[..|second| - 1];
      assert all[|all| - 1] == second[|second| - 1];
    }
  }

  lemma RunCons(w: World, s: State, a: Action, rest: seq<Action>)
    ensures Run(w, s, [a] + rest) == Run(w, Step(w, s, a), rest)
  {
    RunOne(w, s, a);
    RunAppend(w, s, [a], rest);
  }

  lemma RunOne(w: World, s: State, a: Action)
    ensures Run(w, s, [a]) == Step(w, s, a)
  {
    assert [a][..0] == [];
    assert Run(w, s, []) == s;
  }

  // -------------------------------------------------------------- uniqueness

  /** At most one row per network, channel and block number; at most one per network, channel, number and hash. */
  lemma AtMostOneRow(w: World, schedule: seq<Action>)
    requires WellFormed(w)
    ensures var db := After(w, schedule).db;
      && (forall i, j | 0 <= i < j < |db.blocks| :: NoticeOf(db.blocks[i]) != NoticeOf(db.blocks[j]))
      && (forall i, j | 0 <= i < j < |db.txs| :: db.txs[i] != db.txs[j])
  {
    var db := After(w, schedule).db;
    AfterIsGood(w, schedule);
    forall i, j | 0 <= i < j < |db.blocks|
      ensures NoticeOf(db.blocks[i]) != NoticeOf(db.blocks[j])
    {
      TallyAtMostOne(db.blocks, NoticeOf, NoticeOf(db.blocks[i]));
    }
    forall i, j | 0 <= i < j < |db.txs|
      ensures db.txs[i] != db.txs[j]
    {
      DistinctInMultiset(db.txs, i, j);
    }
  }

  lemma DistinctInMultiset<T>(s: seq<T>, i: nat, j: nat)
    requires i < j < |s| && multiset(s)[s[i]] <= 1
    ensures s[i] != s[j]
  {
    assert s == s[..j] + s[j..];
    assert multiset(s) == multiset(s[..j]) + multiset(s[j..]);
    assert s[i] in s[..j] && s[j] in s[j..];
    assert s[..j][i] in multiset(s[..j]) && s[j..][0] in multiset(s[j..]);
  }

  /** A stored block row is the ledger's, and each of the block's transactions is stored with it. */
  lemma StoredBlockIsComplete(w: World, schedule: seq<Action>, net: Net, channel: Channel, num: nat)
    requires WellFormed(w) && channel in w.channels(net) && HasBlock(After(w, schedule).db, net, Genesis(w, net, channel), num)
    ensures RowOf(w, net, channel, num) in After(w, schedule).db.blocks
    ensures Storable(w, net, channel, num)
    ensures forall k :: 0 <= k < |w.ledger(net, channel, num).txs| ==>
              TxRowOf(w, net, channel, num, k) in After(w, schedule).db.txs
  {
    AfterIsGood(w, schedule);
    var db := After(w, schedule).db;
    var r :| r in db.blocks && r.net == net && r.hash == Genesis(w, net, channel) && r.num == num;
    assert RowOk(w, db, r) && w.nameOf(net, Genesis(w, net, channel)) == channel;
  }

  // ------------------------------------------------------------ convergence

  lemma {:induction false} MultisetBelowTally<T, K>(s: seq<T>, f: T -> K, x: T)
    ensures multiset(s)[x] <= Tally(s, f)[f(x)]
  {
    if s != [] {
      var front := s[..|s| - 1];
      MultisetBelowTally(front, f, x);
      assert s == front + [s[|s| - 1]];
      assert multiset(s) == multiset(front) + multiset{s[|s| - 1]};
    }
  }

  /** A transaction row belongs to the block exactly when it is one of its transactions' rows. */
  ghost predicate IsTxOf(w: World, net: Net, channel: Channel, num: nat, t: TxRow) {
    exists k :: 0 <= k < |w.ledger(net, channel, num).txs| && t == TxRowOf(w, net, channel, num, k)
  }

  /** Once a block is stored its rows are fixed by the ledger alone: one block row, and one transaction
      row per distinct hash, however often processing was aborted, repeated or restarted before. */
  lemma StoredBlockIsDetermined(w: World, schedule: seq<Action>, net: Net, channel: Channel, num: nat)
    requires WellFormed(w) && channel in w.channels(net) && HasBlock(After(w, schedule).db, net, Genesis(w, net, channel), num)
    ensures forall r: BlockRow | r.net == net && r.hash == Genesis(w, net, channel) && r.num == num ::
              multiset(After(w, schedule).db.blocks)[r] == if r == RowOf(w, net, channel, num) then 1 else 0
    ensures forall t: TxRow | t.net == net && t.hash == Genesis(w, net, channel) && t.num == num ::
              multiset(After(w, schedule).db.txs)[t] == if IsTxOf(w, net, channel, num, t) then 1 else 0
  {
    AfterIsGood(w, schedule);
    StoredBlockIsComplete(w, schedule, net, channel, num);
    var db := After(w, schedule).db;
    assert w.nameOf(net, Genesis(w, net, channel)) == channel;
    forall r: BlockRow | r.net == net && r.hash == Genesis(w, net, channel) && r.num == num
      ensures multiset(db.blocks)[r] == if r == RowOf(w, net, channel, num) then 1 else 0
    {
      MultisetBelowTally(db.blocks, NoticeOf, r);
      if r in db.blocks {
        assert RowOk(w, db, r);
      }
    }
    forall t: TxRow | t.net == net && t.hash == Genesis(w, net, channel) && t.num == num
      ensures multiset(db.txs)[t] == if IsTxOf(w, net, channel, num, t) then 1 else 0
    {
      if t in db.txs {
        assert TxOk(w, t);
      }
    }
  }

  /** Any two runs that have stored a block agree on all its rows. */
  lemma RunsConverge(w: World, one: seq<Action>, other: seq<Action>, net: Net, channel: Channel, num: nat)
    requires WellFormed(w) && channel in w.channels(net)
    requires HasBlock(After(w, one).db, net, Genesis(w, net, channel), num)
    requires HasBlock(After(w, other).db, net, Genesis(w, net, channel), num)
    ensures forall r: BlockRow | r.net == net && r.hash == Genesis(w, net, channel) && r.num == num ::
              multiset(After(w, one).db.blocks)[r] == multiset(After(w, other).db.blocks)[r]
    ensures forall t: TxRow | t.net == net && t.hash == Genesis(w, net, channel) && t.num == num ::
              multiset(After(w, one).db.txs)[t] == multiset(After(w, other).db.txs)[t]
  {
    StoredBlockIsDetermined(w, one, net, channel, num);
    StoredBlockIsDetermined(w, other, net, channel, num);
  }
}

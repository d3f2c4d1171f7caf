/** Block tasks run to their end, thrown ones, and which blocks can be stored at all. */
module SyncRecovery {
  import opened Options
  import opened Text
  import opened JsonTree
  import opened Ledger
  import opened SyncMachine
  import opened SyncLocks
  import opened SyncRows
  import opened SyncPasses
  import opened SyncSafety
  import opened SyncResults

  // ---------------------------------------------------------------- completion

  /** Sections a block task has left at most. */
  function Remaining(w: World, j: Job): nat {
    var n := |Txs(w, j)|;
    match j.pc
    case Stamp => 4 * n + 5
    case TxCount(k) => if k < n then 4 * (n - k) + 4 else 4
    case TxInsert(k) => if k < n then 4 * (n - k) + 3 else 4
    case TxChaincode(k) => if k < n then 4 * (n - k) + 2 else 4
    case TxTrans(k) => if k < n then 4 * (n - k) + 1 else 4
    case BlkCount => 4
    case BlkInsert => 3
    case BlkUpdate => 2
    case Finish(_) => 1
    case Released => 0
  }

  predicate OfStorable(w: World, j: Job) {
    Storable(w, j.net, j.channel, j.num)
  }

  lemma StorableNeverThrows(w: World, j: Job)
    requires OfStorable(w, j)
    ensures !Throws(w, j)
  {
  }

  lemma NextIsShorter(w: World, db: Db, j: Job)
    requires Sane(w, j) && j.pc != Released
    ensures Remaining(w, j.(pc := RunJob(w, db, j).0)) < Remaining(w, j)
  {
  }

  lemma SectionShortens(w: World, s: State, i: nat)
    requires Runs(s, i) && Sane(w, s.jobs[i]) && OfStorable(w, s.jobs[i])
    ensures !Throws(w, s.jobs[i])
    ensures var t, j := JobStep(w, s, i), s.jobs[i];
      t.jobs[i] == j.(pc := t.jobs[i].pc) && Remaining(w, t.jobs[i]) < Remaining(w, j)
  {
    StorableNeverThrows(w, s.jobs[i]);
    NextIsShorter(w, s.db, s.jobs[i]);
  }

  /** Other tasks, passes and registrations never move the task; its own sections shorten it. */
  lemma TurnCounts(w: World, s: State, a: Action, i: nat)
    requires JobsOk(w, s.db, s.jobs) && i < |s.jobs| && s.jobs[i].status == Running && OfStorable(w, s.jobs[i])
    requires a != FailBlock(i) && a != Crash(s.jobs[i].net)
    ensures var t, j := Step(w, s, a), s.jobs[i];
      && i < |t.jobs| && t.jobs[i] == j.(pc := t.jobs[i].pc)
      && Remaining(w, t.jobs[i]) <= Remaining(w, j)
      && (a == RunBlock(i) && j.pc != Released ==> Remaining(w, t.jobs[i]) < Remaining(w, j))
  {
    assert s.jobs[i] in s.jobs;
    if Runs(s, i) {
      SectionShortens(w, s, i);
    }
    Classify(w, s, a);
    match EffectOf(w, s, a)
    case Advanced(m) => assert m != i ==> Step(w, s, a).jobs[i] == s.jobs[i];
    case _ =>
  }

  lemma {:induction false} TurnsAddUp(w: World, s: State, rest: seq<Action>, i: nat)
    requires WellFormed(w) && Good(w, s) && i < |s.jobs| && s.jobs[i].status == Running && OfStorable(w, s.jobs[i])
    requires FailBlock(i) !in rest && Crash(s.jobs[i].net) !in rest
    ensures var t, j := Run(w, s, rest), s.jobs[i];
      && i < |t.jobs| && t.jobs[i] == j.(pc := t.jobs[i].pc)
      && (t.jobs[i].pc == Released || Remaining(w, t.jobs[i]) + multiset(rest)[RunBlock(i)] <= Remaining(w, j))
  {
    if rest != [] {
      var front, last := rest[..|rest| - 1], rest[|rest| - 1];
      assert rest == front + [last];
      assert multiset(rest) == multiset(front) + multiset{last};
      TurnsAddUp(w, s, front, i);
      RunKeepsGood(w, s, front);
      LastTurn(w, Run(w, s, front), last, i, s.jobs[i]);
    }
  }

  lemma LastTurn(w: World, s: State, a: Action, i: nat, first: Job)
    requires JobsOk(w, s.db, s.jobs) && i < |s.jobs| && s.jobs[i] == first.(pc := s.jobs[i].pc)
    requires first.status == Running && OfStorable(w, first) && a != FailBlock(i) && a != Crash(first.net)
    ensures var t := Step(w, s, a);
      && i < |t.jobs| && t.jobs[i] == first.(pc := t.jobs[i].pc)
      && (s.jobs[i].pc == Released ==> t.jobs[i].pc == Released)
      && Remaining(w, t.jobs[i]) + (if a == RunBlock(i) && s.jobs[i].pc != Released then 1 else 0) <= Remaining(w, s.jobs[i])
  {
    assert OfStorable(w, s.jobs[i]);
    TurnCounts(w, s, a, i);
    NothingLeft(w, s.jobs[i]);
    NothingLeft(w, Step(w, s, a).jobs[i]);
  }

  lemma NothingLeft(w: World, j: Job)
    ensures Remaining(w, j) == 0 <==> j.pc == Released
  {
  }

  /** Whatever else runs, a task of a storable block that is given its sections, at most 4 per transaction
      and 5 more, and is not stopped, ends with its block stored and its key released. */
  lemma TaskFinishes(w: World, s: State, rest: seq<Action>, i: nat)
    requires WellFormed(w) && Good(w, s) && i < |s.jobs| && s.jobs[i].status == Running && OfStorable(w, s.jobs[i])
    requires FailBlock(i) !in rest && Crash(s.jobs[i].net) !in rest
    requires multiset(rest)[RunBlock(i)] >= Remaining(w, s.jobs[i])
    ensures var t, j := Run(w, s, rest), s.jobs[i];
      i < |t.jobs| && t.jobs[i] == j.(pc := Released) && HasBlock(t.db, j.net, j.hash, j.num)
  {
    TurnsAddUp(w, s, rest, i);
    RunKeepsGood(w, s, rest);
    var j := Run(w, s, rest).jobs[i];
    assert j in Run(w, s, rest).jobs;
  }

  /** A schedule with sections of one task only. */
  function Alone(i: nat, n: nat): seq<Action> {
    seq(n, _ => RunBlock(i))
  }

  lemma AloneUnrolls(w: World, s: State, i: nat, m: nat)
    requires Runs(s, i)
    ensures Run(w, s, Alone(i, m + 1)) == Run(w, JobStep(w, s, i), Alone(i, m))
  {
    assert Alone(i, m + 1) == [RunBlock(i)] + Alone(i, m);
    RunCons(w, s, RunBlock(i), Alone(i, m));
  }

  lemma {:induction false} AloneCounts(i: nat, n: nat)
    ensures multiset(Alone(i, n))[RunBlock(i)] == n
  {
    if n > 0 {
      assert Alone(i, n) == Alone(i, n - 1) + [RunBlock(i)];
      AloneCounts(i, n - 1);
    }
  }

  /** Running only this task finishes it. */
  lemma AloneFinishes(w: World, s: State, i: nat)
    requires WellFormed(w) && Good(w, s) && i < |s.jobs| && s.jobs[i].status == Running && OfStorable(w, s.jobs[i])
    ensures var t, j := Run(w, s, Alone(i, Remaining(w, s.jobs[i]))), s.jobs[i];
      i < |t.jobs| && t.jobs[i] == j.(pc := Released) && HasBlock(t.db, j.net, j.hash, j.num)
  {
    AloneCounts(i, Remaining(w, s.jobs[i]));
    TaskFinishes(w, s, Alone(i, Remaining(w, s.jobs[i])), i);
  }

  // ------------------------------------------------------------------ recovery

  /** A restart loses the process's memory and tasks and nothing else: the tables stay, no block is accepted
      before the channel is learned again, and the processes of other networks go on as they were. */
  lemma RestartForgets(w: World, s: State, net: Net, other: Net)
    ensures var t := Step(w, s, Crash(net));
      && t.db == s.db && t.log == s.log && Locks(t.locks, net) == []
      && (forall channel, num :: !GuardPasses(w, t, net, channel, num))
      && (other != net ==> Locks(t.locks, other) == Locks(s.locks, other) && Known(t, other) == Known(s, other))
      && |t.jobs| == |s.jobs| && |t.passes| == |s.passes| && |t.regs| == |s.regs|
      && (forall i :: 0 <= i < |s.jobs| ==>
            if s.jobs[i].net == net then t.jobs[i] == s.jobs[i].(status := Crashed) else t.jobs[i] == s.jobs[i])
      && (forall i :: 0 <= i < |s.passes| ==>
            if s.passes[i].net == net then t.passes[i] == s.passes[i].(status := Crashed) else t.passes[i] == s.passes[i])
      && (forall i :: 0 <= i < |s.regs| ==>
            if s.regs[i].net == net then t.regs[i] == s.regs[i].(status := Crashed) else t.regs[i] == s.regs[i])
  {
  }

  /** The process is restarted and knows the channel again. */
  function Restarted(w: World, s: State, net: Net, channel: Channel): State {
    Step(w, Step(w, s, Crash(net)), Learn(net, channel))
  }

  lemma RestartOpensTheGuard(w: World, s: State, net: Net, channel: Channel, num: nat)
    requires WellFormed(w) && Good(w, s) && channel in w.channels(net) && |w.ledger(net, channel, num).txs| > 0
    ensures var t := Restarted(w, s, net, channel);
      Good(w, t) && GuardPasses(w, t, net, channel, num) && t == Run(w, s, [Crash(net)] + [Learn(net, channel)])
  {
    StepKeepsGood(w, s, Crash(net));
    StepKeepsGood(w, Step(w, s, Crash(net)), Learn(net, channel));
    RunCons(w, s, Crash(net), [Learn(net, channel)]);
    RunOne(w, Step(w, s, Crash(net)), Learn(net, channel));
  }

  /** A state that some schedule leads to, with a fresh task of the block, leads on to the stored block. */
  lemma EnteredIsStored(w: World, s: State, path: seq<Action>, t: State, net: Net, channel: Channel, num: nat, pass: Option<nat>)
    returns (rest: seq<Action>)
    requires WellFormed(w) && Good(w, s) && Storable(w, net, channel, num) && Run(w, s, path) == t
    requires t.jobs != [] && t.jobs[|t.jobs| - 1] == Job(net, channel, Genesis(w, net, channel), num, pass, Stamp, Running)
    ensures HasBlock(Run(w, s, rest).db, net, Genesis(w, net, channel), num)
  {
    RunKeepsGood(w, s, path);
    var i := |t.jobs| - 1;
    AloneFinishes(w, t, i);
    rest := path + Alone(i, Remaining(w, t.jobs[i]));
    RunAppend(w, s, path, Alone(i, Remaining(w, t.jobs[i])));
  }

  lemma DeliveryStores(w: World, s: State, net: Net, channel: Channel, num: nat) returns (rest: seq<Action>)
    requires WellFormed(w) && Good(w, s) && channel in w.channels(net) && Storable(w, net, channel, num) && num != 0
    ensures HasBlock(Run(w, s, rest).db, net, Genesis(w, net, channel), num)
  {
    RestartOpensTheGuard(w, s, net, channel, num);
    var restart, open := [Crash(net)] + [Learn(net, channel)], Restarted(w, s, net, channel);
    RunAppend(w, s, restart, [Deliver(net, channel, num)]);
    RunOne(w, open, Deliver(net, channel, num));
    rest := EnteredIsStored(w, s, restart + [Deliver(net, channel, num)], Enter(w, open, net, channel, num, None),
                            net, channel, num, None);
  }

  /** The state with one more pass, over the one-block channel height, at the given place. */
  function WithPass(w: World, s: State, net: Net, channel: Channel, pc: PassPc): State {
    s.(passes := s.passes + [Pass(net, channel, Genesis(w, net, channel), 0, if pc.ChainInfo? then -1 else 0, if pc.ChainInfo? || pc == Fetch(0) || pc.Decide? then {} else {0}, {}, pc, Running)])
  }

  lemma PassTurn(w: World, s: State, net: Net, channel: Channel, at: PassPc, next: PassPc)
    requires Loads(w.boot(net))
    requires (at == ChainInfo && next == Fetch(0))
          || (at == Fetch(0) && next.Decide? && next.height == 0 && !next.fetched
              && next.available == AvailableInAnyNetwork(s.db, Genesis(w, net, channel), 0))
          || (at.Decide? && at.height == 0 && !at.fetched && next == Fetch(-1))
          || (at == Fetch(-1) && next == Missing)
          || (at == Missing && next == Refetch(FilterFrom(MissingNumbers(s.db, net, Genesis(w, net, channel), 0), 0)))
    ensures Step(w, WithPass(w, s, net, channel, at), RunPass(|s.passes|, false, 1)) == WithPass(w, s, net, channel, next)
  {
    var before, after := WithPass(w, s, net, channel, at), WithPass(w, s, net, channel, next);
    assert before.passes[|s.passes| := after.passes[|s.passes|]] == after.passes;
    assert before.passes[|s.passes|].unloaded + {0} == {0};
  }

  lemma FiveTurns(w: World, s: State, net: Net, channel: Channel)
    requires Loads(w.boot(net)) && !HasBlock(s.db, net, Genesis(w, net, channel), 0)
    ensures var turn := [RunPass(|s.passes|, false, 1)];
      Run(w, WithPass(w, s, net, channel, ChainInfo), turn + (turn + (turn + (turn + turn))))
      == WithPass(w, s, net, channel, Refetch([0]))
  {
    var hash := Genesis(w, net, channel);
    var a := RunPass(|s.passes|, false, 1);
    var looked := Decide(0, false, AvailableInAnyNetwork(s.db, hash, 0));
    ZeroIsMissing(s.db, net, hash);
    PassTurn(w, s, net, channel, ChainInfo, Fetch(0));
    PassTurn(w, s, net, channel, Fetch(0), looked);
    PassTurn(w, s, net, channel, looked, Fetch(-1));
    PassTurn(w, s, net, channel, Fetch(-1), Missing);
    PassTurn(w, s, net, channel, Missing, Refetch([0]));
    RunCons(w, WithPass(w, s, net, channel, ChainInfo), a, [a] + ([a] + ([a] + [a])));
    RunCons(w, WithPass(w, s, net, channel, Fetch(0)), a, [a] + ([a] + [a]));
    RunCons(w, WithPass(w, s, net, channel, looked), a, [a] + [a]);
    RunCons(w, WithPass(w, s, net, channel, Fetch(-1)), a, [a]);
    RunOne(w, WithPass(w, s, net, channel, Missing), a);
  }

  lemma ZeroIsMissing(db: Db, net: Net, hash: Hash)
    requires !HasBlock(db, net, hash, 0)
    ensures FilterFrom(MissingNumbers(db, net, hash, 0), 0) == [0]
  {
    assert MissingNumbers(db, net, hash, -1) == [];
    assert MissingNumbers(db, net, hash, 0) == [0];
    assert [0][1..] == [];
  }

  /** A pass over the first block alone, up to the call of `processBlockEvent`. */
  function FirstBlockPass(net: Net, channel: Channel, p: nat): seq<Action> {
    var turn := [RunPass(p, false, 1)];
    [StartPass(net, channel)] + ((turn + (turn + (turn + (turn + turn)))) + [RunPass(p, true, 1)])
  }

  lemma FirstBlockEnters(w: World, s: State, net: Net, channel: Channel)
    requires Loads(w.boot(net)) && !HasBlock(s.db, net, Genesis(w, net, channel), 0) && GuardPasses(w, s, net, channel, 0)
    ensures var t := Run(w, s, FirstBlockPass(net, channel, |s.passes|));
      t.jobs == s.jobs + [Job(net, channel, Genesis(w, net, channel), 0, Some(|s.passes|), Stamp, Running)]
  {
    var p := |s.passes|;
    var turn := [RunPass(p, false, 1)];
    var loop := turn + (turn + (turn + (turn + turn)));
    FiveTurns(w, s, net, channel);
    RunCons(w, s, StartPass(net, channel), loop + [RunPass(p, true, 1)]);
    assert Step(w, s, StartPass(net, channel)) == WithPass(w, s, net, channel, ChainInfo);
    RunAppend(w, WithPass(w, s, net, channel, ChainInfo), loop, [RunPass(p, true, 1)]);
    RunOne(w, WithPass(w, s, net, channel, Refetch([0])), RunPass(p, true, 1));
    RefetchEnters(w, s, net, channel);
  }

  lemma RefetchEnters(w: World, s: State, net: Net, channel: Channel)
    requires GuardPasses(w, s, net, channel, 0)
    ensures Step(w, WithPass(w, s, net, channel, Refetch([0])), RunPass(|s.passes|, true, 1)).jobs
         == s.jobs + [Job(net, channel, Genesis(w, net, channel), 0, Some(|s.passes|), Stamp, Running)]
  {
    assert GuardPasses(w, WithPass(w, s, net, channel, Refetch([0])), net, channel, 0);
  }

  /** Block 0 comes in through the second loop of a pass. */
  lemma PassStoresFirst(w: World, s: State, net: Net, channel: Channel) returns (rest: seq<Action>)
    requires WellFormed(w) && Good(w, s) && channel in w.channels(net) && Storable(w, net, channel, 0)
    requires !HasBlock(s.db, net, Genesis(w, net, channel), 0)
    ensures HasBlock(Run(w, s, rest).db, net, Genesis(w, net, channel), 0)
  {
    RestartOpensTheGuard(w, s, net, channel, 0);
    var restart, open := [Crash(net)] + [Learn(net, channel)], Restarted(w, s, net, channel);
    var first := FirstBlockPass(net, channel, |open.passes|);
    FirstBlockEnters(w, open, net, channel);
    RunAppend(w, s, restart, first);
    rest := EnteredIsStored(w, s, restart + first, Run(w, open, first), net, channel, 0, Some(|open.passes|));
  }

  /** From every reachable state some continuation stores the block if and only if it has transactions, its
      number fits the column, the loop throws on no transaction, and, for block 0, passes load blocks. */
  lemma CanBeStoredIff(w: World, schedule: seq<Action>, net: Net, channel: Channel, num: nat)
    requires WellFormed(w) && channel in w.channels(net)
    ensures (exists rest :: HasBlock(After(w, schedule + rest).db, net, Genesis(w, net, channel), num))
       <==> Storable(w, net, channel, num)
    ensures var block, mode := w.ledger(net, channel, num), w.boot(net);
      Storable(w, net, channel, num) <==>
        && block.txs != [] && num < 0x8000_0000
        && (forall tx <- block.txs :: !WalkThrows(tx.json) && tx.readable)
        && (num == 0 ==> mode.All? || (mode.Custom? && mode.count > 0))
  {
    var s, hash := After(w, schedule), Genesis(w, net, channel);
    AfterIsGood(w, schedule);
    assert forall k :: 0 <= k < |w.ledger(net, channel, num).txs| ==> w.ledger(net, channel, num).txs[k] in w.ledger(net, channel, num).txs;
    if rest :| HasBlock(After(w, schedule + rest).db, net, hash, num) {
      StoredBlockIsComplete(w, schedule + rest, net, channel, num);
    }
    if Storable(w, net, channel, num) {
      var rest := [];
      if num != 0 {
        rest := DeliveryStores(w, s, net, channel, num);
      } else if !HasBlock(s.db, net, hash, 0) {
        rest := PassStoresFirst(w, s, net, channel);
      }
      RunAppend(w, INITIAL, schedule, rest);
      assert HasBlock(After(w, schedule + rest).db, net, hash, num);
    }
  }

  // ------------------------------------------------------- thrown block tasks

  /** The task threw past the guard and never released its key. */
  ghost predicate Stopped(s: State, i: nat, j: Job) {
    i < |s.jobs| && s.jobs[i] == j && j.status == Threw && j.pc != Released
  }

  /** Only a task of the same block could insert its row, and the guard admits none beside the thrown one. */
  lemma SectionSparesStopped(w: World, s: State, m: nat, i: nat, j: Job)
    requires WellFormed(w) && Good(w, s) && Stopped(s, i, j) && Runs(s, m) && !Throws(w, s.jobs[m])
    ensures HasBlock(JobStep(w, s, m).db, j.net, j.hash, j.num) <==> HasBlock(s.db, j.net, j.hash, j.num)
  {
    assert s.jobs[i] in s.jobs && s.jobs[m] in s.jobs;
    OthersSpared(w, s, m, i);
    RunJobGrows(w, s.db, s.jobs[m]);
    if HasBlock(s.db, j.net, j.hash, j.num) {
      HasBlockGrows(s.db, JobStep(w, s, m).db, j.net, j.hash, j.num);
    }
  }

  lemma StepKeepsStopped(w: World, s: State, a: Action, i: nat, j: Job)
    requires WellFormed(w) && Good(w, s) && Stopped(s, i, j) && a != Crash(j.net)
    ensures Stopped(Step(w, s, a), i, j)
    ensures HasBlock(Step(w, s, a).db, j.net, j.hash, j.num) <==> HasBlock(s.db, j.net, j.hash, j.num)
  {
    Classify(w, s, a);
    EffectKeepsStopped(w, s, EffectOf(w, s, a), Step(w, s, a), i, j);
  }

  lemma EffectKeepsStopped(w: World, s: State, e: Effect, t: State, i: nat, j: Job)
    requires WellFormed(w) && Good(w, s) && Stopped(s, i, j) && Explains(w, s, e, t) && e != Died(j.net)
    ensures Stopped(t, i, j)
    ensures HasBlock(t.db, j.net, j.hash, j.num) <==> HasBlock(s.db, j.net, j.hash, j.num)
  {
    match e
    case Advanced(m) => SectionSparesStopped(w, s, m, i, j);
    case ChannelsWritten => assert t.db.blocks == s.db.blocks;
    case _ =>
  }

  /** Until its process restarts, a task that threw past the guard keeps its key in `blocksInProcess`, and its
      block stays stored or unstored as it was, whatever events and passes come. */
  lemma {:induction false} ThrownTaskHoldsItsBlock(w: World, s: State, rest: seq<Action>, i: nat, j: Job)
    requires WellFormed(w) && Good(w, s) && Stopped(s, i, j) && Crash(j.net) !in rest
    ensures Stopped(Run(w, s, rest), i, j) && Key(j) in Locks(Run(w, s, rest).locks, j.net)
    ensures HasBlock(Run(w, s, rest).db, j.net, j.hash, j.num) <==> HasBlock(s.db, j.net, j.hash, j.num)
  {
    if rest != [] {
      var front, last := rest[..|rest| - 1], rest[|rest| - 1];
      assert rest == front + [last];
      ThrownTaskHoldsItsBlock(w, s, front, i, j);
      RunKeepsGood(w, s, front);
      StepKeepsStopped(w, Run(w, s, front), last, i, j);
    }
    RunKeepsGood(w, s, rest);
    StoppedIsHeld(w, Run(w, s, rest), i, j);
  }

  lemma StoppedIsHeld(w: World, s: State, i: nat, j: Job)
    requires Good(w, s) && Stopped(s, i, j)
    ensures Key(j) in Locks(s.locks, j.net)
  {
    assert s.jobs[i] in s.jobs && HeldBy(s.jobs, j.net, Key(j));
  }

  /** With the block unstored, only schedules that restart the process can still store it, and one of them
      does exactly when the block can be stored at all. */
  lemma OnlyRestartUnblocks(w: World, schedule: seq<Action>, i: nat, j: Job)
    requires WellFormed(w) && Stopped(After(w, schedule), i, j)
    requires !HasBlock(After(w, schedule).db, j.net, j.hash, j.num)
    ensures forall rest :: HasBlock(After(w, schedule + rest).db, j.net, j.hash, j.num) ==> Crash(j.net) in rest
    ensures (exists rest :: Crash(j.net) in rest && HasBlock(After(w, schedule + rest).db, j.net, j.hash, j.num))
       <==> Storable(w, j.net, j.channel, j.num)
  {
    var s := After(w, schedule);
    AfterIsGood(w, schedule);
    assert s.jobs[i] in s.jobs && Sane(w, j);
    forall rest | HasBlock(After(w, schedule + rest).db, j.net, j.hash, j.num)
      ensures Crash(j.net) in rest
    {
      RunAppend(w, INITIAL, schedule, rest);
      if Crash(j.net) !in rest {
        ThrownTaskHoldsItsBlock(w, s, rest, i, j);
      }
    }
    CanBeStoredIff(w, schedule, j.net, j.channel, j.num);
  }

  lemma DeliveryEnters(w: World, s: State, net: Net, channel: Channel, num: nat)
    requires s.jobs == [] && s.locks == map[] && channel in w.channels(net) && num != 0 && |w.ledger(net, channel, num).txs| > 0
    ensures var t := Run(w, s, [Learn(net, channel)] + [Deliver(net, channel, num)]);
      && t.jobs == [Job(net, channel, Genesis(w, net, channel), num, None, Stamp, Running)]
      && t.regs == s.regs && t.db == s.db
  {
    RunCons(w, s, Learn(net, channel), [Deliver(net, channel, num)]);
    RunOne(w, Step(w, s, Learn(net, channel)), Deliver(net, channel, num));
  }

  /** Such a state is reached: one delivery, and a failure before the first statement. */
  lemma FailedDeliveryBlocks(w: World, net: Net, channel: Channel, num: nat) returns (schedule: seq<Action>, j: Job)
    requires channel in w.channels(net) && num != 0 && |w.ledger(net, channel, num).txs| > 0
    ensures Stopped(After(w, schedule), 0, j) && j.net == net && j.channel == channel && j.num == num
    ensures !HasBlock(After(w, schedule).db, net, Genesis(w, net, channel), num)
  {
    var delivery := [Learn(net, channel)] + [Deliver(net, channel, num)];
    schedule := delivery + [FailBlock(0)];
    DeliveryEnters(w, INITIAL, net, channel, num);
    RunAppend(w, INITIAL, delivery, [FailBlock(0)]);
    RunOne(w, After(w, delivery), FailBlock(0));
    j := After(w, schedule).jobs[0];
  }

  // ------------------------------------------------------------ after a pass

  lemma StepKeepsStored(w: World, s: State, a: Action, net: Net, hash: Hash, num: nat)
    requires HasBlock(s.db, net, hash, num)
    ensures HasBlock(Step(w, s, a).db, net, hash, num)
  {
    Classify(w, s, a);
    if EffectOf(w, s, a).Advanced? {
      RunJobGrows(w, s.db, s.jobs[EffectOf(w, s, a).job]);
    }
    HasBlockGrows(s.db, Step(w, s, a).db, net, hash, num);
  }

  lemma {:induction false} RunKeepsStored(w: World, s: State, rest: seq<Action>, net: Net, hash: Hash, num: nat)
    requires HasBlock(s.db, net, hash, num)
    ensures HasBlock(Run(w, s, rest).db, net, hash, num)
  {
    if rest != [] {
      RunKeepsStored(w, s, rest[..|rest| - 1], net, hash, num);
      StepKeepsStored(w, Run(w, s, rest[..|rest| - 1]), rest[|rest| - 1], net, hash, num);
    }
  }

  /** The task is past the guard with this block, and has not released it. */
  predicate HoldsBlock(j: Job, net: Net, channel: Channel, num: nat) {
    Holds(j) && j.net == net && j.channel == channel && j.num == num
  }

  /** Some task threw with the block and keeps its key. */
  ghost predicate HeldByThrown(s: State, net: Net, channel: Channel, num: nat) {
    exists j <- s.jobs :: HoldsBlock(j, net, channel, num) && j.status == Threw
  }

  /** The schedule lets running tasks on the block come to their ends. */
  ghost predicate LetsFinish(w: World, s: State, rest: seq<Action>, net: Net, channel: Channel, num: nat) {
    && Crash(net) !in rest
    && forall i | 0 <= i < |s.jobs| && HoldsBlock(s.jobs[i], net, channel, num) && s.jobs[i].status == Running ::
         FailBlock(i) !in rest && multiset(rest)[RunBlock(i)] >= Remaining(w, s.jobs[i])
  }

  lemma HeldIsDecided(w: World, s: State, rest: seq<Action>, i: nat)
    requires WellFormed(w) && Good(w, s) && i < |s.jobs| && Holds(s.jobs[i]) && OfStorable(w, s.jobs[i])
    requires var j := s.jobs[i]; LetsFinish(w, s, rest, j.net, j.channel, j.num) && !HasBlock(s.db, j.net, j.hash, j.num)
    ensures var j := s.jobs[i];
      HasBlock(Run(w, s, rest).db, j.net, j.hash, j.num) <==> !HeldByThrown(s, j.net, j.channel, j.num)
  {
    var j := s.jobs[i];
    assert j in s.jobs;
    if j.status == Threw {
      ThrownTaskHoldsItsBlock(w, s, rest, i, j);
    } else {
      TaskFinishes(w, s, rest, i);
      assert Exclusive(s.jobs);
    }
  }

  /** When a pass has finished and the tasks still on a block get their sections, a delivered number of the
      window that can be stored ends stored exactly when it was stored then or no thrown task held it. */
  lemma FinishedPassStoresIff(w: World, schedule: seq<Action>, p: nat, n: nat, rest: seq<Action>)
    requires WellFormed(w)
    requires var s := After(w, schedule); p < |s.passes| && s.passes[p].pc.Finished? && s.passes[p].status == Running
    requires var a := After(w, schedule).passes[p];
      a.start <= n <= a.latest && n !in a.undelivered && Storable(w, a.net, a.channel, n)
      && LetsFinish(w, After(w, schedule), rest, a.net, a.channel, n)
    ensures var s := After(w, schedule);
      var a := s.passes[p];
      var hash := Genesis(w, a.net, a.channel);
      && (HasBlock(After(w, schedule + rest).db, a.net, hash, n)
          <==> HasBlock(s.db, a.net, hash, n) || !HeldByThrown(s, a.net, a.channel, n))
  {
    var s := After(w, schedule);
    var a := s.passes[p];
    AfterIsGood(w, schedule);
    RunAppend(w, INITIAL, schedule, rest);
    if HasBlock(s.db, a.net, Genesis(w, a.net, a.channel), n) {
      RunKeepsStored(w, s, rest, a.net, Genesis(w, a.net, a.channel), n);
    } else {
      FinishedPassCovers(w, schedule, p, n);
      var i := KeyHolder(w, s, a.net, a.channel, n);
      HeldIsDecided(w, s, rest, i);
    }
  }

  lemma KeyHolder(w: World, s: State, net: Net, channel: Channel, num: nat) returns (i: nat)
    requires Good(w, s) && HeldBy(s.jobs, net, BlockKey(channel, num))
    ensures i < |s.jobs| && HoldsBlock(s.jobs[i], net, channel, num) && s.jobs[i].hash == Genesis(w, net, channel)
  {
    var j :| j in s.jobs && Holds(j) && j.net == net && Key(j) == BlockKey(channel, num);
    i :| 0 <= i < |s.jobs| && s.jobs[i] == j;
    BlockKeyInjective(j.channel, j.num, channel, num);
    assert Sane(w, j);
  }
}

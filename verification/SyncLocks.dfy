/** `blocksInProcess` in every run: no duplicates, exactly the keys of the tasks past the guard. */
module SyncLocks {
  import opened Options
  import opened Text
  import opened JsArrays
  import opened Ledger
  import opened SyncMachine

  // ------------------------------------------------- what a step does to shared state

  /** The effect of a step on the tables, the lock lists, the block tasks and the log. */
  datatype Effect =
    | Idle
    | Entered(net: Net, channel: Channel, num: nat, pass: Option<nat>)
    | Advanced(job: nat)
    | Failed(job: nat)
    | ChannelsWritten
    | Died(lost: Net)

  ghost predicate SameCore(s: State, t: State) {
    s.db == t.db && s.locks == t.locks && s.jobs == t.jobs && s.log == t.log
  }

  ghost predicate Explains(w: World, s: State, e: Effect, t: State) {
    match e
    case Idle => SameCore(s, t)
    case Entered(net, channel, num, pass) =>
      GuardPasses(w, s, net, channel, num) && SameCore(Enter(w, s, net, channel, num, pass), t)
    case Advanced(i) => Runs(s, i) && !Throws(w, s.jobs[i]) && SameCore(JobStep(w, s, i), t)
    case Failed(i) => Runs(s, i) && SameCore(JobThrow(s, i), t)
    case ChannelsWritten => SameCore(s.(db := s.db.(channels := t.db.channels)), t)
    case Died(net) => SameCore(CrashNet(s, net), t)
  }

  ghost function EffectOf(w: World, s: State, a: Action): Effect {
    match a
    case Deliver(net, channel, num) =>
      if num != 0 && GuardPasses(w, s, net, channel, num) then Entered(net, channel, num, None) else Idle
    case RunBlock(i) => if !Runs(s, i) then Idle else if Throws(w, s.jobs[i]) then Failed(i) else Advanced(i)
    case FailBlock(i) => if Runs(s, i) then Failed(i) else Idle
    case RunPass(p, fetched, height) => if PassRuns(s, p) then PassEffect(w, s, p, fetched, height) else Idle
    case RunReg(r) => ChannelsWritten
    case Crash(net) => Died(net)
    case _ => Idle
  }

  /** Every action has one of these effects. */
  lemma Classify(w: World, s: State, a: Action)
    ensures Explains(w, s, EffectOf(w, s, a), Step(w, s, a))
  {
    match a
    case RunPass(p, fetched, height) => PassStepEffect(w, s, p, fetched, height);
    case RunReg(r) => RegStepEffect(w, s, r);
    case FailPass(p) => assert SameCore(s, Step(w, s, a));
    case RunBlock(i) => JobStepEffect(w, s, i);
    case _ =>
  }

  lemma JobStepEffect(w: World, s: State, i: nat)
    ensures Explains(w, s, EffectOf(w, s, RunBlock(i)), Step(w, s, RunBlock(i)))
  {
  }

  lemma RegStepEffect(w: World, s: State, r: nat)
    ensures RegRuns(s, r) ==> Explains(w, s, ChannelsWritten, RegStep(s, r))
  {
  }

  ghost function PassEffect(w: World, s: State, p: nat, fetched: bool, height: int): Effect
    requires PassRuns(s, p)
  {
    var a := s.passes[p];
    match a.pc
    case Decide(h, got, available) =>
      if h >= 0 && got && !available && GuardPasses(w, s, a.net, a.channel, h)
      then Entered(a.net, a.channel, h, Some(p)) else Idle
    case Refetch(todo) =>
      if todo != [] && fetched && GuardPasses(w, s, a.net, a.channel, todo[0])
      then Entered(a.net, a.channel, todo[0], Some(p)) else Idle
    case _ => Idle
  }

  lemma PassStepEffect(w: World, s: State, p: nat, fetched: bool, height: int)
    ensures PassRuns(s, p) ==> Explains(w, s, PassEffect(w, s, p, fetched, height), PassStep(w, s, p, fetched, height))
  {
  }

  // ----------------------------------------------------------------- invariant

  predicate Holds(j: Job) {
    j.status != Crashed && j.pc != Released
  }

  function Key(j: Job): string {
    BlockKey(j.channel, j.num)
  }

  /** Some task of the network is past the guard with this key and has not released it. */
  ghost predicate HeldBy(jobs: seq<Job>, net: Net, key: string) {
    exists j <- jobs :: Holds(j) && j.net == net && Key(j) == key
  }

  /** No two unreleased tasks of one process work on the same block. */
  ghost predicate Exclusive(jobs: seq<Job>) {
    forall i, j | 0 <= i < |jobs| && 0 <= j < |jobs| && Holds(jobs[i]) && Holds(jobs[j]) ::
      jobs[i].net == jobs[j].net && jobs[i].channel == jobs[j].channel && jobs[i].num == jobs[j].num ==> i == j
  }

  ghost predicate LocksOk(locks: map<Net, seq<string>>, jobs: seq<Job>) {
    && (forall net :: NoDuplicates(Locks(locks, net)))
    && (forall net, key :: key in Locks(locks, net) <==> HeldBy(jobs, net, key))
    && Exclusive(jobs)
  }

  // -------------------------------------------------------------- preservation

  lemma HeldByAppend(jobs: seq<Job>, j: Job, net: Net, key: string)
    ensures HeldBy(jobs + [j], net, key) <==> HeldBy(jobs, net, key) || (Holds(j) && j.net == net && Key(j) == key)
  {
    if HeldBy(jobs, net, key) {
      var h :| h in jobs && Holds(h) && h.net == net && Key(h) == key;
      assert h in jobs + [j];
    }
    assert j in jobs + [j];
  }

  /** A task that keeps its block and stays unreleased changes nothing about who holds what. */
  lemma HeldByUpdate(jobs: seq<Job>, i: nat, j: Job)
    requires i < |jobs| && Holds(jobs[i]) && Holds(j)
    requires j.net == jobs[i].net && j.channel == jobs[i].channel && j.num == jobs[i].num
    ensures forall net, key :: HeldBy(jobs[i := j], net, key) <==> HeldBy(jobs, net, key)
    ensures Exclusive(jobs) ==> Exclusive(jobs[i := j])
  {
    forall net, key
      ensures HeldBy(jobs[i := j], net, key) <==> HeldBy(jobs, net, key)
    {
      HeldByCarries(jobs, i, j, net, key);
      assert jobs[i := j][i := jobs[i]] == jobs;
      HeldByCarries(jobs[i := j], i, jobs[i], net, key);
    }
  }

  lemma HeldByCarries(jobs: seq<Job>, i: nat, j: Job, net: Net, key: string)
    requires i < |jobs| && Holds(jobs[i]) && Holds(j)
    requires j.net == jobs[i].net && j.channel == jobs[i].channel && j.num == jobs[i].num
    ensures HeldBy(jobs, net, key) ==> HeldBy(jobs[i := j], net, key)
  {
    if HeldBy(jobs, net, key) {
      var h :| h in jobs && Holds(h) && h.net == net && Key(h) == key;
      var m :| 0 <= m < |jobs| && jobs[m] == h;
      assert jobs[i := j][m] in jobs[i := j];
    }
  }

  lemma EnterKeepsLocks(w: World, s: State, net: Net, channel: Channel, num: nat, pass: Option<nat>)
    requires LocksOk(s.locks, s.jobs) && GuardPasses(w, s, net, channel, num)
    ensures var t := Enter(w, s, net, channel, num, pass); LocksOk(t.locks, t.jobs)
  {
    var t := Enter(w, s, net, channel, num, pass);
    var j := t.jobs[|s.jobs|];
    var key := BlockKey(channel, num);
    assert !HeldBy(s.jobs, net, key);
    forall n, k
      ensures k in Locks(t.locks, n) <==> HeldBy(t.jobs, n, k)
    {
      HeldByAppend(s.jobs, j, n, k);
    }
    forall n
      ensures NoDuplicates(Locks(t.locks, n))
    {
      assert NoDuplicates(Locks(s.locks, n));
    }
    forall i | 0 <= i < |s.jobs| && Holds(s.jobs[i]) && s.jobs[i].net == net
      ensures !(s.jobs[i].channel == channel && s.jobs[i].num == num)
    {
      assert s.jobs[i] in s.jobs;
    }
  }

  lemma ListWithout(locks: map<Net, seq<string>>, net: Net, gone: string)
    requires NoDuplicates(Locks(locks, net)) && gone in Locks(locks, net)
    ensures var after := locks[net := TakeOut(Locks(locks, net), gone)];
      && NoDuplicates(Locks(after, net))
      && (forall n :: n != net ==> Locks(after, n) == Locks(locks, n))
      && (forall n, key :: key in Locks(after, n) <==> key in Locks(locks, n) && !(n == net && key == gone))
  {
    TakeOutIsRemoval(Locks(locks, net), gone);
  }

  lemma HoldersWithout(jobs: seq<Job>, i: nat, done: Job)
    requires Exclusive(jobs) && i < |jobs| && Holds(jobs[i]) && !Holds(done)
    ensures Exclusive(jobs[i := done])
    ensures forall n, k :: HeldBy(jobs[i := done], n, k) <==> HeldBy(jobs, n, k) && !(n == jobs[i].net && k == Key(jobs[i]))
  {
    forall n, k
      ensures HeldBy(jobs[i := done], n, k) <==> HeldBy(jobs, n, k) && !(n == jobs[i].net && k == Key(jobs[i]))
    {
      HeldByRelease(jobs, i, done, n, k);
    }
  }

  lemma FinishStep(w: World, s: State, i: nat)
    requires Runs(s, i) && s.jobs[i].pc.Finish?
    ensures var t, j := JobStep(w, s, i), s.jobs[i];
      && t.jobs == s.jobs[i := j.(pc := Released)]
      && t.locks == s.locks[j.net := TakeOut(Locks(s.locks, j.net), Key(j))]
  {
  }

  lemma HolderIsListed(locks: map<Net, seq<string>>, jobs: seq<Job>, i: nat)
    requires LocksOk(locks, jobs) && i < |jobs| && Holds(jobs[i])
    ensures Key(jobs[i]) in Locks(locks, jobs[i].net)
  {
    assert jobs[i] in jobs && HeldBy(jobs, jobs[i].net, Key(jobs[i]));
  }

  /** The release takes the task's own key and no other; its index is never -1. */
  lemma ReleaseKeepsLocks(w: World, s: State, i: nat)
    requires LocksOk(s.locks, s.jobs) && Runs(s, i) && s.jobs[i].pc.Finish?
    ensures var t := JobStep(w, s, i); LocksOk(t.locks, t.jobs)
  {
    HolderIsListed(s.locks, s.jobs, i);
    ReleasedLocks(s.locks, s.jobs, i);
    FinishStep(w, s, i);
  }

  lemma ReleasedLocks(locks: map<Net, seq<string>>, jobs: seq<Job>, i: nat)
    requires LocksOk(locks, jobs) && i < |jobs| && Holds(jobs[i]) && Key(jobs[i]) in Locks(locks, jobs[i].net)
    ensures var j := jobs[i];
      LocksOk(locks[j.net := TakeOut(Locks(locks, j.net), Key(j))], jobs[i := j.(pc := Released)])
  {
    ListWithout(locks, jobs[i].net, Key(jobs[i]));
    HoldersWithout(jobs, i, jobs[i].(pc := Released));
  }

  lemma HeldByRelease(jobs: seq<Job>, i: nat, done: Job, net: Net, key: string)
    requires Exclusive(jobs) && i < |jobs| && Holds(jobs[i]) && !Holds(done)
    ensures HeldBy(jobs[i := done], net, key) <==>
            HeldBy(jobs, net, key) && !(net == jobs[i].net && key == Key(jobs[i]))
  {
    var after := jobs[i := done];
    if HeldBy(after, net, key) {
      var h :| h in after && Holds(h) && h.net == net && Key(h) == key;
      var m :| 0 <= m < |after| && after[m] == h;
      assert jobs[m] in jobs;
      BlockKeyInjective(h.channel, h.num, jobs[i].channel, jobs[i].num);
    }
    if HeldBy(jobs, net, key) && !(net == jobs[i].net && key == Key(jobs[i])) {
      var h :| h in jobs && Holds(h) && h.net == net && Key(h) == key;
      var m :| 0 <= m < |jobs| && jobs[m] == h;
      assert after[m] in after;
    }
  }

  lemma AdvanceKeepsLocks(w: World, s: State, i: nat)
    requires LocksOk(s.locks, s.jobs) && Runs(s, i) && !Throws(w, s.jobs[i])
    ensures var t := JobStep(w, s, i); LocksOk(t.locks, t.jobs)
  {
    if s.jobs[i].pc.Finish? {
      ReleaseKeepsLocks(w, s, i);
    } else {
      HeldByUpdate(s.jobs, i, JobStep(w, s, i).jobs[i]);
    }
  }

  lemma CrashKeepsLocks(s: State, net: Net)
    requires LocksOk(s.locks, s.jobs)
    ensures var t := CrashNet(s, net); LocksOk(t.locks, t.jobs)
  {
    var t := CrashNet(s, net);
    forall n
      ensures NoDuplicates(Locks(t.locks, n))
    {
      assert NoDuplicates(Locks(s.locks, n));
    }
    forall n, k
      ensures HeldBy(t.jobs, n, k) <==> HeldBy(s.jobs, n, k) && n != net
    {
      if HeldBy(t.jobs, n, k) {
        var h :| h in t.jobs && Holds(h) && h.net == n && Key(h) == k;
        var m :| 0 <= m < |t.jobs| && t.jobs[m] == h;
        assert s.jobs[m] in s.jobs;
      }
      if HeldBy(s.jobs, n, k) && n != net {
        var h :| h in s.jobs && Holds(h) && h.net == n && Key(h) == k;
        var m :| 0 <= m < |s.jobs| && s.jobs[m] == h;
        assert t.jobs[m] in t.jobs;
      }
    }
  }

  lemma StepKeepsLocks(w: World, s: State, e: Effect, t: State)
    requires LocksOk(s.locks, s.jobs) && Explains(w, s, e, t)
    ensures LocksOk(t.locks, t.jobs)
  {
    match e
    case Entered(net, channel, num, pass) => EnterKeepsLocks(w, s, net, channel, num, pass);
    case Advanced(i) => AdvanceKeepsLocks(w, s, i);
    case Failed(i) => HeldByUpdate(s.jobs, i, s.jobs[i].(status := Threw));
    case Died(net) => CrashKeepsLocks(s, net);
    case _ =>
  }
}

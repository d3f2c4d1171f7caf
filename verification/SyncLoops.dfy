/** What the loops of a pass come past and what they wait for, whatever runs beside them. */
module SyncLoops {
  import opened Options
  import opened Text
  import opened Ledger
  import opened SyncMachine
  import opened SyncLocks
  import opened SyncRows
  import opened SyncPasses
  import opened SyncSafety

  // ----------------------------------------------------------- the first loop

  /** Stored in some network, held by a task of its process, or without a usable fetch in the first loop. */
  ghost predicate LoadCovered(db: Db, locks: map<Net, seq<string>>, a: Pass, n: nat) {
    || (exists net :: HasBlock(db, net, a.hash, n))
    || BlockKey(a.channel, n) in Locks(locks, a.net)
    || n in a.unloaded
  }

  /** The lowest number of the window that the first loop has come past, from the newest down. */
  function LoadedFrom(a: Pass): int {
    match a.pc
    case ChainInfo => a.latest + 1
    case Abandoned => a.latest + 1
    case Fetch(h) => h + 1
    case Decide(h, _, _) => h + 1
    case Await(h, _) => h
    case _ => a.start
  }

  ghost predicate LoadOk(db: Db, locks: map<Net, seq<string>>, a: Pass) {
    a.status == Running ==>
      && (forall n: nat | a.start <= n <= a.latest && LoadedFrom(a) <= n :: LoadCovered(db, locks, a, n))
      && (a.pc.Decide? && a.pc.available && a.pc.height >= 0 ==> exists net :: HasBlock(db, net, a.hash, a.pc.height))
  }

  lemma RecordKeepsLoad(w: World, s: State, e: Effect, t: State, a: Pass)
    requires WellFormed(w) && LocksOk(s.locks, s.jobs) && TablesOk(w, s.db, s.jobs) && Explains(w, s, e, t)
    requires a.hash == Genesis(w, a.net, a.channel) && LoadOk(s.db, s.locks, a) && e != Died(a.net)
    ensures LoadOk(t.db, t.locks, a)
  {
    if a.status == Running {
      forall n: nat | a.start <= n <= a.latest && LoadedFrom(a) <= n
        ensures LoadCovered(t.db, t.locks, a, n)
      {
        assert LoadCovered(s.db, s.locks, a, n);
        StepKeepsLoadCovered(w, s, e, t, a, n);
      }
      if a.pc.Decide? && a.pc.available && a.pc.height >= 0 {
        var net :| HasBlock(s.db, net, a.hash, a.pc.height);
        EffectKeepsBlock(w, s, e, t, net, a.hash, a.pc.height);
      }
    }
  }

  lemma EffectKeepsBlock(w: World, s: State, e: Effect, t: State, net: Net, hash: Hash, n: nat)
    requires Explains(w, s, e, t) && HasBlock(s.db, net, hash, n)
    ensures HasBlock(t.db, net, hash, n)
  {
    if e.Advanced? {
      RunJobGrows(w, s.db, s.jobs[e.job]);
    }
    HasBlockGrows(s.db, t.db, net, hash, n);
  }

  lemma StepKeepsLoadCovered(w: World, s: State, e: Effect, t: State, a: Pass, n: nat)
    requires WellFormed(w) && LocksOk(s.locks, s.jobs) && TablesOk(w, s.db, s.jobs) && Explains(w, s, e, t)
    requires a.hash == Genesis(w, a.net, a.channel) && LoadCovered(s.db, s.locks, a, n) && e != Died(a.net)
    ensures LoadCovered(t.db, t.locks, a, n)
  {
    if net :| HasBlock(s.db, net, a.hash, n) {
      EffectKeepsBlock(w, s, e, t, net, a.hash, n);
    } else if BlockKey(a.channel, n) in Locks(s.locks, a.net) {
      HeldKeyStays(w, s, e, t, a, n);
    }
  }

  lemma HeldKeyStays(w: World, s: State, e: Effect, t: State, a: Pass, n: nat)
    requires LocksOk(s.locks, s.jobs) && TablesOk(w, s.db, s.jobs) && Explains(w, s, e, t) && e != Died(a.net)
    requires a.hash == Genesis(w, a.net, a.channel) && BlockKey(a.channel, n) in Locks(s.locks, a.net)
    ensures HasBlock(t.db, a.net, a.hash, n) || BlockKey(a.channel, n) in Locks(t.locks, a.net)
  {
    if e.Advanced? {
      assert s.jobs[e.job] in s.jobs;
      AdvanceKeepsHeld(w, s, e.job, a, n);
    }
  }

  /** The pass's own step keeps the tables and every held key. */
  lemma OwnStepKeepsHeld(w: World, s: State, p: nat, fetched: bool, height: int)
    requires PassRuns(s, p)
    ensures var t := PassStep(w, s, p, fetched, height);
      t.db == s.db && forall net, key :: key in Locks(s.locks, net) ==> key in Locks(t.locks, net)
  {
    PassStepEffect(w, s, p, fetched, height);
  }

  predicate SameRecord(a: Pass, b: Pass) {
    b.net == a.net && b.channel == a.channel && b.hash == a.hash && b.status == a.status
  }

  lemma FirstLoopIdentity(w: World, s: State, p: nat, fetched: bool, height: int)
    requires PassRuns(s, p) && (s.passes[p].pc.Fetch? || s.passes[p].pc.Decide? || s.passes[p].pc.Await?)
    ensures SameRecord(s.passes[p], PassStep(w, s, p, fetched, height).passes[p])
  {
  }

  lemma SecondLoopIdentity(w: World, s: State, p: nat, fetched: bool, height: int)
    requires PassRuns(s, p) && (s.passes[p].pc.Missing? || s.passes[p].pc.Refetch? || s.passes[p].pc.Reawait?)
    ensures SameRecord(s.passes[p], PassStep(w, s, p, fetched, height).passes[p])
  {
  }

  lemma OwnStepKeepsIdentity(w: World, s: State, p: nat, fetched: bool, height: int)
    requires PassRuns(s, p)
    ensures SameRecord(s.passes[p], PassStep(w, s, p, fetched, height).passes[p])
  {
    if s.passes[p].pc.Fetch? || s.passes[p].pc.Decide? || s.passes[p].pc.Await? {
      FirstLoopIdentity(w, s, p, fetched, height);
    } else if !s.passes[p].pc.ChainInfo? {
      SecondLoopIdentity(w, s, p, fetched, height);
    }
  }

  lemma OwnStepKeepsUnloaded(w: World, s: State, p: nat, fetched: bool, height: int)
    requires PassRuns(s, p)
    ensures s.passes[p].unloaded <= PassStep(w, s, p, fetched, height).passes[p].unloaded
  {
    if !s.passes[p].pc.Decide? {
      assert PassStep(w, s, p, fetched, height).passes[p].unloaded == s.passes[p].unloaded;
    }
  }

  lemma CoveredIsKept(before: Db, locks: map<Net, seq<string>>, a: Pass, after: map<Net, seq<string>>, b: Pass, n: nat)
    requires LoadCovered(before, locks, a, n) && forall key <- Locks(locks, a.net) :: key in Locks(after, a.net)
    requires b.net == a.net && b.channel == a.channel && b.hash == a.hash && a.unloaded <= b.unloaded
    ensures LoadCovered(before, after, b, n)
  {
  }

  /** Past the query: the number it was about is covered. */
  lemma DecideCovers(w: World, s: State, p: nat, fetched: bool, height: int)
    requires PassRuns(s, p) && s.passes[p].pc.Decide? && PassOk(w, s, s.passes[p]) && LoadOk(s.db, s.locks, s.passes[p])
    ensures var t := PassStep(w, s, p, fetched, height); LoadCovered(t.db, t.locks, t.passes[p], s.passes[p].pc.height)
  {
  }

  lemma FetchLooks(w: World, s: State, p: nat, fetched: bool, height: int)
    requires PassRuns(s, p) && s.passes[p].pc.Fetch? && s.passes[p].pc.next >= s.passes[p].start
    ensures var b := PassStep(w, s, p, fetched, height).passes[p];
      b.pc.Decide? && b.pc.height == s.passes[p].pc.next
      && (b.pc.available ==> exists net :: HasBlock(s.db, net, b.hash, b.pc.height))
  {
    var a := s.passes[p];
    if r :| r in s.db.blocks && r.hash == a.hash && r.num == a.pc.next {
      assert HasBlock(s.db, r.net, a.hash, a.pc.next);
    }
  }

  /** Own steps come down number by number. */
  ghost predicate ComesDown(a: Pass, b: Pass) {
    && (a.pc.ChainInfo? ==> LoadedFrom(b) > b.latest)
    && (!a.pc.ChainInfo? ==> b.start == a.start && b.latest == a.latest)
    && (a.pc.Decide? ==> LoadedFrom(b) >= a.pc.height)
    && (!a.pc.ChainInfo? && !a.pc.Decide? ==> LoadedFrom(b) >= LoadedFrom(a) || LoadedFrom(a) <= a.start)
    && (b.pc.Decide? ==> a.pc.Fetch? && a.pc.next >= a.start)
  }

  lemma FirstLoopComesDown(w: World, s: State, p: nat, fetched: bool, height: int)
    requires PassRuns(s, p) && (s.passes[p].pc.Fetch? || s.passes[p].pc.Decide? || s.passes[p].pc.Await?)
    ensures ComesDown(s.passes[p], PassStep(w, s, p, fetched, height).passes[p])
  {
  }

  lemma SecondLoopComesDown(w: World, s: State, p: nat, fetched: bool, height: int)
    requires PassRuns(s, p) && (s.passes[p].pc.Missing? || s.passes[p].pc.Refetch? || s.passes[p].pc.Reawait?)
    ensures ComesDown(s.passes[p], PassStep(w, s, p, fetched, height).passes[p])
  {
  }

  lemma OwnStepComesDown(w: World, s: State, p: nat, fetched: bool, height: int)
    requires PassRuns(s, p)
    ensures ComesDown(s.passes[p], PassStep(w, s, p, fetched, height).passes[p])
  {
    if s.passes[p].pc.Fetch? || s.passes[p].pc.Decide? || s.passes[p].pc.Await? {
      FirstLoopComesDown(w, s, p, fetched, height);
    } else if !s.passes[p].pc.ChainInfo? {
      SecondLoopComesDown(w, s, p, fetched, height);
    }
  }

  lemma OwnStepKeepsLoad(w: World, s: State, p: nat, fetched: bool, height: int)
    requires PassRuns(s, p) && PassOk(w, s, s.passes[p]) && LoadOk(s.db, s.locks, s.passes[p])
    ensures var t := PassStep(w, s, p, fetched, height); LoadOk(t.db, t.locks, t.passes[p])
  {
    var t, a := PassStep(w, s, p, fetched, height), s.passes[p];
    var b := t.passes[p];
    OwnStepKeepsHeld(w, s, p, fetched, height);
    OwnStepKeepsIdentity(w, s, p, fetched, height);
    OwnStepKeepsUnloaded(w, s, p, fetched, height);
    OwnStepComesDown(w, s, p, fetched, height);
    if a.pc.Decide? {
      DecideCovers(w, s, p, fetched, height);
    }
    if a.pc.Fetch? && a.pc.next >= a.start {
      FetchLooks(w, s, p, fetched, height);
    }
    forall n: nat | b.start <= n <= b.latest && LoadedFrom(b) <= n
      ensures LoadCovered(t.db, t.locks, b, n)
    {
      if !(a.pc.Decide? && n == a.pc.height) {
        assert LoadCovered(s.db, s.locks, a, n);
        CoveredIsKept(s.db, s.locks, a, t.locks, b, n);
      }
    }
  }

  ghost predicate LoadsOk(s: State) {
    forall a <- s.passes :: LoadOk(s.db, s.locks, a)
  }

  lemma PassStepKeepsLoads(w: World, s: State, p: nat, fetched: bool, height: int)
    requires WellFormed(w) && Good(w, s) && LoadsOk(s) && PassRuns(s, p)
    ensures LoadsOk(PassStep(w, s, p, fetched, height))
  {
    var t := PassStep(w, s, p, fetched, height);
    PassStepEffect(w, s, p, fetched, height);
    PassStepFrame(w, s, p, fetched, height);
    assert s.passes[p] in s.passes;
    OwnStepKeepsLoad(w, s, p, fetched, height);
    forall a | a in t.passes
      ensures LoadOk(t.db, t.locks, a)
    {
      var q :| 0 <= q < |t.passes| && t.passes[q] == a;
      if q != p {
        assert a in s.passes && PassOk(w, s, a);
        RecordKeepsLoad(w, s, PassEffect(w, s, p, fetched, height), t, a);
      }
    }
  }

  lemma CrashKeepsLoads(s: State, net: Net)
    requires LoadsOk(s)
    ensures LoadsOk(CrashNet(s, net))
  {
    var t := CrashNet(s, net);
    forall a | a in t.passes
      ensures LoadOk(t.db, t.locks, a)
    {
      var q :| 0 <= q < |t.passes| && t.passes[q] == a;
      assert s.passes[q] in s.passes && LoadOk(s.db, s.locks, s.passes[q]);
      if a.status == Running {
        forall n: nat | a.start <= n <= a.latest && LoadedFrom(a) <= n
          ensures LoadCovered(t.db, t.locks, a, n)
        {
          assert LoadCovered(s.db, s.locks, a, n);
          CoveredIsKept(s.db, s.locks, a, t.locks, a, n);
        }
      }
    }
  }

  /** A pass that starts, or is abandoned, has come past nothing. */
  lemma NewRecordsKeepLoads(s: State, t: State)
    requires LoadsOk(s) && t.db == s.db && t.locks == s.locks
    requires forall a <- t.passes :: a in s.passes || a.pc.ChainInfo? || a.pc.Abandoned?
    ensures LoadsOk(t)
  {
    forall a | a in t.passes
      ensures LoadOk(t.db, t.locks, a)
    {
      assert a in s.passes ==> LoadOk(s.db, s.locks, a);
    }
  }

  lemma EffectKeepsLoads(w: World, s: State, e: Effect, t: State)
    requires WellFormed(w) && Good(w, s) && LoadsOk(s) && Explains(w, s, e, t) && !e.Died? && t.passes == s.passes
    ensures LoadsOk(t)
  {
    forall a | a in t.passes
      ensures LoadOk(t.db, t.locks, a)
    {
      assert LoadOk(s.db, s.locks, a) && PassOk(w, s, a);
      RecordKeepsLoad(w, s, e, t, a);
    }
  }

  lemma StepKeepsLoads(w: World, s: State, a: Action)
    requires WellFormed(w) && Good(w, s) && LoadsOk(s)
    ensures LoadsOk(Step(w, s, a))
  {
    match a
    case RunPass(p, fetched, height) => if PassRuns(s, p) { PassStepKeepsLoads(w, s, p, fetched, height); }
    case FailPass(p) => NewRecordsKeepLoads(s, Step(w, s, a));
    case StartPass(net, channel) => NewRecordsKeepLoads(s, Step(w, s, a));
    case Crash(net) => CrashKeepsLoads(s, net);
    case _ => OtherStepKeepsLoads(w, s, a);
  }

  lemma OtherStepKeepsLoads(w: World, s: State, a: Action)
    requires WellFormed(w) && Good(w, s) && LoadsOk(s)
    requires !a.RunPass? && !a.FailPass? && !a.StartPass? && !a.Crash?
    ensures LoadsOk(Step(w, s, a))
  {
    Classify(w, s, a);
    OtherStepFrame(w, s, a);
    EffectKeepsLoads(w, s, EffectOf(w, s, a), Step(w, s, a));
  }

  lemma OtherStepFrame(w: World, s: State, a: Action)
    requires !a.RunPass? && !a.FailPass? && !a.StartPass? && !a.Crash?
    ensures Step(w, s, a).passes == s.passes && !EffectOf(w, s, a).Died?
  {
  }

  lemma {:induction false} LoadsHold(w: World, schedule: seq<Action>)
    requires WellFormed(w)
    ensures LoadsOk(After(w, schedule))
  {
    if schedule != [] {
      LoadsHold(w, schedule[..|schedule| - 1]);
      AfterIsGood(w, schedule[..|schedule| - 1]);
      StepKeepsLoads(w, After(w, schedule[..|schedule| - 1]), schedule[|schedule| - 1]);
    }
  }

  /** In every run, when a pass has come to the end of its first loop, each number of its window is stored in
      some network, or held by a task of its process, or its fetch gave no usable block. */
  lemma FirstLoopCovers(w: World, schedule: seq<Action>, p: nat, n: nat)
    requires WellFormed(w)
    requires var s := After(w, schedule); p < |s.passes| && s.passes[p].pc.Missing? && s.passes[p].status == Running
    requires After(w, schedule).passes[p].start <= n <= After(w, schedule).passes[p].latest
    ensures var s := After(w, schedule);
      var a := s.passes[p];
      || (exists net :: HasBlock(s.db, net, Genesis(w, a.net, a.channel), n))
      || HeldBy(s.jobs, a.net, BlockKey(a.channel, n))
      || n in a.unloaded
  {
    LoadsHold(w, schedule);
    AfterIsGood(w, schedule);
    var s := After(w, schedule);
    var a := s.passes[p];
    assert a in s.passes && PassOk(w, s, a) && LoadOk(s.db, s.locks, a);
    assert LoadCovered(s.db, s.locks, a, n);
    assert BlockKey(a.channel, n) in Locks(s.locks, a.net) <==> HeldBy(s.jobs, a.net, BlockKey(a.channel, n));
  }

  // ------------------------------------------------------------ waiting

  /** The task was started by a pass and still runs. */
  predicate RunsForPass(j: Job) {
    j.pass.Some? && j.status == Running && j.pc != Released
  }

  predicate Awaits(pc: PassPc, i: nat) {
    (pc.Await? || pc.Reawait?) && pc.job == i
  }

  /** A running task of a running pass is the one that pass waits for; tasks die with their pass. */
  ghost predicate WaitOk(jobs: seq<Job>, passes: seq<Pass>, i: nat)
    requires i < |jobs|
  {
    jobs[i].pass.Some? ==>
      var p := jobs[i].pass.value;
      && p < |passes|
      && (RunsForPass(jobs[i]) && passes[p].status == Running ==> Awaits(passes[p].pc, i))
      && (jobs[i].status == Crashed ==> passes[p].status == Crashed)
  }

  ghost predicate WaitsOk(jobs: seq<Job>, passes: seq<Pass>) {
    forall i: nat | i < |jobs| :: WaitOk(jobs, passes, i)
  }

  /** What the pass's own step does to its waiting: it starts one task and waits for it, or leaves a wait only
      when the task has ended. */
  ghost predicate WaitMoves(s: State, p: nat, t: State)
    requires p < |s.passes| && p < |t.passes|
  {
    var before, after := s.passes[p].pc, t.passes[p].pc;
    || (t.jobs == s.jobs && (after == before || forall i: nat | i < |s.jobs| && Awaits(before, i) :: !RunsForPass(s.jobs[i])))
    || (|t.jobs| == |s.jobs| + 1 && t.jobs[..|s.jobs|] == s.jobs && t.jobs[|s.jobs|].pass == Some(p)
        && t.jobs[|s.jobs|].status == Running && Awaits(after, |s.jobs|) && !before.Await? && !before.Reawait?)
  }

  lemma FirstLoopWaits(w: World, s: State, p: nat, fetched: bool, height: int)
    requires PassRuns(s, p) && (s.passes[p].pc.Decide? || s.passes[p].pc.Await?)
    ensures WaitMoves(s, p, PassStep(w, s, p, fetched, height))
  {
  }

  lemma SecondLoopWaits(w: World, s: State, p: nat, fetched: bool, height: int)
    requires PassRuns(s, p) && (s.passes[p].pc.Refetch? || s.passes[p].pc.Reawait?)
    ensures WaitMoves(s, p, PassStep(w, s, p, fetched, height))
  {
  }

  lemma OtherTurnsWait(w: World, s: State, p: nat, fetched: bool, height: int)
    requires PassRuns(s, p) && (s.passes[p].pc.ChainInfo? || s.passes[p].pc.Fetch? || s.passes[p].pc.Missing?)
    ensures WaitMoves(s, p, PassStep(w, s, p, fetched, height))
  {
  }

  lemma PassStepKeepsWaits(w: World, s: State, p: nat, fetched: bool, height: int)
    requires PassRuns(s, p) && WaitsOk(s.jobs, s.passes)
    ensures var t := PassStep(w, s, p, fetched, height); WaitsOk(t.jobs, t.passes)
  {
    var t := PassStep(w, s, p, fetched, height);
    PassStepFrame(w, s, p, fetched, height);
    OwnStepKeepsIdentity(w, s, p, fetched, height);
    if s.passes[p].pc.Decide? || s.passes[p].pc.Await? {
      FirstLoopWaits(w, s, p, fetched, height);
    } else if s.passes[p].pc.Refetch? || s.passes[p].pc.Reawait? {
      SecondLoopWaits(w, s, p, fetched, height);
    } else {
      OtherTurnsWait(w, s, p, fetched, height);
    }
    MovesKeepWaits(s, p, t);
  }

  lemma MovesKeepWaits(s: State, p: nat, t: State)
    requires WaitsOk(s.jobs, s.passes) && p < |s.passes| == |t.passes| && s.passes[p].status == Running && WaitMoves(s, p, t)
    requires t.passes[p].status == Running
    requires forall q :: 0 <= q < |s.passes| && q != p ==> t.passes[q] == s.passes[q]
    ensures WaitsOk(t.jobs, t.passes)
  {
    forall i: nat | i < |t.jobs|
      ensures WaitOk(t.jobs, t.passes, i)
    {
      if i < |s.jobs| {
        assert t.jobs[i] == s.jobs[i] && WaitOk(s.jobs, s.passes, i);
      }
    }
  }

  /** Steps outside the passes: tasks stay or end, and new ones belong to no pass. */
  lemma JobsKeepWaits(before: seq<Job>, after: seq<Job>, passes: seq<Pass>)
    requires WaitsOk(before, passes) && |before| <= |after|
    requires forall i :: 0 <= i < |before| ==>
      after[i].pass == before[i].pass && (RunsForPass(after[i]) ==> RunsForPass(before[i]))
      && (after[i].status == Crashed ==> before[i].status == Crashed)
    requires forall i :: |before| <= i < |after| ==> after[i].pass.None?
    ensures WaitsOk(after, passes)
  {
    forall i: nat | i < |after|
      ensures WaitOk(after, passes, i)
    {
      if i < |before| {
        assert WaitOk(before, passes, i);
      }
    }
  }

  lemma CrashKeepsWaits(w: World, s: State, net: Net)
    requires WaitsOk(s.jobs, s.passes) && PassesOk(w, s)
    ensures WaitsOk(CrashNet(s, net).jobs, CrashNet(s, net).passes)
  {
    var t := CrashNet(s, net);
    forall i: nat | i < |t.jobs|
      ensures WaitOk(t.jobs, t.passes, i)
    {
      assert s.jobs[i] in s.jobs && WaitOk(s.jobs, s.passes, i) && JobInWindow(s.passes, s.jobs[i]);
    }
  }

  lemma StepKeepsWaits(w: World, s: State, a: Action)
    requires WaitsOk(s.jobs, s.passes) && PassesOk(w, s)
    ensures var t := Step(w, s, a); WaitsOk(t.jobs, t.passes)
  {
    var t := Step(w, s, a);
    match a
    case RunPass(p, fetched, height) => if PassRuns(s, p) { PassStepKeepsWaits(w, s, p, fetched, height); }
    case Crash(net) => CrashKeepsWaits(w, s, net);
    case StartPass(_, _) => PassesKeepWaits(s.jobs, s.passes, t.passes);
    case FailPass(p) => if PassRuns(s, p) { FailKeepsWaits(s, p); }
    case RunBlock(i) => if Runs(s, i) { JobsKeepWaits(s.jobs, JobStep(w, s, i).jobs, s.passes); }
    case FailBlock(i) => if Runs(s, i) { JobsKeepWaits(s.jobs, JobThrow(s, i).jobs, s.passes); }
    case Deliver(_, _, _) => JobsKeepWaits(s.jobs, t.jobs, s.passes);
    case _ =>
  }

  lemma FailKeepsWaits(s: State, p: nat)
    requires WaitsOk(s.jobs, s.passes) && PassRuns(s, p)
    ensures WaitsOk(PassThrow(s, p).jobs, PassThrow(s, p).passes)
  {
    PassesKeepWaits(s.jobs, s.passes, PassThrow(s, p).passes);
  }

  lemma PassesKeepWaits(jobs: seq<Job>, before: seq<Pass>, after: seq<Pass>)
    requires WaitsOk(jobs, before) && |before| <= |after|
    requires forall q :: 0 <= q < |before| ==>
      after[q].status == before[q].status && (after[q].pc == before[q].pc || !(before[q].pc.Await? || before[q].pc.Reawait?))
    ensures WaitsOk(jobs, after)
  {
    forall i: nat | i < |jobs|
      ensures WaitOk(jobs, after, i)
    {
      assert WaitOk(jobs, before, i);
    }
  }

  lemma {:induction false} WaitsHold(w: World, schedule: seq<Action>)
    requires WellFormed(w)
    ensures WaitsOk(After(w, schedule).jobs, After(w, schedule).passes)
  {
    if schedule != [] {
      WaitsHold(w, schedule[..|schedule| - 1]);
      AfterIsGood(w, schedule[..|schedule| - 1]);
      StepKeepsWaits(w, After(w, schedule[..|schedule| - 1]), schedule[|schedule| - 1]);
    }
  }

  /** In every run a pass waits for the task it started: while that task runs, unreleased, the pass is at the
      call that started it. So a pass runs one task at a time. */
  lemma PassWaitsForItsTask(w: World, schedule: seq<Action>, i: nat, p: nat)
    requires WellFormed(w) && i < |After(w, schedule).jobs| && After(w, schedule).jobs[i].pass == Some(p)
    requires After(w, schedule).jobs[i].status == Running && After(w, schedule).jobs[i].pc != Released
    ensures p < |After(w, schedule).passes|
    ensures After(w, schedule).passes[p].status == Running ==> Awaits(After(w, schedule).passes[p].pc, i)
  {
    WaitsHold(w, schedule);
    assert WaitOk(After(w, schedule).jobs, After(w, schedule).passes, i);
  }

  /** When a pass has finished, each task it started has released its key or thrown. */
  lemma FinishedPassHasNoTask(w: World, schedule: seq<Action>, i: nat, p: nat)
    requires WellFormed(w) && i < |After(w, schedule).jobs| && After(w, schedule).jobs[i].pass == Some(p)
    requires p < |After(w, schedule).passes| && After(w, schedule).passes[p].pc.Finished?
    requires After(w, schedule).passes[p].status == Running
    ensures After(w, schedule).jobs[i].pc == Released || After(w, schedule).jobs[i].status == Threw
  {
    WaitsHold(w, schedule);
    assert WaitOk(After(w, schedule).jobs, After(w, schedule).passes, i);
  }

  // ---------------------------------------------------------- failed queries

  /** Neither the pass nor a task of it moves again: the pass has ended, and starts nothing more. */
  ghost predicate Over(s: State, p: nat, jobs: nat) {
    && p < |s.passes| && (s.passes[p].pc.Abandoned? || s.passes[p].pc.Finished?)
    && forall i :: jobs <= i < |s.jobs| ==> s.jobs[i].pass != Some(p)
  }

  lemma StepKeepsOver(w: World, s: State, a: Action, p: nat, jobs: nat)
    requires Over(s, p, jobs)
    ensures Over(Step(w, s, a), p, jobs) && Step(w, s, a).passes[p].pc == s.passes[p].pc
  {
    match a
    case RunPass(q, fetched, height) => if PassRuns(s, q) { PassKeepsOver(w, s, q, fetched, height, p, jobs); }
    case RunBlock(i) => if Runs(s, i) { JobsKeepOver(s, JobStep(w, s, i), p, jobs); }
    case FailBlock(i) => if Runs(s, i) { JobsKeepOver(s, JobThrow(s, i), p, jobs); }
    case Deliver(_, _, _) => JobsKeepOver(s, Step(w, s, a), p, jobs);
    case Crash(net) => CrashKeepsOver(s, net, p, jobs);
    case StartPass(_, _) => PassesKeepOver(s, Step(w, s, a), p, jobs);
    case FailPass(q) => if PassRuns(s, q) { PassesKeepOver(s, PassThrow(s, q), p, jobs); }
    case _ => JobsKeepOver(s, Step(w, s, a), p, jobs);
  }

  lemma PassesKeepOver(s: State, t: State, p: nat, jobs: nat)
    requires Over(s, p, jobs) && t.jobs == s.jobs && |t.passes| >= |s.passes| && t.passes[p].pc == s.passes[p].pc
    ensures Over(t, p, jobs)
  {
  }

  lemma PassKeepsOver(w: World, s: State, q: nat, fetched: bool, height: int, p: nat, jobs: nat)
    requires Over(s, p, jobs) && PassRuns(s, q)
    ensures var t := PassStep(w, s, q, fetched, height); Over(t, p, jobs) && t.passes[p].pc == s.passes[p].pc
  {
    assert p != q;
    PassStepFrame(w, s, q, fetched, height);
    OthersStartOwn(w, s, q, fetched, height, p);
  }

  lemma JobsKeepOver(s: State, t: State, p: nat, jobs: nat)
    requires Over(s, p, jobs) && t.passes == s.passes && |s.jobs| <= |t.jobs|
    requires forall i :: 0 <= i < |t.jobs| ==> t.jobs[i].pass == if i < |s.jobs| then s.jobs[i].pass else None
    ensures Over(t, p, jobs)
  {
  }

  lemma CrashKeepsOver(s: State, net: Net, p: nat, jobs: nat)
    requires Over(s, p, jobs)
    ensures Over(CrashNet(s, net), p, jobs) && CrashNet(s, net).passes[p].pc == s.passes[p].pc
  {
  }

  /** A pass starts tasks of its own only. */
  lemma OthersStartOwn(w: World, s: State, q: nat, fetched: bool, height: int, p: nat)
    requires PassRuns(s, q) && p != q
    ensures var t := PassStep(w, s, q, fetched, height);
      t.jobs == s.jobs || (|t.jobs| == |s.jobs| + 1 && t.jobs[..|s.jobs|] == s.jobs && t.jobs[|s.jobs|].pass != Some(p))
  {
    PassStepEffect(w, s, q, fetched, height);
    var e := PassEffect(w, s, q, fetched, height);
    if e.Entered? {
      assert PassStep(w, s, q, fetched, height).jobs == Enter(w, s, e.net, e.channel, e.num, e.pass).jobs;
    }
  }

  lemma {:induction false} RunKeepsOver(w: World, s: State, rest: seq<Action>, p: nat, jobs: nat)
    requires Over(s, p, jobs)
    ensures Over(Run(w, s, rest), p, jobs) && Run(w, s, rest).passes[p].pc == s.passes[p].pc
  {
    if rest != [] {
      RunKeepsOver(w, s, rest[..|rest| - 1], p, jobs);
      StepKeepsOver(w, Run(w, s, rest[..|rest| - 1]), rest[|rest| - 1], p, jobs);
    }
  }

  /** When the query for the height, or the one for the missing numbers, fails, the pass is over: whatever
      follows, it never finishes and starts no task. */
  lemma FailedQueryEndsPass(w: World, s: State, p: nat, rest: seq<Action>)
    requires PassRuns(s, p) && (s.passes[p].pc.ChainInfo? || s.passes[p].pc.Missing?)
    ensures var t := Run(w, s, [FailPass(p)] + rest);
      && p < |t.passes| && t.passes[p].pc == Abandoned
      && forall i :: |s.jobs| <= i < |t.jobs| ==> t.jobs[i].pass != Some(p)
  {
    RunCons(w, s, FailPass(p), rest);
    RunKeepsOver(w, Step(w, s, FailPass(p)), rest, p, |s.jobs|);
  }
}

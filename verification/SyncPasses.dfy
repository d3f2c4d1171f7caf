/** What a pass of `syncBlocks` guarantees, whatever runs beside it. */
module SyncPasses {
  import opened Options
  import opened Text
  import opened JsArrays
  import opened Ledger
  import opened SyncMachine
  import opened SyncLocks
  import opened SyncRows

  // ------------------------------------------------------------------ window

  /** Number of blocks from the window's start to the latest one. */
  function WindowSize(start: int, latest: int): nat {
    if latest < start then 0 else latest - start + 1
  }

  /** ALL takes every block, CUSTOM n the newest min(n, height), a non-positive n or an unknown mode none. */
  lemma WindowHolds(mode: BootMode, height: nat)
    ensures WindowStart(mode, height - 1).None? <==> mode.CustomNaN?
    ensures mode.All? ==> WindowSize(WindowStart(mode, height - 1).value, height - 1) == height
    ensures mode.Custom? ==>
              WindowSize(WindowStart(mode, height - 1).value, height - 1)
              == (if mode.count < 0 then 0 else if mode.count < height then mode.count else height)
    ensures mode.OtherMode? ==> WindowSize(WindowStart(mode, height - 1).value, height - 1) == 0
  {
  }

  /** What Explorer's guide promises for CUSTOM: the newest `noOfBlocks` blocks, and for 0 the latest block. */
  function DocumentedSize(count: nat, height: nat): nat {
    var wanted := if count == 0 then 1 else count;
    if wanted < height then wanted else height
  }

  /** The window is the documented one exactly when the count is not zero or the channel is empty. */
  lemma CustomWindowMatchesDocs(count: nat, height: nat)
    ensures WindowSize(WindowStart(Custom(count), height - 1).value, height - 1) == DocumentedSize(count, height)
       <==> count != 0 || height == 0
  {
    WindowHolds(Custom(count), height);
  }

  /** The missing query returns exactly the numbers without a row, each once, in ascending order. */
  lemma {:induction false} MissingNumbersExact(db: Db, net: Net, hash: Hash, max: int)
    ensures forall n: nat :: n in MissingNumbers(db, net, hash, max) <==> n <= max && !HasBlock(db, net, hash, n)
    ensures forall i, j :: 0 <= i < j < |MissingNumbers(db, net, hash, max)| ==>
              MissingNumbers(db, net, hash, max)[i] < MissingNumbers(db, net, hash, max)[j]
    decreases max + 1
  {
    if max >= 0 {
      MissingNumbersExact(db, net, hash, max - 1);
      var front := MissingNumbers(db, net, hash, max - 1);
      forall i | 0 <= i < |front|
        ensures front[i] < max
      {
        assert front[i] in front;
      }
    }
  }

  lemma {:induction false} FilterFromExact(numbers: seq<nat>, start: int)
    ensures forall n :: n in FilterFrom(numbers, start) <==> n in numbers && n >= start
  {
    if numbers != [] {
      FilterFromExact(numbers[1..], start);
      assert numbers == [numbers[0]] + numbers[1..];
    }
  }

  // ---------------------------------------------------------------- invariant

  /** Stored for this network, or held by a task of its process, or not delivered to this pass. */
  ghost predicate Covered(db: Db, locks: map<Net, seq<string>>, a: Pass, n: nat) {
    || HasBlock(db, a.net, a.hash, n)
    || BlockKey(a.channel, n) in Locks(locks, a.net)
    || n in a.undelivered
  }

  function Todo(pc: PassPc): seq<nat> {
    match pc
    case Refetch(todo) => todo
    case Reawait(todo, _) => todo
    case _ => []
  }

  predicate SecondHalf(pc: PassPc) {
    pc.Refetch? || pc.Reawait? || pc.Finished?
  }

  ghost predicate CoverOk(db: Db, locks: map<Net, seq<string>>, a: Pass) {
    a.status == Running && SecondHalf(a.pc) ==>
      forall n: nat | a.start <= n <= a.latest :: Covered(db, locks, a, n) || n in Todo(a.pc)
  }

  predicate AllWithin(numbers: seq<nat>, start: int, latest: int) {
    forall i :: 0 <= i < |numbers| ==> start <= numbers[i] <= latest
  }

  /** The pass stays inside its window. */
  predicate InWindow(a: Pass) {
    && AllWithin(Todo(a.pc), a.start, a.latest)
    && (a.pc.Fetch? ==> a.pc.next <= a.latest)
    && (a.pc.Decide? || a.pc.Await? ==> a.start <= a.pc.height <= a.latest)
  }

  ghost predicate PassOk(w: World, s: State, a: Pass) {
    && a.channel in w.channels(a.net)
    && a.hash == Genesis(w, a.net, a.channel)
    && (a.status == Running ==> a.channel in Known(s, a.net))
    && (!a.pc.ChainInfo? && !a.pc.Abandoned? ==> WindowStart(w.boot(a.net), a.latest) == Some(a.start))
    && InWindow(a)
    && CoverOk(s.db, s.locks, a)
  }

  /** A task started by a pass works on a block of that pass's window and channel. */
  ghost predicate JobInWindow(passes: seq<Pass>, j: Job) {
    j.pass.Some? ==>
      var p := j.pass.value;
      && p < |passes| && !passes[p].pc.ChainInfo?
      && passes[p].start <= j.num <= passes[p].latest
      && j.net == passes[p].net && j.channel == passes[p].channel
  }

  /** A process knows only channels its network has. */
  ghost predicate KnownOk(w: World, s: State) {
    forall net :: Known(s, net) <= w.channels(net)
  }

  ghost predicate PassesOk(w: World, s: State) {
    && (forall a <- s.passes :: PassOk(w, s, a))
    && (forall j <- s.jobs :: JobInWindow(s.passes, j))
  }

  // -------------------------------------------- other steps keep what is covered

  lemma HasBlockGrows(before: Db, after: Db, net: Net, hash: Hash, n: nat)
    requires Grows(before, after) && HasBlock(before, net, hash, n)
    ensures HasBlock(after, net, hash, n)
  {
    var r :| r in before.blocks && r.net == net && r.hash == hash && r.num == n;
    assert r in after.blocks;
  }

  /** Of the steps outside a pass only its process's crash can uncover a number. */
  lemma StepKeepsCovered(w: World, s: State, e: Effect, t: State, a: Pass, n: nat)
    requires WellFormed(w) && LocksOk(s.locks, s.jobs) && TablesOk(w, s.db, s.jobs) && Explains(w, s, e, t)
    requires a.hash == Genesis(w, a.net, a.channel) && Covered(s.db, s.locks, a, n)
    requires e != Died(a.net)
    ensures Covered(t.db, t.locks, a, n)
  {
    match e
    case Advanced(i) =>
      assert s.jobs[i] in s.jobs;
      RunJobGrows(w, s.db, s.jobs[i]);
      if HasBlock(s.db, a.net, a.hash, n) {
        HasBlockGrows(s.db, t.db, a.net, a.hash, n);
      } else if BlockKey(a.channel, n) in Locks(s.locks, a.net) {
        AdvanceKeepsHeld(w, s, i, a, n);
      }
    case _ =>
  }

  lemma AdvanceKeepsHeld(w: World, s: State, i: nat, a: Pass, n: nat)
    requires LocksOk(s.locks, s.jobs) && Runs(s, i) && !Throws(w, s.jobs[i])
    requires Sane(w, s.jobs[i]) && Achieved(w, s.db, s.jobs[i])
    requires a.hash == Genesis(w, a.net, a.channel) && BlockKey(a.channel, n) in Locks(s.locks, a.net)
    ensures var t := JobStep(w, s, i);
      HasBlock(t.db, a.net, a.hash, n) || BlockKey(a.channel, n) in Locks(t.locks, a.net)
  {
    var j := s.jobs[i];
    if j.pc.Finish? && j.net == a.net {
      OwnKeyIsHeld(s, i);
      BlockKeyInjective(a.channel, n, j.channel, j.num);
      if BlockKey(a.channel, n) != Key(j) {
        ReleaseKeepsOthers(Locks(s.locks, j.net), Key(j), BlockKey(a.channel, n));
      }
    }
  }

  lemma OwnKeyIsHeld(s: State, i: nat)
    requires LocksOk(s.locks, s.jobs) && Runs(s, i)
    ensures var j := s.jobs[i]; NoDuplicates(Locks(s.locks, j.net)) && Key(j) in Locks(s.locks, j.net)
  {
    var j := s.jobs[i];
    assert j in s.jobs && HeldBy(s.jobs, j.net, Key(j));
  }

  lemma ReleaseKeepsOthers(a: seq<string>, key: string, other: string)
    requires NoDuplicates(a) && key in a && other in a && other != key
    ensures other in TakeOut(a, key)
  {
    TakeOutIsRemoval(a, key);
  }

  /** Any pass record that a step leaves alone stays good. */
  lemma StepKeepsPass(w: World, s: State, e: Effect, t: State, a: Pass)
    requires WellFormed(w) && LocksOk(s.locks, s.jobs) && TablesOk(w, s.db, s.jobs) && Explains(w, s, e, t)
    requires PassOk(w, s, a) && e != Died(a.net) && Known(s, a.net) <= Known(t, a.net)
    ensures PassOk(w, t, a)
  {
    if a.status == Running && SecondHalf(a.pc) {
      forall n: nat | a.start <= n <= a.latest
        ensures Covered(t.db, t.locks, a, n) || n in Todo(a.pc)
      {
        if Covered(s.db, s.locks, a, n) {
          StepKeepsCovered(w, s, e, t, a, n);
        }
      }
    }
  }

  // ------------------------------------------------------- the pass's own steps

  /** The second half starts with exactly the numbers of the window that are not stored. */
  lemma MissingStepCovers(w: World, s: State, p: nat, fetched: bool, height: int)
    requires PassRuns(s, p) && s.passes[p].pc.Missing? && PassOk(w, s, s.passes[p])
    ensures var t := PassStep(w, s, p, fetched, height); PassOk(w, t, t.passes[p])
  {
    var a, t := s.passes[p], PassStep(w, s, p, fetched, height);
    MissingNumbersExact(s.db, a.net, a.hash, a.latest);
    FilterFromExact(MissingNumbers(s.db, a.net, a.hash, a.latest), a.start);
    var todo := Todo(t.passes[p].pc);
    forall i | 0 <= i < |todo|
      ensures a.start <= todo[i] <= a.latest
    {
      assert todo[i] in todo;
    }
    forall n: nat | a.start <= n <= a.latest
      ensures Covered(t.db, t.locks, t.passes[p], n) || n in Todo(t.passes[p].pc)
    {
    }
  }

  /** Taking the head off the list: it is held, or was held already, or is noted as undelivered. */
  lemma RefetchStepCovers(w: World, s: State, p: nat, fetched: bool, height: int)
    requires PassRuns(s, p) && s.passes[p].pc.Refetch? && s.passes[p].pc.todo != [] && PassOk(w, s, s.passes[p])
    ensures var t := PassStep(w, s, p, fetched, height); PassOk(w, t, t.passes[p])
  {
    var a, t := s.passes[p], PassStep(w, s, p, fetched, height);
    var todo := a.pc.todo;
    assert todo == [todo[0]] + todo[1..];
    assert Todo(a.pc) == todo && Todo(t.passes[p].pc) == todo[1..];
    assert AllWithin(todo[1..], a.start, a.latest);
    assert Covered(t.db, t.locks, t.passes[p], todo[0]);
    forall n: nat | a.start <= n <= a.latest
      ensures Covered(t.db, t.locks, t.passes[p], n) || n in Todo(t.passes[p].pc)
    {
      assert Covered(s.db, s.locks, a, n) || n in todo;
    }
  }

  lemma ChainInfoStep(w: World, s: State, p: nat, fetched: bool, height: int)
    requires PassRuns(s, p) && PassOk(w, s, s.passes[p]) && s.passes[p].pc.ChainInfo?
    ensures var t := PassStep(w, s, p, fetched, height); PassOk(w, t, t.passes[p])
  {
  }

  /** In the first half nothing is claimed about coverage yet. */
  lemma FirstHalfStep(w: World, s: State, p: nat, fetched: bool, height: int)
    requires PassRuns(s, p) && PassOk(w, s, s.passes[p])
    requires s.passes[p].pc.Fetch? || s.passes[p].pc.Decide? || s.passes[p].pc.Await?
    ensures var t := PassStep(w, s, p, fetched, height); PassOk(w, t, t.passes[p])
  {
    var a, t := s.passes[p], PassStep(w, s, p, fetched, height);
    assert t.passes[p] == a.(pc := t.passes[p].pc, unloaded := t.passes[p].unloaded) && t.known == s.known;
    assert !SecondHalf(t.passes[p].pc) && Todo(t.passes[p].pc) == [];
  }

  lemma ReturnStep(w: World, s: State, p: nat, fetched: bool, height: int)
    requires PassRuns(s, p) && PassOk(w, s, s.passes[p])
    requires s.passes[p].pc.Reawait? || s.passes[p].pc == Refetch([])
    ensures var t := PassStep(w, s, p, fetched, height); PassOk(w, t, t.passes[p])
  {
    assert Todo(PassStep(w, s, p, fetched, height).passes[p].pc) == Todo(s.passes[p].pc);
  }

  lemma OwnStepKeepsPass(w: World, s: State, p: nat, fetched: bool, height: int)
    requires PassRuns(s, p) && PassOk(w, s, s.passes[p])
    ensures var t := PassStep(w, s, p, fetched, height); PassOk(w, t, t.passes[p])
  {
    match s.passes[p].pc
    case Missing => MissingStepCovers(w, s, p, fetched, height);
    case Refetch(todo) =>
      if todo != [] {
        RefetchStepCovers(w, s, p, fetched, height);
      } else {
        ReturnStep(w, s, p, fetched, height);
      }
    case Reawait(_, _) => ReturnStep(w, s, p, fetched, height);
    case ChainInfo => ChainInfoStep(w, s, p, fetched, height);
    case _ => FirstHalfStep(w, s, p, fetched, height);
  }

  lemma PassStepFrame(w: World, s: State, p: nat, fetched: bool, height: int)
    requires PassRuns(s, p)
    ensures var t := PassStep(w, s, p, fetched, height);
      && |t.passes| == |s.passes| && t.known == s.known
      && (forall q :: 0 <= q < |s.passes| && q != p ==> t.passes[q] == s.passes[q])
  {
  }

  /** A pass keeps its channel, and its window once the height is known; what it starts lies in the window. */
  lemma PassStepWindow(w: World, s: State, p: nat, fetched: bool, height: int)
    requires PassRuns(s, p) && InWindow(s.passes[p])
    ensures var t, a := PassStep(w, s, p, fetched, height), s.passes[p];
      && t.passes[p].net == a.net && t.passes[p].channel == a.channel
      && (!a.pc.ChainInfo? ==> !t.passes[p].pc.ChainInfo? && t.passes[p].start == a.start && t.passes[p].latest == a.latest)
      && (t.jobs == s.jobs || (|t.jobs| == |s.jobs| + 1 && t.jobs[..|s.jobs|] == s.jobs && JobInWindow(t.passes, t.jobs[|s.jobs|])))
  {
    var t, a := PassStep(w, s, p, fetched, height), s.passes[p];
    var e := PassEffect(w, s, p, fetched, height);
    if e.Entered? {
      assert a.pc.Refetch? ==> Todo(a.pc)[0] == e.num;
      assert t.jobs == Enter(w, s, e.net, e.channel, e.num, e.pass).jobs;
      assert t.jobs[..|s.jobs|] == s.jobs;
    }
  }

  lemma PassStepKeepsWindows(w: World, s: State, p: nat, t: State)
    requires PassesOk(w, s) && p < |s.passes| == |t.passes|
    requires forall q :: 0 <= q < |s.passes| && q != p ==> t.passes[q] == s.passes[q]
    requires t.passes[p].net == s.passes[p].net && t.passes[p].channel == s.passes[p].channel
    requires !s.passes[p].pc.ChainInfo? ==>
      !t.passes[p].pc.ChainInfo? && t.passes[p].start == s.passes[p].start && t.passes[p].latest == s.passes[p].latest
    requires t.jobs == s.jobs || (|t.jobs| == |s.jobs| + 1 && t.jobs[..|s.jobs|] == s.jobs && JobInWindow(t.passes, t.jobs[|s.jobs|]))
    ensures forall j <- t.jobs :: JobInWindow(t.passes, j)
  {
    forall j | j in t.jobs
      ensures JobInWindow(t.passes, j)
    {
      var m :| 0 <= m < |t.jobs| && t.jobs[m] == j;
      if m < |s.jobs| {
        assert s.jobs[m] == j && j in s.jobs;
        assert JobInWindow(s.passes, j);
      }
    }
  }

  lemma PassStepKeepsRecords(w: World, s: State, p: nat, e: Effect, t: State)
    requires WellFormed(w) && LocksOk(s.locks, s.jobs) && TablesOk(w, s.db, s.jobs)
    requires (forall a <- s.passes :: PassOk(w, s, a)) && Explains(w, s, e, t) && !e.Died? && t.known == s.known
    requires p < |s.passes| == |t.passes| && PassOk(w, t, t.passes[p])
    requires forall q :: 0 <= q < |s.passes| && q != p ==> t.passes[q] == s.passes[q]
    ensures forall a <- t.passes :: PassOk(w, t, a)
  {
    forall a | a in t.passes
      ensures PassOk(w, t, a)
    {
      var q :| 0 <= q < |t.passes| && t.passes[q] == a;
      if q != p {
        assert a in s.passes;
        StepKeepsPass(w, s, e, t, a);
      }
    }
  }

  lemma PassStepKeepsPasses(w: World, s: State, p: nat, fetched: bool, height: int)
    requires WellFormed(w) && LocksOk(s.locks, s.jobs) && TablesOk(w, s.db, s.jobs)
    requires PassRuns(s, p) && PassesOk(w, s)
    ensures PassesOk(w, PassStep(w, s, p, fetched, height))
  {
    var t := PassStep(w, s, p, fetched, height);
    assert s.passes[p] in s.passes;
    PassStepEffect(w, s, p, fetched, height);
    OwnStepKeepsPass(w, s, p, fetched, height);
    PassStepFrame(w, s, p, fetched, height);
    PassStepWindow(w, s, p, fetched, height);
    PassStepKeepsRecords(w, s, p, PassEffect(w, s, p, fetched, height), t);
    PassStepKeepsWindows(w, s, p, t);
  }

  // ------------------------------------------------------------- all the steps

  /** Steps that leave the pass records alone. */
  lemma OtherStepKeepsPasses(w: World, s: State, e: Effect, t: State)
    requires WellFormed(w) && LocksOk(s.locks, s.jobs) && TablesOk(w, s.db, s.jobs) && PassesOk(w, s)
    requires Explains(w, s, e, t) && !e.Died? && t.passes == s.passes
    requires forall net :: Known(s, net) <= Known(t, net)
    requires forall j <- t.jobs :: j.pass.None? || exists i <- s.jobs :: i.pass == j.pass && i.num == j.num && i.net == j.net && i.channel == j.channel
    ensures PassesOk(w, t)
  {
    forall a | a in t.passes
      ensures PassOk(w, t, a)
    {
      StepKeepsPass(w, s, e, t, a);
    }
    forall j | j in t.jobs
      ensures JobInWindow(t.passes, j)
    {
      if j.pass.Some? {
        var i :| i in s.jobs && i.pass == j.pass && i.num == j.num && i.net == j.net && i.channel == j.channel;
        assert JobInWindow(s.passes, i);
      }
    }
  }

  lemma JobUpdateOrigins(jobs: seq<Job>, i: nat, moved: Job)
    requires i < |jobs| && moved.pass == jobs[i].pass && moved.num == jobs[i].num
    requires moved.net == jobs[i].net && moved.channel == jobs[i].channel
    ensures forall j <- jobs[i := moved] :: exists o <- jobs :: o.pass == j.pass && o.num == j.num && o.net == j.net && o.channel == j.channel
  {
    forall j | j in jobs[i := moved]
      ensures exists o <- jobs :: o.pass == j.pass && o.num == j.num && o.net == j.net && o.channel == j.channel
    {
      var m :| 0 <= m < |jobs| && jobs[i := moved][m] == j;
      assert jobs[m] in jobs;
    }
  }

  lemma CrashKeepsPasses(w: World, s: State, net: Net)
    requires PassesOk(w, s)
    ensures PassesOk(w, CrashNet(s, net))
  {
    var t := CrashNet(s, net);
    forall a | a in t.passes
      ensures PassOk(w, t, a)
    {
      var q :| 0 <= q < |t.passes| && t.passes[q] == a;
      assert PassOk(w, s, s.passes[q]);
      if a.net != net && a.status == Running && SecondHalf(a.pc) {
        forall n: nat | a.start <= n <= a.latest
          ensures Covered(t.db, t.locks, a, n) || n in Todo(a.pc)
        {
          assert Covered(s.db, s.locks, a, n) || n in Todo(a.pc);
        }
      }
    }
    forall j | j in t.jobs
      ensures JobInWindow(t.passes, j)
    {
      var m :| 0 <= m < |t.jobs| && t.jobs[m] == j;
      assert JobInWindow(s.passes, s.jobs[m]);
    }
  }

  lemma JobMoveKeepsPasses(w: World, s: State, e: Effect, t: State, i: nat)
    requires WellFormed(w) && LocksOk(s.locks, s.jobs) && TablesOk(w, s.db, s.jobs) && PassesOk(w, s)
    requires Explains(w, s, e, t) && (e == Advanced(i) || e == Failed(i)) && t.passes == s.passes && t.known == s.known
    ensures PassesOk(w, t)
  {
    JobUpdateOrigins(s.jobs, i, t.jobs[i]);
    OtherStepKeepsPasses(w, s, e, t);
  }

  lemma QuietStepKeepsPasses(w: World, s: State, a: Action)
    requires WellFormed(w) && LocksOk(s.locks, s.jobs) && TablesOk(w, s.db, s.jobs) && PassesOk(w, s)
    requires a.Learn? || a.Deliver? || a.StartReg? || a.RunReg? || a.FailReg?
    ensures PassesOk(w, Step(w, s, a))
  {
    var t := Step(w, s, a);
    Classify(w, s, a);
    QuietEffect(w, s, a);
    OtherStepKeepsPasses(w, s, EffectOf(w, s, a), t);
  }

  lemma QuietEffect(w: World, s: State, a: Action)
    requires a.Learn? || a.Deliver? || a.StartReg? || a.RunReg? || a.FailReg?
    ensures !EffectOf(w, s, a).Died?
    ensures var t := Step(w, s, a);
      && t.passes == s.passes
      && (forall net :: Known(s, net) <= Known(t, net))
      && (forall j <- t.jobs :: j.pass.None? || j in s.jobs)
  {
    match a
    case Deliver(net, channel, num) => assert Step(w, s, a).known == s.known;
    case _ =>
  }

  lemma PassActionKeepsPasses(w: World, s: State, a: Action)
    requires WellFormed(w) && LocksOk(s.locks, s.jobs) && TablesOk(w, s.db, s.jobs) && PassesOk(w, s) && KnownOk(w, s)
    requires a.RunPass? || a.FailPass? || a.StartPass?
    ensures PassesOk(w, Step(w, s, a))
  {
    match a
    case RunPass(p, fetched, height) => if PassRuns(s, p) { PassStepKeepsPasses(w, s, p, fetched, height); }
    case FailPass(p) => if PassRuns(s, p) { FailPassKeepsPasses(w, s, p); }
    case StartPass(net, channel) => StartPassKeepsPasses(w, s, net, channel);
  }

  lemma BlockActionKeepsPasses(w: World, s: State, i: nat)
    requires WellFormed(w) && LocksOk(s.locks, s.jobs) && TablesOk(w, s.db, s.jobs) && PassesOk(w, s) && Runs(s, i)
    ensures PassesOk(w, JobStep(w, s, i)) && PassesOk(w, JobThrow(s, i))
  {
    JobMoveKeepsPasses(w, s, Failed(i), JobThrow(s, i), i);
    if !Throws(w, s.jobs[i]) {
      JobMoveKeepsPasses(w, s, Advanced(i), JobStep(w, s, i), i);
    }
  }

  lemma StepKeepsPasses(w: World, s: State, a: Action)
    requires WellFormed(w) && LocksOk(s.locks, s.jobs) && TablesOk(w, s.db, s.jobs) && PassesOk(w, s) && KnownOk(w, s)
    ensures PassesOk(w, Step(w, s, a))
  {
    match a
    case Crash(net) => CrashKeepsPasses(w, s, net);
    case RunBlock(i) => if Runs(s, i) { BlockActionKeepsPasses(w, s, i); }
    case FailBlock(i) => if Runs(s, i) { BlockActionKeepsPasses(w, s, i); }
    case RunPass(_, _, _) => PassActionKeepsPasses(w, s, a);
    case FailPass(_) => PassActionKeepsPasses(w, s, a);
    case StartPass(_, _) => PassActionKeepsPasses(w, s, a);
    case _ => QuietStepKeepsPasses(w, s, a);
  }

  lemma FailPassKeepsPasses(w: World, s: State, p: nat)
    requires PassRuns(s, p) && PassesOk(w, s)
    ensures PassesOk(w, PassThrow(s, p))
  {
    var t := PassThrow(s, p);
    assert s.passes[p] in s.passes;
    forall a | a in t.passes
      ensures PassOk(w, t, a)
    {
      var q :| 0 <= q < |t.passes| && t.passes[q] == a;
      assert PassOk(w, s, s.passes[q]);
    }
    forall j | j in t.jobs
      ensures JobInWindow(t.passes, j)
    {
      assert JobInWindow(s.passes, j);
    }
  }

  lemma StartPassKeepsPasses(w: World, s: State, net: Net, channel: Channel)
    requires PassesOk(w, s) && KnownOk(w, s)
    ensures PassesOk(w, Step(w, s, StartPass(net, channel)))
  {
    var t := Step(w, s, StartPass(net, channel));
    forall a | a in t.passes
      ensures PassOk(w, t, a)
    {
      if a in s.passes { assert PassOk(w, s, a); }
    }
    forall j | j in t.jobs
      ensures JobInWindow(t.passes, j)
    {
      assert JobInWindow(s.passes, j);
    }
  }

  // ------------------------------------------------------- what enters processing

  lemma StepKeepsKnown(w: World, s: State, a: Action)
    requires KnownOk(w, s)
    ensures KnownOk(w, Step(w, s, a))
  {
    match a
    case RunPass(p, fetched, height) => if PassRuns(s, p) { PassStepFrame(w, s, p, fetched, height); }
    case _ =>
  }

  /** Block 0 is in no window unless the mode loads blocks. */
  lemma WindowWithZero(mode: BootMode, start: nat, latest: int)
    requires WindowStart(mode, latest) == Some(start) && start <= 0 <= latest
    ensures Loads(mode)
  {
  }

  /** Blocks enter for channels the network has; block 0 only through a pass that loads blocks. */
  lemma EntryIsAdmitted(w: World, s: State, a: Action)
    requires KnownOk(w, s) && PassesOk(w, s)
    ensures var e := EffectOf(w, s, a); e.Entered? ==> Admitted(w, e.net, e.channel, e.num)
  {
    if a.RunPass? && PassRuns(s, a.pass) {
      var e, p := PassEffect(w, s, a.pass, a.fetched, a.height), s.passes[a.pass];
      assert p in s.passes && PassOk(w, s, p);
      if e.Entered? {
        assert p.pc.Refetch? ==> Todo(p.pc)[0] == e.num;
        if e.num == 0 {
          WindowWithZero(w.boot(p.net), p.start, p.latest);
        }
      }
    }
  }
}

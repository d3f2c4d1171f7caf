/** Channel registration: when a channel has one row and when its counters count from the first block. */
module SyncRegistration {
  import opened Bag
  import opened Ledger
  import opened SyncMachine
  import opened SyncLocks
  import opened SyncCounters
  import opened SyncSafety
  import opened SyncRecovery
  import opened SyncResults

  /** Past both existence checks, before its write. */
  predicate InFlight(g: Reg) {
    g.status == Running && (g.pc.CountChannel? || g.pc.InsertChannel? || g.pc.ResetChannel?)
  }

  /** What had been counted for a channel when its row was set. */
  datatype Baseline = Baseline(blocks: nat, trans: nat)

  function Counted(w: World, s: State, net: Net, channel: Channel): Baseline {
    Baseline(s.log[BlockCounted(net, Genesis(w, net, channel))], s.log[TxCounted(net, Genesis(w, net, channel))])
  }

  /** The channel has a row, its rows count from the baseline, and no registration of it is in flight. */
  ghost predicate Settled(w: World, s: State, net: Net, channel: Channel, base: Baseline) {
    && (exists c <- s.db.channels :: OfName(c, net, channel))
    && (forall c <- s.db.channels | OfName(c, net, channel) ::
          c.hash == Genesis(w, net, channel) && Baseline(c.blocksBefore, c.transBefore) == base)
    && (forall g <- s.regs | g.net == net && g.channel == channel :: !InFlight(g))
  }

  /** A registration that inserts the channel's row, with no other in flight, settles it. */
  lemma RegistrationSettles(w: World, s: State, r: nat, net: Net, channel: Channel)
    requires RegRuns(s, r) && s.regs[r] == Reg(net, channel, Genesis(w, net, channel), InsertChannel, Running)
    requires forall c <- s.db.channels :: !OfName(c, net, channel)
    requires forall q :: 0 <= q < |s.regs| && q != r && s.regs[q].net == net && s.regs[q].channel == channel ==> !InFlight(s.regs[q])
    ensures Settled(w, RegStep(s, r), net, channel, Counted(w, s, net, channel))
  {
    var t := RegStep(s, r);
    assert ZeroRow(s, s.regs[r]) in t.db.channels;
    forall g | g in t.regs && g.net == net && g.channel == channel
      ensures !InFlight(g)
    {
      var q :| 0 <= q < |t.regs| && t.regs[q] == g;
    }
  }

  lemma ChannelsKept(w: World, s: State, t: State, net: Net, channel: Channel, base: Baseline)
    requires Settled(w, s, net, channel, base) && |t.db.channels| >= |s.db.channels|
    requires forall i :: 0 <= i < |s.db.channels| ==>
      t.db.channels[i].(blocks := s.db.channels[i].blocks, trans := s.db.channels[i].trans) == s.db.channels[i]
      || !(OfName(s.db.channels[i], net, channel) || OfName(t.db.channels[i], net, channel))
    requires forall i :: |s.db.channels| <= i < |t.db.channels| ==> !OfName(t.db.channels[i], net, channel)
    requires forall g <- t.regs | g.net == net && g.channel == channel :: !InFlight(g)
    ensures Settled(w, t, net, channel, base)
  {
    var c :| c in s.db.channels && OfName(c, net, channel);
    var m :| 0 <= m < |s.db.channels| && s.db.channels[m] == c;
    assert OfName(t.db.channels[m], net, channel) && t.db.channels[m] in t.db.channels;
    forall d | d in t.db.channels && OfName(d, net, channel)
      ensures d.hash == Genesis(w, net, channel) && Baseline(d.blocksBefore, d.transBefore) == base
    {
      var i :| 0 <= i < |t.db.channels| && t.db.channels[i] == d;
      assert s.db.channels[i] in s.db.channels;
    }
  }

  lemma RegStepKeepsSettled(w: World, s: State, r: nat, net: Net, channel: Channel, base: Baseline)
    requires Settled(w, s, net, channel, base) && RegRuns(s, r)
    ensures Settled(w, RegStep(s, r), net, channel, base)
  {
    var t, g := RegStep(s, r), s.regs[r];
    assert g in s.regs;
    forall h | h in t.regs && h.net == net && h.channel == channel
      ensures !InFlight(h)
    {
      var q :| 0 <= q < |t.regs| && t.regs[q] == h;
      if q != r {
        assert h in s.regs;
      } else if g.pc.ExistChannel? {
        var c :| c in s.db.channels && OfName(c, net, channel);
        assert OfName(c, g.net, g.channel);
      }
    }
    ChannelsKept(w, s, t, net, channel, base);
  }

  lemma RegsKeepSettled(w: World, s: State, t: State, net: Net, channel: Channel, base: Baseline)
    requires Settled(w, s, net, channel, base) && t.db == s.db && |t.regs| >= |s.regs|
    requires forall q | 0 <= q < |s.regs| ::
      t.regs[q] == s.regs[q].(status := t.regs[q].status) && (t.regs[q].status == Running ==> s.regs[q].status == Running)
    requires forall q :: |s.regs| <= q < |t.regs| ==> t.regs[q].pc.GetChannel?
    ensures Settled(w, t, net, channel, base)
  {
    forall g | g in t.regs && g.net == net && g.channel == channel
      ensures !InFlight(g)
    {
      var q :| 0 <= q < |t.regs| && t.regs[q] == g;
      if q < |s.regs| {
        assert s.regs[q] in s.regs;
      }
    }
  }

  ghost predicate SameButCounters(before: seq<ChannelRow>, after: seq<ChannelRow>) {
    && |after| == |before|
    && forall i :: 0 <= i < |before| ==> after[i].(blocks := before[i].blocks, trans := before[i].trans) == before[i]
  }

  /** Sections of block tasks leave registrations alone, and of channel rows change the counters only. */
  ghost predicate OnlyCounters(s: State, t: State) {
    t.regs == s.regs && |t.jobs| == |s.jobs| && SameButCounters(s.db.channels, t.db.channels)
  }

  lemma RunOnlyCounts(w: World, db: Db, j: Job)
    requires j.pc != Released && !Throws(w, j)
    ensures SameButCounters(db.channels, RunJob(w, db, j).1.channels)
  {
  }

  lemma SectionOnlyCounters(w: World, s: State, i: nat)
    requires Runs(s, i)
    ensures OnlyCounters(s, JobStep(w, s, i))
  {
    if !Throws(w, s.jobs[i]) {
      RunOnlyCounts(w, s.db, s.jobs[i]);
    }
  }

  lemma JobKeepsSettled(w: World, s: State, i: nat, net: Net, channel: Channel, base: Baseline)
    requires Settled(w, s, net, channel, base) && Runs(s, i)
    ensures Settled(w, JobStep(w, s, i), net, channel, base)
  {
    SectionOnlyCounters(w, s, i);
    ChannelsKept(w, s, JobStep(w, s, i), net, channel, base);
  }

  lemma PassKeepsSettled(w: World, s: State, p: nat, fetched: bool, height: int, net: Net, channel: Channel, base: Baseline)
    requires Settled(w, s, net, channel, base) && PassRuns(s, p)
    ensures Settled(w, PassStep(w, s, p, fetched, height), net, channel, base)
  {
    var t := PassStep(w, s, p, fetched, height);
    assert t.db == s.db && t.regs == s.regs;
  }

  lemma RegActionKeepsSettled(w: World, s: State, a: Action, net: Net, channel: Channel, base: Baseline)
    requires Settled(w, s, net, channel, base) && (a.StartReg? || a.RunReg? || a.FailReg?)
    ensures Settled(w, Step(w, s, a), net, channel, base)
  {
    match a
    case RunReg(r) => if RegRuns(s, r) { RegStepKeepsSettled(w, s, r, net, channel, base); }
    case StartReg(_, _) => StartKeepsSettled(w, s, a.net, a.channel, net, channel, base);
    case FailReg(_) => RegsKeepSettled(w, s, Step(w, s, a), net, channel, base);
  }

  lemma StartKeepsSettled(w: World, s: State, on: Net, of: Channel, net: Net, channel: Channel, base: Baseline)
    requires Settled(w, s, net, channel, base)
    ensures Settled(w, Step(w, s, StartReg(on, of)), net, channel, base)
  {
    RegsKeepSettled(w, s, Step(w, s, StartReg(on, of)), net, channel, base);
  }

  lemma StepKeepsSettled(w: World, s: State, a: Action, net: Net, channel: Channel, base: Baseline)
    requires Settled(w, s, net, channel, base)
    ensures Settled(w, Step(w, s, a), net, channel, base)
  {
    match a
    case StartReg(_, _) => RegActionKeepsSettled(w, s, a, net, channel, base);
    case RunReg(_) => RegActionKeepsSettled(w, s, a, net, channel, base);
    case FailReg(_) => RegActionKeepsSettled(w, s, a, net, channel, base);
    case RunBlock(i) => if Runs(s, i) { JobKeepsSettled(w, s, i, net, channel, base); }
    case RunPass(p, fetched, height) => if PassRuns(s, p) { PassKeepsSettled(w, s, p, fetched, height, net, channel, base); }
    case Crash(lost) => RegsKeepSettled(w, s, CrashNet(s, lost), net, channel, base);
    case _ => QuietKeepsSettled(w, s, a, net, channel, base);
  }

  lemma QuietKeepsSettled(w: World, s: State, a: Action, net: Net, channel: Channel, base: Baseline)
    requires Settled(w, s, net, channel, base) && (a.Learn? || a.Deliver? || a.FailBlock? || a.StartPass? || a.FailPass?)
    ensures Settled(w, Step(w, s, a), net, channel, base)
  {
    assert Step(w, s, a).db == s.db && Step(w, s, a).regs == s.regs;
  }

  // ------------------------------------------------------- one row a channel

  ghost predicate OneRow(channels: seq<ChannelRow>, net: Net, channel: Channel) {
    forall i, j | 0 <= i < j < |channels| :: !(OfName(channels[i], net, channel) && OfName(channels[j], net, channel))
  }

  ghost predicate NoRow(channels: seq<ChannelRow>, net: Net, channel: Channel) {
    forall c <- channels :: !OfName(c, net, channel)
  }

  /** The INSERT keeps one row for the channel exactly when there is none at that moment. */
  lemma InsertKeepsOneRowIff(s: State, r: nat)
    requires RegRuns(s, r) && s.regs[r].pc.InsertChannel?
    requires OneRow(s.db.channels, s.regs[r].net, s.regs[r].channel)
    ensures OneRow(RegStep(s, r).db.channels, s.regs[r].net, s.regs[r].channel)
       <==> NoRow(s.db.channels, s.regs[r].net, s.regs[r].channel)
  {
    var net, channel, before, after := s.regs[r].net, s.regs[r].channel, s.db.channels, RegStep(s, r).db.channels;
    assert OfName(after[|before|], net, channel);
    if c :| c in before && OfName(c, net, channel) {
      var i :| 0 <= i < |before| && before[i] == c;
      assert after[i] == c;
    }
  }

  /** No two registrations of the channel are past both existence checks and before their writes. */
  ghost predicate OneInFlight(s: State, net: Net, channel: Channel) {
    forall i, j | 0 <= i < j < |s.regs| && OfRegistration(s.regs[i], net, channel) && OfRegistration(s.regs[j], net, channel) ::
      !(InFlight(s.regs[i]) && InFlight(s.regs[j]))
  }

  predicate OfRegistration(g: Reg, net: Net, channel: Channel) {
    g.net == net && g.channel == channel
  }

  /** At most one row, none while a registration is about to insert one, and no registration about to reset. */
  ghost predicate SingleRow(s: State, net: Net, channel: Channel) {
    && OneRow(s.db.channels, net, channel)
    && (forall g <- s.regs | OfRegistration(g, net, channel) && InFlight(g) ::
          !g.pc.ResetChannel? && NoRow(s.db.channels, net, channel))
  }

  ghost predicate SameNames(before: seq<ChannelRow>, after: seq<ChannelRow>) {
    |before| == |after| && forall i :: 0 <= i < |before| ==> after[i].net == before[i].net && after[i].name == before[i].name
  }

  lemma NamesDecide(before: seq<ChannelRow>, after: seq<ChannelRow>, net: Net, channel: Channel)
    requires SameNames(before, after)
    ensures OneRow(before, net, channel) ==> OneRow(after, net, channel)
    ensures NoRow(before, net, channel) ==> NoRow(after, net, channel)
  {
    forall c | c in after && NoRow(before, net, channel)
      ensures !OfName(c, net, channel)
    {
      var i :| 0 <= i < |after| && after[i] == c;
      assert before[i] in before;
    }
  }

  /** Steps that leave names alone and put no registration in flight. */
  lemma NamesKeepSingle(s: State, t: State, net: Net, channel: Channel)
    requires SingleRow(s, net, channel) && SameNames(s.db.channels, t.db.channels)
    requires forall g <- t.regs | OfRegistration(g, net, channel) && InFlight(g) :: g in s.regs
    ensures SingleRow(t, net, channel)
  {
    NamesDecide(s.db.channels, t.db.channels, net, channel);
  }

  lemma ForeignRegKeepsSingle(s: State, r: nat, net: Net, channel: Channel)
    requires SingleRow(s, net, channel) && RegRuns(s, r) && !OfRegistration(s.regs[r], net, channel)
    ensures SingleRow(RegStep(s, r), net, channel)
  {
    var t := RegStep(s, r);
    forall g | g in t.regs && OfRegistration(g, net, channel)
      ensures g in s.regs
    {
      var q :| 0 <= q < |t.regs| && t.regs[q] == g;
    }
    if !s.regs[r].pc.InsertChannel? {
      NamesKeepSingle(s, t, net, channel);
    }
  }

  lemma OwnRegKeepsSingle(s: State, r: nat, net: Net, channel: Channel)
    requires SingleRow(s, net, channel) && OneInFlight(s, net, channel)
    requires RegRuns(s, r) && OfRegistration(s.regs[r], net, channel)
    ensures SingleRow(RegStep(s, r), net, channel)
  {
    var t, g := RegStep(s, r), s.regs[r];
    assert g in s.regs;
    if g.pc.InsertChannel? {
      InsertKeepsOneRowIff(s, r);
    }
    forall h | h in t.regs && OfRegistration(h, net, channel) && InFlight(h)
      ensures !h.pc.ResetChannel? && NoRow(t.db.channels, net, channel)
    {
      var q :| 0 <= q < |t.regs| && t.regs[q] == h;
      if q != r {
        assert h in s.regs;
        assert !InFlight(g);
      }
    }
  }

  lemma StepKeepsSingle(w: World, s: State, a: Action, net: Net, channel: Channel)
    requires SingleRow(s, net, channel) && OneInFlight(s, net, channel)
    ensures SingleRow(Step(w, s, a), net, channel)
  {
    match a
    case RunReg(r) =>
      if RegRuns(s, r) {
        if OfRegistration(s.regs[r], net, channel) {
          OwnRegKeepsSingle(s, r, net, channel);
        } else {
          ForeignRegKeepsSingle(s, r, net, channel);
        }
      }
    case RunPass(p, fetched, height) => if PassRuns(s, p) { PassKeepsSingle(w, s, p, fetched, height, net, channel); }
    case RunBlock(i) => if Runs(s, i) { JobKeepsSingle(w, s, i, net, channel); }
    case Crash(lost) => CrashKeepsSingle(s, lost, net, channel);
    case _ => OtherStepKeepsSingle(w, s, a, net, channel);
  }

  lemma PassKeepsSingle(w: World, s: State, p: nat, fetched: bool, height: int, net: Net, channel: Channel)
    requires SingleRow(s, net, channel) && PassRuns(s, p)
    ensures SingleRow(PassStep(w, s, p, fetched, height), net, channel)
  {
    var t := PassStep(w, s, p, fetched, height);
    assert t.db == s.db && t.regs == s.regs;
  }

  lemma OtherStepKeepsSingle(w: World, s: State, a: Action, net: Net, channel: Channel)
    requires SingleRow(s, net, channel) && (a.Learn? || a.Deliver? || a.FailBlock? || a.StartPass? || a.FailPass? || a.StartReg? || a.FailReg?)
    ensures SingleRow(Step(w, s, a), net, channel)
  {
    assert Step(w, s, a).db == s.db;
    NamesKeepSingle(s, Step(w, s, a), net, channel);
  }

  lemma JobKeepsSingle(w: World, s: State, i: nat, net: Net, channel: Channel)
    requires SingleRow(s, net, channel) && Runs(s, i)
    ensures SingleRow(JobStep(w, s, i), net, channel)
  {
    SectionOnlyCounters(w, s, i);
    NamesKeepSingle(s, JobStep(w, s, i), net, channel);
  }

  lemma CrashKeepsSingle(s: State, lost: Net, net: Net, channel: Channel)
    requires SingleRow(s, net, channel)
    ensures SingleRow(CrashNet(s, lost), net, channel)
  {
    forall g | g in CrashNet(s, lost).regs && InFlight(g)
      ensures g in s.regs
    {
      var q :| 0 <= q < |s.regs| && CrashNet(s, lost).regs[q] == g;
    }
    NamesKeepSingle(s, CrashNet(s, lost), net, channel);
  }

  /** In every run in which no two registrations of a channel are in flight together, the channel has at most
      one row, and no registration of it comes to reset counters. */
  lemma {:induction false} OneRowWithoutOverlap(w: World, schedule: seq<Action>, net: Net, channel: Channel)
    requires forall n :: 0 <= n < |schedule| ==> OneInFlight(After(w, schedule[..n]), net, channel)
    ensures SingleRow(After(w, schedule), net, channel)
  {
    if schedule != [] {
      var front := schedule[..|schedule| - 1];
      forall n | 0 <= n < |front|
        ensures OneInFlight(After(w, front[..n]), net, channel)
      {
        assert front[..n] == schedule[..n];
      }
      OneRowWithoutOverlap(w, front, net, channel);
      StepKeepsSingle(w, After(w, front), schedule[|schedule| - 1], net, channel);
    }
  }

  // -------------------------------------------------- overlapping registrations

  /** Two registrations that both pass the checks before either writes leave two rows for the channel. */
  lemma OverlappingRegistrationsDuplicate(w: World, net: Net, channel: Channel) returns (schedule: seq<Action>)
    requires channel in w.channels(net)
    ensures var db := After(w, schedule).db;
      |db.channels| == 2 && db.channels[0] == db.channels[1] && OfName(db.channels[0], net, channel)
  {
    var checks := BothChecks(net, channel);
    var writes := [RunReg(0), RunReg(1), RunReg(0), RunReg(1)];
    schedule := checks + writes;
    RunAppend(w, INITIAL, checks, writes);
    BothPassTheChecks(w, net, channel);
    BothInsert(w, net, channel, After(w, checks));
  }

  function Registering(w: World, net: Net, channel: Channel, pc: RegPc): Reg {
    Reg(net, channel, Genesis(w, net, channel), pc, Running)
  }

  function BothChecks(net: Net, channel: Channel): seq<Action> {
    [StartReg(net, channel), StartReg(net, channel), RunReg(0), RunReg(1), RunReg(0), RunReg(1)]
  }

  lemma BothPassTheChecks(w: World, net: Net, channel: Channel)
    requires channel in w.channels(net)
    ensures After(w, BothChecks(net, channel))
         == INITIAL.(regs := [Registering(w, net, channel, CountChannel), Registering(w, net, channel, CountChannel)])
  {
    var a := StartReg(net, channel);
    var turns := [RunReg(0)] + ([RunReg(1)] + ([RunReg(0)] + [RunReg(1)]));
    assert [a, a, RunReg(0), RunReg(1), RunReg(0), RunReg(1)] == [a] + ([a] + turns);
    var g := Registering(w, net, channel, GetChannel);
    assert [] + [g] == [g] && [g] + [g] == [g, g];
    RunCons(w, INITIAL, a, [a] + turns);
    assert Step(w, INITIAL, a) == INITIAL.(regs := [g]);
    RunCons(w, INITIAL.(regs := [g]), a, turns);
    assert Step(w, INITIAL.(regs := [g]), a) == INITIAL.(regs := [g, g]);
    BothCheck(w, net, channel);
  }

  lemma BothCheck(w: World, net: Net, channel: Channel)
    ensures var g, i := Registering(w, net, channel, GetChannel), Registering(w, net, channel, CountChannel);
      Run(w, INITIAL.(regs := [g, g]), [RunReg(0)] + ([RunReg(1)] + ([RunReg(0)] + [RunReg(1)]))) == INITIAL.(regs := [i, i])
  {
    var g, h, i := Registering(w, net, channel, GetChannel), Registering(w, net, channel, ExistChannel), Registering(w, net, channel, CountChannel);
    FourTurns(w, INITIAL.(regs := [g, g]), INITIAL.(regs := [h, g]), INITIAL.(regs := [h, h]), INITIAL.(regs := [i, h]), INITIAL.(regs := [i, i]));
  }

  lemma BothInsert(w: World, net: Net, channel: Channel, s: State)
    requires s == INITIAL.(regs := [Registering(w, net, channel, CountChannel), Registering(w, net, channel, CountChannel)])
    ensures var db := Run(w, s, [RunReg(0), RunReg(1), RunReg(0), RunReg(1)]).db;
      |db.channels| == 2 && db.channels[0] == db.channels[1] && OfName(db.channels[0], net, channel)
  {
    var i, j, k := Registering(w, net, channel, CountChannel), Registering(w, net, channel, InsertChannel), Registering(w, net, channel, Registered);
    var row := ChannelRow(net, channel, Genesis(w, net, channel), 0, 0, 0, 0);
    assert [RunReg(0), RunReg(1), RunReg(0), RunReg(1)] == [RunReg(0)] + ([RunReg(1)] + ([RunReg(0)] + [RunReg(1)]));
    FourTurns(w, s, INITIAL.(regs := [j, i]), INITIAL.(regs := [j, j]),
              INITIAL.(regs := [k, j], db := Db([], [], [row])), INITIAL.(regs := [k, k], db := Db([], [], [row, row])));
  }

  lemma FourTurns(w: World, s0: State, s1: State, s2: State, s3: State, s4: State)
    requires s1 == Step(w, s0, RunReg(0)) && s2 == Step(w, s1, RunReg(1))
    requires s3 == Step(w, s2, RunReg(0)) && s4 == Step(w, s3, RunReg(1))
    ensures Run(w, s0, [RunReg(0)] + ([RunReg(1)] + ([RunReg(0)] + [RunReg(1)]))) == s4
  {
    RunCons(w, s0, RunReg(0), [RunReg(1)] + ([RunReg(0)] + [RunReg(1)]));
    RunCons(w, s1, RunReg(1), [RunReg(0)] + [RunReg(1)]);
    RunCons(w, s2, RunReg(0), [RunReg(1)]);
    RunOne(w, s3, RunReg(1));
  }

  // ------------------------------------------------------------- late resets

  lemma ResetRow(s: State, r: nat, c: ChannelRow)
    requires RegRuns(s, r) && s.regs[r].pc.ResetChannel?
    requires c in RegStep(s, r).db.channels && IsChannel(c, s.regs[r])
    ensures c == ZeroRow(s, s.regs[r])
  {
    var i :| 0 <= i < |RegStep(s, r).db.channels| && RegStep(s, r).db.channels[i] == c;
  }

  /** The counters of the row account for the rows of the channel, apart from saves paused or aborted. */
  ghost predicate Accounts(s: State, c: ChannelRow) {
    var b, t := BlockCounted(c.net, c.hash), TxCounted(c.net, c.hash);
    && Tally(s.db.blocks, BlockCountOf)[b] == c.blocks + Tally(s.jobs, PausedBlock)[b] + Tally(s.jobs, AbortedBlock)[b]
    && Tally(s.db.txs, TxCountOf)[t] == c.trans + Tally(s.jobs, PausedTx)[t] + Tally(s.jobs, AbortedTx)[t]
  }

  /** A registration that finds the row on its second look sets the counters to zero. They still account for
      the rows exactly when no block and no transaction of the channel had been counted before. */
  lemma ResetKeepsAccountsIff(w: World, schedule: seq<Action>, r: nat, c: ChannelRow)
    requires WellFormed(w) && RegRuns(After(w, schedule), r) && After(w, schedule).regs[r].pc.ResetChannel?
    requires c in After(w, schedule + [RunReg(r)]).db.channels && IsChannel(c, After(w, schedule).regs[r])
    ensures c.blocks == 0 && c.trans == 0
    ensures Accounts(After(w, schedule + [RunReg(r)]), c)
       <==> After(w, schedule).log[BlockCounted(c.net, c.hash)] == 0 && After(w, schedule).log[TxCounted(c.net, c.hash)] == 0
  {
    RunAppend(w, INITIAL, schedule, [RunReg(r)]);
    RunOne(w, After(w, schedule), RunReg(r));
    ResetRow(After(w, schedule), r, c);
    AccountsIffNoneBefore(w, schedule + [RunReg(r)], c);
  }

  /** In every run a row accounts for its channel exactly when nothing was counted before it was last set. */
  lemma AccountsIffNoneBefore(w: World, schedule: seq<Action>, c: ChannelRow)
    requires WellFormed(w) && c in After(w, schedule).db.channels
    ensures Accounts(After(w, schedule), c) <==> c.blocksBefore == 0 && c.transBefore == 0
  {
    CountersBalance(w, schedule, c);
    BalanceDecides(After(w, schedule), c);
  }

  lemma BalanceDecides(s: State, c: ChannelRow)
    requires var b := BlockCounted(c.net, c.hash);
      Tally(s.db.blocks, BlockCountOf)[b] == c.blocks + c.blocksBefore + Tally(s.jobs, PausedBlock)[b] + Tally(s.jobs, AbortedBlock)[b]
    requires var t := TxCounted(c.net, c.hash);
      Tally(s.db.txs, TxCountOf)[t] == c.trans + c.transBefore + Tally(s.jobs, PausedTx)[t] + Tally(s.jobs, AbortedTx)[t]
    ensures Accounts(s, c) <==> c.blocksBefore == 0 && c.transBefore == 0
  {
  }

  /** The registration is of a channel its network has, under that channel's genesis hash. */
  predicate KnowsGenesis(w: World, g: Reg) {
    g.channel in w.channels(g.net) && g.hash == Genesis(w, g.net, g.channel)
  }

  predicate RowKnowsGenesis(w: World, c: ChannelRow) {
    c.name in w.channels(c.net) && c.hash == Genesis(w, c.net, c.name)
  }

  lemma StepKeepsGenesis(w: World, s: State, a: Action)
    requires forall g <- s.regs :: KnowsGenesis(w, g)
    ensures forall g <- Step(w, s, a).regs :: KnowsGenesis(w, g)
  {
    var t := Step(w, s, a);
    forall g | g in t.regs
      ensures KnowsGenesis(w, g)
    {
      var q :| 0 <= q < |t.regs| && t.regs[q] == g;
      RegOrigin(w, s, a, q);
      if q < |s.regs| {
        assert s.regs[q] in s.regs;
      }
    }
  }

  /** A channel row keeps its names and hash, or is written by a registration. */
  lemma RowOrigin(w: World, s: State, a: Action, i: nat)
    requires i < |Step(w, s, a).db.channels|
    ensures var c := Step(w, s, a).db.channels[i];
      || (i < |s.db.channels| && c.net == s.db.channels[i].net && c.name == s.db.channels[i].name && c.hash == s.db.channels[i].hash)
      || (exists g <- s.regs :: c == ZeroRow(s, g))
  {
    match a
    case RunPass(p, fetched, height) => if PassRuns(s, p) { PassStepEffect(w, s, p, fetched, height); }
    case RunBlock(j) => if Runs(s, j) { SectionOnlyCounters(w, s, j); }
    case RunReg(r) =>
      if RegRuns(s, r) {
        assert s.regs[r] in s.regs;
        WrittenRow(s, r, i);
      }
    case _ =>
  }

  lemma WrittenRow(s: State, r: nat, i: nat)
    requires RegRuns(s, r) && i < |RegStep(s, r).db.channels|
    ensures var c := RegStep(s, r).db.channels[i]; (i < |s.db.channels| && c == s.db.channels[i]) || c == ZeroRow(s, s.regs[r])
  {
  }

  lemma StepKeepsRowGenesis(w: World, s: State, a: Action)
    requires (forall g <- s.regs :: KnowsGenesis(w, g)) && (forall c <- s.db.channels :: RowKnowsGenesis(w, c))
    ensures forall c <- Step(w, s, a).db.channels :: RowKnowsGenesis(w, c)
  {
    var channels := Step(w, s, a).db.channels;
    forall c | c in channels
      ensures RowKnowsGenesis(w, c)
    {
      var i :| 0 <= i < |channels| && channels[i] == c;
      RowOrigin(w, s, a, i);
      if i < |s.db.channels| {
        assert s.db.channels[i] in s.db.channels;
      }
      if g :| g in s.regs && c == ZeroRow(s, g) {
        assert KnowsGenesis(w, g);
      }
    }
  }

  lemma RegOrigin(w: World, s: State, a: Action, q: nat)
    requires q < |Step(w, s, a).regs|
    ensures var g := Step(w, s, a).regs[q];
      if q < |s.regs| then g == s.regs[q].(pc := g.pc, status := g.status) else KnowsGenesis(w, g)
  {
    match a
    case RunPass(p, fetched, height) => if PassRuns(s, p) { PassKeepsRegs(w, s, p, fetched, height); }
    case RunBlock(i) => if Runs(s, i) { SectionOnlyCounters(w, s, i); }
    case RunReg(r) => if RegRuns(s, r) { RegStepOrigin(s, r, q); }
    case Crash(net) => assert CrashNet(s, net).regs[q] == s.regs[q].(status := CrashNet(s, net).regs[q].status);
    case _ => QuietOrigin(w, s, a, q);
  }

  lemma RegStepOrigin(s: State, r: nat, q: nat)
    requires RegRuns(s, r) && q < |RegStep(s, r).regs|
    ensures var g := RegStep(s, r).regs[q]; q < |s.regs| && g == s.regs[q].(pc := g.pc, status := g.status)
  {
  }

  lemma QuietOrigin(w: World, s: State, a: Action, q: nat)
    requires q < |Step(w, s, a).regs| && !a.RunPass? && !a.RunBlock? && !a.RunReg? && !a.Crash?
    ensures var g := Step(w, s, a).regs[q];
      if q < |s.regs| then g == s.regs[q].(pc := g.pc, status := g.status) else KnowsGenesis(w, g)
  {
  }

  lemma PassKeepsRegs(w: World, s: State, p: nat, fetched: bool, height: int)
    requires PassRuns(s, p)
    ensures PassStep(w, s, p, fetched, height).regs == s.regs
  {
  }

  lemma {:induction false} RegistrationsKnowGenesis(w: World, schedule: seq<Action>)
    ensures forall g <- After(w, schedule).regs :: KnowsGenesis(w, g)
  {
    if schedule != [] {
      RegistrationsKnowGenesis(w, schedule[..|schedule| - 1]);
      StepKeepsGenesis(w, After(w, schedule[..|schedule| - 1]), schedule[|schedule| - 1]);
    }
  }

  /** In every run a channel row is of a channel its network has, under that channel's genesis hash. */
  lemma {:induction false} RowsKnowGenesis(w: World, schedule: seq<Action>)
    ensures forall c <- After(w, schedule).db.channels :: RowKnowsGenesis(w, c)
  {
    if schedule != [] {
      RegistrationsKnowGenesis(w, schedule[..|schedule| - 1]);
      RowsKnowGenesis(w, schedule[..|schedule| - 1]);
      StepKeepsRowGenesis(w, After(w, schedule[..|schedule| - 1]), schedule[|schedule| - 1]);
    }
  }

  lemma {:induction false} SettledStaysSingle(w: World, s: State, rest: seq<Action>, net: Net, channel: Channel, base: Baseline)
    requires Settled(w, s, net, channel, base) && SingleRow(s, net, channel)
    ensures Settled(w, Run(w, s, rest), net, channel, base) && SingleRow(Run(w, s, rest), net, channel)
  {
    if rest != [] {
      var front, last := rest[..|rest| - 1], rest[|rest| - 1];
      SettledStaysSingle(w, s, front, net, channel, base);
      SettledIsAlone(w, Run(w, s, front), net, channel, base);
      StepKeepsSettled(w, Run(w, s, front), last, net, channel, base);
      StepKeepsSingle(w, Run(w, s, front), last, net, channel);
    }
  }

  lemma SettledIsAlone(w: World, s: State, net: Net, channel: Channel, base: Baseline)
    requires Settled(w, s, net, channel, base)
    ensures OneInFlight(s, net, channel)
  {
    forall i | 0 <= i < |s.regs| && OfRegistration(s.regs[i], net, channel)
      ensures !InFlight(s.regs[i])
    {
      assert s.regs[i] in s.regs;
    }
  }

  /** A registration about to insert, in a run without overlap up to here. */
  ghost predicate InsertsAlone(w: World, before: seq<Action>, r: nat, net: Net, channel: Channel) {
    && (forall n :: 0 <= n <= |before| ==> OneInFlight(After(w, before[..n]), net, channel))
    && RegRuns(After(w, before), r) && After(w, before).regs[r].pc.InsertChannel?
    && OfRegistration(After(w, before).regs[r], net, channel)
  }

  lemma InsertingAloneSettles(w: World, before: seq<Action>, r: nat, net: Net, channel: Channel)
    requires InsertsAlone(w, before, r, net, channel)
    ensures var t := RegStep(After(w, before), r);
      Settled(w, t, net, channel, Counted(w, After(w, before), net, channel)) && SingleRow(t, net, channel)
  {
    var s := After(w, before);
    assert before[..|before|] == before;
    assert s.regs[r] in s.regs;
    OneRowWithoutOverlap(w, before, net, channel);
    RegistrationsKnowGenesis(w, before);
    OwnRegKeepsSingle(s, r, net, channel);
    RegistrationSettles(w, s, r, net, channel);
  }

  /** A channel is registered without overlap. However the run goes on, with later registrations, failures
      and restarts, it keeps exactly this one row, and the counters of that row account for the rows of the
      channel, apart from saves paused or aborted, exactly when nothing had been counted before the INSERT. */
  lemma RegisteredAccountsIff(w: World, before: seq<Action>, r: nat, rest: seq<Action>, net: Net, channel: Channel)
    returns (c: ChannelRow)
    requires WellFormed(w) && InsertsAlone(w, before, r, net, channel)
    ensures var s := After(w, before + [RunReg(r)] + rest);
      && c in s.db.channels && OfName(c, net, channel) && OneRow(s.db.channels, net, channel)
      && (Accounts(s, c) <==> Counted(w, After(w, before), net, channel) == Baseline(0, 0))
  {
    var inserted := before + [RunReg(r)];
    var base := Counted(w, After(w, before), net, channel);
    InsertingAloneSettles(w, before, r, net, channel);
    RunAppend(w, INITIAL, before, [RunReg(r)]);
    RunOne(w, After(w, before), RunReg(r));
    RunAppend(w, INITIAL, inserted, rest);
    SettledStaysSingle(w, After(w, inserted), rest, net, channel, base);
    c :| c in After(w, inserted + rest).db.channels && OfName(c, net, channel);
    AccountsIffNoneBefore(w, inserted + rest, c);
  }

  lemma {:induction false} AloneOnlyCounters(w: World, s: State, i: nat, n: nat)
    ensures OnlyCounters(s, Run(w, s, Alone(i, n)))
  {
    if n > 0 {
      assert Alone(i, n)[..n - 1] == Alone(i, n - 1);
      AloneOnlyCounters(w, s, i, n - 1);
      var before := Run(w, s, Alone(i, n - 1));
      if Runs(before, i) {
        SectionOnlyCounters(w, before, i);
      }
    }
  }

  /** One registration inserted the row; the other is past the checks and has yet to count. */
  function HalfRegistered(w: World, net: Net, channel: Channel): State {
    INITIAL.(regs := [Registering(w, net, channel, Registered), Registering(w, net, channel, CountChannel)],
             db := Db([], [], [ChannelRow(net, channel, Genesis(w, net, channel), 0, 0, 0, 0)]))
  }

  lemma FirstInserts(w: World, net: Net, channel: Channel) returns (schedule: seq<Action>)
    requires channel in w.channels(net)
    ensures After(w, schedule) == HalfRegistered(w, net, channel)
  {
    BothPassTheChecks(w, net, channel);
    FirstWrites(w, net, channel);
    schedule := BothChecks(net, channel) + ([RunReg(0)] + [RunReg(0)]);
    RunAppend(w, INITIAL, BothChecks(net, channel), [RunReg(0)] + [RunReg(0)]);
  }

  lemma FirstWrites(w: World, net: Net, channel: Channel)
    ensures var waiting := Registering(w, net, channel, CountChannel);
      Run(w, INITIAL.(regs := [waiting, waiting]), [RunReg(0)] + [RunReg(0)]) == HalfRegistered(w, net, channel)
  {
    var waiting, counted := Registering(w, net, channel, CountChannel), Registering(w, net, channel, InsertChannel);
    var s, t := INITIAL.(regs := [waiting, waiting]), INITIAL.(regs := [counted, waiting]);
    RunCons(w, s, RunReg(0), [RunReg(0)]);
    assert [waiting, waiting][0 := counted] == [counted, waiting];
    assert Step(w, s, RunReg(0)) == t;
    RunOne(w, t, RunReg(0));
    CountedInserts(w, net, channel);
  }

  lemma CountedInserts(w: World, net: Net, channel: Channel)
    ensures Step(w, INITIAL.(regs := [Registering(w, net, channel, InsertChannel), Registering(w, net, channel, CountChannel)]), RunReg(0))
         == HalfRegistered(w, net, channel)
  {
    var waiting, counted := Registering(w, net, channel, CountChannel), Registering(w, net, channel, InsertChannel);
    assert [counted, waiting][0 := Registering(w, net, channel, Registered)] == [Registering(w, net, channel, Registered), waiting];
    assert [] + [ZeroRow(INITIAL, counted)] == [ZeroRow(INITIAL, counted)];
  }

  /** The block is delivered and saved while the second registration waits. */
  lemma BlockComesBetween(w: World, s: State, net: Net, channel: Channel, num: nat) returns (path: seq<Action>)
    requires WellFormed(w) && Good(w, s) && s.jobs == [] && s.locks == map[] && channel in w.channels(net)
    requires num != 0 && Storable(w, net, channel, num)
    ensures var t := Run(w, s, path);
      && t.regs == s.regs && |t.db.channels| == |s.db.channels|
      && (forall i :: 0 <= i < |s.db.channels| ==>
            t.db.channels[i].(blocks := s.db.channels[i].blocks, trans := s.db.channels[i].trans) == s.db.channels[i])
      && HasBlock(t.db, net, Genesis(w, net, channel), num) && (forall j <- t.jobs :: j.pc == Released)
  {
    var delivery := [Learn(net, channel)] + [Deliver(net, channel, num)];
    DeliveryEnters(w, s, net, channel, num);
    var entered := Run(w, s, delivery);
    var n := Remaining(w, entered.jobs[0]);
    RunKeepsGood(w, s, delivery);
    OnlyTaskFinishes(w, entered);
    path := delivery + Alone(0, n);
    RunAppend(w, s, delivery, Alone(0, n));
  }

  lemma OnlyTaskFinishes(w: World, s: State)
    requires WellFormed(w) && Good(w, s) && |s.jobs| == 1 && s.jobs[0].status == Running && OfStorable(w, s.jobs[0])
    ensures var t, j := Run(w, s, Alone(0, Remaining(w, s.jobs[0]))), s.jobs[0];
      OnlyCounters(s, t) && HasBlock(t.db, j.net, j.hash, j.num) && t.jobs == [j.(pc := Released)]
  {
    AloneFinishes(w, s, 0);
    AloneOnlyCounters(w, s, 0, Remaining(w, s.jobs[0]));
  }

  lemma SecondResets(w: World, s: State, net: Net, channel: Channel)
    requires |s.regs| == 2 && s.regs[1] == Registering(w, net, channel, CountChannel)
    requires |s.db.channels| == 1 && IsChannel(s.db.channels[0], s.regs[1])
    ensures var t := Run(w, s, [RunReg(1)] + [RunReg(1)]);
      t.db == s.db.(channels := [ZeroRow(s, s.regs[1])]) && t.jobs == s.jobs
  {
    var counted := s.(regs := s.regs[1 := Registering(w, net, channel, ResetChannel)]);
    assert s.db.channels[0] in s.db.channels;
    assert Step(w, s, RunReg(1)) == counted;
    RunCons(w, s, RunReg(1), [RunReg(1)]);
    RunOne(w, counted, RunReg(1));
  }

  /** Such a reset is reached: after this schedule the block is stored and every task has ended, and both
      counters of the channel are zero. */
  lemma LateRegistrationResets(w: World, net: Net, channel: Channel, num: nat) returns (schedule: seq<Action>)
    requires WellFormed(w) && channel in w.channels(net) && num != 0 && Storable(w, net, channel, num)
    ensures var s := After(w, schedule);
      && HasBlock(s.db, net, Genesis(w, net, channel), num) && (forall j <- s.jobs :: j.pc == Released)
      && |s.db.channels| == 1 && OfName(s.db.channels[0], net, channel)
      && s.db.channels[0].blocks == 0 && s.db.channels[0].trans == 0
  {
    var first := FirstInserts(w, net, channel);
    AfterIsGood(w, first);
    var s := HalfRegistered(w, net, channel);
    var path := BlockComesBetween(w, s, net, channel, num);
    RunAppend(w, INITIAL, first, path);
    SecondResets(w, Run(w, s, path), net, channel);
    schedule := first + path + ([RunReg(1)] + [RunReg(1)]);
    RunAppend(w, INITIAL, first + path, [RunReg(1)] + [RunReg(1)]);
  }

  // ------------------------------------------------- a registration by itself

  /** Four statements in a row. */
  function FourOf(r: nat): seq<Action> {
    [RunReg(r)] + ([RunReg(r)] + ([RunReg(r)] + [RunReg(r)]))
  }

  lemma FourTurnsOf(w: World, s: State, r: nat)
    ensures Run(w, s, FourOf(r)) == Step(w, Step(w, Step(w, Step(w, s, RunReg(r)), RunReg(r)), RunReg(r)), RunReg(r))
  {
    var a := RunReg(r);
    RunCons(w, s, a, [a] + ([a] + [a]));
    RunCons(w, Step(w, s, a), a, [a] + [a]);
    RunCons(w, Step(w, Step(w, s, a), a), a, [a]);
    RunOne(w, Step(w, Step(w, Step(w, s, a), a), a), a);
  }

  /** Where a registration run by itself is after its next statement. */
  lemma NextStatement(w: World, s: State, r: nat)
    requires RegRuns(s, r)
    ensures var t, g, before := Step(w, s, RunReg(r)), s.regs[r], s.db.channels;
      var known, named := exists c <- before :: c.net == g.net && c.name == g.channel && c.hash == g.hash,
                          exists c <- before :: c.net == g.net && c.name == g.channel;
      && (g.pc.GetChannel? ==> t == s.(regs := s.regs[r := g.(pc := if known then Registered else ExistChannel)]))
      && (g.pc.ExistChannel? ==> t == s.(regs := s.regs[r := if named then g.(status := Threw) else g.(pc := CountChannel)]))
      && (g.pc.CountChannel? && !named ==> t == s.(regs := s.regs[r := g.(pc := InsertChannel)]))
      && (g.pc.InsertChannel? ==> t.regs == s.regs[r := g.(pc := Registered)] && t.db.channels == before + [ZeroRow(s, g)]
                                  && t.db.blocks == s.db.blocks && t.db.txs == s.db.txs)
  {
  }

  /** A registration with nothing beside it: a channel with a row of its name and genesis hash is left alone;
      one whose name has a row of another hash makes it throw; any other gets one row, with zero counters. */
  lemma RegistrationAlone(w: World, s: State, r: nat)
    requires RegRuns(s, r) && s.regs[r].pc.GetChannel?
    ensures var t, g, before := Run(w, s, FourOf(r)), s.regs[r], s.db.channels;
      && t.db.blocks == s.db.blocks && t.db.txs == s.db.txs && r < |t.regs|
      && if exists c <- before :: c.net == g.net && c.name == g.channel && c.hash == g.hash
         then t.db.channels == before && t.regs[r] == g.(pc := Registered)
         else if exists c <- before :: c.net == g.net && c.name == g.channel
         then t.db.channels == before && t.regs[r].status == Threw
         else t.regs[r] == g.(pc := Registered) && |t.db.channels| == |before| + 1 && before <= t.db.channels
              && var c := t.db.channels[|before|];
                 c.net == g.net && c.name == g.channel && c.hash == g.hash && c.blocks == 0 && c.trans == 0
  {
    FourTurnsOf(w, s, r);
    NextStatement(w, s, r);
    var s1 := Step(w, s, RunReg(r));
    if RegRuns(s1, r) {
      NextStatement(w, s1, r);
      var s2 := Step(w, s1, RunReg(r));
      if RegRuns(s2, r) {
        NextStatement(w, s2, r);
        NextStatement(w, Step(w, s2, RunReg(r)), r);
      }
    }
  }
}

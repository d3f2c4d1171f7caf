/** Passes run without interruption: what they leave, as functions, what that amounts to, and the machine's
    schedules that leave exactly that. */
module SyncSoloPass {
  import opened Options
  import opened Text
  import opened Ledger
  import opened SyncMachine
  import opened SyncPasses
  import opened SyncSafety
  import opened SyncSolo

  // ------------------------------------------------------ the loops as functions

  function LoadResult(w: World, m: Memory, known: set<Channel>, net: Net, channel: Channel, num: nat, fetched: bool): Memory {
    if fetched && !AvailableInAnyNetwork(m.db, Genesis(w, net, channel), num)
    then EventResult(w, m, known, net, channel, num) else m
  }

  /** The first loop of `syncBlocks`, from h down to the window's start. */
  function LoadsResult(w: World, m: Memory, known: set<Channel>, net: Net, channel: Channel, start: nat, h: int,
                       fetched: nat -> bool): Memory
    decreases h + 1
  {
    if h < start then m
    else LoadsResult(w, LoadResult(w, m, known, net, channel, h, fetched(h)), known, net, channel, start, h - 1, fetched)
  }

  predicate Delivers(w: World, net: Net, channel: Channel, num: nat, refetched: bool) {
    refetched && |w.ledger(net, channel, num).txs| > 0
  }

  function FillResult(w: World, m: Memory, known: set<Channel>, net: Net, channel: Channel, num: nat, refetched: bool): Memory {
    if Delivers(w, net, channel, num, refetched) then EventResult(w, m, known, net, channel, num) else m
  }

  /** The second loop, over the missing numbers. */
  function FillsResult(w: World, m: Memory, known: set<Channel>, net: Net, channel: Channel, todo: seq<nat>,
                       refetched: nat -> bool): Memory
    decreases |todo|
  {
    if todo == [] then m
    else FillsResult(w, FillResult(w, m, known, net, channel, todo[0], refetched(todo[0])), known, net, channel, todo[1..], refetched)
  }

  function Undelivered(w: World, net: Net, channel: Channel, todo: seq<nat>, refetched: nat -> bool): set<nat> {
    if todo == [] then {}
    else (if Delivers(w, net, channel, todo[0], refetched(todo[0])) then {} else {todo[0]})
         + Undelivered(w, net, channel, todo[1..], refetched)
  }

  function Todos(w: World, m: Memory, net: Net, channel: Channel, start: nat, latest: int): seq<nat> {
    FilterFrom(MissingNumbers(m.db, net, Genesis(w, net, channel), latest), start)
  }

  // --------------------------------------------------- the machine's schedules

  /** The state but for its passes and known channels, which stay, agrees with the memory. */
  ghost predicate Leaves(s: State, p: nat, a: Pass, m: Memory, t: State)
    requires p < |s.passes|
  {
    t.passes == s.passes[p := a] && t.known == s.known && MemoryOf(t, a.net) == m
  }

  ghost predicate PassAt(s: State, p: nat, a: Pass) {
    p < |s.passes| && s.passes[p] == a && a.status == Running
  }

  /** The pass waits for a task that has ended. */
  lemma AwaitedGoesOn(w: World, s: State, p: nat, job: nat)
    requires PassRuns(s, p) && JobSettled(s, job)
    requires s.passes[p].pc.Await? || s.passes[p].pc.Reawait?
    requires job == s.passes[p].pc.job
    ensures var a := s.passes[p];
      PassStep(w, s, p, false, 0)
      == SetPass(s, p, a.(pc := if a.pc.Await? then Fetch(a.pc.height - 1) else Refetch(a.pc.todo)))
  {
  }

  /** Entering, running the task, and going on. */
  lemma CallRuns(w: World, s: State, p: nat, a: Pass, num: nat, wait: PassPc, next: PassPc) returns (path: seq<Action>)
    requires PassAt(s, p, a) && GuardPasses(w, s, a.net, a.channel, num) && a.hash == Genesis(w, a.net, a.channel)
    requires (wait == Await(num, |s.jobs|) && next == Fetch(num - 1)) || (wait.Reawait? && wait.job == |s.jobs| && next == Refetch(wait.todo))
    ensures var entered := SetPass(Enter(w, s, a.net, a.channel, num, Some(p)), p, a.(pc := wait));
      Leaves(s, p, a.(pc := next), EventResult(w, MemoryOf(s, a.net), Known(s, a.net), a.net, a.channel, num), Run(w, entered, path))
  {
    var entered := SetPass(Enter(w, s, a.net, a.channel, num, Some(p)), p, a.(pc := wait));
    var run := EnteredRuns(w, entered, MemoryOf(s, a.net), Known(s, a.net), a.net, a.channel, num, Some(p));
    var t := Run(w, entered, run);
    path := run + [RunPass(p, false, 0)];
    RunAppend(w, entered, run, [RunPass(p, false, 0)]);
    RunOne(w, t, RunPass(p, false, 0));
    CallReturns(w, s, p, a, wait, next, |s.jobs|, t);
  }

  lemma CallReturns(w: World, s: State, p: nat, a: Pass, wait: PassPc, next: PassPc, job: nat, t: State)
    requires PassAt(s, p, a) && JobSettled(t, job) && t.passes == s.passes[p := a.(pc := wait)] && t.known == s.known
    requires (wait.Await? && wait.job == job && next == Fetch(wait.height - 1))
          || (wait.Reawait? && wait.job == job && next == Refetch(wait.todo))
    ensures Leaves(s, p, a.(pc := next), MemoryOf(t, a.net), Step(w, t, RunPass(p, false, 0)))
  {
    AwaitedGoesOn(w, t, p, job);
    assert s.passes[p := a.(pc := wait)][p := a.(pc := next)] == s.passes[p := a.(pc := next)];
  }

  /** The query of the first loop: block and database row are asked for together. */
  lemma LoadLooks(w: World, s: State, p: nat, a: Pass, got: bool)
    requires PassAt(s, p, a) && a.pc.Fetch? && a.pc.next >= a.start
    ensures Run(w, s, [RunPass(p, got, 0)])
         == SetPass(s, p, a.(pc := Decide(a.pc.next, got, AvailableInAnyNetwork(s.db, a.hash, a.pc.next))))
  {
    RunOne(w, s, RunPass(p, got, 0));
  }

  lemma LoadSkips(w: World, s: State, p: nat, a: Pass)
    requires PassAt(s, p, a) && a.pc.Decide? && a.pc.height >= 0
    requires !(a.pc.fetched && !a.pc.available && GuardPasses(w, s, a.net, a.channel, a.pc.height))
    ensures Run(w, s, [RunPass(p, false, 0)])
         == SetPass(s, p, Loaded(w, a, a.pc.height, a.pc.fetched).(pc := Fetch(a.pc.height - 1)))
  {
    RunOne(w, s, RunPass(p, false, 0));
  }

  lemma LoadEnters(w: World, s: State, p: nat, a: Pass)
    requires PassAt(s, p, a) && a.pc.Decide? && a.pc.height >= 0
    requires a.pc.fetched && !a.pc.available && GuardPasses(w, s, a.net, a.channel, a.pc.height)
    ensures Run(w, s, [RunPass(p, false, 0)])
         == SetPass(Enter(w, s, a.net, a.channel, a.pc.height, Some(p)), p,
                    Loaded(w, a, a.pc.height, a.pc.fetched).(pc := Await(a.pc.height, |s.jobs|)))
  {
    RunOne(w, s, RunPass(p, false, 0));
  }

  lemma LoadCalls(w: World, s: State, p: nat, a: Pass) returns (path: seq<Action>)
    requires PassAt(s, p, a) && a.pc.Decide? && a.pc.height >= 0 && a.hash == Genesis(w, a.net, a.channel)
    requires a.pc.fetched && !a.pc.available && GuardPasses(w, s, a.net, a.channel, a.pc.height)
    ensures Leaves(s, p, Loaded(w, a, a.pc.height, a.pc.fetched).(pc := Fetch(a.pc.height - 1)),
                   EventResult(w, MemoryOf(s, a.net), Known(s, a.net), a.net, a.channel, a.pc.height), Run(w, s, path))
  {
    var h := a.pc.height;
    LoadEnters(w, s, p, a);
    assert Loaded(w, a, h, a.pc.fetched) == a;
    var rest := CallRuns(w, s, p, a, h, Await(h, |s.jobs|), Fetch(h - 1));
    path := [RunPass(p, false, 0)] + rest;
    RunAppend(w, s, [RunPass(p, false, 0)], rest);
  }

  /** One turn of the first loop. */
  lemma LoadRuns(w: World, s: State, p: nat, a: Pass, got: bool) returns (path: seq<Action>)
    requires PassAt(s, p, a) && a.hash == Genesis(w, a.net, a.channel) && a.pc.Fetch? && a.pc.next >= a.start
    ensures Leaves(s, p, Loaded(w, a, a.pc.next, got).(pc := Fetch(a.pc.next - 1)),
                   LoadResult(w, MemoryOf(s, a.net), Known(s, a.net), a.net, a.channel, a.pc.next, got), Run(w, s, path))
  {
    var h := a.pc.next;
    var b := a.(pc := Decide(h, got, AvailableInAnyNetwork(s.db, a.hash, h)));
    var looked := SetPass(s, p, b);
    LoadLooks(w, s, p, a, got);
    var rest := [RunPass(p, false, 0)];
    if b.pc.fetched && !b.pc.available && GuardPasses(w, looked, a.net, a.channel, h) {
      rest := LoadCalls(w, looked, p, b);
    } else {
      LoadSkips(w, looked, p, b);
    }
    path := [RunPass(p, got, 0)] + rest;
    RunAppend(w, s, [RunPass(p, got, 0)], rest);
    LeavesTwice(s, p, b, MemoryOf(looked, a.net), looked, Loaded(w, a, h, got).(pc := Fetch(h - 1)), MemoryOf(Run(w, looked, rest), a.net), Run(w, looked, rest));
  }

  lemma LeavesTwice(s: State, p: nat, a: Pass, m: Memory, t: State, b: Pass, n: Memory, u: State)
    requires p < |s.passes| && Leaves(s, p, a, m, t) && Leaves(t, p, b, n, u)
    ensures Leaves(s, p, b, n, u)
  {
    assert s.passes[p := a][p := b] == s.passes[p := b];
  }

  /** The numbers from h down to the window's start whose fetch gives no usable block. */
  function Unloaded(w: World, net: Net, channel: Channel, start: nat, h: int, fetched: nat -> bool): set<nat>
    decreases h + 1
  {
    if h < start then {}
    else (if Delivers(w, net, channel, h, fetched(h)) then {} else {h}) + Unloaded(w, net, channel, start, h - 1, fetched)
  }

  lemma {:induction false} UnloadedFacts(w: World, net: Net, channel: Channel, start: nat, h: int, fetched: nat -> bool)
    ensures forall n: nat :: n in Unloaded(w, net, channel, start, h, fetched)
                             <==> start <= n <= h && !Delivers(w, net, channel, n, fetched(n))
    decreases h + 1
  {
    if h >= start {
      UnloadedFacts(w, net, channel, start, h - 1, fetched);
    }
  }

  /** The pass when its first loop has come from h to its end. */
  function LoadedPass(w: World, a: Pass, h: int, fetched: nat -> bool): Pass {
    a.(pc := Fetch(if h < a.start then h else a.start - 1),
       unloaded := a.unloaded + Unloaded(w, a.net, a.channel, a.start, h, fetched))
  }

  /** What the first loop leaves from h on is this state. */
  ghost predicate LeftByLoads(w: World, s: State, p: nat, a: Pass, h: int, fetched: nat -> bool, t: State)
    requires p < |s.passes|
  {
    Leaves(s, p, LoadedPass(w, a, h, fetched),
           LoadsResult(w, MemoryOf(s, a.net), Known(s, a.net), a.net, a.channel, a.start, h, fetched), t)
  }

  lemma LoadsJoin(w: World, s: State, p: nat, a: Pass, h: int, t: State, u: State, fetched: nat -> bool)
    requires p < |s.passes| && h >= a.start
    requires Leaves(s, p, Loaded(w, a, h, fetched(h)).(pc := Fetch(h - 1)),
                    LoadResult(w, MemoryOf(s, a.net), Known(s, a.net), a.net, a.channel, h, fetched(h)), t)
    requires LeftByLoads(w, t, p, Loaded(w, a, h, fetched(h)), h - 1, fetched, u)
    ensures LeftByLoads(w, s, p, a, h, fetched, u)
  {
    var b := Loaded(w, a, h, fetched(h));
    assert b.unloaded + Unloaded(w, a.net, a.channel, a.start, h - 1, fetched)
        == a.unloaded + Unloaded(w, a.net, a.channel, a.start, h, fetched);
    LeavesTwice(s, p, b.(pc := Fetch(h - 1)), MemoryOf(t, a.net), t, LoadedPass(w, a, h, fetched), MemoryOf(u, a.net), u);
  }

  lemma LoadsOver(w: World, s: State, p: nat, a: Pass, h: int, fetched: nat -> bool)
    requires PassAt(s, p, a.(pc := Fetch(h))) && h < a.start
    ensures LeftByLoads(w, s, p, a, h, fetched, s)
  {
    assert s.passes[p := a.(pc := Fetch(h))] == s.passes;
    assert a.unloaded + {} == a.unloaded;
  }

  /** The first loop of the pass, from h to its end. */
  lemma {:induction false} LoadsRun(w: World, s: State, p: nat, a: Pass, h: int, fetched: nat -> bool) returns (path: seq<Action>)
    requires PassAt(s, p, a.(pc := Fetch(h))) && a.hash == Genesis(w, a.net, a.channel)
    ensures LeftByLoads(w, s, p, a, h, fetched, Run(w, s, path))
    decreases h + 1
  {
    if h < a.start {
      path := [];
      LoadsOver(w, s, p, a, h, fetched);
    } else {
      var turn := LoadRuns(w, s, p, a.(pc := Fetch(h)), fetched(h));
      var rest := LoadsRun(w, Run(w, s, turn), p, Loaded(w, a, h, fetched(h)), h - 1, fetched);
      path := turn + rest;
      RunAppend(w, s, turn, rest);
      LoadsJoin(w, s, p, a, h, Run(w, s, turn), Run(w, Run(w, s, turn), rest), fetched);
    }
  }

  /** What one turn of the second loop makes of the pass. */
  function Filled(w: World, a: Pass, got: bool): Pass
    requires a.pc.Refetch? && a.pc.todo != []
  {
    var num := a.pc.todo[0];
    a.(pc := Refetch(a.pc.todo[1..]),
       undelivered := if Delivers(w, a.net, a.channel, num, got) then a.undelivered else a.undelivered + {num})
  }

  lemma FillRuns(w: World, s: State, p: nat, a: Pass, got: bool) returns (path: seq<Action>)
    requires PassAt(s, p, a) && a.hash == Genesis(w, a.net, a.channel) && a.pc.Refetch? && a.pc.todo != []
    ensures Leaves(s, p, Filled(w, a, got),
                   FillResult(w, MemoryOf(s, a.net), Known(s, a.net), a.net, a.channel, a.pc.todo[0], got), Run(w, s, path))
  {
    var num, query := a.pc.todo[0], RunPass(p, got, 0);
    RunOne(w, s, query);
    path := [query];
    if got && GuardPasses(w, s, a.net, a.channel, num) {
      var wait := Reawait(a.pc.todo[1..], |s.jobs|);
      assert Step(w, s, query) == SetPass(Enter(w, s, a.net, a.channel, num, Some(p)), p, a.(pc := wait));
      var rest := CallRuns(w, s, p, a, num, wait, Refetch(a.pc.todo[1..]));
      RunAppend(w, s, path, rest);
      path := path + rest;
    }
  }

  lemma {:induction false} FillsRun(w: World, s: State, p: nat, a: Pass, refetched: nat -> bool) returns (path: seq<Action>)
    requires PassAt(s, p, a) && a.hash == Genesis(w, a.net, a.channel) && a.pc.Refetch?
    ensures Leaves(s, p, a.(pc := Finished, undelivered := a.undelivered + Undelivered(w, a.net, a.channel, a.pc.todo, refetched)),
                   FillsResult(w, MemoryOf(s, a.net), Known(s, a.net), a.net, a.channel, a.pc.todo, refetched), Run(w, s, path))
    decreases |a.pc.todo|
  {
    var todo := a.pc.todo;
    if todo == [] {
      path := [RunPass(p, false, 0)];
      RunOne(w, s, RunPass(p, false, 0));
      assert a.undelivered + Undelivered(w, a.net, a.channel, todo, refetched) == a.undelivered;
    } else {
      var turn := FillRuns(w, s, p, a, refetched(todo[0]));
      var t, b := Run(w, s, turn), Filled(w, a, refetched(todo[0]));
      var rest := FillsRun(w, t, p, b, refetched);
      path := turn + rest;
      RunAppend(w, s, turn, rest);
      assert b.undelivered + Undelivered(w, a.net, a.channel, todo[1..], refetched)
          == a.undelivered + Undelivered(w, a.net, a.channel, todo, refetched);
      LeavesTwice(s, p, b, MemoryOf(t, a.net), t, Run(w, t, rest).passes[p], MemoryOf(Run(w, t, rest), a.net), Run(w, t, rest));
    }
  }

  // ------------------------------------------------------------- whole passes

  /** What an uninterrupted `syncBlocks` leaves. */
  function PassResult(w: World, m: Memory, known: set<Channel>, net: Net, channel: Channel, height: int,
                      fetched: nat -> bool, refetched: nat -> bool): Memory
  {
    match WindowStart(w.boot(net), height - 1)
    case None => m
    case Some(start) =>
      var loaded := LoadsResult(w, m, known, net, channel, start, height - 1, fetched);
      FillsResult(w, loaded, known, net, channel, Todos(w, loaded, net, channel, start, height - 1), refetched)
  }

  /** The missing numbers of the window that its second loop does not get. */
  function PassUndelivered(w: World, m: Memory, known: set<Channel>, net: Net, channel: Channel, height: int,
                           fetched: nat -> bool, refetched: nat -> bool): set<nat>
  {
    match WindowStart(w.boot(net), height - 1)
    case None => {}
    case Some(start) =>
      var loaded := LoadsResult(w, m, known, net, channel, start, height - 1, fetched);
      Undelivered(w, net, channel, Todos(w, loaded, net, channel, start, height - 1), refetched)
  }

  /** The record of the pass when it has come to its end. */
  function EndedPass(w: World, m: Memory, known: set<Channel>, net: Net, channel: Channel, height: int,
                     fetched: nat -> bool, refetched: nat -> bool): Pass
  {
    var begun := Pass(net, channel, Genesis(w, net, channel), 0, -1, {}, {}, ChainInfo, Running);
    match WindowStart(w.boot(net), height - 1)
    case None => begun.(pc := Abandoned)
    case Some(start) =>
      begun.(start := start, latest := height - 1, pc := Finished,
             unloaded := Unloaded(w, net, channel, start, height - 1, fetched),
             undelivered := PassUndelivered(w, m, known, net, channel, height, fetched, refetched))
  }

  /** Between the loops: the first is over, the missing numbers are queried. */
  lemma TurnsToMissing(w: World, s: State, p: nat, a: Pass)
    requires PassAt(s, p, a) && a.pc.Fetch? && a.pc.next < a.start
    ensures Run(w, s, [RunPass(p, false, 0)] + [RunPass(p, false, 0)])
         == SetPass(s, p, a.(pc := Refetch(FilterFrom(MissingNumbers(s.db, a.net, a.hash, a.latest), a.start))))
  {
    var missing := SetPass(s, p, a.(pc := Missing));
    RunCons(w, s, RunPass(p, false, 0), [RunPass(p, false, 0)]);
    RunOne(w, missing, RunPass(p, false, 0));
    assert s.passes[p := a.(pc := Missing)][p := a.(pc := Refetch(FilterFrom(MissingNumbers(s.db, a.net, a.hash, a.latest), a.start)))]
        == s.passes[p := a.(pc := Refetch(FilterFrom(MissingNumbers(s.db, a.net, a.hash, a.latest), a.start)))];
  }

  /** Both loops, once the window is known. */
  lemma LoopsRun(w: World, s: State, p: nat, a: Pass, fetched: nat -> bool, refetched: nat -> bool) returns (path: seq<Action>)
    requires PassAt(s, p, a) && a.hash == Genesis(w, a.net, a.channel) && a.pc == Fetch(a.latest) && a.unloaded == {} && a.undelivered == {}
    ensures var loaded := LoadsResult(w, MemoryOf(s, a.net), Known(s, a.net), a.net, a.channel, a.start, a.latest, fetched);
      var todo := Todos(w, loaded, a.net, a.channel, a.start, a.latest);
      Leaves(s, p, a.(pc := Finished, unloaded := Unloaded(w, a.net, a.channel, a.start, a.latest, fetched),
                      undelivered := Undelivered(w, a.net, a.channel, todo, refetched)),
             FillsResult(w, loaded, Known(s, a.net), a.net, a.channel, todo, refetched), Run(w, s, path))
  {
    var loads := LoadsRun(w, s, p, a, a.latest, fetched);
    var t := Run(w, s, loads);
    var b := t.passes[p];
    var between := [RunPass(p, false, 0)] + [RunPass(p, false, 0)];
    TurnsToMissing(w, t, p, b);
    var u := Run(w, t, between);
    var c := u.passes[p];
    var fills := FillsRun(w, u, p, c, refetched);
    var v := Run(w, u, fills);
    path := loads + (between + fills);
    RunAppend(w, s, loads, between + fills);
    RunAppend(w, t, between, fills);
    assert {} + Undelivered(w, a.net, a.channel, c.pc.todo, refetched) == Undelivered(w, a.net, a.channel, c.pc.todo, refetched);
    assert {} + Unloaded(w, a.net, a.channel, a.start, a.latest, fetched) == Unloaded(w, a.net, a.channel, a.start, a.latest, fetched);
    LeavesTwice(s, p, b, MemoryOf(t, a.net), t, c, MemoryOf(u, a.net), u);
    LeavesTwice(s, p, c, MemoryOf(u, a.net), u, v.passes[p], MemoryOf(v, a.net), v);
  }

  /** An uninterrupted `syncBlocks` is one of the machine's schedules: started, given the reported height and
      the answers of the ledger, it comes to its end with the same tables, notices, keys and undelivered numbers. */
  lemma PassIsASchedule(w: World, s: State, net: Net, channel: Channel, height: int, fetched: nat -> bool, refetched: nat -> bool)
    returns (path: seq<Action>)
    requires channel in Known(s, net)
    ensures var t, m := Run(w, s, path), MemoryOf(s, net);
      && MemoryOf(t, net) == PassResult(w, m, Known(s, net), net, channel, height, fetched, refetched)
      && t.passes == s.passes + [EndedPass(w, m, Known(s, net), net, channel, height, fetched, refetched)]
  {
    var p := |s.passes|;
    var opening := [StartPass(net, channel)] + [RunPass(p, false, height)];
    OpeningRuns(w, s, net, channel, height);
    var t := Run(w, s, opening);
    path := opening;
    if WindowStart(w.boot(net), height - 1).Some? {
      var rest := LoopsRun(w, t, p, t.passes[p], fetched, refetched);
      path := opening + rest;
      RunAppend(w, s, opening, rest);
    }
  }

  /** The pass once it has been told the height. */
  function ToldPass(w: World, net: Net, channel: Channel, height: int): Pass {
    var begun := Pass(net, channel, Genesis(w, net, channel), 0, -1, {}, {}, ChainInfo, Running);
    match WindowStart(w.boot(net), height - 1)
    case None => begun.(pc := Abandoned)
    case Some(start) => begun.(start := start, latest := height - 1, pc := Fetch(height - 1))
  }

  lemma OpeningRuns(w: World, s: State, net: Net, channel: Channel, height: int)
    requires channel in Known(s, net)
    ensures Run(w, s, [StartPass(net, channel)] + [RunPass(|s.passes|, false, height)])
         == s.(passes := s.passes + [ToldPass(w, net, channel, height)])
  {
    var begun := Pass(net, channel, Genesis(w, net, channel), 0, -1, {}, {}, ChainInfo, Running);
    var started := s.(passes := s.passes + [begun]);
    RunCons(w, s, StartPass(net, channel), [RunPass(|s.passes|, false, height)]);
    RunOne(w, started, RunPass(|s.passes|, false, height));
    assert started.passes[|s.passes| := ToldPass(w, net, channel, height)] == s.passes + [ToldPass(w, net, channel, height)];
  }

  // -------------------------------------------------------- what is left, plainly

  /** Keys kept, and only keys of blocks of the window the loop throws on added. */
  ghost predicate KeysLeft(w: World, before: seq<string>, after: seq<string>, net: Net, channel: Channel, start: int, latest: int) {
    before <= after && forall i :: |before| <= i < |after| ==> LeftKey(w, after[i], net, channel, start, latest)
  }

  ghost predicate LeftKey(w: World, key: string, net: Net, channel: Channel, start: int, latest: int) {
    exists n: nat :: start <= n <= latest && key == BlockKey(channel, n) && !Processable(w.ledger(net, channel, n))
  }

  lemma KeysLeftGrow(w: World, before: seq<string>, now: seq<string>, after: seq<string>, net: Net, channel: Channel, start: int, latest: int, n: nat)
    requires KeysLeft(w, before, now, net, channel, start, latest) && start <= n <= latest
    requires after == now || (after == now + [BlockKey(channel, n)] && !Processable(w.ledger(net, channel, n)))
    ensures KeysLeft(w, before, after, net, channel, start, latest)
  {
    if after != now {
      assert LeftKey(w, BlockKey(channel, n), net, channel, start, latest);
    }
  }

  /** Stored for this network, in process, or not delivered. */
  ghost predicate Accounted(w: World, db: Db, locks: seq<string>, net: Net, channel: Channel, undelivered: set<nat>, n: nat) {
    || HasBlock(db, net, Genesis(w, net, channel), n)
    || BlockKey(channel, n) in locks
    || n in undelivered
  }

  /** Every number of the window is settled or still on the list, which stays inside the window. */
  ghost predicate CoverRest(w: World, db: Db, locks: seq<string>, net: Net, channel: Channel, start: int, latest: int,
                            undelivered: set<nat>, todo: seq<nat>) {
    && (forall n: nat | start <= n <= latest :: Accounted(w, db, locks, net, channel, undelivered, n) || n in todo)
    && AllWithin(todo, start, latest)
  }

  lemma CoverStart(w: World, db: Db, locks: seq<string>, net: Net, channel: Channel, start: int, latest: int)
    ensures CoverRest(w, db, locks, net, channel, start, latest, {},
                      FilterFrom(MissingNumbers(db, net, Genesis(w, net, channel), latest), start))
    ensures AllWithin(FilterFrom(MissingNumbers(db, net, Genesis(w, net, channel), latest), start), start, latest)
  {
    var missing := MissingNumbers(db, net, Genesis(w, net, channel), latest);
    var todo := FilterFrom(missing, start);
    MissingNumbersExact(db, net, Genesis(w, net, channel), latest);
    FilterFromExact(missing, start);
    forall i | 0 <= i < |todo|
      ensures start <= todo[i] <= latest
    {
      assert todo[i] in todo;
    }
  }

  lemma CoverStep(w: World, before: Db, after: Db, keys: seq<string>, locks: seq<string>, net: Net, channel: Channel, start: int, latest: int,
                  skipped: set<nat>, undelivered: set<nat>, todo: seq<nat>)
    requires keys <= locks && todo != [] && CoverRest(w, before, keys, net, channel, start, latest, skipped, todo)
    requires forall n: nat :: HasBlock(before, net, Genesis(w, net, channel), n) ==> HasBlock(after, net, Genesis(w, net, channel), n)
    requires skipped <= undelivered && Accounted(w, after, locks, net, channel, undelivered, todo[0])
    ensures CoverRest(w, after, locks, net, channel, start, latest, undelivered, todo[1..])
  {
    assert todo == [todo[0]] + todo[1..];
    assert forall key <- keys :: key in locks;
    forall n: nat | start <= n <= latest
      ensures Accounted(w, after, locks, net, channel, undelivered, n) || n in todo[1..]
    {
      assert Accounted(w, before, keys, net, channel, skipped, n) || n in todo;
    }
  }

  lemma GrownWithinTransitive(w: World, a: seq<BlockRow>, b: seq<BlockRow>, c: seq<BlockRow>, net: Net, channel: Channel, start: int, latest: int)
    requires GrownWithin(w, a, b, net, channel, start, latest) && GrownWithin(w, b, c, net, channel, start, latest)
    ensures GrownWithin(w, a, c, net, channel, start, latest)
  {
  }

  /** Rows kept in order, and only rows of this channel inside the window added after them. */
  ghost predicate GrownWithin(w: World, before: seq<BlockRow>, after: seq<BlockRow>, net: Net, channel: Channel, start: int, latest: int) {
    before <= after && forall i :: |before| <= i < |after| ==>
      start <= after[i].num <= latest && after[i] == RowOf(w, net, channel, after[i].num)
  }

  lemma KeysLeftTwice(w: World, a: seq<string>, b: seq<string>, c: seq<string>, net: Net, channel: Channel, start: int, latest: int)
    requires KeysLeft(w, a, b, net, channel, start, latest) && KeysLeft(w, b, c, net, channel, start, latest)
    ensures KeysLeft(w, a, c, net, channel, start, latest)
  {
  }

  /** One call inside the window. */
  lemma EventWithin(w: World, m: Memory, known: set<Channel>, net: Net, channel: Channel, start: int, latest: int, num: nat)
    requires start <= num <= latest < MAX_INTEGER
    ensures var r := EventResult(w, m, known, net, channel, num);
      && GrownWithin(w, m.db.blocks, r.db.blocks, net, channel, start, latest)
      && KeysLeft(w, m.keys, r.keys, net, channel, start, latest)
  {
    EventFacts(w, m, known, net, channel, num);
    KeysLeftGrow(w, m.keys, m.keys, EventResult(w, m, known, net, channel, num).keys, net, channel, start, latest, num);
  }

  lemma {:induction false} LoadsFacts(w: World, m: Memory, known: set<Channel>, net: Net, channel: Channel, start: nat, latest: int, h: int,
                                      fetched: nat -> bool)
    requires h <= latest < MAX_INTEGER
    ensures var r := LoadsResult(w, m, known, net, channel, start, h, fetched);
      && GrownWithin(w, m.db.blocks, r.db.blocks, net, channel, start, latest)
      && KeysLeft(w, m.keys, r.keys, net, channel, start, latest)
    decreases h + 1
  {
    if h >= start {
      var n := LoadResult(w, m, known, net, channel, h, fetched(h));
      EventWithin(w, m, known, net, channel, start, latest, h);
      LoadsFacts(w, n, known, net, channel, start, latest, h - 1, fetched);
      var r := LoadsResult(w, n, known, net, channel, start, h - 1, fetched);
      GrownWithinTransitive(w, m.db.blocks, n.db.blocks, r.db.blocks, net, channel, start, latest);
      KeysLeftTwice(w, m.keys, n.keys, r.keys, net, channel, start, latest);
    }
  }

  /** Nothing about block n has changed between the two memories: no row for it, in any network, and no key. */
  ghost predicate SameAbout(w: World, m: Memory, r: Memory, net: Net, channel: Channel, n: nat) {
    && (forall other: Net :: HasBlock(r.db, other, Genesis(w, net, channel), n) <==> HasBlock(m.db, other, Genesis(w, net, channel), n))
    && (BlockKey(channel, n) in r.keys <==> BlockKey(channel, n) in m.keys)
  }

  lemma EventElsewhere(w: World, m: Memory, known: set<Channel>, net: Net, channel: Channel, num: nat, n: nat)
    requires num != n
    ensures SameAbout(w, m, EventResult(w, m, known, net, channel, num), net, channel, n)
  {
    var r := EventResult(w, m, known, net, channel, num);
    EventFacts(w, m, known, net, channel, num);
    BlockKeyInjective(channel, num, channel, n);
    forall other: Net
      ensures HasBlock(r.db, other, Genesis(w, net, channel), n) <==> HasBlock(m.db, other, Genesis(w, net, channel), n)
    {
      RowsElsewhere(w, m.db, r.db, net, channel, num, other, n);
    }
  }

  lemma RowsElsewhere(w: World, before: Db, after: Db, net: Net, channel: Channel, num: nat, other: Net, n: nat)
    requires num != n && Grown(w, before.blocks, after.blocks, net, channel, num)
    ensures HasBlock(after, other, Genesis(w, net, channel), n) <==> HasBlock(before, other, Genesis(w, net, channel), n)
  {
    if r :| r in before.blocks && r.net == other && r.hash == Genesis(w, net, channel) && r.num == n {
      assert r in after.blocks;
    }
  }

  /** The turn of the first loop for block n itself. */
  lemma LoadTurn(w: World, m: Memory, known: set<Channel>, net: Net, channel: Channel, n: nat, got: bool)
    requires channel in known && BlockKey(channel, n) !in m.keys && |w.ledger(net, channel, n).txs| > 0
    requires n <= MAX_INTEGER && Processable(w.ledger(net, channel, n))
    ensures var r := LoadResult(w, m, known, net, channel, n, got);
      if got && !(exists other: Net :: HasBlock(m.db, other, Genesis(w, net, channel), n))
      then HasBlock(r.db, net, Genesis(w, net, channel), n) && BlockKey(channel, n) !in r.keys
      else r == m
  {
    EventFacts(w, m, known, net, channel, n);
    if r :| r in m.db.blocks && r.hash == Genesis(w, net, channel) && r.num == n {
      assert HasBlock(m.db, r.net, Genesis(w, net, channel), n);
    }
  }

  /** What the first loop does about a block of its window that can be processed and is not in process: when it
      is fetched and no network has a row of that genesis hash and number, the block ends stored for this
      network; otherwise the loop adds neither row nor key for it. */
  lemma {:induction false} LoadsStore(w: World, m: Memory, known: set<Channel>, net: Net, channel: Channel, start: nat, h: int,
                                      fetched: nat -> bool, n: nat)
    requires channel in known && BlockKey(channel, n) !in m.keys && |w.ledger(net, channel, n).txs| > 0
    requires start <= n <= MAX_INTEGER && Processable(w.ledger(net, channel, n))
    ensures var r := LoadsResult(w, m, known, net, channel, start, h, fetched);
      if n <= h && fetched(n) && !(exists other: Net :: HasBlock(m.db, other, Genesis(w, net, channel), n))
      then HasBlock(r.db, net, Genesis(w, net, channel), n) && BlockKey(channel, n) !in r.keys
      else SameAbout(w, m, r, net, channel, n)
    decreases h + 1
  {
    if h >= start {
      var next := LoadResult(w, m, known, net, channel, h, fetched(h));
      if h == n {
        LoadTurn(w, m, known, net, channel, n, fetched(n));
        LoadsBelow(w, next, known, net, channel, start, h - 1, fetched, n);
      } else {
        EventElsewhere(w, m, known, net, channel, h, n);
        LoadsStore(w, next, known, net, channel, start, h - 1, fetched, n);
      }
    }
  }

  /** The turns below n leave n alone. */
  lemma {:induction false} LoadsBelow(w: World, m: Memory, known: set<Channel>, net: Net, channel: Channel, start: nat, h: int,
                                      fetched: nat -> bool, n: nat)
    requires h < n
    ensures SameAbout(w, m, LoadsResult(w, m, known, net, channel, start, h, fetched), net, channel, n)
    decreases h + 1
  {
    if h >= start {
      EventElsewhere(w, m, known, net, channel, h, n);
      LoadsBelow(w, LoadResult(w, m, known, net, channel, h, fetched(h)), known, net, channel, start, h - 1, fetched, n);
    }
  }

  lemma GrownKeepsStored(w: World, before: Db, after: Db, net: Net, channel: Channel, num: nat)
    requires Grown(w, before.blocks, after.blocks, net, channel, num)
    ensures forall n: nat :: HasBlock(before, net, Genesis(w, net, channel), n) ==> HasBlock(after, net, Genesis(w, net, channel), n)
  {
    forall n: nat | HasBlock(before, net, Genesis(w, net, channel), n)
      ensures HasBlock(after, net, Genesis(w, net, channel), n)
    {
      var r :| r in before.blocks && r.net == net && r.hash == Genesis(w, net, channel) && r.num == n;
      assert r in after.blocks;
    }
  }

  /** One missing number: after it, what was stored still is, and this block is stored, in process, or was
      not delivered. */
  lemma FillCovers(w: World, m: Memory, known: set<Channel>, net: Net, channel: Channel, start: int, latest: int,
                   todo: seq<nat>, skipped: set<nat>, got: bool)
    requires todo != [] && channel in known && latest < MAX_INTEGER
    requires CoverRest(w, m.db, m.keys, net, channel, start, latest, skipped, todo)
    ensures var n := FillResult(w, m, known, net, channel, todo[0], got);
      && GrownWithin(w, m.db.blocks, n.db.blocks, net, channel, start, latest)
      && KeysLeft(w, m.keys, n.keys, net, channel, start, latest)
      && CoverRest(w, n.db, n.keys, net, channel, start, latest,
                   skipped + (if Delivers(w, net, channel, todo[0], got) then {} else {todo[0]}), todo[1..])
  {
    var num, n := todo[0], FillResult(w, m, known, net, channel, todo[0], got);
    EventWithin(w, m, known, net, channel, start, latest, num);
    EventFacts(w, m, known, net, channel, num);
    GrownKeepsStored(w, m.db, n.db, net, channel, num);
    CoverStep(w, m.db, n.db, m.keys, n.keys, net, channel, start, latest, skipped,
              skipped + (if Delivers(w, net, channel, num, got) then {} else {num}), todo);
  }

  lemma {:induction false} FillsFacts(w: World, m: Memory, known: set<Channel>, net: Net, channel: Channel, start: int, latest: int,
                                      todo: seq<nat>, skipped: set<nat>, refetched: nat -> bool)
    requires channel in known && latest < MAX_INTEGER
    requires CoverRest(w, m.db, m.keys, net, channel, start, latest, skipped, todo)
    ensures var r := FillsResult(w, m, known, net, channel, todo, refetched);
      && GrownWithin(w, m.db.blocks, r.db.blocks, net, channel, start, latest)
      && KeysLeft(w, m.keys, r.keys, net, channel, start, latest)
      && CoverRest(w, r.db, r.keys, net, channel, start, latest, skipped + Undelivered(w, net, channel, todo, refetched), [])
    decreases |todo|
  {
    if todo == [] {
      assert skipped + Undelivered(w, net, channel, todo, refetched) == skipped;
    } else {
      var n := FillResult(w, m, known, net, channel, todo[0], refetched(todo[0]));
      var now := skipped + (if Delivers(w, net, channel, todo[0], refetched(todo[0])) then {} else {todo[0]});
      FillCovers(w, m, known, net, channel, start, latest, todo, skipped, refetched(todo[0]));
      FillsFacts(w, n, known, net, channel, start, latest, todo[1..], now, refetched);
      var r := FillsResult(w, n, known, net, channel, todo[1..], refetched);
      GrownWithinTransitive(w, m.db.blocks, n.db.blocks, r.db.blocks, net, channel, start, latest);
      KeysLeftTwice(w, m.keys, n.keys, r.keys, net, channel, start, latest);
      assert now + Undelivered(w, net, channel, todo[1..], refetched) == skipped + Undelivered(w, net, channel, todo, refetched);
    }
  }

  lemma {:induction false} UndeliveredFacts(w: World, net: Net, channel: Channel, todo: seq<nat>, refetched: nat -> bool)
    ensures forall n :: n in Undelivered(w, net, channel, todo, refetched) <==> n in todo && !Delivers(w, net, channel, n, refetched(n))
  {
    if todo != [] {
      UndeliveredFacts(w, net, channel, todo[1..], refetched);
      assert todo == [todo[0]] + todo[1..];
    }
  }

  /** What the pass leaves: every number of the window is stored for this network, in process, or was not
      delivered; rows were added only of the window and channel; keys are left only of blocks of the window
      that the loop throws on; and undelivered are only numbers the second loop got no usable block for. */
  lemma PassFacts(w: World, m: Memory, known: set<Channel>, net: Net, channel: Channel, height: int,
                  fetched: nat -> bool, refetched: nat -> bool)
    requires channel in known && height <= MAX_INTEGER && WindowStart(w.boot(net), height - 1).Some?
    ensures var r := PassResult(w, m, known, net, channel, height, fetched, refetched);
      var undelivered := PassUndelivered(w, m, known, net, channel, height, fetched, refetched);
      var start, latest := WindowStart(w.boot(net), height - 1).value, height - 1;
      && (forall n: nat | start <= n <= latest :: Accounted(w, r.db, r.keys, net, channel, undelivered, n))
      && GrownWithin(w, m.db.blocks, r.db.blocks, net, channel, start, latest)
      && KeysLeft(w, m.keys, r.keys, net, channel, start, latest)
      && (forall n <- undelivered :: !Delivers(w, net, channel, n, refetched(n)))
  {
    var start, latest := WindowStart(w.boot(net), height - 1).value, height - 1;
    var loaded := LoadsResult(w, m, known, net, channel, start, latest, fetched);
    var todo := Todos(w, loaded, net, channel, start, latest);
    LoadsFacts(w, m, known, net, channel, start, latest, latest, fetched);
    CoverStart(w, loaded.db, loaded.keys, net, channel, start, latest);
    FillsFacts(w, loaded, known, net, channel, start, latest, todo, {}, refetched);
    UndeliveredFacts(w, net, channel, todo, refetched);
    var r := FillsResult(w, loaded, known, net, channel, todo, refetched);
    assert {} + Undelivered(w, net, channel, todo, refetched) == Undelivered(w, net, channel, todo, refetched);
    GrownWithinTransitive(w, m.db.blocks, loaded.db.blocks, r.db.blocks, net, channel, start, latest);
    KeysLeftTwice(w, m.keys, loaded.keys, r.keys, net, channel, start, latest);
  }
}

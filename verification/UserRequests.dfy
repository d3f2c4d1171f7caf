/** Overlapping requests on the user table: role check, lookup and write of a request are separate awaits. */
module UserRequests {
  import opened Options
  import opened UserAccounts

  // ------------------------------------------------------------------ machine

  /** The await a request is at, or the status it was answered with. */
  datatype Pc = RoleCheck | Lookup | Write | Answered(status: int)

  datatype Task = Task(op: Op, pc: Pc)

  datatype System = System(table: Table, tasks: seq<Task>)

  /** A request comes in, moves on by one statement, or has a statement fail. */
  datatype Action = Receive(op: Op) | Proceed(task: nat) | Fail(task: nat)

  predicate HasParameters(op: Op) {
    op.req.user != "" && op.req.network != "" && (op.Register? ==> op.req.password != "")
  }

  /** The checks between the role query and the lookup. */
  function AfterRole(setup: Setup, table: Table, op: Op): Pc {
    if AdminRole(table, op.req) != Some(true) then Answered(400)
    else if op.Unregister? && (op.req.user == op.req.requestUserId || op.req.network !in setup.networks
                               || IsRoot(setup, op.req.user, op.req.network)) then Answered(400)
    else Lookup
  }

  function AfterLookup(table: Table, op: Op): Pc {
    if Find(table, op.req.user, op.req.network).Some? == op.Unregister? then Write else Answered(400)
  }

  predicate Accepted(setup: Setup, op: Op) {
    op.Register? ==> setup.accepts(NewRow(setup, op.req, op.salt))
  }

  function Written(setup: Setup, table: Table, op: Op): Table {
    match op
    case Register(req, salt) => if Accepted(setup, op) then table + [NewRow(setup, req, salt)] else table
    case Unregister(req) => Without(table, req.user, req.network)
  }

  function Move(s: System, i: nat, pc: Pc): System
    requires i < |s.tasks|
  {
    s.(tasks := s.tasks[i := s.tasks[i].(pc := pc)])
  }

  function Advance(setup: Setup, s: System, i: nat): System
    requires i < |s.tasks|
  {
    var op := s.tasks[i].op;
    match s.tasks[i].pc
    case RoleCheck => Move(s, i, AfterRole(setup, s.table, op))
    case Lookup => Move(s, i, AfterLookup(s.table, op))
    case Write => Move(s, i, Answered(if Accepted(setup, op) then 200 else 400)).(table := Written(setup, s.table, op))
    case Answered(_) => s
  }

  function Step(setup: Setup, s: System, a: Action): System {
    match a
    case Receive(op) => s.(tasks := s.tasks + [Task(op, if HasParameters(op) then RoleCheck else Answered(400))])
    case Proceed(i) => if i < |s.tasks| then Advance(setup, s, i) else s
    case Fail(i) => if i < |s.tasks| && !s.tasks[i].pc.Answered? then Move(s, i, Answered(400)) else s
  }

  function Run(setup: Setup, s: System, schedule: seq<Action>): System {
    if schedule == [] then s else Step(setup, Run(setup, s, schedule[..|schedule| - 1]), schedule[|schedule| - 1])
  }

  /** The state a schedule leads to from a table and no requests. */
  function After(setup: Setup, table: Table, schedule: seq<Action>): System {
    Run(setup, System(table, []), schedule)
  }

  lemma {:induction false} RunAppend(setup: Setup, s: System, first: seq<Action>, second: seq<Action>)
    ensures Run(setup, s, first + second) == Run(setup, Run(setup, s, first), second)
  {
    var all := first + second;
    if second == [] {
      assert all == first;
    } else {
      RunAppend(setup, s, first, second[..|second| - 1]);
      assert all[..|all| - 1] == first + second[..|second| - 1];
      assert all[|all| - 1] == second[|second| - 1];
    }
  }

  lemma RunOne(setup: Setup, s: System, a: Action)
    ensures Run(setup, s, [a]) == Step(setup, s, a)
  {
    assert [a][..0] == [];
    assert Run(setup, s, []) == s;
  }

  lemma RunCons(setup: Setup, s: System, a: Action, rest: seq<Action>)
    ensures Run(setup, s, [a] + rest) == Run(setup, Step(setup, s, a), rest)
  {
    RunOne(setup, s, a);
    RunAppend(setup, s, [a], rest);
  }

  // ------------------------------------------------- one request without overlap

  /** The state with one more request, at the given place. */
  function With(s: System, op: Op, pc: Pc): System {
    s.(tasks := s.tasks + [Task(op, pc)])
  }

  lemma LastAdvances(setup: Setup, s: System, op: Op, pc: Pc)
    ensures Step(setup, With(s, op, pc), Proceed(|s.tasks|)) ==
            match pc
            case RoleCheck => With(s, op, AfterRole(setup, s.table, op))
            case Lookup => With(s, op, AfterLookup(s.table, op))
            case Write => With(s, op, Answered(if Accepted(setup, op) then 200 else 400)).(table := Written(setup, s.table, op))
            case Answered(_) => With(s, op, pc)
  {
    forall next: Pc
      ensures With(s, op, pc).tasks[|s.tasks| := Task(op, next)] == With(s, op, next).tasks
    {
    }
  }

  /** A request received and then moved on with nothing in between does what its checks, taken together, say. */
  lemma UninterruptedIsApply(setup: Setup, s: System, op: Op)
    ensures var turn := [Proceed(|s.tasks|)];
      Run(setup, s, [Receive(op)] + (turn + (turn + turn)))
      == With(s, op, Answered(if Succeeds(setup, s.table, op) then 200 else 400)).(table := Apply(setup, s.table, op))
  {
    var a := Proceed(|s.tasks|);
    RunCons(setup, s, Receive(op), [a] + ([a] + [a]));
    var one := if HasParameters(op) then RoleCheck else Answered(400);
    var two := if one == RoleCheck then AfterRole(setup, s.table, op) else one;
    var three := if two == Lookup then AfterLookup(s.table, op) else two;
    LastAdvances(setup, s, op, one);
    LastAdvances(setup, s, op, two);
    LastAdvances(setup, s, op, three);
    RunCons(setup, With(s, op, one), a, [a] + [a]);
    RunCons(setup, With(s, op, two), a, [a]);
    RunOne(setup, With(s, op, three), a);
  }

  // --------------------------------------------------------------- root admin

  predicate PastRole(pc: Pc) {
    pc.Lookup? || pc.Write?
  }

  /** No request past the checks is about to remove a root admin. */
  ghost predicate RootSpared(setup: Setup, s: System) {
    forall t <- s.tasks | t.op.Unregister? && PastRole(t.pc) :: !IsRoot(setup, t.op.req.user, t.op.req.network)
  }

  lemma StepKeepsRoot(setup: Setup, s: System, a: Action, admin: string, network: string)
    requires RootSpared(setup, s) && IsRoot(setup, admin, network) && Find(s.table, admin, network).Some?
    ensures var t := Step(setup, s, a);
      RootSpared(setup, t) && Find(t.table, admin, network) == Find(s.table, admin, network)
  {
    var t := Step(setup, s, a);
    forall h | h in t.tasks && h.op.Unregister? && PastRole(h.pc)
      ensures !IsRoot(setup, h.op.req.user, h.op.req.network)
    {
      var q :| 0 <= q < |t.tasks| && t.tasks[q] == h;
      if q < |s.tasks| {
        assert s.tasks[q] in s.tasks;
      }
    }
    if a.Proceed? && a.task < |s.tasks| && s.tasks[a.task].pc.Write? {
      assert s.tasks[a.task] in s.tasks;
      match s.tasks[a.task].op
      case Register(req, salt) => FindAfterAppend(s.table, NewRow(setup, req, salt), admin, network);
      case Unregister(req) => FindAfterWithout(s.table, req.user, req.network, admin, network);
    }
  }

  lemma {:induction false} RootStays(setup: Setup, table: Table, schedule: seq<Action>, admin: string, network: string)
    requires IsRoot(setup, admin, network) && Find(table, admin, network).Some?
    ensures RootSpared(setup, After(setup, table, schedule))
    ensures Find(After(setup, table, schedule).table, admin, network) == Find(table, admin, network)
  {
    if schedule != [] {
      var front := schedule[..|schedule| - 1];
      RootStays(setup, table, front, admin, network);
      StepKeepsRoot(setup, After(setup, table, front), schedule[|schedule| - 1], admin, network);
    }
  }

  /** The root admin of a network, once registered, is found unchanged however requests overlap. */
  lemma RootAdminPersists(setup: Setup, table: Table, schedule: seq<Action>, admin: string, network: string)
    requires IsRoot(setup, admin, network) && Find(table, admin, network).Some?
    ensures Find(After(setup, table, schedule).table, admin, network) == Find(table, admin, network)
  {
    RootStays(setup, table, schedule, admin, network);
  }

  // ----------------------------------------------------------------- networks

  lemma StepOnOtherNetwork(setup: Setup, s: System, a: Action, network: string)
    requires forall t <- s.tasks :: t.op.req.network != network
    requires a.Receive? ==> a.op.req.network != network
    ensures forall t <- Step(setup, s, a).tasks :: t.op.req.network != network
    ensures OfNetwork(Step(setup, s, a).table, network) == OfNetwork(s.table, network)
  {
    var t := Step(setup, s, a);
    forall h | h in t.tasks
      ensures h.op.req.network != network
    {
      var q :| 0 <= q < |t.tasks| && t.tasks[q] == h;
      if q < |s.tasks| {
        assert s.tasks[q] in s.tasks;
      }
    }
    if a.Proceed? && a.task < |s.tasks| && s.tasks[a.task].pc.Write? {
      assert s.tasks[a.task] in s.tasks;
      match s.tasks[a.task].op
      case Register(req, salt) => OfNetworkAppend(s.table, NewRow(setup, req, salt), network);
      case Unregister(req) => OfNetworkWithout(s.table, req.user, req.network, network);
    }
  }

  lemma {:induction false} OtherNetworkStays(setup: Setup, table: Table, schedule: seq<Action>, network: string)
    requires forall a <- schedule :: a.Receive? ==> a.op.req.network != network
    ensures forall t <- After(setup, table, schedule).tasks :: t.op.req.network != network
    ensures OfNetwork(After(setup, table, schedule).table, network) == OfNetwork(table, network)
  {
    if schedule != [] {
      var front, last := schedule[..|schedule| - 1], schedule[|schedule| - 1];
      assert last in schedule;
      OtherNetworkStays(setup, table, front, network);
      StepOnOtherNetwork(setup, After(setup, table, front), last, network);
    }
  }

  /** Requests on other networks, however they overlap, leave a network's rows exactly as they were. */
  lemma NetworksAreSeparate(setup: Setup, table: Table, schedule: seq<Action>, network: string)
    requires forall a <- schedule :: a.Receive? ==> a.op.req.network != network
    ensures OfNetwork(After(setup, table, schedule).table, network) == OfNetwork(table, network)
  {
    OtherNetworkStays(setup, table, schedule, network);
  }

  // -------------------------------------------------------- the rows of a key

  /** The step is the successful write of a request on the key. */
  predicate WritesKey(setup: Setup, s: System, a: Action, user: string, network: string) {
    a.Proceed? && a.task < |s.tasks| && s.tasks[a.task].pc.Write? && Accepted(setup, s.tasks[a.task].op)
    && s.tasks[a.task].op.req.user == user && s.tasks[a.task].op.req.network == network
  }

  lemma StepLeavesKey(setup: Setup, s: System, a: Action, user: string, network: string)
    requires !WritesKey(setup, s, a, user, network)
    ensures Find(Step(setup, s, a).table, user, network) == Find(s.table, user, network)
  {
    if a.Proceed? && a.task < |s.tasks| && s.tasks[a.task].pc.Write? {
      match s.tasks[a.task].op
      case Register(req, salt) => FindAfterAppend(s.table, NewRow(setup, req, salt), user, network);
      case Unregister(req) => FindAfterWithout(s.table, req.user, req.network, user, network);
    }
  }

  predicate Registers(setup: Setup, s: System, a: Action, user: string, network: string) {
    WritesKey(setup, s, a, user, network) && s.tasks[a.task].op.Register?
  }

  predicate Removes(setup: Setup, s: System, a: Action, user: string, network: string) {
    WritesKey(setup, s, a, user, network) && s.tasks[a.task].op.Unregister?
  }

  /** Some step of the run from s registers the key. */
  ghost predicate RegisteredIn(setup: Setup, s: System, steps: seq<Action>, user: string, network: string) {
    exists n :: 0 <= n < |steps| && Registers(setup, Run(setup, s, steps[..n]), steps[n], user, network)
  }

  /** Some step of the run from s removes the key. */
  ghost predicate RemovedIn(setup: Setup, s: System, steps: seq<Action>, user: string, network: string) {
    exists n :: 0 <= n < |steps| && Removes(setup, Run(setup, s, steps[..n]), steps[n], user, network)
  }

  lemma InUnfolds(setup: Setup, s: System, front: seq<Action>, last: Action, user: string, network: string)
    ensures RegisteredIn(setup, s, front + [last], user, network)
       <==> RegisteredIn(setup, s, front, user, network) || Registers(setup, Run(setup, s, front), last, user, network)
    ensures RemovedIn(setup, s, front + [last], user, network)
       <==> RemovedIn(setup, s, front, user, network) || Removes(setup, Run(setup, s, front), last, user, network)
  {
    var steps := front + [last];
    assert steps[..|front|] == front && steps[|front|] == last;
    assert forall n :: 0 <= n < |front| ==> steps[..n] == front[..n] && steps[n] == front[n];
  }

  lemma StepOnKey(setup: Setup, s: System, a: Action, user: string, network: string)
    ensures var found, after := Find(s.table, user, network), Find(Step(setup, s, a).table, user, network);
      && (Removes(setup, s, a, user, network) ==> after == None)
      && (Registers(setup, s, a, user, network) ==>
            after == if found.Some? then found else Some(NewRow(setup, s.tasks[a.task].op.req, s.tasks[a.task].op.salt)))
      && (!WritesKey(setup, s, a, user, network) ==> after == found)
  {
    if WritesKey(setup, s, a, user, network) {
      match s.tasks[a.task].op
      case Register(req, salt) => FindAfterAppend(s.table, NewRow(setup, req, salt), user, network);
      case Unregister(req) => FindAfterWithout(s.table, req.user, req.network, user, network);
    } else {
      StepLeavesKey(setup, s, a, user, network);
    }
  }

  /** A row that is there stays the one found until its key is removed, and without registrations the key is
      then gone. */
  lemma {:induction false} FoundUntilRemoved(setup: Setup, s: System, steps: seq<Action>, user: string, network: string)
    requires Find(s.table, user, network).Some?
    ensures !RemovedIn(setup, s, steps, user, network) ==>
              Find(Run(setup, s, steps).table, user, network) == Find(s.table, user, network)
    ensures RemovedIn(setup, s, steps, user, network) && !RegisteredIn(setup, s, steps, user, network) ==>
              Find(Run(setup, s, steps).table, user, network) == None
  {
    if steps != [] {
      var front, last := steps[..|steps| - 1], steps[|steps| - 1];
      assert steps == front + [last];
      InUnfolds(setup, s, front, last, user, network);
      FoundUntilRemoved(setup, s, front, user, network);
      StepOnKey(setup, Run(setup, s, front), last, user, network);
    }
  }

  /** The first row registered since the key was last absent; before any, what the table held. */
  function Oldest(setup: Setup, s: System, steps: seq<Action>, user: string, network: string): Option<UserRow> {
    if steps == [] then Find(s.table, user, network)
    else
      var front, last := steps[..|steps| - 1], steps[|steps| - 1];
      var before, now := Oldest(setup, s, front, user, network), Run(setup, s, front);
      if Removes(setup, now, last, user, network) then None
      else if before.None? && Registers(setup, now, last, user, network)
      then Some(NewRow(setup, now.tasks[last.task].op.req, now.tasks[last.task].op.salt))
      else before
  }

  lemma {:induction false} FoundIsOldest(setup: Setup, s: System, steps: seq<Action>, user: string, network: string)
    ensures Find(Run(setup, s, steps).table, user, network) == Oldest(setup, s, steps, user, network)
  {
    if steps != [] {
      var front, last := steps[..|steps| - 1], steps[|steps| - 1];
      FoundIsOldest(setup, s, front, user, network);
      StepOnKey(setup, Run(setup, s, front), last, user, network);
    }
  }

  // ---------------------------------------------------------------- outsiders

  /** An account of the request's network with the role admin is its requester. */
  ghost predicate ByAdmin(table: Table, req: Request) {
    AdminRole(table, req) == Some(true)
  }

  /** The requester of a request from outside, an admin at s, still is one after the steps if its account was
      not removed meanwhile; if the account was not registered again either, only then. */
  lemma AdminStaysIff(setup: Setup, s: System, steps: seq<Action>, req: Request)
    requires req.requestUserId != "" && ByAdmin(s.table, req)
    ensures !RemovedIn(setup, s, steps, req.requestUserId, req.network) ==> ByAdmin(Run(setup, s, steps).table, req)
    ensures !RegisteredIn(setup, s, steps, req.requestUserId, req.network) ==>
              (ByAdmin(Run(setup, s, steps).table, req) <==> !RemovedIn(setup, s, steps, req.requestUserId, req.network))
  {
    FoundUntilRemoved(setup, s, steps, req.requestUserId, req.network);
  }

  /** Step m of the run is the role check of request i; it finds an admin, and the request goes on. */
  ghost predicate CheckedAt(setup: Setup, table: Table, schedule: seq<Action>, m: nat, i: nat, op: Op) {
    && m < |schedule| && schedule[m] == Proceed(i)
    && var s := After(setup, table, schedule[..m]);
       i < |s.tasks| && s.tasks[i] == Task(op, RoleCheck) && ByAdmin(s.table, op.req) && AfterRole(setup, s.table, op) == Lookup
  }

  /** A request past its role check was checked at one step of the run, and its requester was an admin then. */
  lemma {:induction false} PastRoleWasChecked(setup: Setup, table: Table, schedule: seq<Action>, i: nat) returns (m: nat)
    requires i < |After(setup, table, schedule).tasks| && PastRole(After(setup, table, schedule).tasks[i].pc)
    ensures CheckedAt(setup, table, schedule, m, i, After(setup, table, schedule).tasks[i].op)
  {
    var front, last := schedule[..|schedule| - 1], schedule[|schedule| - 1];
    var s := After(setup, table, front);
    assert schedule == front + [last];
    if s.tasks[i].pc.RoleCheck? {
      m := |front|;
      assert schedule[..m] == front;
    } else {
      m := PastRoleWasChecked(setup, table, front, i);
      assert schedule[..m] == front[..m];
    }
  }

  /** In any run, no step of a request from outside changes the table unless the request's own role check, at
      one earlier step, found its requester an admin of the network. */
  lemma OutsidersChangeNothing(setup: Setup, table: Table, schedule: seq<Action>, i: nat)
    requires i < |After(setup, table, schedule).tasks|
    requires forall m :: !CheckedAt(setup, table, schedule, m, i, After(setup, table, schedule).tasks[i].op)
    ensures After(setup, table, schedule + [Proceed(i)]).table == After(setup, table, schedule).table
  {
    RunAppend(setup, System(table, []), schedule, [Proceed(i)]);
    RunOne(setup, After(setup, table, schedule), Proceed(i));
    if After(setup, table, schedule).tasks[i].pc.Write? {
      var m := PastRoleWasChecked(setup, table, schedule, i);
    }
  }

  /** Who writes: a request from outside about to write had an admin as requester at its role check, step m.
      The requester still is one if its account was not removed since; without a new registration of that
      account, exactly then. */
  lemma WriterIsAdminIff(setup: Setup, table: Table, schedule: seq<Action>, i: nat) returns (m: nat)
    requires i < |After(setup, table, schedule).tasks| && After(setup, table, schedule).tasks[i].pc.Write?
    requires After(setup, table, schedule).tasks[i].op.req.requestUserId != ""
    ensures CheckedAt(setup, table, schedule, m, i, After(setup, table, schedule).tasks[i].op)
    ensures var req, s := After(setup, table, schedule).tasks[i].op.req, After(setup, table, schedule[..m]);
      var removed := RemovedIn(setup, s, schedule[m..], req.requestUserId, req.network);
      && (!removed ==> ByAdmin(After(setup, table, schedule).table, req))
      && (!RegisteredIn(setup, s, schedule[m..], req.requestUserId, req.network) ==>
            (ByAdmin(After(setup, table, schedule).table, req) <==> !removed))
  {
    m := PastRoleWasChecked(setup, table, schedule, i);
    assert schedule == schedule[..m] + schedule[m..];
    RunAppend(setup, System(table, []), schedule[..m], schedule[m..]);
    AdminStaysIff(setup, After(setup, table, schedule[..m]), schedule[m..], After(setup, table, schedule).tasks[i].op.req);
  }

  // ------------------------------------------------------------- unique keys

  predicate Inserting(t: Task, user: string, network: string) {
    t.op.Register? && t.pc.Write? && t.op.req.user == user && t.op.req.network == network
  }

  /** No two registrations of the key are between their lookup and their insert. */
  ghost predicate NoRace(s: System, user: string, network: string) {
    forall i, j | 0 <= i < j < |s.tasks| :: !(Inserting(s.tasks[i], user, network) && Inserting(s.tasks[j], user, network))
  }

  /** A registration about to insert is right that its key is absent. */
  ghost predicate StillAbsent(s: System, user: string, network: string) {
    forall t <- s.tasks | Inserting(t, user, network) :: Find(s.table, user, network).None?
  }

  lemma WriteKeepsAbsent(setup: Setup, s: System, i: nat, user: string, network: string)
    requires i < |s.tasks| && s.tasks[i].pc.Write? && StillAbsent(s, user, network) && NoRace(s, user, network)
    ensures StillAbsent(Advance(setup, s, i), user, network)
  {
    var t, op := Advance(setup, s, i), s.tasks[i].op;
    forall h | h in t.tasks && Inserting(h, user, network)
      ensures Find(t.table, user, network).None?
    {
      var q :| 0 <= q < |t.tasks| && t.tasks[q] == h;
      assert s.tasks[q] in s.tasks && q != i;
      assert !Inserting(s.tasks[i], user, network);
      match op
      case Register(req, salt) => FindAfterAppend(s.table, NewRow(setup, req, salt), user, network);
      case Unregister(req) => FindAfterWithout(s.table, req.user, req.network, user, network);
    }
  }

  lemma StepKeepsAbsent(setup: Setup, s: System, a: Action, user: string, network: string)
    requires StillAbsent(s, user, network) && NoRace(s, user, network)
    ensures StillAbsent(Step(setup, s, a), user, network)
  {
    if a.Proceed? && a.task < |s.tasks| && s.tasks[a.task].pc.Write? {
      WriteKeepsAbsent(setup, s, a.task, user, network);
    } else {
      var t := Step(setup, s, a);
      forall h | h in t.tasks && Inserting(h, user, network)
        ensures Find(t.table, user, network).None?
      {
        var q :| 0 <= q < |t.tasks| && t.tasks[q] == h;
        if q < |s.tasks| {
          assert s.tasks[q] in s.tasks;
        }
      }
    }
  }

  lemma StepKeepsOnce(setup: Setup, s: System, a: Action, user: string, network: string)
    requires StillAbsent(s, user, network) && StoredOnce(s.table, user, network)
    ensures StoredOnce(Step(setup, s, a).table, user, network)
  {
    if a.Proceed? && a.task < |s.tasks| && s.tasks[a.task].pc.Write? {
      assert s.tasks[a.task] in s.tasks;
      match s.tasks[a.task].op
      case Register(req, salt) =>
        if req.user == user && req.network == network {
          InsertKeepsOnceIff(s.table, NewRow(setup, req, salt));
        }
      case Unregister(req) => WithoutKeepsOnce(s.table, req.user, req.network, user, network);
    }
  }

  ghost predicate RaceFree(setup: Setup, table: Table, schedule: seq<Action>, user: string, network: string) {
    forall n :: 0 <= n < |schedule| ==> NoRace(After(setup, table, schedule[..n]), user, network)
  }

  lemma RaceFreePrefix(setup: Setup, table: Table, schedule: seq<Action>, user: string, network: string)
    requires schedule != [] && RaceFree(setup, table, schedule, user, network)
    ensures RaceFree(setup, table, schedule[..|schedule| - 1], user, network)
    ensures NoRace(After(setup, table, schedule[..|schedule| - 1]), user, network)
  {
    var front := schedule[..|schedule| - 1];
    forall n | 0 <= n < |front|
      ensures NoRace(After(setup, table, front[..n]), user, network)
    {
      assert front[..n] == schedule[..n];
    }
  }

  lemma {:induction false} AbsentWithoutRace(setup: Setup, table: Table, schedule: seq<Action>, user: string, network: string)
    requires RaceFree(setup, table, schedule, user, network)
    ensures StillAbsent(After(setup, table, schedule), user, network)
  {
    if schedule != [] {
      RaceFreePrefix(setup, table, schedule, user, network);
      AbsentWithoutRace(setup, table, schedule[..|schedule| - 1], user, network);
      StepKeepsAbsent(setup, After(setup, table, schedule[..|schedule| - 1]), schedule[|schedule| - 1], user, network);
    }
  }

  /** In every run in which no two registrations of a key are between lookup and insert together, the key
      stays stored at most once. */
  lemma {:induction false} KeysStayUnique(setup: Setup, table: Table, schedule: seq<Action>, user: string, network: string)
    requires StoredOnce(table, user, network) && RaceFree(setup, table, schedule, user, network)
    ensures StoredOnce(After(setup, table, schedule).table, user, network)
  {
    if schedule != [] {
      var front := schedule[..|schedule| - 1];
      RaceFreePrefix(setup, table, schedule, user, network);
      KeysStayUnique(setup, table, front, user, network);
      AbsentWithoutRace(setup, table, front, user, network);
      StepKeepsOnce(setup, After(setup, table, front), schedule[|schedule| - 1], user, network);
    }
  }

  // ----------------------------------------------------------- authentication

  datatype Credential = Credential(salt: string, password: string)

  /** What the last successful operation on the key left: the credential it registered, or none. Before
      any, what the table held at the start. */
  function LastCredential(setup: Setup, table: Table, schedule: seq<Action>, user: string, network: string): Option<Credential> {
    if schedule == [] then
      (match Find(table, user, network)
       case None => None
       case Some(r) => Some(Credential(r.salt, r.password)))
    else
      var s, last := After(setup, table, schedule[..|schedule| - 1]), schedule[|schedule| - 1];
      if WritesKey(setup, s, last, user, network)
      then
        (match s.tasks[last.task].op
         case Register(req, salt) => Some(Credential(salt, setup.hash(req.password, salt)))
         case Unregister(_) => None)
      else LastCredential(setup, table, schedule[..|schedule| - 1], user, network)
  }

  lemma StepWritesKey(setup: Setup, s: System, a: Action, user: string, network: string)
    requires WritesKey(setup, s, a, user, network) && StillAbsent(s, user, network)
    ensures Find(Step(setup, s, a).table, user, network) ==
            match s.tasks[a.task].op
            case Register(req, salt) => Some(NewRow(setup, req, salt))
            case Unregister(_) => None
  {
    assert s.tasks[a.task] in s.tasks;
    match s.tasks[a.task].op
    case Register(req, salt) => FindAfterAppend(s.table, NewRow(setup, req, salt), user, network);
    case Unregister(req) => FindAfterWithout(s.table, req.user, req.network, user, network);
  }

  lemma {:induction false} FoundIsLastCredential(setup: Setup, table: Table, schedule: seq<Action>, user: string, network: string)
    requires RaceFree(setup, table, schedule, user, network)
    ensures var found, last := Find(After(setup, table, schedule).table, user, network), LastCredential(setup, table, schedule, user, network);
      && (found.Some? <==> last.Some?)
      && (found.Some? ==> last.value == Credential(found.value.salt, found.value.password))
  {
    if schedule != [] {
      var front, last := schedule[..|schedule| - 1], schedule[|schedule| - 1];
      RaceFreePrefix(setup, table, schedule, user, network);
      FoundIsLastCredential(setup, table, front, user, network);
      if WritesKey(setup, After(setup, table, front), last, user, network) {
        AbsentWithoutRace(setup, table, front, user, network);
        StepWritesKey(setup, After(setup, table, front), last, user, network);
      } else {
        StepLeavesKey(setup, After(setup, table, front), last, user, network);
      }
    }
  }

  /** With authentication enabled, a login succeeds exactly when the first registration written since the key
      was last absent, or the row the table held before any, has a salted hash that the password gives. */
  lemma AuthenticatesOldestRegistration(setup: Setup, table: Table, schedule: seq<Action>, user: string, password: string, network: string)
    requires user != "" && password != "" && network in setup.networks && network != ""
    requires setup.networks[network].enableAuthentication
    ensures Authenticates(setup, After(setup, table, schedule).table, user, password, network)
       <==> (var oldest := Oldest(setup, System(table, []), schedule, user, network);
             oldest.Some? && setup.hash(password, oldest.value.salt) == oldest.value.password)
  {
    FoundIsOldest(setup, System(table, []), schedule, user, network);
  }

  /** With authentication enabled, and the key's registrations not racing, a login succeeds exactly when the
      last successful operation on the key was a registration whose salted hash the password gives. */
  lemma AuthenticatesLastRegistration(setup: Setup, table: Table, schedule: seq<Action>, user: string, password: string, network: string)
    requires user != "" && password != "" && network in setup.networks && network != ""
    requires setup.networks[network].enableAuthentication && RaceFree(setup, table, schedule, user, network)
    ensures Authenticates(setup, After(setup, table, schedule).table, user, password, network)
       <==> (var last := LastCredential(setup, table, schedule, user, network);
             last.Some? && setup.hash(password, last.value.salt) == last.value.password)
  {
    FoundIsLastCredential(setup, table, schedule, user, network);
  }

  // ------------------------------------------------------ overlapping requests

  function Two(table: Table, one: Op, p: Pc, other: Op, q: Pc): System {
    System(table, [Task(one, p), Task(other, q)])
  }

  /** The two requests come in and take turns up to their writes. */
  function ToTheWrites(one: Op, other: Op): seq<Action> {
    [Receive(one)] + ([Receive(other)] + ([Proceed(0)] + ([Proceed(1)] + ([Proceed(0)] + [Proceed(1)]))))
  }

  lemma BothReceived(setup: Setup, table: Table, one: Op, other: Op, rest: seq<Action>)
    requires HasParameters(one) && HasParameters(other)
    ensures After(setup, table, [Receive(one)] + ([Receive(other)] + rest))
         == Run(setup, Two(table, one, RoleCheck, other, RoleCheck), rest)
  {
    RunCons(setup, System(table, []), Receive(one), [Receive(other)] + rest);
    RunCons(setup, System(table, [Task(one, RoleCheck)]), Receive(other), rest);
    assert [] + [Task(one, RoleCheck)] == [Task(one, RoleCheck)];
    assert [Task(one, RoleCheck)] + [Task(other, RoleCheck)] == [Task(one, RoleCheck), Task(other, RoleCheck)];
  }

  /** The place after the turn at a place, for a request whose checks pass. */
  function Onward(pc: Pc): Pc {
    match pc
    case RoleCheck => Lookup
    case Lookup => Write
    case Write => Answered(200)
    case Answered(_) => pc
  }

  predicate ChecksPass(setup: Setup, table: Table, op: Op) {
    if op.Register? then MayRegister(setup, table, op.req) else MayUnregister(setup, table, op.req)
  }

  lemma FirstTurn(setup: Setup, table: Table, one: Op, p: Pc, other: Op, q: Pc)
    requires p.Write? || ChecksPass(setup, table, one)
    requires Accepted(setup, one)
    ensures Step(setup, Two(table, one, p, other, q), Proceed(0))
         == Two(if p.Write? then Written(setup, table, one) else table, one, Onward(p), other, q)
  {
    var tasks := [Task(one, p), Task(other, q)];
    assert tasks[0 := Task(one, Onward(p))] == [Task(one, Onward(p)), Task(other, q)];
  }

  lemma SecondTurn(setup: Setup, table: Table, one: Op, p: Pc, other: Op, q: Pc)
    requires q.Write? || ChecksPass(setup, table, other)
    requires Accepted(setup, other)
    ensures Step(setup, Two(table, one, p, other, q), Proceed(1))
         == Two(if q.Write? then Written(setup, table, other) else table, one, p, other, Onward(q))
  {
    var tasks := [Task(one, p), Task(other, q)];
    assert tasks[1 := Task(other, Onward(q))] == [Task(one, p), Task(other, Onward(q))];
  }

  lemma BothReachTheirWrites(setup: Setup, table: Table, one: Op, other: Op)
    requires ChecksPass(setup, table, one) && ChecksPass(setup, table, other) && Accepted(setup, one) && Accepted(setup, other)
    ensures After(setup, table, ToTheWrites(one, other)) == Two(table, one, Write, other, Write)
  {
    BothReceived(setup, table, one, other, [Proceed(0)] + ([Proceed(1)] + ([Proceed(0)] + [Proceed(1)])));
    FirstTurn(setup, table, one, RoleCheck, other, RoleCheck);
    SecondTurn(setup, table, one, Lookup, other, RoleCheck);
    FirstTurn(setup, table, one, Lookup, other, Lookup);
    SecondTurn(setup, table, one, Write, other, Lookup);
    RunCons(setup, Two(table, one, RoleCheck, other, RoleCheck), Proceed(0), [Proceed(1)] + ([Proceed(0)] + [Proceed(1)]));
    RunCons(setup, Two(table, one, Lookup, other, RoleCheck), Proceed(1), [Proceed(0)] + [Proceed(1)]);
    RunCons(setup, Two(table, one, Lookup, other, Lookup), Proceed(0), [Proceed(1)]);
    RunOne(setup, Two(table, one, Write, other, Lookup), Proceed(1));
  }

  /** Two registrations of one new user that both look it up before either inserts are both answered with
      200, and the key is stored twice: the table itself has no unique index. */
  lemma OverlappingRegistersDuplicate(setup: Setup, table: Table, one: Op, other: Op) returns (schedule: seq<Action>)
    requires one.Register? && other.Register? && MayRegister(setup, table, one.req) && MayRegister(setup, table, other.req)
    requires Accepted(setup, one) && Accepted(setup, other)
    requires one.req.user == other.req.user && one.req.network == other.req.network
    ensures After(setup, table, schedule).tasks == [Task(one, Answered(200)), Task(other, Answered(200))]
    ensures !StoredOnce(After(setup, table, schedule).table, one.req.user, one.req.network)
    ensures Find(After(setup, table, schedule).table, one.req.user, one.req.network) == Some(NewRow(setup, one.req, one.salt))
  {
    BothReachTheirWrites(setup, table, one, other);
    schedule := ToTheWrites(one, other) + ([Proceed(0)] + [Proceed(1)]);
    RunAppend(setup, System(table, []), ToTheWrites(one, other), [Proceed(0)] + [Proceed(1)]);
    var first, second := NewRow(setup, one.req, one.salt), NewRow(setup, other.req, other.salt);
    FirstTurn(setup, table, one, Write, other, Write);
    SecondTurn(setup, table + [first], one, Answered(200), other, Write);
    RunCons(setup, Two(table, one, Write, other, Write), Proceed(0), [Proceed(1)]);
    RunOne(setup, Two(table + [first], one, Answered(200), other, Write), Proceed(1));
    var after := table + [first] + [second];
    assert after[|table|] == first && after[|table| + 1] == second;
    FindAfterAppend(table, first, one.req.user, one.req.network);
    FindAfterAppend(table + [first], second, one.req.user, one.req.network);
  }

  /** The first request up to its write, then the second from start to end. */
  function RemovedBetween(one: Op, other: Op): seq<Action> {
    [Receive(one)] + ([Receive(other)]
      + ([Proceed(0)] + ([Proceed(0)] + ([Proceed(1)] + ([Proceed(1)] + [Proceed(1)])))))
  }

  lemma RemovalComesBetween(setup: Setup, table: Table, one: Op, other: Op)
    requires ChecksPass(setup, table, one) && ChecksPass(setup, table, other) && Accepted(setup, one) && Accepted(setup, other)
    ensures After(setup, table, RemovedBetween(one, other)) == Two(Written(setup, table, other), one, Write, other, Answered(200))
  {
    BothReceived(setup, table, one, other, [Proceed(0)] + ([Proceed(0)] + ([Proceed(1)] + ([Proceed(1)] + [Proceed(1)]))));
    FirstTurn(setup, table, one, RoleCheck, other, RoleCheck);
    FirstTurn(setup, table, one, Lookup, other, RoleCheck);
    SecondTurn(setup, table, one, Write, other, RoleCheck);
    SecondTurn(setup, table, one, Write, other, Lookup);
    SecondTurn(setup, table, one, Write, other, Write);
    RunCons(setup, Two(table, one, RoleCheck, other, RoleCheck), Proceed(0), [Proceed(0)] + ([Proceed(1)] + ([Proceed(1)] + [Proceed(1)])));
    RunCons(setup, Two(table, one, Lookup, other, RoleCheck), Proceed(0), [Proceed(1)] + ([Proceed(1)] + [Proceed(1)]));
    RunCons(setup, Two(table, one, Write, other, RoleCheck), Proceed(1), [Proceed(1)] + [Proceed(1)]);
    RunCons(setup, Two(table, one, Write, other, Lookup), Proceed(1), [Proceed(1)]);
    RunOne(setup, Two(table, one, Write, other, Write), Proceed(1));
  }

  /** The role is checked once: an admin who is removed between the check and the insert of a registration
      still registers the user. */
  lemma RemovedAdminStillRegisters(setup: Setup, table: Table, one: Op, other: Op) returns (schedule: seq<Action>)
    requires one.Register? && MayRegister(setup, table, one.req) && Accepted(setup, one)
    requires other.Unregister? && MayUnregister(setup, table, other.req)
    requires other.req.user == one.req.requestUserId && other.req.network == one.req.network
    ensures !ByAdmin(After(setup, table, schedule).table, one.req)
    ensures var s := After(setup, table, schedule);
      After(setup, table, schedule + [Proceed(0)]).table == s.table + [NewRow(setup, one.req, one.salt)]
  {
    RemovalComesBetween(setup, table, one, other);
    schedule := RemovedBetween(one, other);
    FindAfterWithout(table, other.req.user, other.req.network, one.req.requestUserId, one.req.network);
    RunAppend(setup, System(table, []), schedule, [Proceed(0)]);
    FirstTurn(setup, After(setup, table, schedule).table, one, Write, other, Answered(200));
    RunOne(setup, After(setup, table, schedule), Proceed(0));
  }

  // -------------------------------------------------- what an answer tells

  /** At step m of the run request i writes, and the row is accepted. */
  ghost predicate WroteAt(setup: Setup, table: Table, schedule: seq<Action>, m: nat, i: nat, op: Op) {
    && m < |schedule| && schedule[m] == Proceed(i)
    && var s := After(setup, table, schedule[..m]);
       i < |s.tasks| && s.tasks[i] == Task(op, Write) && Accepted(setup, op)
  }

  ghost predicate Wrote(setup: Setup, table: Table, schedule: seq<Action>, i: nat, op: Op) {
    exists m :: WroteAt(setup, table, schedule, m, i, op)
  }

  predicate Succeeded(s: System, i: nat, op: Op) {
    i < |s.tasks| && s.tasks[i] == Task(op, Answered(200))
  }

  lemma WroteUnfolds(setup: Setup, table: Table, front: seq<Action>, last: Action, i: nat, op: Op)
    ensures Wrote(setup, table, front + [last], i, op)
       <==> Wrote(setup, table, front, i, op) || WroteAt(setup, table, front + [last], |front|, i, op)
  {
    var all := front + [last];
    assert forall m: nat | m <= |front| :: all[..m] == front[..m];
    if m: nat :| WroteAt(setup, table, front, m, i, op) {
      assert WroteAt(setup, table, all, m, i, op);
    }
    if m: nat :| WroteAt(setup, table, all, m, i, op) && m < |front| {
      assert WroteAt(setup, table, front, m, i, op);
    }
  }

  lemma StepSucceedsIff(setup: Setup, s: System, a: Action, i: nat, op: Op)
    ensures Succeeded(Step(setup, s, a), i, op)
       <==> Succeeded(s, i, op) || (a == Proceed(i) && i < |s.tasks| && s.tasks[i] == Task(op, Write) && Accepted(setup, op))
  {
  }

  lemma {:induction false} SucceedsIffWrote(setup: Setup, table: Table, schedule: seq<Action>, i: nat, op: Op)
    ensures Succeeded(After(setup, table, schedule), i, op) <==> Wrote(setup, table, schedule, i, op)
  {
    if schedule != [] {
      var front, last := schedule[..|schedule| - 1], schedule[|schedule| - 1];
      assert schedule == front + [last] && schedule[..|front|] == front;
      SucceedsIffWrote(setup, table, front, i, op);
      StepSucceedsIff(setup, After(setup, table, front), last, i, op);
      WroteUnfolds(setup, table, front, last, i, op);
    }
  }

  lemma {:induction false} AnswersAre(setup: Setup, table: Table, schedule: seq<Action>)
    ensures forall t <- After(setup, table, schedule).tasks :: t.pc.Answered? ==> t.pc.status == 200 || t.pc.status == 400
  {
    if schedule != [] {
      AnswersAre(setup, table, schedule[..|schedule| - 1]);
    }
  }

  /** In every interleaving a request is answered with 200 or 400: with 200 exactly when one step of it wrote, and
      with 400 only when no step of it changed the table. */
  lemma StatusTellsWrite(setup: Setup, table: Table, schedule: seq<Action>, i: nat)
    requires i < |After(setup, table, schedule).tasks| && After(setup, table, schedule).tasks[i].pc.Answered?
    ensures var t := After(setup, table, schedule).tasks[i];
      && (t.pc.status == 200 || t.pc.status == 400)
      && (t.pc.status == 200 <==> Wrote(setup, table, schedule, i, t.op))
      && (t.pc.status == 400 ==> forall m :: 0 <= m < |schedule| && schedule[m] == Proceed(i) ==>
            After(setup, table, schedule[..m + 1]).table == After(setup, table, schedule[..m]).table)
  {
    var t := After(setup, table, schedule).tasks[i];
    AnswersAre(setup, table, schedule);
    assert t in After(setup, table, schedule).tasks;
    SucceedsIffWrote(setup, table, schedule, i, t.op);
    if t.pc.status == 400 {
      forall m | 0 <= m < |schedule| && schedule[m] == Proceed(i)
        ensures After(setup, table, schedule[..m + 1]).table == After(setup, table, schedule[..m]).table
      {
        RefusedStep(setup, table, schedule, i, m);
      }
    }
  }

  lemma RefusedStep(setup: Setup, table: Table, schedule: seq<Action>, i: nat, m: nat)
    requires m < |schedule| && schedule[m] == Proceed(i) && i < |After(setup, table, schedule).tasks|
    requires After(setup, table, schedule).tasks[i].pc == Answered(400)
    ensures After(setup, table, schedule[..m + 1]).table == After(setup, table, schedule[..m]).table
  {
    var s := After(setup, table, schedule[..m]);
    assert schedule[..m + 1][..m] == schedule[..m];
    assert After(setup, table, schedule[..m + 1]) == Step(setup, s, Proceed(i));
    if i < |s.tasks| && s.tasks[i].pc.Write? {
      assert Accepted(setup, s.tasks[i].op) ==> WroteAt(setup, table, schedule, m, i, s.tasks[i].op);
      SucceedsIffWrote(setup, table, schedule, i, s.tasks[i].op);
    }
  }

  // -------------------------------------------------------- who may do what

  /** In any run a removal that is past its checks is of another account than its requester's, on a configured
      network, and not of the network's root admin. */
  lemma RemovalIsAllowed(setup: Setup, table: Table, schedule: seq<Action>, i: nat)
    requires i < |After(setup, table, schedule).tasks|
    requires var t := After(setup, table, schedule).tasks[i]; t.op.Unregister? && PastRole(t.pc)
    ensures var req := After(setup, table, schedule).tasks[i].op.req;
      && req.user != req.requestUserId && req.network in setup.networks
      && setup.networks[req.network].adminUser != Some(req.user)
  {
    var m := PastRoleWasChecked(setup, table, schedule, i);
  }

  /** A requester stored once has the admin role exactly when the row of its account on the network says so;
      requests without a requester are internal and always allowed. */
  lemma AdminRoleMeans(table: Table, req: Request)
    ensures req.requestUserId == "" ==> ByAdmin(table, req)
    ensures req.requestUserId != "" && StoredOnce(table, req.requestUserId, req.network) ==>
              (ByAdmin(table, req) <==>
               exists r <- table :: r.username == req.requestUserId && r.networkName == req.network && r.roles == "admin")
  {
    FoundOnce(table, req.requestUserId, req.network);
  }
}

/** The synchroniser as a step machine. Code between two awaits is one step; each SQL statement is
    one atomic step. Any number of block tasks, passes and registrations interleave. */
module SyncMachine {
  import opened Options
  import opened Text
  import opened JsArrays
  import opened Ledger

  // ------------------------------------------------------------------ tables

  /** A channel row. `blocksBefore` and `transBefore` are bookkeeping: how many counting statements
      had been executed for this channel when the row last had its counters set. */
  datatype ChannelRow = ChannelRow(
    net: Net, name: Channel, hash: Hash, blocks: nat, trans: nat, blocksBefore: nat, transBefore: nat)

  datatype Db = Db(blocks: seq<BlockRow>, txs: seq<TxRow>, channels: seq<ChannelRow>)

  predicate HasBlock(db: Db, net: Net, hash: Hash, num: nat) {
    exists r <- db.blocks :: r.net == net && r.hash == hash && r.num == num
  }

  predicate HasTx(db: Db, t: TxRow) {
    t in db.txs
  }

  /** The six columns `saveBlock` compares before it inserts. */
  predicate SameBlock(r: BlockRow, s: BlockRow) {
    r.num == s.num && r.txcount == s.txcount && r.hash == s.hash && r.net == s.net
    && r.prehash == s.prehash && r.datahash == s.datahash
  }

  predicate HasSameBlock(db: Db, row: BlockRow) {
    exists r <- db.blocks :: SameBlock(r, row)
  }

  /** `isBlockAvailableInDB`: the network is not part of the condition. */
  predicate AvailableInAnyNetwork(db: Db, hash: Hash, num: nat) {
    exists r <- db.blocks :: r.hash == hash && r.num == num
  }

  /** `findMissingBlockNumber`: the numbers 0..max with no row in this network, ascending. */
  function MissingNumbers(db: Db, net: Net, hash: Hash, max: int): seq<nat>
    decreases max + 1
  {
    if max < 0 then []
    else MissingNumbers(db, net, hash, max - 1) + (if HasBlock(db, net, hash, max) then [] else [max])
  }

  function FilterFrom(numbers: seq<nat>, start: int): seq<nat> {
    if numbers == [] then []
    else (if numbers[0] >= start then [numbers[0]] else []) + FilterFrom(numbers[1..], start)
  }

  /** `update channel set blocks = blocks + 1` or `trans = trans + 1` on every row of the channel. */
  function Bump(rows: seq<ChannelRow>, net: Net, hash: Hash, blocks: nat, trans: nat): seq<ChannelRow> {
    seq(|rows|, i requires 0 <= i < |rows| =>
      if rows[i].net == net && rows[i].hash == hash
      then rows[i].(blocks := rows[i].blocks + blocks, trans := rows[i].trans + trans) else rows[i])
  }

  // ------------------------------------------------------------------- tasks

  /** What is sent or counted, as it happens. */
  datatype Event =
    | Quiet
    | Notified(net: Net, hash: Hash, num: nat)
    | BlockCounted(net: Net, hash: Hash)
    | TxCounted(net: Net, hash: Hash)

  datatype Status = Running | Threw | Crashed

  /** Where a block task waits: the await it is at, or after its release. */
  datatype Pc =
    | Stamp
    | TxCount(k: nat)
    | TxInsert(k: nat)
    | TxChaincode(k: nat)
    | TxTrans(k: nat)
    | BlkCount
    | BlkInsert
    | BlkUpdate
    | Finish(saved: bool)
    | Released

  /** One call of `processBlockEvent` that got past the guard; `pass` says which pass awaits it. */
  datatype Job = Job(net: Net, channel: Channel, hash: Hash, num: nat, pass: Option<nat>, pc: Pc, status: Status)

  datatype PassPc =
    | ChainInfo
    | Fetch(next: int)
    | Decide(height: int, fetched: bool, available: bool)
    | Await(height: int, job: nat)
    | Missing
    | Refetch(todo: seq<nat>)
    | Reawait(todo: seq<nat>, job: nat)
    | Finished
    | Abandoned

  /** One call of `syncBlocks`. `unloaded` are the numbers whose fetch in the first loop gave no usable block,
      `undelivered` the missing ones whose fetch in the second gave none. */
  datatype Pass = Pass(
    net: Net, channel: Channel, hash: Hash, start: nat, latest: int, unloaded: set<nat>, undelivered: set<nat>,
    pc: PassPc, status: Status)

  datatype RegPc = GetChannel | ExistChannel | CountChannel | InsertChannel | ResetChannel | Registered

  /** One call of `insertNewChannel`. */
  datatype Reg = Reg(net: Net, channel: Channel, hash: Hash, pc: RegPc, status: Status)

  datatype State = State(
    db: Db, locks: map<Net, seq<string>>, known: map<Net, set<Channel>>,
    jobs: seq<Job>, passes: seq<Pass>, regs: seq<Reg>, log: multiset<Event>)

  const INITIAL := State(Db([], [], []), map[], map[], [], [], [], multiset{})

  /** `blocksInProcess` of the network's process. */
  function Locks(locks: map<Net, seq<string>>, net: Net): seq<string> {
    if net in locks then locks[net] else []
  }

  function Known(s: State, net: Net): set<Channel> {
    if net in s.known then s.known[net] else {}
  }

  // -------------------------------------------------------------- the guard

  /** Up to the first await of `processBlockEvent`: an unknown channel, a block without transactions
      and a key already in process all throw before anything is pushed. */
  predicate GuardPasses(w: World, s: State, net: Net, channel: Channel, num: nat) {
    && |w.ledger(net, channel, num).txs| > 0
    && channel in Known(s, net)
    && BlockKey(channel, num) !in Locks(s.locks, net)
  }

  function Enter(w: World, s: State, net: Net, channel: Channel, num: nat, pass: Option<nat>): State {
    s.(locks := s.locks[net := Locks(s.locks, net) + [BlockKey(channel, num)]],
       jobs := s.jobs + [Job(net, channel, Genesis(w, net, channel), num, pass, Stamp, Running)])
  }

  // ------------------------------------------------------------ block tasks

  function NextTx(count: nat, k: nat): Pc {
    if k + 1 < count then TxCount(k + 1) else BlkCount
  }

  /** The task's next section: where it waits next, the tables after it, and what it sends or counts. */
  function RunJob(w: World, db: Db, j: Job): (Pc, Db, Event) {
    var txs := w.ledger(j.net, j.channel, j.num).txs;
    match j.pc
    case Stamp => (TxCount(0), db, Quiet)
    case TxCount(k) =>
      if k < |txs| && HasTx(db, TxRowOf(w, j.net, j.channel, j.num, k)) then (NextTx(|txs|, k), db, Quiet)
      else (TxInsert(k), db, Quiet)
    case TxInsert(k) =>
      (TxChaincode(k),
       if k < |txs| then db.(txs := db.txs + [TxRowOf(w, j.net, j.channel, j.num, k)]) else db,
       Quiet)
    case TxChaincode(k) => (TxTrans(k), db, Quiet)
    case TxTrans(k) =>
      (NextTx(|txs|, k), db.(channels := Bump(db.channels, j.net, j.hash, 0, 1)), TxCounted(j.net, j.hash))
    case BlkCount =>
      (if HasSameBlock(db, RowOf(w, j.net, j.channel, j.num)) then Finish(false) else BlkInsert, db, Quiet)
    case BlkInsert =>
      (BlkUpdate, db.(blocks := db.blocks + [RowOf(w, j.net, j.channel, j.num)]), Quiet)
    case BlkUpdate =>
      (Finish(true), db.(channels := Bump(db.channels, j.net, j.hash, 1, 0)), BlockCounted(j.net, j.hash))
    case Finish(saved) =>
      (Released, db, if saved then Notified(j.net, j.hash, j.num) else Quiet)
    case Released => (Released, db, Quiet)
  }

  /** Coming to transaction k: the loop throws on it, or PostgreSQL rejects the count, as it does every
      statement that compares or stores a number beyond `integer`. */
  predicate Throws(w: World, j: Job) {
    var txs := w.ledger(j.net, j.channel, j.num).txs;
    j.pc.TxCount? && (j.num > MAX_INTEGER || (j.pc.k < |txs| && TxThrows(txs[j.pc.k])))
  }

  predicate Runs(s: State, i: nat) {
    i < |s.jobs| && s.jobs[i].status == Running && s.jobs[i].pc != Released
  }

  function Log(log: multiset<Event>, e: Event): multiset<Event> {
    if e == Quiet then log else log + multiset{e}
  }

  function JobThrow(s: State, i: nat): State
    requires Runs(s, i)
  {
    s.(jobs := s.jobs[i := s.jobs[i].(status := Threw)])
  }

  function JobStep(w: World, s: State, i: nat): State
    requires Runs(s, i)
  {
    var j := s.jobs[i];
    if Throws(w, j) then JobThrow(s, i)
    else
      var (pc, db, e) := RunJob(w, s.db, j);
      s.(db := db,
         locks := if pc == Released then s.locks[j.net := TakeOut(Locks(s.locks, j.net), BlockKey(j.channel, j.num))] else s.locks,
         jobs := s.jobs[i := j.(pc := pc)],
         log := Log(s.log, e))
  }

  // ----------------------------------------------------------------- passes

  /** First block of the window: `max(0, latest - noOfBlocks + 1)`; absent when `noOfBlocks` is not a number. */
  function WindowStart(mode: BootMode, latest: int): Option<nat> {
    match mode
    case All => Some(0)
    case Custom(n) => Some(if latest - n + 1 < 0 then 0 else latest - n + 1)
    case CustomNaN => None
    case OtherMode => Some(if latest + 1 < 0 then 0 else latest + 1)
  }

  predicate JobSettled(s: State, job: nat) {
    job < |s.jobs| ==> s.jobs[job].pc == Released || s.jobs[job].status == Threw
  }

  function SetPass(s: State, p: nat, pass: Pass): State
    requires p < |s.passes|
  {
    s.(passes := s.passes[p := pass])
  }

  predicate PassRuns(s: State, p: nat) {
    p < |s.passes| && s.passes[p].status == Running && !s.passes[p].pc.Finished? && !s.passes[p].pc.Abandoned?
  }

  /** The pass with the outcome of the first loop's fetch of a number noted. */
  function Loaded(w: World, a: Pass, h: int, got: bool): Pass {
    if h < 0 || (got && |w.ledger(a.net, a.channel, h).txs| > 0) then a else a.(unloaded := a.unloaded + {h})
  }

  /** The pass's next section. `fetched` says whether the ledger query it awaits returns a block,
      `height` is the channel height the ledger reports. */
  function PassStep(w: World, s: State, p: nat, fetched: bool, height: int): State
    requires PassRuns(s, p)
  {
    var a := s.passes[p];
    match a.pc
    case ChainInfo =>
      (match WindowStart(w.boot(a.net), height - 1)
       case None => SetPass(s, p, a.(pc := Abandoned))
       case Some(start) => SetPass(s, p, a.(start := start, latest := height - 1, pc := Fetch(height - 1))))
    case Fetch(h) =>
      if h < a.start then SetPass(s, p, a.(pc := Missing))
      else SetPass(s, p, a.(pc := Decide(h, fetched, AvailableInAnyNetwork(s.db, a.hash, h))))
    case Decide(h, got, available) =>
      var b := Loaded(w, a, h, got);
      if h >= 0 && got && !available && GuardPasses(w, s, a.net, a.channel, h)
      then SetPass(Enter(w, s, a.net, a.channel, h, Some(p)), p, b.(pc := Await(h, |s.jobs|)))
      else SetPass(s, p, b.(pc := Fetch(h - 1)))
    case Await(h, job) =>
      if JobSettled(s, job) then SetPass(s, p, a.(pc := Fetch(h - 1))) else s
    case Missing =>
      SetPass(s, p, a.(pc := Refetch(FilterFrom(MissingNumbers(s.db, a.net, a.hash, a.latest), a.start))))
    case Refetch(todo) =>
      if todo == [] then SetPass(s, p, a.(pc := Finished))
      else if fetched && GuardPasses(w, s, a.net, a.channel, todo[0])
      then SetPass(Enter(w, s, a.net, a.channel, todo[0], Some(p)), p, a.(pc := Reawait(todo[1..], |s.jobs|)))
      else if fetched && |w.ledger(a.net, a.channel, todo[0]).txs| > 0
      then SetPass(s, p, a.(pc := Refetch(todo[1..])))
      else SetPass(s, p, a.(pc := Refetch(todo[1..]), undelivered := a.undelivered + {todo[0]}))
    case Reawait(todo, job) =>
      if JobSettled(s, job) then SetPass(s, p, a.(pc := Refetch(todo))) else s
    case _ => s
  }

  /** A throw outside the two loops ends the pass; inside them it is caught (see `fetched`). */
  function PassThrow(s: State, p: nat): State
    requires PassRuns(s, p)
  {
    if s.passes[p].pc.ChainInfo? || s.passes[p].pc.Missing?
    then SetPass(s, p, s.passes[p].(pc := Abandoned)) else s
  }

  // ----------------------------------------------------------- registrations

  predicate RegRuns(s: State, r: nat) {
    r < |s.regs| && s.regs[r].status == Running && s.regs[r].pc != Registered
  }

  predicate IsChannel(c: ChannelRow, g: Reg) {
    c.net == g.net && c.name == g.channel && c.hash == g.hash
  }

  predicate OfName(c: ChannelRow, net: Net, channel: Channel) {
    c.net == net && c.name == channel
  }

  /** The columns `saveChannel` writes: both counters zero. */
  function ZeroRow(s: State, g: Reg): ChannelRow {
    ChannelRow(g.net, g.channel, g.hash, 0, 0,
               s.log[BlockCounted(g.net, g.hash)], s.log[TxCounted(g.net, g.hash)])
  }

  function ResetRows(s: State, g: Reg): seq<ChannelRow> {
    seq(|s.db.channels|, i requires 0 <= i < |s.db.channels| =>
      if IsChannel(s.db.channels[i], g) then ZeroRow(s, g) else s.db.channels[i])
  }

  function RegStep(s: State, r: nat): State
    requires RegRuns(s, r)
  {
    var g := s.regs[r];
    match g.pc
    case GetChannel =>
      s.(regs := s.regs[r := g.(pc := if exists c <- s.db.channels :: IsChannel(c, g) then Registered else ExistChannel)])
    case ExistChannel =>
      s.(regs := s.regs[r := if exists c <- s.db.channels :: OfName(c, g.net, g.channel) then g.(status := Threw) else g.(pc := CountChannel)])
    case CountChannel =>
      s.(regs := s.regs[r := g.(pc := if exists c <- s.db.channels :: IsChannel(c, g) then ResetChannel else InsertChannel)])
    case InsertChannel =>
      s.(db := s.db.(channels := s.db.channels + [ZeroRow(s, g)]), regs := s.regs[r := g.(pc := Registered)])
    case ResetChannel =>
      s.(db := s.db.(channels := ResetRows(s, g)), regs := s.regs[r := g.(pc := Registered)])
    case Registered => s
  }

  // ----------------------------------------------------------------- actions

  datatype Action =
    | Learn(net: Net, channel: Channel)
    | Deliver(net: Net, channel: Channel, num: nat)
    | RunBlock(job: nat)
    | FailBlock(job: nat)
    | StartPass(net: Net, channel: Channel)
    | RunPass(pass: nat, fetched: bool, height: int)
    | FailPass(pass: nat)
    | StartReg(net: Net, channel: Channel)
    | RunReg(reg: nat)
    | FailReg(reg: nat)
    | Crash(net: Net)

  /** The network's process dies: its tasks and its memory are lost, the tables stay. */
  function CrashNet(s: State, net: Net): State {
    s.(locks := s.locks[net := []],
       known := s.known[net := {}],
       jobs := seq(|s.jobs|, i requires 0 <= i < |s.jobs| =>
         if s.jobs[i].net == net then s.jobs[i].(status := Crashed) else s.jobs[i]),
       passes := seq(|s.passes|, i requires 0 <= i < |s.passes| =>
         if s.passes[i].net == net then s.passes[i].(status := Crashed) else s.passes[i]),
       regs := seq(|s.regs|, i requires 0 <= i < |s.regs| =>
         if s.regs[i].net == net then s.regs[i].(status := Crashed) else s.regs[i]))
  }

  /** One step of the system; an action that is not enabled changes nothing. */
  function Step(w: World, s: State, a: Action): State {
    match a
    case Learn(net, channel) =>
      if channel in w.channels(net) then s.(known := s.known[net := Known(s, net) + {channel}]) else s
    case Deliver(net, channel, num) =>
      // the listener skips the first block
      if num != 0 && GuardPasses(w, s, net, channel, num) then Enter(w, s, net, channel, num, None) else s
    case RunBlock(i) => if Runs(s, i) then JobStep(w, s, i) else s
    case FailBlock(i) => if Runs(s, i) then JobThrow(s, i) else s
    case StartPass(net, channel) =>
      // passes are started for the client's own channels, whose genesis hash it holds
      if channel in Known(s, net)
      then s.(passes := s.passes + [Pass(net, channel, Genesis(w, net, channel), 0, -1, {}, {}, ChainInfo, Running)]) else s
    case RunPass(p, fetched, height) => if PassRuns(s, p) then PassStep(w, s, p, fetched, height) else s
    case FailPass(p) => if PassRuns(s, p) then PassThrow(s, p) else s
    case StartReg(net, channel) =>
      if channel in w.channels(net)
      then s.(regs := s.regs + [Reg(net, channel, Genesis(w, net, channel), GetChannel, Running)]) else s
    case RunReg(r) => if RegRuns(s, r) then RegStep(s, r) else s
    case FailReg(r) => if RegRuns(s, r) then s.(regs := s.regs[r := s.regs[r].(status := Threw)]) else s
    case Crash(net) => CrashNet(s, net)
  }

  /** The state after a whole schedule. */
  function Run(w: World, s: State, schedule: seq<Action>): State {
    if schedule == [] then s else Step(w, Run(w, s, schedule[..|schedule| - 1]), schedule[|schedule| - 1])
  }
}

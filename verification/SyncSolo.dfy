/** Block tasks run without interruption: what they leave, as a function, and the machine's schedules that
    leave exactly that. */
module SyncSolo {
  import opened Options
  import opened Text
  import opened JsArrays
  import opened Ledger
  import opened SyncMachine
  import opened SyncLocks
  import opened SyncRows
  import opened SyncRecovery

  // ---------------------------------------------- a task run without interruption

  predicate Placed(w: World, j: Job) {
    match j.pc
    case TxCount(k) => k < |Txs(w, j)|
    case TxInsert(k) => k < |Txs(w, j)|
    case TxChaincode(k) => k < |Txs(w, j)|
    case TxTrans(k) => k < |Txs(w, j)|
    case Stamp => |Txs(w, j)| > 0
    case _ => true
  }

  /** Tables, log and task after all remaining sections of the task, nothing else running: it ends released,
      or with the throw. */
  function Solo(w: World, db: Db, log: multiset<Event>, j: Job): (Db, multiset<Event>, Job)
    requires Placed(w, j)
    decreases Remaining(w, j)
  {
    if j.pc.Released? then (db, log, j)
    else if Throws(w, j) then (db, log, j.(status := Threw))
    else
      var (pc, after, e) := RunJob(w, db, j);
      Solo(w, after, Log(log, e), j.(pc := pc))
  }

  /** One section of the uninterrupted run. */
  lemma SoloStep(w: World, db: Db, log: multiset<Event>, j: Job, pc: Pc, after: Db, logged: multiset<Event>)
    requires Placed(w, j) && !j.pc.Released? && !Throws(w, j)
    requires pc == RunJob(w, db, j).0 && after == RunJob(w, db, j).1 && logged == Log(log, RunJob(w, db, j).2)
    ensures Placed(w, j.(pc := pc)) && Solo(w, db, log, j) == Solo(w, after, logged, j.(pc := pc))
  {
  }

  lemma SoloThrows(w: World, db: Db, log: multiset<Event>, j: Job)
    requires Placed(w, j) && Throws(w, j)
    ensures Solo(w, db, log, j) == (db, log, j.(status := Threw))
  {
  }

  /** Tables, log and task are those of the uninterrupted run, and the lock list has lost the task's key
      if it was released. */
  ghost predicate EndsAs(w: World, s: State, i: nat, t: State)
    requires i < |s.jobs| && Placed(w, s.jobs[i])
  {
    && i < |t.jobs| && (t.db, t.log, t.jobs[i]) == Solo(w, s.db, s.log, s.jobs[i])
    && t.locks == if t.jobs[i].pc.Released? then Unlocked(s, s.jobs[i]) else s.locks
  }

  function Unlocked(s: State, j: Job): map<Net, seq<string>> {
    s.locks[j.net := TakeOut(Locks(s.locks, j.net), Key(j))]
  }

  lemma ThrowEnds(w: World, s: State, i: nat)
    requires Runs(s, i) && Placed(w, s.jobs[i]) && Throws(w, s.jobs[i])
    ensures EndsAs(w, s, i, JobStep(w, s, i))
  {
    SoloThrows(w, s.db, s.log, s.jobs[i]);
  }

  lemma SectionIsSoloStep(w: World, s: State, i: nat)
    requires Runs(s, i) && Placed(w, s.jobs[i]) && !Throws(w, s.jobs[i])
    ensures var t, j := JobStep(w, s, i), s.jobs[i];
      && t.jobs[i] == j.(pc := RunJob(w, s.db, j).0) && Placed(w, t.jobs[i])
      && Solo(w, s.db, s.log, j) == Solo(w, t.db, t.log, t.jobs[i])
      && t.locks == if t.jobs[i].pc.Released? then Unlocked(s, j) else s.locks
  {
    var t := JobStep(w, s, i);
    SoloStep(w, s.db, s.log, s.jobs[i], RunJob(w, s.db, s.jobs[i]).0, t.db, t.log);
  }

  lemma PlacedShortens(w: World, db: Db, j: Job)
    requires Placed(w, j) && j.pc != Released
    ensures Remaining(w, j.(pc := RunJob(w, db, j).0)) < Remaining(w, j)
  {
  }

  /** In the machine: scheduling only this task leads to exactly those tables, that log and that end. */
  lemma {:induction false} SoloIsASchedule(w: World, s: State, i: nat) returns (n: nat)
    requires Runs(s, i) && Placed(w, s.jobs[i])
    ensures EndsAs(w, s, i, Run(w, s, Alone(i, n)))
    decreases Remaining(w, s.jobs[i])
  {
    if Throws(w, s.jobs[i]) {
      n := 1;
      ThrowEnds(w, s, i);
      AloneOnce(w, s, i);
    } else {
      SectionIsSoloStep(w, s, i);
      PlacedShortens(w, s.db, s.jobs[i]);
      var t := JobStep(w, s, i);
      if t.jobs[i].pc.Released? {
        n := 1;
        AloneOnce(w, s, i);
      } else {
        var m := SoloIsASchedule(w, t, i);
        n := m + 1;
        AloneUnrolls(w, s, i, m);
      }
    }
  }

  lemma AloneOnce(w: World, s: State, i: nat)
    requires Runs(s, i)
    ensures Run(w, s, Alone(i, 1)) == JobStep(w, s, i)
  {
    assert Alone(i, 0) == [];
    AloneUnrolls(w, s, i, 0);
  }

  /** No transaction the task has yet to come to makes it throw. */
  ghost predicate Clear(w: World, j: Job) {
    && (Walked(w, j) < |Txs(w, j)| ==> j.num <= MAX_INTEGER)
    && forall k :: Walked(w, j) <= k < |Txs(w, j)| ==> !TxThrows(Txs(w, j)[k])
  }

  lemma ClearStep(w: World, db: Db, j: Job)
    requires Placed(w, j) && !j.pc.Released? && !Throws(w, j)
    ensures Clear(w, j.(pc := RunJob(w, db, j).0)) <==> Clear(w, j)
  {
    var next, txs := j.(pc := RunJob(w, db, j).0), Txs(w, j);
    if j.pc.TxCount? {
      assert Walked(w, next) == Walked(w, j) + 1;
      assert j.num <= MAX_INTEGER && !TxThrows(txs[j.pc.k]);
    } else {
      assert Walked(w, next) == Walked(w, j);
    }
    if Clear(w, next) {
      forall k | Walked(w, j) <= k < |txs|
        ensures !TxThrows(txs[k])
      {
        assert k >= Walked(w, next) ==> !TxThrows(Txs(w, next)[k]);
      }
    }
  }

  lemma ThrowIsNotClear(w: World, j: Job)
    requires Placed(w, j) && Throws(w, j)
    ensures !Clear(w, j)
  {
    assert j.num <= MAX_INTEGER ==> TxThrows(Txs(w, j)[j.pc.k]);
  }

  /** The uninterrupted run ends with a throw exactly when some transaction to come makes it throw. */
  lemma {:induction false} SoloEndsClear(w: World, db: Db, log: multiset<Event>, j: Job)
    requires Placed(w, j) && j.status == Running
    ensures Solo(w, db, log, j).2.status == Running <==> Clear(w, j)
    ensures Solo(w, db, log, j).2.status == Threw <==> !Clear(w, j)
    decreases Remaining(w, j)
  {
    if Throws(w, j) {
      SoloThrows(w, db, log, j);
      ThrowIsNotClear(w, j);
    } else if j.pc.Released? {
      assert Solo(w, db, log, j) == (db, log, j) && Walked(w, j) == |Txs(w, j)|;
    } else {
      var (pc, after, e) := RunJob(w, db, j);
      SoloStep(w, db, log, j, pc, after, Log(log, e));
      PlacedShortens(w, db, j);
      ClearStep(w, db, j);
      SoloEndsClear(w, after, Log(log, e), j.(pc := pc));
    }
  }

  lemma FreshIsClear(w: World, j: Job)
    requires j.pc.Stamp? && |Txs(w, j)| > 0
    ensures Clear(w, j) <==> j.num <= MAX_INTEGER && Processable(w.ledger(j.net, j.channel, j.num))
  {
    if Clear(w, j) {
      assert !TxThrows(Txs(w, j)[0]);
    }
  }

  function NewJob(w: World, net: Net, channel: Channel, num: nat, pc: Pc): Job {
    Job(net, channel, Genesis(w, net, channel), num, None, pc, Running)
  }

  /** The sections from a transaction's count to the next transaction. */
  lemma SoloTx(w: World, db: Db, log: multiset<Event>, j: Job, k: nat, saved: bool, after: Db, counted: multiset<Event>)
    requires k < |Txs(w, j)| && j == NewJob(w, j.net, j.channel, j.num, TxCount(k)) && !Throws(w, j)
    requires saved <==> TxRowOf(w, j.net, j.channel, j.num, k) !in db.txs
    requires saved ==>
      && after == db.(txs := db.txs + [TxRowOf(w, j.net, j.channel, j.num, k)], channels := Bump(db.channels, j.net, j.hash, 0, 1))
      && counted == log + multiset{TxCounted(j.net, j.hash)}
    requires !saved ==> after == db && counted == log
    ensures Solo(w, db, log, j) == Solo(w, after, counted, j.(pc := NextTx(|Txs(w, j)|, k)))
  {
    if saved {
      var inserted := db.(txs := db.txs + [TxRowOf(w, j.net, j.channel, j.num, k)]);
      SoloStep(w, db, log, j, TxInsert(k), db, log);
      SoloStep(w, db, log, j.(pc := TxInsert(k)), TxChaincode(k), inserted, log);
      SoloStep(w, inserted, log, j.(pc := TxChaincode(k)), TxTrans(k), inserted, log);
      SoloStep(w, inserted, log, j.(pc := TxTrans(k)), NextTx(|Txs(w, j)|, k), after, counted);
    } else {
      SoloStep(w, db, log, j, NextTx(|Txs(w, j)|, k), db, log);
    }
  }

  /** The sections from `saveBlock`'s count to the release. */
  lemma SoloTail(w: World, db: Db, log: multiset<Event>, j: Job, saved: bool, after: Db, counted: multiset<Event>)
    requires j == NewJob(w, j.net, j.channel, j.num, Stamp) && |Txs(w, j)| > 0
    requires saved <==> !HasSameBlock(db, RowOf(w, j.net, j.channel, j.num))
    requires saved ==>
      && after == db.(blocks := db.blocks + [RowOf(w, j.net, j.channel, j.num)], channels := Bump(db.channels, j.net, j.hash, 1, 0))
      && counted == log + multiset{BlockCounted(j.net, j.hash)}
    requires !saved ==> after == db && counted == log
    ensures Solo(w, db, log, j.(pc := BlkCount))
         == (after, if saved then counted + multiset{Notified(j.net, j.hash, j.num)} else counted, j.(pc := Released))
  {
    if saved {
      var inserted := db.(blocks := db.blocks + [RowOf(w, j.net, j.channel, j.num)]);
      SoloStep(w, db, log, j.(pc := BlkCount), BlkInsert, db, log);
      SoloStep(w, db, log, j.(pc := BlkInsert), BlkUpdate, inserted, log);
      SoloStep(w, inserted, log, j.(pc := BlkUpdate), Finish(true), after, counted);
    } else {
      SoloStep(w, db, log, j.(pc := BlkCount), Finish(false), db, log);
    }
    SoloEnd(w, after, counted, j, saved);
  }

  lemma SoloEnd(w: World, db: Db, log: multiset<Event>, j: Job, saved: bool)
    ensures Solo(w, db, log, j.(pc := Finish(saved)))
         == (db, if saved then log + multiset{Notified(j.net, j.hash, j.num)} else log, j.(pc := Released))
  {
    var sent := if saved then log + multiset{Notified(j.net, j.hash, j.num)} else log;
    SoloStep(w, db, log, j.(pc := Finish(saved)), Released, db, sent);
  }

  /** A key just pushed onto a list without it is found at the end. */
  lemma {:induction false} KeyIsLast(a: seq<string>, key: string)
    requires key !in a
    ensures IndexOf(a + [key], key) == |a| && Splice(a + [key], |a|) == a
  {
    if a != [] {
      assert (a + [key])[1..] == a[1..] + [key];
      KeyIsLast(a[1..], key);
    }
    assert Splice(a + [key], |a|) == a;
  }

  // ------------------------------------------------------- a call as a function

  /** What a call of one process finds and leaves: tables, log, and its `blocksInProcess`. */
  datatype Memory = Memory(db: Db, log: multiset<Event>, keys: seq<string>)

  function MemoryOf(s: State, net: Net): Memory {
    Memory(s.db, s.log, Locks(s.locks, net))
  }

  predicate Admits(w: World, m: Memory, known: set<Channel>, net: Net, channel: Channel, num: nat) {
    |w.ledger(net, channel, num).txs| > 0 && channel in known && BlockKey(channel, num) !in m.keys
  }

  /** What an uninterrupted `processBlockEvent` leaves: the key stays when the task throws. */
  function EventResult(w: World, m: Memory, known: set<Channel>, net: Net, channel: Channel, num: nat): Memory {
    if !Admits(w, m, known, net, channel, num) then m
    else
      var (db, log, j) := Solo(w, m.db, m.log, NewJob(w, net, channel, num, Stamp));
      Memory(db, log, if j.status == Threw then m.keys + [BlockKey(channel, num)] else m.keys)
  }

  /** Which pass awaits a task makes no difference to what the task does. */
  lemma {:induction false} SoloIgnoresPass(w: World, db: Db, log: multiset<Event>, j: Job, pass: Option<nat>)
    requires Placed(w, j)
    ensures Placed(w, j.(pass := pass))
    ensures Solo(w, db, log, j.(pass := pass))
         == (Solo(w, db, log, j).0, Solo(w, db, log, j).1, Solo(w, db, log, j).2.(pass := pass))
    decreases Remaining(w, j)
  {
    var other := j.(pass := pass);
    if j.pc.Released? {
    } else if Throws(w, j) {
      SoloThrows(w, db, log, j);
      SoloThrows(w, db, log, other);
    } else {
      var (pc, after, e) := RunJob(w, db, j);
      assert RunJob(w, db, other) == (pc, after, e);
      SoloStep(w, db, log, j, pc, after, Log(log, e));
      SoloStep(w, db, log, other, pc, after, Log(log, e));
      PlacedShortens(w, db, j);
      SoloIgnoresPass(w, after, Log(log, e), j.(pc := pc), pass);
    }
  }

  lemma {:induction false} AloneKeepsPasses(w: World, s: State, i: nat, n: nat)
    ensures Run(w, s, Alone(i, n)).passes == s.passes && Run(w, s, Alone(i, n)).known == s.known
  {
    if n > 0 {
      assert Alone(i, n)[..n - 1] == Alone(i, n - 1);
      AloneKeepsPasses(w, s, i, n - 1);
    }
  }

  /** A task that has just entered runs to its end. */
  lemma EnteredRuns(w: World, s: State, m: Memory, known: set<Channel>, net: Net, channel: Channel, num: nat, pass: Option<nat>)
    returns (path: seq<Action>)
    requires Admits(w, m, known, net, channel, num) && s.jobs != []
    requires s.jobs[|s.jobs| - 1] == NewJob(w, net, channel, num, Stamp).(pass := pass)
    requires MemoryOf(s, net) == m.(keys := m.keys + [BlockKey(channel, num)])
    ensures var t := Run(w, s, path);
      && t.passes == s.passes && t.known == s.known && JobSettled(t, |s.jobs| - 1)
      && MemoryOf(t, net) == EventResult(w, m, known, net, channel, num)
  {
    var i, j := |s.jobs| - 1, NewJob(w, net, channel, num, Stamp);
    var n := SoloIsASchedule(w, s, i);
    path := Alone(i, n);
    AloneKeepsPasses(w, s, i, n);
    SoloIgnoresPass(w, s.db, s.log, j, pass);
    SoloEnds(w, s.db, s.log, j);
    KeyIsLast(m.keys, BlockKey(channel, num));
  }

  /** The run ends released, or thrown. */
  lemma {:induction false} SoloEnds(w: World, db: Db, log: multiset<Event>, j: Job)
    requires Placed(w, j) && j.status == Running
    ensures var end := Solo(w, db, log, j).2; if end.status == Threw then end.pc != Released else end.pc == Released
    decreases Remaining(w, j)
  {
    if j.pc.Released? {
    } else if Throws(w, j) {
      SoloThrows(w, db, log, j);
    } else {
      var (pc, after, e) := RunJob(w, db, j);
      SoloStep(w, db, log, j, pc, after, Log(log, e));
      PlacedShortens(w, db, j);
      SoloEnds(w, after, Log(log, e), j.(pc := pc));
    }
  }

  // -------------------------------------------------------- what is left, plainly

  /** Rows kept, and at most this block's row added. */
  ghost predicate Grown(w: World, before: seq<BlockRow>, after: seq<BlockRow>, net: Net, channel: Channel, num: nat) {
    after == before || after == before + [RowOf(w, net, channel, num)]
  }

  predicate InTransactions(pc: Pc) {
    pc.Stamp? || pc.TxCount? || pc.TxInsert? || pc.TxChaincode? || pc.TxTrans?
  }

  /** The blocks table after the run: the row is added once at most, and is there if the task ends released. */
  lemma {:induction false} SoloBlocks(w: World, db: Db, log: multiset<Event>, j: Job)
    requires Placed(w, j) && j.status == Running && j.hash == Genesis(w, j.net, j.channel)
    ensures var (after, _, end) := Solo(w, db, log, j);
      && Grown(w, db.blocks, after.blocks, j.net, j.channel, j.num)
      && (end.status == Threw ==> InTransactions(j.pc))
      && (PastInsert(j) || end.status == Threw ==> after.blocks == db.blocks)
      && (!PastInsert(j) && end.status != Threw ==> HasBlock(after, j.net, j.hash, j.num))
    decreases Remaining(w, j)
  {
    if j.pc.Released? {
    } else if Throws(w, j) {
      SoloThrows(w, db, log, j);
    } else {
      var (pc, after, e) := RunJob(w, db, j);
      SoloStep(w, db, log, j, pc, after, Log(log, e));
      PlacedShortens(w, db, j);
      SoloBlocks(w, after, Log(log, e), j.(pc := pc));
      SectionBlocks(w, db, j);
    }
  }

  lemma SectionBlocks(w: World, db: Db, j: Job)
    requires j.hash == Genesis(w, j.net, j.channel)
    ensures var (pc, after, _) := RunJob(w, db, j);
      && (if j.pc.BlkInsert? then after.blocks == db.blocks + [RowOf(w, j.net, j.channel, j.num)] else after.blocks == db.blocks)
      && (j.pc.BlkInsert? ==> HasBlock(after, j.net, j.hash, j.num))
      && (PastInsert(j) ==> PastInsert(j.(pc := pc)))
      && (!PastInsert(j) && PastInsert(j.(pc := pc)) ==> HasBlock(after, j.net, j.hash, j.num))
  {
    var after := RunJob(w, db, j).1;
    if j.pc.BlkInsert? {
      assert RowOf(w, j.net, j.channel, j.num) in after.blocks;
    }
  }

  /** An admitted block that can be stored ends stored, with the keys as before; any other admitted block
      leaves its key and no row. */
  lemma EventFacts(w: World, m: Memory, known: set<Channel>, net: Net, channel: Channel, num: nat)
    ensures var r, storable := EventResult(w, m, known, net, channel, num), num <= MAX_INTEGER && Processable(w.ledger(net, channel, num));
      && Grown(w, m.db.blocks, r.db.blocks, net, channel, num)
      && r.keys == m.keys + (if Admits(w, m, known, net, channel, num) && !storable then [BlockKey(channel, num)] else [])
      && (Admits(w, m, known, net, channel, num) && storable ==> HasBlock(r.db, net, Genesis(w, net, channel), num))
      && (!Admits(w, m, known, net, channel, num) || !storable ==> r.db.blocks == m.db.blocks)
  {
    if Admits(w, m, known, net, channel, num) {
      var j := NewJob(w, net, channel, num, Stamp);
      SoloEndsClear(w, m.db, m.log, j);
      FreshIsClear(w, j);
      SoloBlocks(w, m.db, m.log, j);
    }
  }
}

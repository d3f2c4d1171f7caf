/** `SyncServices` and `CRUDService` as objects, each call run from start to end without interruption,
    tied to the step machine: an uninterrupted call is one of its schedules. */
module SyncService {
  import opened Text
  import opened JsArrays
  import opened Ledger
  import opened SyncMachine
  import opened SyncSolo
  import opened SyncSoloPass

  // ------------------------------------------------------------------- tables

  class CrudService {
    var blocks: seq<BlockRow>
    var transactions: seq<TxRow>
    var channels: seq<ChannelRow>
    /** Counting statements executed and notices sent. */
    var log: multiset<Event>

    constructor ()
      ensures Tables() == Db([], [], []) && log == multiset{}
    {
      blocks, transactions, channels, log := [], [], [], multiset{};
    }

    function Tables(): Db
      reads this
    {
      Db(blocks, transactions, channels)
    }

    /** `saveTransaction`: inserted and counted exactly when no row has the same key. */
    method SaveTransaction(row: TxRow) returns (saved: bool)
      modifies this
      ensures saved <==> row !in old(transactions)
      ensures blocks == old(blocks)
      ensures saved ==> transactions == old(transactions) + [row]
                        && channels == Bump(old(channels), row.net, row.hash, 0, 1)
                        && log == old(log) + multiset{TxCounted(row.net, row.hash)}
      ensures !saved ==> Tables() == old(Tables()) && log == old(log)
    {
      if HasTx(Tables(), row) {
        return false;
      }
      transactions := transactions + [row];
      channels := Bump(channels, row.net, row.hash, 0, 1);
      log := log + multiset{TxCounted(row.net, row.hash)};
      saved := true;
    }

    /** `saveBlock`: inserted and counted exactly when no row agrees on the six compared columns. */
    method SaveBlock(row: BlockRow) returns (saved: bool)
      modifies this
      ensures saved <==> !exists r <- old(blocks) ::
                r.num == row.num && r.txcount == row.txcount && r.hash == row.hash && r.net == row.net
                && r.prehash == row.prehash && r.datahash == row.datahash
      ensures saved <==> !HasSameBlock(old(Tables()), row)
      ensures transactions == old(transactions)
      ensures saved ==> blocks == old(blocks) + [row]
                        && channels == Bump(old(channels), row.net, row.hash, 1, 0)
                        && log == old(log) + multiset{BlockCounted(row.net, row.hash)}
      ensures !saved ==> Tables() == old(Tables()) && log == old(log)
      ensures HasBlock(Tables(), row.net, row.hash, row.num)
    {
      if HasSameBlock(Tables(), row) {
        return false;
      }
      blocks := blocks + [row];
      channels := Bump(channels, row.net, row.hash, 1, 0);
      log := log + multiset{BlockCounted(row.net, row.hash)};
      assert row in blocks;
      saved := true;
    }
  }

  // ------------------------------------------------------------ synchroniser

  /** What a call of `processBlockEvent` ends with: released, thrown before the push, or thrown after it. */
  datatype Outcome = Processed | Rejected | Stuck

  type Int32 = x: int | -0x8000_0000 <= x <= MAX_INTEGER

  class SyncServices {
    const net: Net
    const crud: CrudService
    var blocksInProcess: seq<string>
    var channelsGenHash: set<Channel>

    constructor (net: Net, crud: CrudService)
      ensures this.net == net && this.crud == crud && blocksInProcess == [] && channelsGenHash == {}
    {
      this.net, this.crud := net, crud;
      blocksInProcess, channelsGenHash := [], {};
    }

    function Remembered(): Memory
      reads this, crud
    {
      Memory(crud.Tables(), crud.log, blocksInProcess)
    }

    /** The checks before the push. */
    predicate Accepts(w: World, channel: Channel, num: nat)
      reads this
    {
      |w.ledger(net, channel, num).txs| > 0 && channel in channelsGenHash && BlockKey(channel, num) !in blocksInProcess
    }

    /** One transaction of the loop: the machine's sections from its count to the next transaction. */
    method SaveTx(w: World, channel: Channel, num: nat, k: nat, ghost j: Job)
      requires k < |w.ledger(net, channel, num).txs| && j == NewJob(w, net, channel, num, TxCount(k)) && !Throws(w, j)
      modifies crud
      ensures var next := j.(pc := NextTx(|w.ledger(net, channel, num).txs|, k));
        Solo(w, old(crud.Tables()), old(crud.log), j) == Solo(w, crud.Tables(), crud.log, next)
      ensures crud.blocks == old(crud.blocks)
    {
      ghost var db, log := crud.Tables(), crud.log;
      var saved := crud.SaveTransaction(TxRowOf(w, net, channel, num, k));
      SoloTx(w, db, log, j, k, saved, crud.Tables(), crud.log);
    }

    /** One round of the loop: the loop body throws, or else the first statement does, or the transaction
        is saved. */
    method ConvertAndSaveTx(w: World, channel: Channel, num: nat, k: nat, ghost j: Job) returns (threw: bool)
      requires k < |w.ledger(net, channel, num).txs| && j == NewJob(w, net, channel, num, TxCount(k))
      modifies crud
      ensures threw <==> TxThrows(w.ledger(net, channel, num).txs[k]) || num > MAX_INTEGER
      ensures threw ==> Solo(w, old(crud.Tables()), old(crud.log), j) == (crud.Tables(), crud.log, j.(status := Threw))
      ensures var next := j.(pc := NextTx(|w.ledger(net, channel, num).txs|, k));
        !threw ==> Solo(w, old(crud.Tables()), old(crud.log), j) == Solo(w, crud.Tables(), crud.log, next)
      ensures crud.blocks == old(crud.blocks)
    {
      if TxThrows(w.ledger(net, channel, num).txs[k]) || num > MAX_INTEGER {
        SoloThrows(w, crud.Tables(), crud.log, j);
        return true;
      }
      SaveTx(w, channel, num, k, j);
      threw := false;
    }

    /** The transaction loop. It ends early with the first throw; the tables and the log are always those of
        the machine's sections up to there. */
    method SaveTransactions(w: World, channel: Channel, num: nat, ghost j: Job) returns (threw: bool)
      requires |w.ledger(net, channel, num).txs| > 0 && j == NewJob(w, net, channel, num, Stamp)
      modifies crud
      ensures crud.blocks == old(crud.blocks)
      ensures threw ==>
                var (db, log, end) := Solo(w, old(crud.Tables()), old(crud.log), j);
                crud.Tables() == db && crud.log == log && end.status.Threw?
      ensures !threw ==>
                Solo(w, old(crud.Tables()), old(crud.log), j) == Solo(w, crud.Tables(), crud.log, j.(pc := BlkCount))
    {
      var txLen := |w.ledger(net, channel, num).txs|;
      ghost var whole := Solo(w, crud.Tables(), crud.log, j);
      SoloStep(w, crud.Tables(), crud.log, j, TxCount(0), crud.Tables(), crud.log);
      for txIndex := 0 to txLen
        invariant crud.blocks == old(crud.blocks)
        invariant whole == Solo(w, crud.Tables(), crud.log, j.(pc := if txIndex < txLen then TxCount(txIndex) else BlkCount))
      {
        threw := ConvertAndSaveTx(w, channel, num, txIndex, j.(pc := TxCount(txIndex)));
        if threw {
          return;
        }
      }
      threw := false;
    }

    /** `processBlockEvent` without interruption: it leaves what the machine's task, run alone, leaves. A
        storable block ends stored, with the lock list as before; otherwise an accepted call throws with
        the key pushed and no block row, after saving the transactions before the throw. */
    method ProcessBlockEvent(w: World, channel: Channel, num: nat) returns (outcome: Outcome)
      modifies this`blocksInProcess, crud
      ensures Remembered() == EventResult(w, old(Remembered()), channelsGenHash, net, channel, num)
      ensures outcome == (if !old(Accepts(w, channel, num)) then Rejected
                          else if num <= MAX_INTEGER && Processable(w.ledger(net, channel, num)) then Processed
                          else Stuck)
      ensures outcome.Processed? ==> HasBlock(crud.Tables(), net, Genesis(w, net, channel), num)
      ensures blocksInProcess == old(blocksInProcess) + (if outcome.Stuck? then [BlockKey(channel, num)] else [])
    {
      ghost var m := Remembered();
      EventFacts(w, m, channelsGenHash, net, channel, num);
      if !Accepts(w, channel, num) {
        return Rejected;
      }
      blocksInProcess := blocksInProcess + [BlockKey(channel, num)];
      var threw := SaveAll(w, channel, num);
      if threw {
        return Stuck;
      }
      IndexOfRange(blocksInProcess, BlockKey(channel, num));
      KeyIsLast(m.keys, BlockKey(channel, num));
      blocksInProcess := Splice(blocksInProcess, IndexOf(blocksInProcess, BlockKey(channel, num)));
      outcome := Processed;
    }

    /** From the push to the release: the transactions, then the block, then the notice. */
    method SaveAll(w: World, channel: Channel, num: nat) returns (threw: bool)
      requires |w.ledger(net, channel, num).txs| > 0
      modifies crud
      ensures var (db, log, end) := Solo(w, old(crud.Tables()), old(crud.log), NewJob(w, net, channel, num, Stamp));
        crud.Tables() == db && crud.log == log && (threw <==> end.status == Threw)
      ensures threw <==> !(num <= MAX_INTEGER && Processable(w.ledger(net, channel, num)))
    {
      ghost var j := NewJob(w, net, channel, num, Stamp);
      SoloEndsClear(w, crud.Tables(), crud.log, j);
      FreshIsClear(w, j);
      threw := SaveTransactions(w, channel, num, j);
      if threw {
        return;
      }
      ghost var db, log := crud.Tables(), crud.log;
      var saved := crud.SaveBlock(RowOf(w, net, channel, num));
      ghost var counted := crud.log;
      if saved {
        // platform.send
        crud.log := crud.log + multiset{Notified(net, Genesis(w, net, channel), num)};
      }
      SoloTail(w, db, log, j, saved, crud.Tables(), counted);
    }

    /** `syncBlocks` without interruption: it leaves what the machine's pass, run alone, leaves. `fetched` and
        `refetched` say which ledger queries of its two loops return a block. */
    method SyncBlocks(w: World, channel: Channel, height: Int32, fetched: nat -> bool, refetched: nat -> bool)
      modifies this`blocksInProcess, crud
      ensures Remembered() == PassResult(w, old(Remembered()), channelsGenHash, net, channel, height, fetched, refetched)
      ensures channel in channelsGenHash && WindowStart(w.boot(net), height - 1).Some? ==>
                var undelivered := PassUndelivered(w, old(Remembered()), channelsGenHash, net, channel, height, fetched, refetched);
                forall n: nat | WindowStart(w.boot(net), height - 1).value <= n < height ::
                  Accounted(w, crud.Tables(), blocksInProcess, net, channel, undelivered, n)
    {
      var window := WindowStart(w.boot(net), height - 1);
      ghost var m := Remembered();
      if channel in channelsGenHash && window.Some? {
        PassFacts(w, m, channelsGenHash, net, channel, height, fetched, refetched);
      }
      if window.None? {
        return;
      }
      LoadWindow(w, channel, window.value, height - 1, fetched);
      FillGaps(w, channel, window.value, height - 1, refetched);
    }

    /** The first loop: from the latest block down to the window's start, skipping numbers that any
        network has stored. */
    method LoadWindow(w: World, channel: Channel, start: nat, latest: int, fetched: nat -> bool)
      modifies this`blocksInProcess, crud
      ensures Remembered() == LoadsResult(w, old(Remembered()), channelsGenHash, net, channel, start, latest, fetched)
    {
      var blockHeight := latest;
      while blockHeight >= start
        invariant LoadsResult(w, old(Remembered()), channelsGenHash, net, channel, start, latest, fetched)
               == LoadsResult(w, Remembered(), channelsGenHash, net, channel, start, blockHeight, fetched)
        decreases blockHeight + 1
      {
        if fetched(blockHeight) && !AvailableInAnyNetwork(crud.Tables(), Genesis(w, net, channel), blockHeight) {
          var _ := ProcessBlockEvent(w, channel, blockHeight);
        }
        blockHeight := blockHeight - 1;
      }
    }

    /** The second loop: the numbers of the window that this network has no row for, ascending. */
    method FillGaps(w: World, channel: Channel, start: nat, latest: int, refetched: nat -> bool)
      modifies this`blocksInProcess, crud
      ensures Remembered() == FillsResult(w, old(Remembered()), channelsGenHash, net, channel,
                                          Todos(w, old(Remembered()), net, channel, start, latest), refetched)
    {
      var todo := FilterFrom(MissingNumbers(crud.Tables(), net, Genesis(w, net, channel), latest), start);
      for i := 0 to |todo|
        invariant FillsResult(w, old(Remembered()), channelsGenHash, net, channel, todo, refetched)
               == FillsResult(w, Remembered(), channelsGenHash, net, channel, todo[i..], refetched)
      {
        if refetched(todo[i]) {
          var _ := ProcessBlockEvent(w, channel, todo[i]);
        }
        assert todo[i..][0] == todo[i] && todo[i..][1..] == todo[i + 1..];
      }
      assert todo[|todo|..] == [];
    }
  }
}

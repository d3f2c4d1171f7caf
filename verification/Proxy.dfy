/** The read side: block lookup through the database to the ledger, block ranges, organisation totals. */
module Proxy {
  import opened Options
  import opened Text
  import opened JsonTree
  import opened Ledger
  import opened SyncMachine
  import opened SyncRows
  import opened SyncSafety
  import opened SyncRegistration

  // ------------------------------------------------------------- block data

  datatype BlockData = BlockData(
    channelname: Option<Channel>, blocknum: nat, datahash: string, prehash: string, txcount: nat,
    createdt: int, blockhash: Hash, blksize: nat, txhash: seq<string>)

  /** A block, the text `response_payloads is null`, or an exception. */
  datatype Answer = Data(data: BlockData) | NotFound | Thrown

  /** `array_agg(txhash)` over the block's transaction rows. */
  function AggregatedHashes(txs: seq<TxRow>, net: Net, hash: Hash, num: nat): seq<string> {
    if txs == [] then []
    else
      var t := txs[|txs| - 1];
      AggregatedHashes(txs[..|txs| - 1], net, hash, num)
        + (if t.net == net && t.hash == hash && t.num == num then [t.txhash] else [])
  }

  function ChannelNames(rows: seq<ChannelRow>, net: Net, hash: Hash): seq<Channel> {
    if rows == [] then []
    else
      var c := rows[|rows| - 1];
      ChannelNames(rows[..|rows| - 1], net, hash) + (if c.net == net && c.hash == hash then [c.name] else [])
  }

  function FindBlock(rows: seq<BlockRow>, net: Net, hash: Hash, num: nat): Option<BlockRow> {
    if rows == [] then None
    else if rows[0].net == net && rows[0].hash == hash && rows[0].num == num then Some(rows[0])
    else FindBlock(rows[1..], net, hash, num)
  }

  /** The columns of a block row, with the channel's name and the hashes. */
  function FromRow(r: BlockRow, name: Option<Channel>, hashes: seq<string>): BlockData {
    BlockData(name, r.num, r.datahash, r.prehash, r.txcount, r.createdt, r.blockhash, r.blksize, hashes)
  }

  /** Everything the two forms report apart from the channel name and the transaction hashes. */
  predicate Agree(a: BlockData, b: BlockData) {
    a.(channelname := b.channelname, txhash := b.txhash) == b
  }

  /** `getBlockByBlocknum`: PostgreSQL rejects a number beyond `integer`; there is no row without a block or
      without transactions; the name subquery fails when the channel has two rows. */
  function BlockFromDb(db: Db, net: Net, hash: Hash, num: nat): Answer {
    if num > MAX_INTEGER then Thrown
    else
      match FindBlock(db.blocks, net, hash, num)
      case None => NotFound
      case Some(r) =>
        var names, hashes := ChannelNames(db.channels, net, hash), AggregatedHashes(db.txs, net, hash, num);
        if |names| > 1 then Thrown
        else if hashes == [] then NotFound
        else Data(FromRow(r, if names == [] then None else Some(names[0]), hashes))
  }

  /** The ledger's form of a block: every transaction under its `tx_id`. */
  function BlockFromLedger(w: World, net: Net, hash: Hash, num: nat): Answer {
    var block := w.ledger(net, w.nameOf(net, hash), num);
    if block.txs == [] then Thrown
    else Data(BlockData(Some(w.nameOf(net, hash)), block.header.number, Hex(block.header.dataHash), Hex(block.header.previousHash),
                        |block.txs|, block.time, BlockHash(w, block.header), KiloBytes(Bytes(block.json)), Ids(block.txs)))
  }

  function Ids(txs: seq<Tx>): seq<string> {
    seq(|txs|, i requires 0 <= i < |txs| => txs[i].id)
  }

  /** `formatBlockData`, collecting the ids in a loop: the fields of the row that processing the block
      stores, and the id of each transaction at its place. A block without transactions throws. */
  method FormatBlockData(w: World, net: Net, channel: Channel, num: nat) returns (answer: Answer)
    ensures answer.Thrown? <==> |w.ledger(net, channel, num).txs| == 0
    ensures !answer.NotFound?
    ensures answer.Data? ==>
              var row, txs := RowOf(w, net, channel, num), w.ledger(net, channel, num).txs;
              && Agree(answer.data, FromRow(row.(num := w.ledger(net, channel, num).header.number), Some(channel), []))
              && answer.data.channelname == Some(channel)
              && |answer.data.txhash| == |txs| && forall k :: 0 <= k < |txs| ==> answer.data.txhash[k] == txs[k].id
    ensures w.nameOf(net, Genesis(w, net, channel)) == channel ==>
              answer == BlockFromLedger(w, net, Genesis(w, net, channel), num)
  {
    var block := w.ledger(net, channel, num);
    if block.txs == [] {
      return Thrown;
    }
    var txArray := [];
    for txIndex := 0 to |block.txs|
      invariant txArray == Ids(block.txs)[..txIndex]
    {
      txArray := txArray + [block.txs[txIndex].id];
    }
    answer := Data(BlockData(Some(channel), block.header.number, Hex(block.header.dataHash), Hex(block.header.previousHash),
                             |block.txs|, block.time, BlockHash(w, block.header), KiloBytes(Bytes(block.json)), txArray));
  }

  /** `dataByBlockNo`: the database first, the ledger when it has no row; `fetched` says whether the
      ledger query returns a block. */
  function DataByBlockNo(w: World, db: Db, net: Net, hash: Hash, num: nat, fetched: bool): Answer {
    var stored := BlockFromDb(db, net, hash, num);
    if stored != NotFound then stored
    else if fetched then BlockFromLedger(w, net, hash, num) else NotFound
  }

  // -------------------------------------------------------------- agreement

  lemma {:induction false} FindBlockFinds(rows: seq<BlockRow>, net: Net, hash: Hash, num: nat)
    ensures FindBlock(rows, net, hash, num).Some? <==> exists r <- rows :: r.net == net && r.hash == hash && r.num == num
    ensures FindBlock(rows, net, hash, num).Some? ==>
              var r := FindBlock(rows, net, hash, num).value; r in rows && r.net == net && r.hash == hash && r.num == num
  {
    if rows != [] {
      FindBlockFinds(rows[1..], net, hash, num);
      assert rows == [rows[0]] + rows[1..];
    }
  }

  lemma {:induction false} AggregatedAreStored(txs: seq<TxRow>, net: Net, hash: Hash, num: nat)
    ensures forall x :: x in AggregatedHashes(txs, net, hash, num) <==> TxRow(net, hash, num, x) in txs
  {
    if txs != [] {
      AggregatedAreStored(txs[..|txs| - 1], net, hash, num);
      assert txs == txs[..|txs| - 1] + [txs[|txs| - 1]];
    }
  }

  /** Each stored row of the block gives its hash once. */
  lemma {:induction false} AggregatedOnceEach(txs: seq<TxRow>, net: Net, hash: Hash, num: nat, x: string)
    ensures multiset(AggregatedHashes(txs, net, hash, num))[x] == multiset(txs)[TxRow(net, hash, num, x)]
  {
    if txs != [] {
      var front, last := txs[..|txs| - 1], txs[|txs| - 1];
      AggregatedOnceEach(front, net, hash, num, x);
      assert txs == front + [last];
      assert multiset(txs) == multiset(front) + multiset{last};
      assert AggregatedHashes(txs, net, hash, num)
          == AggregatedHashes(front, net, hash, num) + (if last.net == net && last.hash == hash && last.num == num then [last.txhash] else []);
    }
  }

  predicate IsRowOf(c: ChannelRow, net: Net, hash: Hash) {
    c.net == net && c.hash == hash
  }

  /** Two positions of the channel table have this network and genesis hash. */
  ghost predicate TwoRows(rows: seq<ChannelRow>, net: Net, hash: Hash) {
    exists i, j :: 0 <= i < j < |rows| && IsRowOf(rows[i], net, hash) && IsRowOf(rows[j], net, hash)
  }

  ghost predicate AnyRow(rows: seq<ChannelRow>, net: Net, hash: Hash) {
    exists i :: 0 <= i < |rows| && IsRowOf(rows[i], net, hash)
  }

  lemma {:induction false} NamesAreRows(rows: seq<ChannelRow>, net: Net, hash: Hash)
    ensures |ChannelNames(rows, net, hash)| > 1 <==> TwoRows(rows, net, hash)
    ensures |ChannelNames(rows, net, hash)| > 0 <==> AnyRow(rows, net, hash)
    ensures forall x <- ChannelNames(rows, net, hash) :: exists c <- rows :: IsRowOf(c, net, hash) && c.name == x
  {
    if rows != [] {
      var front, last := rows[..|rows| - 1], rows[|rows| - 1];
      NamesAreRows(front, net, hash);
      assert rows == front + [last];
      RowsUnfold(front, last, net, hash);
      forall x | x in ChannelNames(rows, net, hash)
        ensures exists c <- rows :: IsRowOf(c, net, hash) && c.name == x
      {
        if x in ChannelNames(front, net, hash) {
          var c :| c in front && IsRowOf(c, net, hash) && c.name == x;
          assert c in rows;
        } else {
          assert last in rows && IsRowOf(last, net, hash);
        }
      }
    }
  }

  lemma RowsUnfold(front: seq<ChannelRow>, last: ChannelRow, net: Net, hash: Hash)
    ensures AnyRow(front + [last], net, hash) <==> AnyRow(front, net, hash) || IsRowOf(last, net, hash)
    ensures TwoRows(front + [last], net, hash) <==> TwoRows(front, net, hash) || (AnyRow(front, net, hash) && IsRowOf(last, net, hash))
  {
    var rows := front + [last];
    assert rows[|front|] == last && forall i :: 0 <= i < |front| ==> rows[i] == front[i];
  }

  /** The hashes read from the database are those the block's transactions are stored under. */
  lemma StoredHashes(w: World, schedule: seq<Action>, net: Net, channel: Channel, num: nat, x: string)
    requires WellFormed(w) && channel in w.channels(net) && HasBlock(After(w, schedule).db, net, Genesis(w, net, channel), num)
    ensures x in AggregatedHashes(After(w, schedule).db.txs, net, Genesis(w, net, channel), num)
       <==> exists tx <- w.ledger(net, channel, num).txs :: TxHash(w, tx) == x
  {
    var db, hash, txs := After(w, schedule).db, Genesis(w, net, channel), w.ledger(net, channel, num).txs;
    AggregatedAreStored(db.txs, net, hash, num);
    StoredBlockIsComplete(w, schedule, net, channel, num);
    AfterIsGood(w, schedule);
    assert w.nameOf(net, hash) == channel;
    if TxRow(net, hash, num, x) in db.txs {
      assert TxOk(w, TxRow(net, hash, num, x));
      var k :| 0 <= k < |txs| && TxRow(net, hash, num, x) == TxRowOf(w, net, channel, num, k);
      assert txs[k] in txs;
    }
    if tx :| tx in txs && TxHash(w, tx) == x {
      var k :| 0 <= k < |txs| && txs[k] == tx;
      assert TxRowOf(w, net, channel, num, k) in db.txs;
    }
  }

  /** The name subquery gives the channel's own name. */
  lemma NameIsChannel(w: World, schedule: seq<Action>, net: Net, channel: Channel)
    requires WellFormed(w) && channel in w.channels(net)
    requires !TwoRows(After(w, schedule).db.channels, net, Genesis(w, net, channel))
    ensures var rows, hash := After(w, schedule).db.channels, Genesis(w, net, channel);
      ChannelNames(rows, net, hash) == if AnyRow(rows, net, hash) then [channel] else []
  {
    var rows, hash := After(w, schedule).db.channels, Genesis(w, net, channel);
    NamesAreRows(rows, net, hash);
    RowsKnowGenesis(w, schedule);
    var names := ChannelNames(rows, net, hash);
    if AnyRow(rows, net, hash) {
      assert names[0] in names;
      var c :| c in rows && IsRowOf(c, net, hash) && c.name == names[0];
      assert RowKnowsGenesis(w, c) && w.nameOf(net, hash) == c.name == channel;
    }
  }

  lemma StoredAnswer(w: World, schedule: seq<Action>, net: Net, channel: Channel, num: nat)
    requires WellFormed(w) && channel in w.channels(net) && HasBlock(After(w, schedule).db, net, Genesis(w, net, channel), num)
    requires !TwoRows(After(w, schedule).db.channels, net, Genesis(w, net, channel))
    ensures var stored := BlockFromDb(After(w, schedule).db, net, Genesis(w, net, channel), num);
      && stored.Data?
      && stored.data.txhash == AggregatedHashes(After(w, schedule).db.txs, net, Genesis(w, net, channel), num)
      && Agree(stored.data, FromRow(RowOf(w, net, channel, num), None, []))
      && stored.data.channelname == (if AnyRow(After(w, schedule).db.channels, net, Genesis(w, net, channel)) then Some(channel) else None)
  {
    var db, hash := After(w, schedule).db, Genesis(w, net, channel);
    NameIsChannel(w, schedule, net, channel);
    FindBlockFinds(db.blocks, net, hash, num);
    StoredBlockIsComplete(w, schedule, net, channel, num);
    var first := w.ledger(net, channel, num).txs[0];
    StoredHashes(w, schedule, net, channel, num, TxHash(w, first));
    assert first in w.ledger(net, channel, num).txs;
    var r := FindBlock(db.blocks, net, hash, num).value;
    AfterIsGood(w, schedule);
    assert RowOk(w, db, r) && w.nameOf(net, hash) == channel;
  }

  /** In every reachable state a stored block reads the same from the database as from the ledger:
      all fields, and the set of transaction hashes when there is no CONFIG transaction. */
  lemma ReadThroughAgrees(w: World, schedule: seq<Action>, net: Net, channel: Channel, num: nat)
    requires WellFormed(w) && channel in w.channels(net) && HasBlock(After(w, schedule).db, net, Genesis(w, net, channel), num)
    requires !TwoRows(After(w, schedule).db.channels, net, Genesis(w, net, channel))
    ensures var hash := Genesis(w, net, channel);
      var stored, direct := BlockFromDb(After(w, schedule).db, net, hash, num), BlockFromLedger(w, net, hash, num);
      && stored.Data? && direct.Data?
      && stored.data.(channelname := direct.data.channelname, txhash := direct.data.txhash) == direct.data
      && direct.data.channelname == Some(channel)
      && stored.data.channelname == (if AnyRow(After(w, schedule).db.channels, net, hash) then Some(channel) else None)
      && ((forall tx <- w.ledger(net, channel, num).txs :: !tx.config) ==>
            forall x :: x in stored.data.txhash <==> x in direct.data.txhash)
  {
    var hash, block := Genesis(w, net, channel), w.ledger(net, channel, num);
    assert w.nameOf(net, hash) == channel && block.header.number == num;
    StoredAnswer(w, schedule, net, channel, num);
    StoredBlockIsComplete(w, schedule, net, channel, num);
    var stored, direct := BlockFromDb(After(w, schedule).db, net, hash, num), BlockFromLedger(w, net, hash, num);
    if forall tx <- block.txs :: !tx.config {
      forall x
        ensures x in stored.data.txhash <==> x in direct.data.txhash
      {
        StoredHashes(w, schedule, net, channel, num, x);
        IdsAreHashes(w, block, x);
      }
    }
  }

  lemma IdsAreHashes(w: World, block: Block, x: string)
    requires forall tx <- block.txs :: !tx.config
    ensures x in Ids(block.txs) <==> exists tx <- block.txs :: TxHash(w, tx) == x
  {
    if x in Ids(block.txs) {
      var k :| 0 <= k < |block.txs| && Ids(block.txs)[k] == x;
      assert block.txs[k] in block.txs && TxHash(w, block.txs[k]) == x;
    }
    if tx :| tx in block.txs && TxHash(w, tx) == x {
      var k :| 0 <= k < |block.txs| && block.txs[k] == tx;
      assert Ids(block.txs)[k] == x;
    }
  }

  /** With a CONFIG transaction the two lists differ, unless its digest happens to be some `tx_id`. */
  lemma ConfigHashesDiffer(w: World, schedule: seq<Action>, net: Net, channel: Channel, num: nat, k: nat)
    requires WellFormed(w) && channel in w.channels(net) && HasBlock(After(w, schedule).db, net, Genesis(w, net, channel), num)
    requires !TwoRows(After(w, schedule).db.channels, net, Genesis(w, net, channel))
    requires k < |w.ledger(net, channel, num).txs| && w.ledger(net, channel, num).txs[k].config
    requires TxHash(w, w.ledger(net, channel, num).txs[k]) !in Ids(w.ledger(net, channel, num).txs)
    ensures var hash := Genesis(w, net, channel);
      var stored, direct := BlockFromDb(After(w, schedule).db, net, hash, num), BlockFromLedger(w, net, hash, num);
      stored.Data? && direct.Data? && exists x <- stored.data.txhash :: x !in direct.data.txhash
  {
    var hash, block := Genesis(w, net, channel), w.ledger(net, channel, num);
    assert w.nameOf(net, hash) == channel;
    ReadThroughAgrees(w, schedule, net, channel, num);
    StoredAnswer(w, schedule, net, channel, num);
    StoredHashes(w, schedule, net, channel, num, TxHash(w, block.txs[k]));
    assert block.txs[k] in block.txs;
  }

  /** The lookup throws, although the block is stored, exactly when the channel was registered twice. */
  lemma LookupThrowsOnTwoRows(w: World, schedule: seq<Action>, net: Net, channel: Channel, num: nat, fetched: bool)
    requires WellFormed(w) && channel in w.channels(net) && HasBlock(After(w, schedule).db, net, Genesis(w, net, channel), num)
    ensures DataByBlockNo(w, After(w, schedule).db, net, Genesis(w, net, channel), num, fetched) == Thrown
       <==> TwoRows(After(w, schedule).db.channels, net, Genesis(w, net, channel))
  {
    var db, hash := After(w, schedule).db, Genesis(w, net, channel);
    FindBlockFinds(db.blocks, net, hash, num);
    if TwoRows(db.channels, net, hash) {
      NamesAreRows(db.channels, net, hash);
      var r :| r in db.blocks && r.net == net && r.hash == hash && r.num == num;
      StoredBlockIsComplete(w, schedule, net, channel, num);
    } else {
      StoredAnswer(w, schedule, net, channel, num);
    }
  }

  /** A block that is not stored is answered by the ledger alone, if the database can be asked for it. */
  lemma UnstoredComesFromLedger(w: World, db: Db, net: Net, hash: Hash, num: nat, fetched: bool)
    requires !HasBlock(db, net, hash, num)
    ensures DataByBlockNo(w, db, net, hash, num, fetched)
         == if num > MAX_INTEGER then Thrown else if fetched then BlockFromLedger(w, net, hash, num) else NotFound
  {
    FindBlockFinds(db.blocks, net, hash, num);
  }

  // ------------------------------------------------------------ block ranges

  /** What `fetchDataByBlockRange` returns: blocks, the not-found text, `undefined`, or an exception. */
  datatype RangeAnswer = Blocks(blocks: seq<BlockData>) | RangeNotFound | RangeUndefined | RangeThrown

  /** The run of blocks up to the first other answer, and what that answer makes of it. */
  ghost predicate CollectedFrom(answers: int -> Answer, start: int, end: int, r: RangeAnswer, stop: int) {
    && (r.RangeUndefined? <==> end < start)
    && (start <= end ==>
          && start <= stop <= end + 1
          && (forall i :: start <= i < stop ==> answers(i).Data?)
          && (stop <= end ==> !answers(stop).Data?))
    && (r.RangeThrown? <==> start <= end && stop <= end && answers(stop).Thrown?)
    && (r.RangeNotFound? <==> start <= end && answers(start).NotFound?)
    && (r.Blocks? ==> |r.blocks| == stop - start > 0 && forall i :: start <= i < stop ==> answers(i) == Data(r.blocks[i - start]))
  }

  /** The loop of `fetchDataByBlockRange`, for whatever the lookups answer. */
  method CollectBlocks(answers: int -> Answer, startBlockNo: int, endBlockNo: int) returns (r: RangeAnswer, ghost stop: int)
    ensures CollectedFrom(answers, startBlockNo, endBlockNo, r, stop)
  {
    var blockArray := [];
    var blockValue := None;
    var index := startBlockNo;
    stop := startBlockNo;
    while index <= endBlockNo
      invariant startBlockNo <= index && (startBlockNo <= endBlockNo ==> index <= endBlockNo + 1)
      invariant |blockArray| == index - startBlockNo
      invariant endBlockNo < startBlockNo ==> index == startBlockNo
      invariant forall i :: startBlockNo <= i < index ==> answers(i) == Data(blockArray[i - startBlockNo])
      invariant blockValue.None? <==> index == startBlockNo
      invariant stop == index
    {
      var answer := answers(index);
      blockValue := Some(answer);
      if answer.Thrown? {
        return RangeThrown, index;
      }
      if answer.NotFound? {
        break;
      }
      blockArray := blockArray + [answer.data];
      index := index + 1;
      stop := index;
    }
    if |blockArray| > 0 {
      r := Blocks(blockArray);
    } else if blockValue.Some? {
      r := RangeNotFound;
    } else {
      r := RangeUndefined;
    }
  }

  /** When the lookup of one block of the range comes to its turn: the run that led there, and whether
      the ledger query, if it comes to that, gives a block. */
  datatype Turn = Turn(run: seq<Action>, fetched: bool)

  /** PostgreSQL compares block numbers as `integer` and rejects any other. */
  predicate InColumn(num: int) {
    MIN_INTEGER <= num <= MAX_INTEGER
  }

  const MIN_INTEGER := -0x8000_0000

  /** The lookup of any number; the ledger has no block with a negative one. */
  function AnswerAt(w: World, turn: Turn, net: Net, hash: Hash, num: int): Answer {
    if num >= 0 then DataByBlockNo(w, After(w, turn.run).db, net, hash, num, turn.fetched)
    else if num < MIN_INTEGER then Thrown
    else NotFound
  }

  ghost predicate StoredAt(w: World, turn: Turn, net: Net, channel: Channel, num: int) {
    num >= 0 && HasBlock(After(w, turn.run).db, net, Genesis(w, net, channel), num)
  }

  /** A number the database can be asked for, and neither there nor delivered by the ledger. */
  ghost predicate MissingAt(w: World, turn: Turn, net: Net, channel: Channel, num: int) {
    InColumn(num) && (num < 0 || (!HasBlock(After(w, turn.run).db, net, Genesis(w, net, channel), num) && !turn.fetched))
  }

  /** The lookup throws for a number beyond the column type; for a stored block, when the channel has two
      rows; for an unstored one, when the ledger delivers a block without transactions. */
  ghost predicate ThrowsAt(w: World, turn: Turn, net: Net, channel: Channel, num: int) {
    !InColumn(num) ||
    (num >= 0 &&
     if StoredAt(w, turn, net, channel, num)
     then TwoRows(After(w, turn.run).db.channels, net, Genesis(w, net, channel))
     else turn.fetched && w.ledger(net, channel, num).txs == [])
  }

  /** The data of a block, whether it comes from the tables or from the ledger. */
  ghost predicate IsBlock(w: World, data: BlockData, net: Net, channel: Channel, num: int) {
    num >= 0 && Agree(data, FromRow(RowOf(w, net, channel, num), None, []))
  }

  ghost predicate AreBlocks(w: World, blocks: seq<BlockData>, net: Net, channel: Channel, start: int) {
    forall k :: 0 <= k < |blocks| ==> IsBlock(w, blocks[k], net, channel, start + k)
  }

  ghost predicate Means(w: World, answer: Answer, turn: Turn, net: Net, channel: Channel, num: int) {
    && (answer.NotFound? <==> MissingAt(w, turn, net, channel, num))
    && (answer.Thrown? <==> ThrowsAt(w, turn, net, channel, num))
    && (answer.Data? ==> IsBlock(w, answer.data, net, channel, num))
  }

  /** The three answers: not found when neither database nor ledger has the block, thrown as above, and
      otherwise the block's data. */
  lemma AnswerIs(w: World, turn: Turn, net: Net, channel: Channel, num: int)
    requires WellFormed(w) && channel in w.channels(net)
    ensures Means(w, AnswerAt(w, turn, net, Genesis(w, net, channel), num), turn, net, channel, num)
  {
    var hash := Genesis(w, net, channel);
    if StoredAt(w, turn, net, channel, num) {
      LookupThrowsOnTwoRows(w, turn.run, net, channel, num, turn.fetched);
      if !ThrowsAt(w, turn, net, channel, num) {
        StoredAnswer(w, turn.run, net, channel, num);
      }
    } else if num >= 0 {
      UnstoredComesFromLedger(w, After(w, turn.run).db, net, hash, num, turn.fetched);
      assert w.nameOf(net, hash) == channel && w.ledger(net, channel, num).header.number == num;
    }
  }

  /** Which transactions and name an answer tells: for a stored block the hashes its transactions are stored
      under, each once, and the channel's name if it has a row; for any other the ids in order and the name. */
  ghost predicate TellsMore(w: World, data: BlockData, turn: Turn, net: Net, channel: Channel, num: nat) {
    var txs := w.ledger(net, channel, num).txs;
    if StoredAt(w, turn, net, channel, num) then
      && (forall x :: multiset(data.txhash)[x] == if exists tx <- txs :: TxHash(w, tx) == x then 1 else 0)
      && data.channelname == (if AnyRow(After(w, turn.run).db.channels, net, Genesis(w, net, channel)) then Some(channel) else None)
    else
      && |data.txhash| == |txs| && (forall k :: 0 <= k < |txs| ==> data.txhash[k] == txs[k].id)
      && data.channelname == Some(channel)
  }

  /** The database is asked first: a stored block is told as it is stored, any other as the ledger has it. */
  lemma AnswerTells(w: World, turn: Turn, net: Net, channel: Channel, num: nat)
    requires WellFormed(w) && channel in w.channels(net) && AnswerAt(w, turn, net, Genesis(w, net, channel), num).Data?
    ensures TellsMore(w, AnswerAt(w, turn, net, Genesis(w, net, channel), num).data, turn, net, channel, num)
  {
    var hash, db := Genesis(w, net, channel), After(w, turn.run).db;
    if StoredAt(w, turn, net, channel, num) {
      LookupThrowsOnTwoRows(w, turn.run, net, channel, num, turn.fetched);
      StoredAnswer(w, turn.run, net, channel, num);
      AfterIsGood(w, turn.run);
      forall x
        ensures multiset(AggregatedHashes(db.txs, net, hash, num))[x]
             == if exists tx <- w.ledger(net, channel, num).txs :: TxHash(w, tx) == x then 1 else 0
      {
        OnceStored(w, turn.run, net, channel, num, x);
      }
    } else {
      UnstoredComesFromLedger(w, db, net, hash, num, turn.fetched);
      assert w.nameOf(net, hash) == channel;
    }
  }

  lemma OnceStored(w: World, schedule: seq<Action>, net: Net, channel: Channel, num: nat, x: string)
    requires WellFormed(w) && channel in w.channels(net) && HasBlock(After(w, schedule).db, net, Genesis(w, net, channel), num)
    ensures multiset(AggregatedHashes(After(w, schedule).db.txs, net, Genesis(w, net, channel), num))[x]
         == if exists tx <- w.ledger(net, channel, num).txs :: TxHash(w, tx) == x then 1 else 0
  {
    var txs, hash := After(w, schedule).db.txs, Genesis(w, net, channel);
    AfterIsGood(w, schedule);
    StoredHashes(w, schedule, net, channel, num, x);
    AggregatedOnceEach(txs, net, hash, num, x);
    assert multiset(txs)[TxRow(net, hash, num, x)] <= 1;
    assert x in AggregatedHashes(txs, net, hash, num) <==> multiset(AggregatedHashes(txs, net, hash, num))[x] > 0;
  }

  ghost predicate Gap(w: World, turn: Turn, net: Net, channel: Channel, num: int) {
    MissingAt(w, turn, net, channel, num) || ThrowsAt(w, turn, net, channel, num)
  }

  /** The first number of the range with a gap, or one past the end. */
  ghost predicate FirstGap(w: World, turns: int -> Turn, net: Net, channel: Channel, start: int, end: int, stop: int) {
    && start <= stop <= end + 1
    && (forall i :: start <= i < stop ==> !Gap(w, turns(i), net, channel, i))
    && (stop <= end ==> Gap(w, turns(stop), net, channel, stop))
  }

  /** Exactly the blocks of the longest gapless run from the start, ascending, within the range, although
      the synchroniser goes on between the lookups; not found only when the first block is neither stored
      nor delivered at its turn; an exception when the lookup of the first gap throws; nothing at all for an
      empty range. */
  ghost predicate IsRange(w: World, turns: int -> Turn, net: Net, channel: Channel, start: int, end: int, r: RangeAnswer) {
    match r
    case RangeUndefined => end < start
    case RangeNotFound => start <= end && MissingAt(w, turns(start), net, channel, start)
    case RangeThrown =>
      exists stop :: FirstGap(w, turns, net, channel, start, end, stop) && stop <= end && ThrowsAt(w, turns(stop), net, channel, stop)
    case Blocks(blocks) =>
      blocks != [] && AreBlocks(w, blocks, net, channel, start) && EndsMissing(w, turns, net, channel, start, end, start + |blocks|)
  }

  /** The first gap, if any, is a missing block. */
  ghost predicate EndsMissing(w: World, turns: int -> Turn, net: Net, channel: Channel, start: int, end: int, stop: int) {
    FirstGap(w, turns, net, channel, start, end, stop) && (stop <= end ==> MissingAt(w, turns(stop), net, channel, stop))
  }

  function Lookups(w: World, turns: int -> Turn, net: Net, hash: Hash): int -> Answer {
    i => AnswerAt(w, turns(i), net, hash, i)
  }

  method FetchDataByBlockRange(w: World, turns: int -> Turn, net: Net, ghost channel: Channel, hash: Hash,
                               startBlockNo: int, endBlockNo: int)
    returns (r: RangeAnswer)
    requires WellFormed(w) && channel in w.channels(net) && hash == Genesis(w, net, channel)
    ensures IsRange(w, turns, net, channel, startBlockNo, endBlockNo, r)
  {
    ghost var stop;
    r, stop := CollectBlocks(Lookups(w, turns, net, hash), startBlockNo, endBlockNo);
    LookupsMean(w, turns, net, channel);
    CollectedIsRange(w, turns, Lookups(w, turns, net, hash), net, channel, startBlockNo, endBlockNo, r, stop);
  }

  ghost predicate AllMean(w: World, turns: int -> Turn, answers: int -> Answer, net: Net, channel: Channel) {
    forall i :: Means(w, answers(i), turns(i), net, channel, i)
  }

  lemma LookupsMean(w: World, turns: int -> Turn, net: Net, channel: Channel)
    requires WellFormed(w) && channel in w.channels(net)
    ensures AllMean(w, turns, Lookups(w, turns, net, Genesis(w, net, channel)), net, channel)
  {
    forall i
      ensures Means(w, AnswerAt(w, turns(i), net, Genesis(w, net, channel), i), turns(i), net, channel, i)
    {
      AnswerIs(w, turns(i), net, channel, i);
    }
  }

  lemma CollectedIsRange(w: World, turns: int -> Turn, answers: int -> Answer, net: Net, channel: Channel,
                         start: int, end: int, r: RangeAnswer, stop: int)
    requires AllMean(w, turns, answers, net, channel) && CollectedFrom(answers, start, end, r, stop)
    ensures IsRange(w, turns, net, channel, start, end, r)
  {
    if r.Blocks? {
      StopIs(answers, start, end, r.blocks, stop);
      CollectedBlocks(w, turns, answers, net, channel, start, end, r.blocks, stop);
    } else {
      RunMeans(w, turns, answers, net, channel, start, end, stop);
    }
  }

  lemma CollectedBlocks(w: World, turns: int -> Turn, answers: int -> Answer, net: Net, channel: Channel,
                        start: int, end: int, blocks: seq<BlockData>, stop: int)
    requires AllMean(w, turns, answers, net, channel)
    requires blocks != [] && start <= end && start <= stop <= end + 1 && stop == start + |blocks|
    requires forall i :: start <= i < stop ==> answers(i).Data?
    requires forall k :: 0 <= k < |blocks| ==> answers(start + k) == Data(blocks[k])
    requires stop <= end ==> answers(stop).NotFound?
    ensures IsRange(w, turns, net, channel, start, end, Blocks(blocks))
  {
    StopMeans(w, turns, answers, net, channel, start, end, stop);
    BlocksMean(w, turns, answers, net, channel, start, blocks);
  }

  lemma StopIs(answers: int -> Answer, start: int, end: int, blocks: seq<BlockData>, stop: int)
    requires CollectedFrom(answers, start, end, Blocks(blocks), stop)
    ensures blocks != [] && start <= end && start <= stop <= end + 1 && stop == start + |blocks|
    ensures forall i :: start <= i < stop ==> answers(i).Data?
    ensures forall k :: 0 <= k < |blocks| ==> answers(start + k) == Data(blocks[k])
    ensures stop <= end ==> answers(stop).NotFound?
  {
    forall k | 0 <= k < |blocks|
      ensures answers(start + k) == Data(blocks[k])
    {
      var i := start + k;
      assert answers(i) == Data(blocks[i - start]);
    }
  }

  lemma StopMeans(w: World, turns: int -> Turn, answers: int -> Answer, net: Net, channel: Channel, start: int, end: int, stop: int)
    requires AllMean(w, turns, answers, net, channel) && start <= stop <= end + 1 && start <= end
    requires forall i :: start <= i < stop ==> answers(i).Data?
    requires stop <= end ==> answers(stop).NotFound?
    ensures EndsMissing(w, turns, net, channel, start, end, stop)
  {
    RunMeans(w, turns, answers, net, channel, start, end, stop);
  }

  lemma RunMeans(w: World, turns: int -> Turn, answers: int -> Answer, net: Net, channel: Channel, start: int, end: int, stop: int)
    requires AllMean(w, turns, answers, net, channel)
    requires start <= end ==> start <= stop <= end + 1
    requires start <= end ==> (forall i :: start <= i < stop ==> answers(i).Data?) && (stop <= end ==> !answers(stop).Data?)
    ensures start <= end ==> FirstGap(w, turns, net, channel, start, end, stop)
    ensures forall i :: answers(i).NotFound? <==> MissingAt(w, turns(i), net, channel, i)
    ensures forall i :: answers(i).Thrown? <==> ThrowsAt(w, turns(i), net, channel, i)
  {
  }

  lemma BlocksMean(w: World, turns: int -> Turn, answers: int -> Answer, net: Net, channel: Channel, start: int, blocks: seq<BlockData>)
    requires AllMean(w, turns, answers, net, channel)
    requires forall k :: 0 <= k < |blocks| ==> answers(start + k) == Data(blocks[k])
    ensures AreBlocks(w, blocks, net, channel, start)
  {
    forall k | 0 <= k < |blocks|
      ensures IsBlock(w, blocks[k], net, channel, start + k)
    {
      BlockMeans(w, turns, answers, net, channel, start + k, blocks[k]);
    }
  }

  lemma BlockMeans(w: World, turns: int -> Turn, answers: int -> Answer, net: Net, channel: Channel, num: int, data: BlockData)
    requires AllMean(w, turns, answers, net, channel) && answers(num) == Data(data)
    ensures IsBlock(w, data, net, channel, num)
  {
    assert Means(w, answers(num), turns(num), net, channel, num);
  }
}

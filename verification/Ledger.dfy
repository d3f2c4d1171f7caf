/** The fixed ledgers a synchroniser reads, and the rows it derives from their blocks. */
module Ledger {
  import opened Text
  import opened JsonTree
  import Der

  type Net = string
  type Channel = string
  type Hash = string

  datatype Header = Header(number: nat, previousHash: seq<byte>, dataHash: seq<byte>)

  /** One decoded transaction: the header's `tx_id`, whether its type is CONFIG, the object itself, and whether
      it has, beyond its header, the fields that the transaction loop reads. */
  datatype Tx = Tx(id: string, config: bool, json: Json, readable: bool)

  datatype Block = Block(header: Header, txs: seq<Tx>, time: int, json: Json)

  /** ALL, CUSTOM with the parsed `noOfBlocks` (absent when it is not a number), or any other text. */
  datatype BootMode = All | Custom(count: int) | CustomNaN | OtherMode

  /** What the code takes from outside: the channels each network has and their ledgers, SHA-256,
      `JSON.stringify`, configuration, and the reverse lookup `getChannelNameByHash`. */
  datatype World = World(
    channels: Net -> set<Channel>,
    ledger: (Net, Channel, nat) -> Block,
    digest: seq<byte> -> seq<byte>,
    jsonBytes: Json -> seq<byte>,
    boot: Net -> BootMode,
    nameOf: (Net, Hash) -> Channel)

  /** Largest value of the PostgreSQL column type `integer`, which holds block numbers. */
  const MAX_INTEGER := 0x7fff_ffff

  /** `Long.low` of an unsigned 64-bit number: its low 32 bits read as a signed integer. */
  function Low32(n: nat): int {
    var low := n % 0x1_0000_0000;
    if low < 0x8000_0000 then low else low - 0x1_0000_0000
  }

  /** The header as it is DER-encoded: only the low word of the number is used. */
  function HeaderFields(h: Header): Der.Fields {
    Der.Fields(Low32(h.number), h.previousHash, h.dataHash)
  }

  /** `generateBlockHash`. */
  function BlockHash(w: World, h: Header): Hash {
    Hex(w.digest(Der.Encode(HeaderFields(h))))
  }

  /** The channel's genesis hash, under which its rows are kept. */
  function Genesis(w: World, net: Net, channel: Channel): Hash {
    BlockHash(w, w.ledger(net, channel, 0).header)
  }

  /** The hash a transaction is stored under: its id, or for CONFIG the digest of its JSON text. */
  function TxHash(w: World, tx: Tx): string {
    TxHashOf(w, tx.id, tx.config, tx.json)
  }

  function TxHashOf(w: World, id: string, config: bool, json: Json): string {
    if config then Hex(w.digest(w.jsonBytes(json))) else id
  }

  datatype BlockRow = BlockRow(
    net: Net, hash: Hash, num: nat, datahash: string, prehash: string,
    txcount: nat, createdt: int, blockhash: Hash, blksize: nat)

  datatype TxRow = TxRow(net: Net, hash: Hash, num: nat, txhash: string)

  /** Genesis hashes tell the channels of one network apart, and a block fetched by number has that number. */
  ghost predicate WellFormed(w: World) {
    && (forall net, channel :: channel in w.channels(net) ==> w.nameOf(net, Genesis(w, net, channel)) == channel)
    && (forall net, channel, num :: channel in w.channels(net) ==> w.ledger(net, channel, num).header.number == num)
  }

  // ---------------------------------------------------- what can be stored

  /** The loop throws on the transaction: `convertFormatOfValue` does, or the reading of its fields. */
  predicate TxThrows(tx: Tx) {
    WalkThrows(tx.json) || !tx.readable
  }

  /** The loop throws on no transaction of the block. */
  predicate Processable(block: Block) {
    forall k :: 0 <= k < |block.txs| ==> !TxThrows(block.txs[k])
  }

  /** The mode gives a pass on some channel height a window with blocks in it. */
  predicate Loads(mode: BootMode) {
    mode.All? || (mode.Custom? && mode.count > 0)
  }

  /** A block that processing can bring into the tables: it has transactions, its number fits the column,
      the loop throws on no transaction, and, as the listener skips block 0, a pass loads it. */
  predicate Storable(w: World, net: Net, channel: Channel, num: nat) {
    var block := w.ledger(net, channel, num);
    && |block.txs| > 0
    && num <= MAX_INTEGER
    && Processable(block)
    && (num != 0 || Loads(w.boot(net)))
  }

  /** `block_row` of `processBlockEvent`. */
  function RowOf(w: World, net: Net, channel: Channel, num: nat): BlockRow {
    var block := w.ledger(net, channel, num);
    BlockRow(net, Genesis(w, net, channel), num, Hex(block.header.dataHash), Hex(block.header.previousHash),
             |block.txs|, block.time, BlockHash(w, block.header), KiloBytes(Bytes(block.json)))
  }

  function TxRowOf(w: World, net: Net, channel: Channel, num: nat, k: nat): TxRow
    requires k < |w.ledger(net, channel, num).txs|
  {
    TxRow(net, Genesis(w, net, channel), num, TxHash(w, w.ledger(net, channel, num).txs[k]))
  }

  // -------------------------------------------------------------- hash chain

  /** Each block names the digest of the true header before it. */
  ghost predicate Chained(w: World, net: Net, channel: Channel) {
    forall n: nat :: w.ledger(net, channel, n + 1).header.previousHash == w.digest(TrueHeader(w, net, channel, n))
  }

  /** The DER form of header n with its whole number, as the ledger itself hashes it. */
  function TrueHeader(w: World, net: Net, channel: Channel, n: nat): seq<byte> {
    var h := w.ledger(net, channel, n).header;
    Der.Encode(Der.Fields(n, h.previousHash, h.dataHash))
  }

  lemma Low32Identity(n: nat)
    ensures Low32(n) == n <==> n <= MAX_INTEGER
  {
  }

  /** The low word is the one signed 32-bit integer congruent to the number. */
  lemma Low32Congruent(n: nat)
    ensures -0x8000_0000 <= Low32(n) < 0x8000_0000 && (n - Low32(n)) % 0x1_0000_0000 == 0
  {
    var q, low := n / 0x1_0000_0000, n % 0x1_0000_0000;
    assert n == q * 0x1_0000_0000 + low;
    if low >= 0x8000_0000 {
      assert n - Low32(n) == (q + 1) * 0x1_0000_0000;
    }
  }

  /** The two texts the chain compares, as digests. */
  lemma ChainTexts(w: World, net: Net, channel: Channel, n: nat)
    requires WellFormed(w) && channel in w.channels(net) && Chained(w, net, channel)
    ensures RowOf(w, net, channel, n).blockhash == Hex(w.digest(CutHeader(w, net, channel, n)))
    ensures RowOf(w, net, channel, n + 1).prehash == Hex(w.digest(TrueHeader(w, net, channel, n)))
  {
  }

  /** The DER form of header n as `generateBlockHash` builds it. */
  function CutHeader(w: World, net: Net, channel: Channel, n: nat): seq<byte> {
    Der.Encode(HeaderFields(w.ledger(net, channel, n).header))
  }

  /** Below 2^31 the stored block hash is the next block's previous hash. */
  lemma HeaderChain(w: World, net: Net, channel: Channel, n: nat)
    requires WellFormed(w) && channel in w.channels(net) && Chained(w, net, channel) && n <= MAX_INTEGER
    ensures RowOf(w, net, channel, n).blockhash == RowOf(w, net, channel, n + 1).prehash
  {
    assert w.ledger(net, channel, n).header.number == n;
    Low32Identity(n);
    ChainTexts(w, net, channel, n);
  }

  /** The chain holds at n exactly when n is below 2^31, as long as the digest tells the header with
      the truncated number from the true one. */
  lemma HeaderChainExact(w: World, net: Net, channel: Channel, n: nat)
    requires WellFormed(w) && channel in w.channels(net) && Chained(w, net, channel)
    requires var h := w.ledger(net, channel, n).header;
      Der.Fits(HeaderFields(h)) && Der.Fits(Der.Fields(n, h.previousHash, h.dataHash))
    requires var cut, whole := CutHeader(w, net, channel, n), TrueHeader(w, net, channel, n);
      cut != whole ==> w.digest(cut) != w.digest(whole)
    ensures RowOf(w, net, channel, n).blockhash == RowOf(w, net, channel, n + 1).prehash <==> n <= MAX_INTEGER
  {
    var h := w.ledger(net, channel, n).header;
    assert h.number == n;
    Low32Identity(n);
    ChainTexts(w, net, channel, n);
    HexInjective(w.digest(CutHeader(w, net, channel, n)), w.digest(TrueHeader(w, net, channel, n)));
    Der.EncodeInjective(HeaderFields(h), Der.Fields(n, h.previousHash, h.dataHash));
  }
}

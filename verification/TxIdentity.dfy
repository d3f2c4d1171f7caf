/** The hash a transaction is stored under, taken while its object is being rewritten. */
module TxIdentity {
  import opened Text
  import opened Ledger
  import opened JsonTree
  import opened JsonWalks

  /** The loop body's opening: text first, then the rewrite in place, then the id. Whatever encoding is
      configured, the id is that of the object as it was delivered. */
  method IdentifyAndConvert(w: World, txObj: Node, config: bool, headerId: string, enc: Encoder)
    returns (txid: string, threw: bool)
    requires txObj.Valid()
    modifies txObj.repr
    ensures txid == TxHashOf(w, headerId, config, old(txObj.tree))
    ensures config ==> ReadHex(txid) == w.digest(w.jsonBytes(old(txObj.tree))) && |txid| == 2 * |w.digest(w.jsonBytes(old(txObj.tree)))|
    ensures !config ==> txid == headerId
    ensures threw <==> WalkThrows(old(txObj.tree))
    ensures txObj.Valid() && (!threw ==> txObj.tree == MapBuffers(enc, old(txObj.tree)))
  {
    var decoded := txObj.Read();
    var text := w.jsonBytes(decoded);
    txid := headerId;
    threw := txObj.Convert(enc);
    if config {
      txid := Hex(w.digest(text));
      HexReadsBack(w.digest(text));
    }
  }

  /** Handing the same object over a second time would give a CONFIG transaction another id exactly when
      the first rewrite changed it, provided text and digest tell the two forms apart. Each delivery
      must therefore be decoded afresh, as the ledger queries and block events do. */
  lemma SecondHandoverChangesId(w: World, tx: Tx, enc: Encoder)
    requires tx.config
    requires var after := MapBuffers(enc, tx.json);
      after != tx.json ==> w.digest(w.jsonBytes(after)) != w.digest(w.jsonBytes(tx.json))
    ensures TxHash(w, tx.(json := MapBuffers(enc, tx.json))) != TxHash(w, tx) <==> HasValueBuffer(tx.json)
  {
    MapBuffersFixes(enc, tx.json);
    HexInjective(w.digest(w.jsonBytes(MapBuffers(enc, tx.json))), w.digest(w.jsonBytes(tx.json)));
  }
}

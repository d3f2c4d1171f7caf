/** What is asked of the outside can be met: well-formed worlds, with digests as short as SHA-256's. */
module Worlds {
  import opened Text
  import opened JsonTree
  import opened Ledger

  // ------------------------------------------------- when a reverse lookup exists

  /** The channels of a network have different genesis hashes. */
  ghost predicate DistinctGenesis(w: World) {
    forall net, one, other | one in w.channels(net) && other in w.channels(net) ::
      Genesis(w, net, one) == Genesis(w, net, other) ==> one == other
  }

  ghost predicate NumberedBlocks(w: World) {
    forall net, channel, num :: channel in w.channels(net) ==> w.ledger(net, channel, num).header.number == num
  }

  /** The channel of the network with the genesis hash. */
  ghost function ByGenesis(w: World, net: Net, hash: Hash): Channel {
    if channel :| channel in w.channels(net) && Genesis(w, net, channel) == hash then channel else ""
  }

  lemma GenesisIgnoresLookup(w: World, nameOf: (Net, Hash) -> Channel, net: Net, channel: Channel)
    ensures Genesis(w.(nameOf := nameOf), net, channel) == Genesis(w, net, channel)
  {
  }

  lemma LookupTellsApart(w: World, nameOf: (Net, Hash) -> Channel)
    requires WellFormed(w.(nameOf := nameOf))
    ensures DistinctGenesis(w) && NumberedBlocks(w)
  {
    var v := w.(nameOf := nameOf);
    forall net, one, other | one in w.channels(net) && other in w.channels(net) && Genesis(w, net, one) == Genesis(w, net, other)
      ensures one == other
    {
      assert v.nameOf(net, Genesis(v, net, one)) == one && v.nameOf(net, Genesis(v, net, other)) == other;
    }
    forall net, channel, num | channel in w.channels(net)
      ensures w.ledger(net, channel, num).header.number == num
    {
      assert v.ledger(net, channel, num).header.number == num;
    }
  }

  lemma GenesisGivesLookup(w: World)
    requires DistinctGenesis(w) && NumberedBlocks(w)
    ensures WellFormed(w.(nameOf := (net, hash) => ByGenesis(w, net, hash)))
  {
    var v := w.(nameOf := (net, hash) => ByGenesis(w, net, hash));
    forall net, channel | channel in v.channels(net)
      ensures v.nameOf(net, Genesis(v, net, channel)) == channel
    {
      GenesisIgnoresLookup(w, v.nameOf, net, channel);
    }
    forall net, channel, num | channel in v.channels(net)
      ensures v.ledger(net, channel, num).header.number == num
    {
      assert w.ledger(net, channel, num).header.number == num;
    }
  }

  /** Some reverse lookup makes the world well-formed exactly when no two channels of one network share
      a genesis hash and blocks carry their numbers. Nothing is asked of channels that no network has. */
  lemma LookupExistsIff(w: World)
    ensures (exists nameOf: (Net, Hash) -> Channel :: WellFormed(w.(nameOf := nameOf)))
       <==> DistinctGenesis(w) && NumberedBlocks(w)
  {
    if nameOf: (Net, Hash) -> Channel :| WellFormed(w.(nameOf := nameOf)) {
      LookupTellsApart(w, nameOf);
    }
    if DistinctGenesis(w) && NumberedBlocks(w) {
      GenesisGivesLookup(w);
    }
  }

  // -------------------------------------------------------- a world to live in

  const DIGEST_LENGTH := 32

  /** The first 32 octets of the message, filled up with zeros. */
  function Head(message: seq<byte>): seq<byte> {
    seq(DIGEST_LENGTH, i requires 0 <= i < DIGEST_LENGTH => if i < |message| then message[i] else 0)
  }

  /** One channel's blocks differ from the other's in their data hash. */
  function DataHash(channel: Channel): seq<byte> {
    if channel == "lab" then [1] else []
  }

  function PreviousHash(channel: Channel, num: nat): seq<byte> {
    if num == 0 then [] else Head(Der.Encode(Der.Fields(num - 1, PreviousHash(channel, num - 1), DataHash(channel))))
  }

  function OneTxBlock(channel: Channel, num: nat): Block {
    Block(Header(num, PreviousHash(channel, num), DataHash(channel)), [Tx("t", false, Obj([]), true)], 0, Obj([]))
  }

  /** Every network has the same two channels. */
  function Unnamed(): World {
    World(_ => {"lab", "office"}, (net: Net, channel: Channel, num: nat) => OneTxBlock(channel, num), Head, json => [], net => All,
          (net, hash) => "")
  }

  function TwoChannels(): World {
    Unnamed().(nameOf := (net, hash) => if hash == Genesis(Unnamed(), net, "lab") then "lab" else "office")
  }

  lemma GenesisHeaders()
    ensures Der.Encode(Der.Fields(0, [], [])) == [0x30, 7, 0x02, 1, 0, 0x04, 0, 0x04, 0]
    ensures Der.Encode(Der.Fields(0, [], [1])) == [0x30, 8, 0x02, 1, 0, 0x04, 0, 0x04, 1, 1]
  {
    assert Der.Tlv(Der.INTEGER, Der.Integer(0)) == [0x02, 1, 0];
    assert Der.Tlv(Der.OCTET_STRING, []) == [0x04, 0] && Der.Tlv(Der.OCTET_STRING, [1]) == [0x04, 1, 1];
    assert Der.Body(Der.Fields(0, [], [])) == [0x02, 1, 0, 0x04, 0, 0x04, 0];
    assert Der.Body(Der.Fields(0, [], [1])) == [0x02, 1, 0, 0x04, 0, 0x04, 1, 1];
  }

  lemma GenesisDiffers(w: World, net: Net)
    requires w.ledger == Unnamed().ledger && w.digest == Head
    ensures Genesis(w, net, "lab") != Genesis(w, net, "office")
  {
    var lab, office := w.ledger(net, "lab", 0).header, w.ledger(net, "office", 0).header;
    GenesisHeaders();
    assert HeaderFields(lab) == Der.Fields(0, [], [1]) && HeaderFields(office) == Der.Fields(0, [], []);
    var a, b := Head(Der.Encode(HeaderFields(lab))), Head(Der.Encode(HeaderFields(office)));
    assert a[1] == 8 && b[1] == 7;
    HexInjective(a, b);
  }

  lemma TwoChannelsNamed(net: Net, channel: Channel)
    requires channel in TwoChannels().channels(net)
    ensures TwoChannels().nameOf(net, Genesis(TwoChannels(), net, channel)) == channel
  {
    GenesisDiffers(Unnamed(), net);
    GenesisIgnoresLookup(Unnamed(), TwoChannels().nameOf, net, channel);
  }

  lemma TwoChannelsChained(net: Net, channel: Channel)
    ensures Chained(TwoChannels(), net, channel)
  {
    forall n: nat
      ensures TwoChannels().ledger(net, channel, n + 1).header.previousHash
           == TwoChannels().digest(TrueHeader(TwoChannels(), net, channel, n))
    {
      assert PreviousHash(channel, n + 1) == Head(Der.Encode(Der.Fields(n, PreviousHash(channel, n), DataHash(channel))));
    }
  }

  lemma TwoChannelsStorable(net: Net, channel: Channel, num: nat)
    ensures Storable(TwoChannels(), net, channel, num) <==> num <= MAX_INTEGER
  {
    assert TwoChannels().ledger(net, channel, num) == OneTxBlock(channel, num);
    assert !WalkThrows(Obj([]));
  }

  /** A digest of 32 octets, two channels on every network, chained ledgers whose blocks can all be stored
      as far as the column goes. */
  lemma WellFormedWorldExists() returns (w: World)
    ensures WellFormed(w)
    ensures forall message :: |w.digest(message)| == DIGEST_LENGTH
    ensures forall net :: w.channels(net) == {"lab", "office"}
    ensures forall net, channel :: Chained(w, net, channel)
    ensures forall net, channel, num: nat :: Storable(w, net, channel, num) <==> num <= MAX_INTEGER
  {
    w := TwoChannels();
    forall net, channel | channel in w.channels(net)
      ensures w.nameOf(net, Genesis(w, net, channel)) == channel
    {
      TwoChannelsNamed(net, channel);
    }
    forall net, channel
      ensures Chained(w, net, channel)
    {
      TwoChannelsChained(net, channel);
    }
    forall net, channel, num: nat
      ensures Storable(w, net, channel, num) <==> num <= MAX_INTEGER
    {
      TwoChannelsStorable(net, channel, num);
    }
  }
}

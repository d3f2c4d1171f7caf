/** Transactions per organisation: database counts merged with the organisations that have none. */
module OrgTotals {
  import opened Text
  import opened JsArrays

  datatype OrgCount = OrgCount(count: string, mspId: string)

  // ------------------------------------------------------------ the two queries

  /** `Trim(creator_msp_id) > ''` fails: nothing but spaces. */
  predicate Blank(s: string) {
    forall i :: 0 <= i < |s| ==> s[i] == ' '
  }

  /** The values of a column, each once. */
  function DistinctValues(column: seq<string>): (r: seq<string>)
    ensures NoDuplicates(r) && forall x :: x in r <==> x in column
  {
    if column == [] then []
    else
      var front := DistinctValues(column[..|column| - 1]);
      assert column == column[..|column| - 1] + [column[|column| - 1]];
      if column[|column| - 1] in front then front else front + [column[|column| - 1]]
  }

  function NonBlank(column: seq<string>): (r: seq<string>)
    ensures forall x :: multiset(r)[x] == if Blank(x) then 0 else multiset(column)[x]
  {
    if column == [] then []
    else
      var last := column[|column| - 1];
      assert column == column[..|column| - 1] + [last];
      NonBlank(column[..|column| - 1]) + (if Blank(last) then [] else [last])
  }

  /** `getTxByOrgs` of the metric service: creators grouped and counted, blank ones left out. */
  function GroupCounts(creators: seq<string>): seq<OrgCount> {
    var ids := DistinctValues(NonBlank(creators));
    seq(|ids|, i requires 0 <= i < |ids| => OrgCount(Dec(multiset(creators)[ids[i]]), ids[i]))
  }

  function Ids(rows: seq<OrgCount>): seq<string> {
    seq(|rows|, i requires 0 <= i < |rows| => rows[i].mspId)
  }

  // ----------------------------------------------------------------- the merge

  /** The peer organisations no counted row is about, each once. */
  ghost predicate Uncounted(organizations: seq<string>, peers: seq<string>, ids: seq<string>) {
    NoDuplicates(organizations) && forall id :: id in organizations <==> id in peers && id !in ids
  }

  lemma UncountedStep(organizations: seq<string>, peers: seq<string>, ids: seq<string>, id: string)
    requires Uncounted(organizations, peers, ids)
    ensures id !in organizations ==> Uncounted(organizations, peers, ids + [id])
    ensures id in organizations ==> -1 < IndexOf(organizations, id) < |organizations|
    ensures id in organizations ==> Uncounted(Splice(organizations, IndexOf(organizations, id)), peers, ids + [id])
  {
    if id in organizations {
      IndexOfRange(organizations, id);
      TakeOutIsRemoval(organizations, id);
    }
  }

  /** The first loop: organisations with a counted row are spliced out of the list. */
  method SpliceCounted(counted: seq<OrgCount>, peers: seq<string>) returns (organizations: seq<string>)
    ensures NoDuplicates(peers) ==> Uncounted(organizations, peers, Ids(counted))
  {
    organizations := peers;
    for r := 0 to |counted|
      invariant NoDuplicates(peers) ==> Uncounted(organizations, peers, Ids(counted)[..r])
    {
      var id := counted[r].mspId;
      IndexOfRange(organizations, id);
      var index := IndexOf(organizations, id);
      if NoDuplicates(peers) {
        UncountedStep(organizations, peers, Ids(counted)[..r], id);
      }
      assert Ids(counted)[..r + 1] == Ids(counted)[..r] + [id];
      if index > -1 {
        organizations := Splice(organizations, index);
      }
    }
    assert Ids(counted)[..|counted|] == Ids(counted);
  }

  /** `getTxByOrgs` of the proxy: counted organisations are spliced out of the list, the rest appended
      with count 0. Every id of either input then has exactly one row. */
  method MergeOrgs(counted: seq<OrgCount>, peers: seq<string>) returns (rows: seq<OrgCount>)
    ensures counted <= rows
    ensures forall i :: |counted| <= i < |rows| ==> rows[i].count == "0"
    ensures NoDuplicates(Ids(counted)) && NoDuplicates(peers) ==>
              NoDuplicates(Ids(rows)) && forall id :: id in Ids(rows) <==> id in Ids(counted) || id in peers
  {
    var organizations := SpliceCounted(counted, peers);
    rows := counted;
    for i := 0 to |organizations|
      invariant |rows| == |counted| + i && counted <= rows
      invariant forall k :: |counted| <= k < |rows| ==> rows[k] == OrgCount("0", organizations[k - |counted|])
    {
      rows := rows + [OrgCount("0", organizations[i])];
    }
    assert Ids(rows) == Ids(counted) + organizations;
    if NoDuplicates(Ids(counted)) && NoDuplicates(peers) {
      JoinedNoDuplicates(Ids(counted), organizations);
    }
  }

  lemma JoinedNoDuplicates(a: seq<string>, b: seq<string>)
    requires NoDuplicates(a) && NoDuplicates(b) && forall x :: x in b ==> x !in a
    ensures NoDuplicates(a + b)
  {
    forall i, j | 0 <= i < j < |a + b|
      ensures (a + b)[i] != (a + b)[j]
    {
      if i < |a| <= j {
        assert (a + b)[j] in b && (a + b)[i] in a;
      }
    }
  }

  lemma LaterIsNew(a: seq<string>, n: nat, i: nat)
    requires NoDuplicates(a) && n <= i < |a|
    ensures a[i] !in a[..n]
  {
  }

  /** Both queries and the merge: one row per creator or peer organisation, with its number of transactions. */
  method GetTxByOrgs(creators: seq<string>, peerColumn: seq<string>) returns (rows: seq<OrgCount>)
    ensures NoDuplicates(Ids(rows))
    ensures forall id :: id in Ids(rows) <==> (id in creators && exists k :: 0 <= k < |id| && id[k] != ' ') || id in peerColumn
    ensures forall i :: 0 <= i < |rows| ==>
              var id := rows[i].mspId;
              ParseDec(rows[i].count) == if exists k :: 0 <= k < |id| && id[k] != ' ' then multiset(creators)[id] else 0
  {
    var counted := GroupCounts(creators);
    GroupedIds(creators);
    rows := MergeOrgs(counted, DistinctValues(peerColumn));
    CountsAreRight(creators, counted, rows);
    forall i | 0 <= i < |rows|
      ensures Dec(multiset(creators)[rows[i].mspId]) != "" && ParseDec(Dec(multiset(creators)[rows[i].mspId])) == multiset(creators)[rows[i].mspId]
    {
      DecRoundTrip(multiset(creators)[rows[i].mspId]);
      DecIsDigits(multiset(creators)[rows[i].mspId]);
    }
    DecRoundTrip(0);
    assert Dec(0) == "0";
  }

  lemma GroupedIds(creators: seq<string>)
    ensures NoDuplicates(Ids(GroupCounts(creators)))
    ensures forall id :: id in Ids(GroupCounts(creators)) <==> id in creators && !Blank(id)
  {
    assert Ids(GroupCounts(creators)) == DistinctValues(NonBlank(creators));
    forall id
      ensures id in NonBlank(creators) <==> id in creators && !Blank(id)
    {
      assert id in NonBlank(creators) <==> multiset(NonBlank(creators))[id] > 0;
      assert id in creators <==> multiset(creators)[id] > 0;
    }
  }

  lemma CountsAreRight(creators: seq<string>, counted: seq<OrgCount>, rows: seq<OrgCount>)
    requires counted == GroupCounts(creators) && counted <= rows && NoDuplicates(Ids(rows))
    requires forall i :: |counted| <= i < |rows| ==> rows[i].count == "0"
    requires forall id :: id in Ids(counted) <==> id in creators && !Blank(id)
    ensures forall i :: 0 <= i < |rows| ==>
              rows[i].count == if Blank(rows[i].mspId) then "0" else Dec(multiset(creators)[rows[i].mspId])
  {
    forall i | 0 <= i < |rows|
      ensures rows[i].count == if Blank(rows[i].mspId) then "0" else Dec(multiset(creators)[rows[i].mspId])
    {
      var id := rows[i].mspId;
      assert Ids(rows)[i] == id;
      if i < |counted| {
        assert Ids(counted)[i] == id;
      } else {
        assert Ids(rows)[..|counted|] == Ids(counted);
        LaterIsNew(Ids(rows), |counted|, i);
        assert Dec(0) == "0";
        assert id in creators <==> multiset(creators)[id] > 0;
      }
    }
  }
}

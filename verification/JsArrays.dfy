/** The JavaScript array operations that the lists of keys and organisations go through. */
module JsArrays {

  /** `Array.indexOf`. */
  function IndexOf(a: seq<string>, x: string): int {
    if a == [] then -1
    else if a[0] == x then 0
    else var i := IndexOf(a[1..], x); if i == -1 then -1 else i + 1
  }

  /** `Array.splice(index, 1)`: index -1 takes away the last element. */
  function Splice(a: seq<string>, index: int): seq<string>
    requires -1 <= index < |a|
  {
    if index == -1 then (if a == [] then [] else a[..|a| - 1]) else a[..index] + a[index + 1..]
  }

  predicate NoDuplicates(a: seq<string>) {
    forall i, j :: 0 <= i < j < |a| ==> a[i] != a[j]
  }

  lemma {:induction false} IndexOfRange(a: seq<string>, x: string)
    ensures -1 <= IndexOf(a, x) < |a|
    ensures IndexOf(a, x) == -1 <==> x !in a
    ensures x in a ==> a[IndexOf(a, x)] == x && forall k :: 0 <= k < IndexOf(a, x) ==> a[k] != x
  {
    if a != [] {
      IndexOfRange(a[1..], x);
      assert a == [a[0]] + a[1..];
    }
  }

  /** `a.splice(a.indexOf(x), 1)`. */
  function TakeOut(a: seq<string>, x: string): seq<string> {
    IndexOfRange(a, x);
    Splice(a, IndexOf(a, x))
  }

  lemma AroundIndex(a: seq<string>, i: nat, y: string)
    requires i < |a| && NoDuplicates(a)
    ensures y in a[..i] + a[i + 1..] <==> y in a && y != a[i]
  {
    var before, after := a[..i], a[i + 1..];
    assert a == before + [a[i]] + after;
    assert y in a <==> y in before || y == a[i] || y in after;
    assert a[i] !in before && a[i] !in after;
  }

  /** Without duplicates, taking out an element that is there removes it and nothing else. */
  lemma TakeOutIsRemoval(a: seq<string>, x: string)
    requires NoDuplicates(a) && x in a
    ensures NoDuplicates(TakeOut(a, x))
    ensures forall y :: y in TakeOut(a, x) <==> y in a && y != x
  {
    IndexOfRange(a, x);
    forall y
      ensures y in TakeOut(a, x) <==> y in a && y != x
    {
      AroundIndex(a, IndexOf(a, x), y);
    }
  }

  /** Taken out without being there: the last element goes instead. */
  lemma TakeOutAbsent(a: seq<string>, x: string)
    requires x !in a
    ensures a == [] ==> TakeOut(a, x) == []
    ensures a != [] ==> TakeOut(a, x) + [a[|a| - 1]] == a
  {
    IndexOfRange(a, x);
  }
}

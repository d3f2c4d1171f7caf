/** Counting the rows of a table, or the tasks of a run, by a projection. */
module Bag {

  ghost function Tally<T, K>(s: seq<T>, f: T -> K): multiset<K> {
    if s == [] then multiset{} else Tally(s[..|s| - 1], f) + multiset{f(s[|s| - 1])}
  }

  lemma TallyAppend<T, K>(s: seq<T>, x: T, f: T -> K)
    ensures Tally(s + [x], f) == Tally(s, f) + multiset{f(x)}
  {
    assert (s + [x])[..|s|] == s;
  }

  lemma UpdateFront<T>(s: seq<T>, i: nat, x: T)
    requires i < |s|
    ensures i < |s| - 1 ==> s[i := x][..|s| - 1] == s[..|s| - 1][i := x] && s[i := x][|s| - 1] == s[|s| - 1]
    ensures i == |s| - 1 ==> s[i := x][..|s| - 1] == s[..|s| - 1] && s[i := x][|s| - 1] == x
  {
  }

  lemma TallyUnfold<T, K>(s: seq<T>, f: T -> K)
    requires s != []
    ensures Tally(s, f) == Tally(s[..|s| - 1], f) + multiset{f(s[|s| - 1])}
  {
  }

  /** Replacing one element moves one unit of the tally. */
  lemma {:induction false} TallyUpdate<T, K>(s: seq<T>, i: nat, x: T, f: T -> K)
    requires i < |s|
    ensures Tally(s[i := x], f) + multiset{f(s[i])} == Tally(s, f) + multiset{f(x)}
  {
    UpdateFront(s, i, x);
    TallyUnfold(s, f);
    TallyUnfold(s[i := x], f);
    var front := s[..|s| - 1];
    if i < |s| - 1 {
      TallyUpdate(front, i, x, f);
      Exchange(Tally(front[i := x], f), Tally(front, f), f(s[i]), f(x), f(s[|s| - 1]));
    } else {
      Swap(Tally(front, f), f(x), f(s[i]));
    }
  }

  lemma Exchange<K>(a: multiset<K>, b: multiset<K>, k: K, l: K, m: K)
    requires a + multiset{k} == b + multiset{l}
    ensures (a + multiset{m}) + multiset{k} == (b + multiset{m}) + multiset{l}
  {
    assert (a + multiset{m}) + multiset{k} == (a + multiset{k}) + multiset{m};
  }

  lemma Swap<K>(a: multiset<K>, k: K, l: K)
    ensures (a + multiset{k}) + multiset{l} == (a + multiset{l}) + multiset{k}
  {
  }

  /** Equal projections at every index give equal tallies. */
  lemma {:induction false} TallyPointwise<T, K>(s: seq<T>, t: seq<T>, f: T -> K)
    requires |s| == |t| && forall i :: 0 <= i < |s| ==> f(s[i]) == f(t[i])
    ensures Tally(s, f) == Tally(t, f)
  {
    if s != [] {
      TallyPointwise(s[..|s| - 1], t[..|t| - 1], f);
    }
  }

  lemma {:induction false} TallyMember<T, K>(s: seq<T>, f: T -> K, k: K)
    ensures k in Tally(s, f) <==> exists i :: 0 <= i < |s| && f(s[i]) == k
  {
    if s != [] {
      TallyMember(s[..|s| - 1], f, k);
      if k in Tally(s[..|s| - 1], f) {
        var i :| 0 <= i < |s| - 1 && f(s[..|s| - 1][i]) == k;
        assert f(s[i]) == k;
      }
      if i :| 0 <= i < |s| && f(s[i]) == k {
        if i < |s| - 1 {
          assert f(s[..|s| - 1][i]) == k;
        }
      }
    }
  }

  /** A multiplicity of at most one means no two indices project to the key. */
  lemma {:induction false} TallyAtMostOne<T, K>(s: seq<T>, f: T -> K, k: K)
    ensures Tally(s, f)[k] <= 1 <==> forall i, j :: 0 <= i < j < |s| && f(s[i]) == k ==> f(s[j]) != k
  {
    if s != [] {
      var front := s[..|s| - 1];
      TallyAtMostOne(front, f, k);
      TallyMember(front, f, k);
      if Tally(s, f)[k] <= 1 {
        forall i, j | 0 <= i < j < |s| && f(s[i]) == k
          ensures f(s[j]) != k
        {
          assert f(front[i]) == k;
          if j < |s| - 1 {
            assert f(front[j]) == f(s[j]);
          }
        }
      } else if Tally(front, f)[k] > 1 {
        var i, j :| 0 <= i < j < |front| && f(front[i]) == k && f(front[j]) == k;
        assert f(s[i]) == k && f(s[j]) == k;
      } else {
        var i :| 0 <= i < |front| && f(front[i]) == k;
        assert f(s[i]) == k && f(s[|s| - 1]) == k;
      }
    }
  }

  function Unit<K(==)>(a: K, b: K): nat {
    if a == b then 1 else 0
  }

  lemma TallyAppendAt<T, K>(s: seq<T>, x: T, f: T -> K, k: K)
    ensures Tally(s + [x], f)[k] == Tally(s, f)[k] + Unit(f(x), k)
  {
    TallyAppend(s, x, f);
  }

  lemma TallyUpdateAt<T, K>(s: seq<T>, i: nat, x: T, f: T -> K, k: K)
    requires i < |s|
    ensures Tally(s[i := x], f)[k] + Unit(f(s[i]), k) == Tally(s, f)[k] + Unit(f(x), k)
  {
    TallyUpdate(s, i, x, f);
    var after, before := Tally(s[i := x], f), Tally(s, f);
    assert (after + multiset{f(s[i])})[k] == (before + multiset{f(x)})[k];
  }
}

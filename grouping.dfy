/** `df.groupby(column)['emissions_kgCO2e'].sum()`: one group per distinct
    value of a column, holding the summed emissions of the records with that
    value, and `idxmax` over the groups. */
module Grouping {
  import opened Records

  datatype Group = Group(key: string, sum: real)

  predicate Distinct(ks: seq<string>)
  {
    forall i, j :: 0 <= i < j < |ks| ==> ks[i] != ks[j]
  }

  /** The set of values column `c` takes in `rs`. */
  function Values(rs: seq<EmissionRecord>, c: Column): set<string>
  {
    set x | x in rs :: KeyOf(x, c)
  }

  lemma ValuesCons(rs: seq<EmissionRecord>, c: Column)
    requires rs != []
    ensures Values(rs, c) == {KeyOf(rs[0], c)} + Values(rs[1..], c)
  {
    assert forall x :: x in rs <==> x == rs[0] || x in rs[1..];
  }

  /** Blanking the caller's identity leaves every other column's values. */
  lemma {:induction false} ValuesAnonymous(rs: seq<EmissionRecord>, c: Column)
    requires c != UserId
    ensures Values(Anonymous(rs), c) == Values(rs, c)
  {
    if rs != [] {
      ValuesAnonymous(rs[1..], c);
      assert Anonymous(rs)[1..] == Anonymous(rs[1..]);
      ValuesCons(rs, c);
      ValuesCons(Anonymous(rs), c);
    }
  }

  /** The distinct values of column `c`, each listed once. */
  function Keys(rs: seq<EmissionRecord>, c: Column): (ks: seq<string>)
    ensures Distinct(ks)
    ensures |ks| <= |rs|
    ensures (set k | k in ks) == Values(rs, c)
    ensures forall x :: x in rs ==> KeyOf(x, c) in ks
  {
    if rs == [] then []
    else
      var rest := Keys(rs[1..], c);
      var k0 := KeyOf(rs[0], c);
      ValuesCons(rs, c);
      assert forall x :: x in rs ==> x == rs[0] || x in rs[1..];
      if k0 in rest then rest
      else
        assert (set k | k in [k0] + rest) == {k0} + (set k | k in rest) by {
          assert forall k :: k in [k0] + rest <==> k == k0 || k in rest;
        }
        assert Distinct([k0] + rest) by {
          var ks := [k0] + rest;
          forall i, j | 0 <= i < j < |ks| ensures ks[i] != ks[j] {
            assert ks[j] == rest[j - 1];
            if i > 0 { assert ks[i] == rest[i - 1]; }
          }
        }
        [k0] + rest
  }

  /** One group per key of `ks`, summing the records that carry that key. */
  function Sums(rs: seq<EmissionRecord>, c: Column, ks: seq<string>): (gs: seq<Group>)
    ensures |gs| == |ks|
    ensures forall i :: 0 <= i < |ks| ==> gs[i] == Group(ks[i], Total(Where(rs, c, ks[i])))
  {
    if ks == [] then []
    else [Group(ks[0], Total(Where(rs, c, ks[0])))] + Sums(rs, c, ks[1..])
  }

  /** The sum of the group sums. */
  function GroupTotal(gs: seq<Group>): real
  {
    if gs == [] then 0.0 else gs[0].sum + GroupTotal(gs[1..])
  }

  /** The set of group keys. */
  function KeySet(gs: seq<Group>): set<string>
  {
    set g | g in gs :: g.key
  }

  /** Group the records by column `c` and sum each group's emissions. The
      groups have distinct keys, the keys are exactly the values the column
      takes, each group holds the sum over its own records, and the groups
      together account for the whole total. */
  function GroupBy(rs: seq<EmissionRecord>, c: Column): (gs: seq<Group>)
    ensures forall i, j :: 0 <= i < j < |gs| ==> gs[i].key != gs[j].key
    ensures forall i :: 0 <= i < |gs| ==> gs[i].sum == Total(Where(rs, c, gs[i].key))
    ensures KeySet(gs) == Values(rs, c)
    ensures |gs| == |Values(rs, c)| <= |rs|
    ensures GroupTotal(gs) == Total(rs)
  {
    var ks := Keys(rs, c);
    GroupTotalIsTotal(rs, c, ks);
    DistinctCard(ks);
    SumsKeySet(rs, c, ks);
    Sums(rs, c, ks)
  }

  lemma SumsKeySet(rs: seq<EmissionRecord>, c: Column, ks: seq<string>)
    ensures KeySet(Sums(rs, c, ks)) == (set k | k in ks)
  {
    var gs := Sums(rs, c, ks);
    forall k | k in ks ensures k in KeySet(gs) {
      var i :| 0 <= i < |ks| && ks[i] == k;
      assert gs[i] in gs;
    }
  }

  /** A list without repetitions has as many elements as its set. */
  lemma {:induction false} DistinctCard(ks: seq<string>)
    requires Distinct(ks)
    ensures |set k | k in ks| == |ks|
  {
    if ks != [] {
      var rest := ks[1..];
      assert Distinct(rest) by {
        forall i, j | 0 <= i < j < |rest| ensures rest[i] != rest[j] {
          assert rest[i] == ks[i + 1] && rest[j] == ks[j + 1];
        }
      }
      DistinctCard(rest);
      assert (set k | k in ks) == {ks[0]} + (set k | k in rest) by {
        assert forall k :: k in ks <==> k == ks[0] || k in rest;
      }
      assert ks[0] !in (set k | k in rest) by {
        forall j | 0 <= j < |rest| ensures rest[j] != ks[0] {
          assert rest[j] == ks[j + 1];
        }
      }
    }
  }

  lemma {:induction false} SumsOfNothing(c: Column, ks: seq<string>)
    ensures GroupTotal(Sums([], c, ks)) == 0.0
  {
    if ks != [] {
      SumsOfNothing(c, ks[1..]);
    }
  }

  /** Adding record `r` in front adds its emissions to exactly the group of
      its key, when that key is listed. */
  lemma {:induction false} SumsCons(r: EmissionRecord, rest: seq<EmissionRecord>, c: Column, ks: seq<string>)
    requires Distinct(ks)
    ensures GroupTotal(Sums([r] + rest, c, ks))
         == (if KeyOf(r, c) in ks then r.emissionsKg else 0.0) + GroupTotal(Sums(rest, c, ks))
  {
    if ks != [] {
      var tail := ks[1..];
      assert Distinct(tail) by {
        forall i, j | 0 <= i < j < |tail| ensures tail[i] != tail[j] {
          assert tail[i] == ks[i + 1] && tail[j] == ks[j + 1];
        }
      }
      SumsCons(r, rest, c, tail);
      assert ([r] + rest)[1..] == rest;
      var w := Where([r] + rest, c, ks[0]);
      if KeyOf(r, c) == ks[0] {
        assert w == [r] + Where(rest, c, ks[0]);
        assert w[1..] == Where(rest, c, ks[0]);
        assert KeyOf(r, c) !in tail by {
          forall j | 0 <= j < |tail| ensures tail[j] != ks[0] {
            assert tail[j] == ks[j + 1];
          }
        }
      } else {
        assert w == Where(rest, c, ks[0]);
        assert (KeyOf(r, c) in ks) == (KeyOf(r, c) in tail);
      }
    }
  }

  /** Summing group sums over a repetition-free list of keys that covers
      every record gives the total of all records. */
  lemma {:induction false} GroupTotalIsTotal(rs: seq<EmissionRecord>, c: Column, ks: seq<string>)
    requires Distinct(ks)
    requires forall x :: x in rs ==> KeyOf(x, c) in ks
    ensures GroupTotal(Sums(rs, c, ks)) == Total(rs)
  {
    if rs == [] {
      SumsOfNothing(c, ks);
    } else {
      assert rs == [rs[0]] + rs[1..];
      SumsCons(rs[0], rs[1..], c, ks);
      GroupTotalIsTotal(rs[1..], c, ks);
    }
  }

  /** The index of the first record whose column `c` equals `k`
      (`df.loc[df[c] == k].iloc[0]`). */
  function FirstWhere(rs: seq<EmissionRecord>, c: Column, k: string): (i: nat)
    requires k in Values(rs, c)
    ensures i < |rs| && KeyOf(rs[i], c) == k
    ensures forall j :: 0 <= j < i ==> KeyOf(rs[j], c) != k
  {
    ValuesCons(rs, c);
    if KeyOf(rs[0], c) == k then 0 else 1 + FirstWhere(rs[1..], c, k)
  }

  /** `idxmax`: the position of the first group with the largest sum. */
  function ArgMax(gs: seq<Group>): (i: nat)
    requires |gs| > 0
    ensures i < |gs|
    ensures forall j :: 0 <= j < |gs| ==> gs[j].sum <= gs[i].sum
    ensures forall j :: 0 <= j < i ==> gs[j].sum < gs[i].sum
  {
    if |gs| == 1 then 0
    else
      var k := ArgMax(gs[1..]) + 1;
      if gs[0].sum >= gs[k].sum then 0 else k
  }

  /** The key of a group whose sum is largest (`idxmax` on the grouped sums). */
  function TopKey(gs: seq<Group>): (k: string)
    requires |gs| > 0
    ensures k in KeySet(gs)
    ensures exists i :: 0 <= i < |gs| && gs[i].key == k
                     && forall j :: 0 <= j < |gs| ==> gs[j].sum <= gs[i].sum
  {
    var i := ArgMax(gs);
    assert gs[i] in gs;
    gs[i].key
  }
}

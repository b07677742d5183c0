/**
 * `URLSearchParams` as an ordered list of name/value pairs, with `get`, `set`
 * and serialisation. A list whose names are pairwise distinct also stands for
 * a plain object in property order: assigning `o[k] = v` to it is `Set`.
 */
module SearchParams {
  import opened Wrappers

  type Query = seq<(string, string)>

  function Names(q: Query): set<string>
  {
    set i | 0 <= i < |q| :: q[i].0
  }

  lemma NamesCons(p: (string, string), q: Query)
    ensures Names([p] + q) == {p.0} + Names(q)
  {
    var r := [p] + q;
    forall x | x in Names(r)
      ensures x in {p.0} + Names(q)
    {
      var i :| 0 <= i < |r| && r[i].0 == x;
      if i > 0 {
        assert q[i - 1] == r[i];
      }
    }
    forall x | x in {p.0} + Names(q)
      ensures x in Names(r)
    {
      if x == p.0 {
        assert r[0] == p;
      } else {
        var i :| 0 <= i < |q| && q[i].0 == x;
        assert r[i + 1] == q[i];
      }
    }
  }

  /** No name occurs twice. */
  predicate Unique(q: Query)
  {
    forall i, j :: 0 <= i < j < |q| ==> q[i].0 != q[j].0
  }

  /** `params.get(k)`: the value of the first pair named `k`; None for null. */
  function Get(q: Query, k: string): (r: Option<string>)
    ensures r.None? <==> k !in Names(q)
    ensures r.Some? ==> exists i :: 0 <= i < |q| && q[i] == (k, r.value) && forall j :: 0 <= j < i ==> q[j].0 != k
  {
    if q == [] then None
    else if q[0].0 == k then Some(q[0].1)
    else
      var r := Get(q[1..], k);
      assert q == [q[0]] + q[1..]; NamesCons(q[0], q[1..]);
      assert r.Some? ==> exists i :: 0 <= i < |q[1..]| && q[1..][i] == (k, r.value) && forall j :: 0 <= j < i ==> q[1..][j].0 != k;
      if r.Some? then
        var i :| 0 <= i < |q[1..]| && q[1..][i] == (k, r.value) && forall j :: 0 <= j < i ==> q[1..][j].0 != k;
        assert q[i + 1] == (k, r.value) && forall j :: 0 <= j < i + 1 ==> q[j].0 != k;
        r
      else r
  }

  /** Every pair whose name is not `k`, in order. */
  function Remove(q: Query, k: string): Query
  {
    if q == [] then []
    else if q[0].0 == k then Remove(q[1..], k)
    else [q[0]] + Remove(q[1..], k)
  }

  /** `params.set(k, v)`: the first pair named `k` takes the value `v` and the
      later ones are dropped; without such a pair, `(k, v)` is appended. */
  function Set(q: Query, k: string, v: string): Query
  {
    if q == [] then [(k, v)]
    else if q[0].0 == k then [(k, v)] + Remove(q[1..], k)
    else [q[0]] + Set(q[1..], k, v)
  }

  lemma GetCons(p: (string, string), q: Query, k: string)
    ensures Get([p] + q, k) == if p.0 == k then Some(p.1) else Get(q, k)
  {
    assert ([p] + q)[1..] == q;
  }

  /** Removing `k` drops exactly the name `k` and keeps every other name's value. */
  lemma {:induction false} RemoveSpec(q: Query, k: string)
    ensures Names(Remove(q, k)) == Names(q) - {k}
    ensures forall j :: j != k ==> Get(Remove(q, k), j) == Get(q, j)
    ensures Unique(q) ==> Unique(Remove(q, k))
    ensures k !in Names(q) ==> Remove(q, k) == q
  {
    if q != [] {
      var rest := Remove(q[1..], k);
      RemoveSpec(q[1..], k);
      assert q == [q[0]] + q[1..];
      NamesCons(q[0], q[1..]);
      forall j | j != k
        ensures Get(Remove(q, k), j) == Get(q, j)
      {
        GetCons(q[0], q[1..], j);
        GetCons(q[0], rest, j);
      }
      if q[0].0 != k {
        NamesCons(q[0], rest);
        if Unique(q) {
          assert Unique(q[1..]) by {
            forall a, b | 0 <= a < b < |q[1..]| ensures q[1..][a].0 != q[1..][b].0 {
              assert q[1..][a] == q[a + 1] && q[1..][b] == q[b + 1];
            }
          }
          UniqueCons(q[0], rest);
        }
      } else if Unique(q) {
        assert Unique(q[1..]) by {
          forall a, b | 0 <= a < b < |q[1..]| ensures q[1..][a].0 != q[1..][b].0 {
            assert q[1..][a] == q[a + 1] && q[1..][b] == q[b + 1];
          }
        }
      }
    }
  }

  lemma UniqueCons(p: (string, string), q: Query)
    requires Unique(q) && p.0 !in Names(q)
    ensures Unique([p] + q)
  {
    var r := [p] + q;
    forall a, b | 0 <= a < b < |r|
      ensures r[a].0 != r[b].0
    {
      assert r[b] == q[b - 1];
      if a > 0 {
        assert r[a] == q[a - 1];
      } else {
        assert q[b - 1].0 in Names(q);
      }
    }
  }

  lemma UniqueTail(q: Query)
    requires q != [] && Unique(q)
    ensures Unique(q[1..]) && q[0].0 !in Names(q[1..])
  {
    forall a, b | 0 <= a < b < |q[1..]|
      ensures q[1..][a].0 != q[1..][b].0
    {
      assert q[1..][a] == q[a + 1] && q[1..][b] == q[b + 1];
    }
    forall i | 0 <= i < |q[1..]|
      ensures q[1..][i].0 != q[0].0
    {
      assert q[1..][i] == q[i + 1];
    }
  }

  /** After `set(k, v)`, `get(k)` is `v`, every other name reads as before, the
      names are the old ones plus `k`, and no name is repeated that was not. */
  lemma {:induction false} SetSpec(q: Query, k: string, v: string)
    ensures Get(Set(q, k, v), k) == Some(v)
    ensures forall j :: j != k ==> Get(Set(q, k, v), j) == Get(q, j)
    ensures Names(Set(q, k, v)) == Names(q) + {k}
    ensures Unique(q) ==> Unique(Set(q, k, v))
  {
    if q == [] {
      assert Names([(k, v)]) == {k} by { NamesCons((k, v), []); }
    } else {
      assert q == [q[0]] + q[1..];
      NamesCons(q[0], q[1..]);
      if q[0].0 == k {
        SetSpecHead(q, k, v);
      } else {
        SetSpec(q[1..], k, v);
        SetTailGet(q, k, v);
        SetTailNames(q, k, v);
        SetTailUnique(q, k, v);
      }
    }
  }


  /** `set` on a list whose first pair has another name keeps that pair and
      sets the name in the rest: reads, names and uniqueness carry over. */
  lemma SetTailGet(q: Query, k: string, v: string)
    requires q != [] && q[0].0 != k
    requires Get(Set(q[1..], k, v), k) == Some(v)
    requires forall j :: j != k ==> Get(Set(q[1..], k, v), j) == Get(q[1..], j)
    ensures Get(Set(q, k, v), k) == Some(v)
    ensures forall j :: j != k ==> Get(Set(q, k, v), j) == Get(q, j)
  {
    var rest := Set(q[1..], k, v);
    assert Set(q, k, v) == [q[0]] + rest;
    assert q == [q[0]] + q[1..];
    GetCons(q[0], rest, k);
    forall j | j != k
      ensures Get(Set(q, k, v), j) == Get(q, j)
    {
      GetCons(q[0], rest, j);
      GetCons(q[0], q[1..], j);
    }
  }

  lemma SetTailNames(q: Query, k: string, v: string)
    requires q != [] && q[0].0 != k
    requires Names(Set(q[1..], k, v)) == Names(q[1..]) + {k}
    ensures Names(Set(q, k, v)) == Names(q) + {k}
  {
    var rest := Set(q[1..], k, v);
    assert Set(q, k, v) == [q[0]] + rest;
    assert q == [q[0]] + q[1..];
    NamesCons(q[0], q[1..]);
    NamesCons(q[0], rest);
  }

  lemma SetTailUnique(q: Query, k: string, v: string)
    requires q != [] && q[0].0 != k
    requires Names(Set(q[1..], k, v)) == Names(q[1..]) + {k}
    requires Unique(q[1..]) ==> Unique(Set(q[1..], k, v))
    ensures Unique(q) ==> Unique(Set(q, k, v))
  {
    var rest := Set(q[1..], k, v);
    assert Set(q, k, v) == [q[0]] + rest;
    if Unique(q) {
      UniqueTail(q);
      UniqueCons(q[0], rest);
    }
  }

  /** `set` on a list whose first pair has the name: that pair takes the new
      value and the later ones with the name go. */
  lemma SetSpecHead(q: Query, k: string, v: string)
    requires q != [] && q[0].0 == k
    ensures Get(Set(q, k, v), k) == Some(v)
    ensures forall j :: j != k ==> Get(Set(q, k, v), j) == Get(q, j)
    ensures Names(Set(q, k, v)) == Names(q) + {k}
    ensures Unique(q) ==> Unique(Set(q, k, v))
  {
    assert q == [q[0]] + q[1..];
    NamesCons(q[0], q[1..]);
    var rest := Remove(q[1..], k);
    RemoveSpec(q[1..], k);
    GetCons((k, v), rest, k);
    NamesCons((k, v), rest);
    forall j | j != k
      ensures Get(Set(q, k, v), j) == Get(q, j)
    {
      GetCons((k, v), rest, j);
      GetCons(q[0], q[1..], j);
    }
    if Unique(q) {
      UniqueTail(q);
      UniqueCons((k, v), rest);
    }
  }

  /** Setting a name that does not occur appends the pair. */
  lemma {:induction false} SetAbsent(q: Query, k: string, v: string)
    requires k !in Names(q)
    ensures Set(q, k, v) == q + [(k, v)]
  {
    if q != [] {
      assert q == [q[0]] + q[1..]; NamesCons(q[0], q[1..]);
      SetAbsent(q[1..], k, v);
      assert q == [q[0]] + q[1..];
    }
  }

  /** On a list without repeated names, setting a name that occurs replaces its
      value where it stands and changes nothing else. */
  lemma {:induction false} SetPresent(q: Query, k: string, v: string)
    requires Unique(q) && k in Names(q)
    ensures |Set(q, k, v)| == |q|
    ensures forall i :: 0 <= i < |q| ==> Set(q, k, v)[i] == if q[i].0 == k then (k, v) else q[i]
  {
    assert q == [q[0]] + q[1..]; NamesCons(q[0], q[1..]);
    if q[0].0 == k {
      UniqueTail(q);
      RemoveSpec(q[1..], k);
    } else {
      SetPresent(q[1..], k, v);
    }
  }

  lemma {:induction false} NamesConcat(a: Query, b: Query)
    ensures Names(a + b) == Names(a) + Names(b)
  {
    if a != [] {
      NamesConcat(a[1..], b);
      var ab := a + b;
      assert ab == [a[0]] + (a[1..] + b);
      assert a == [a[0]] + a[1..];
      NamesCons(a[0], a[1..] + b);
      NamesCons(a[0], a[1..]);
      assert Names(ab) == {a[0].0} + Names(a[1..] + b);
    } else {
      assert a + b == b;
    }
  }

  /** `get` on a concatenation reads the first part when the name occurs there. */
  lemma {:induction false} GetConcat(a: Query, b: Query, k: string)
    ensures Get(a + b, k) == if k in Names(a) then Get(a, k) else Get(b, k)
  {
    if a != [] {
      GetConcat(a[1..], b, k);
      var ab := a + b;
      assert ab == [a[0]] + (a[1..] + b);
      assert a == [a[0]] + a[1..];
      GetCons(a[0], a[1..] + b, k);
      GetCons(a[0], a[1..], k);
      NamesCons(a[0], a[1..]);
      assert Get(ab, k) == if a[0].0 == k then Some(a[0].1) else Get(a[1..] + b, k);
    } else {
      assert a + b == b;
    }
  }

  /** Dropping the last pair of a list without repeats leaves one without
      repeats that does not name the dropped pair. */
  lemma UniqueInit(q: Query)
    requires q != [] && Unique(q)
    ensures Unique(q[..|q| - 1]) && q[|q| - 1].0 !in Names(q[..|q| - 1])
  {
    var init := q[..|q| - 1];
    forall a | 0 <= a < |init|
      ensures init[a].0 != q[|q| - 1].0
    {
      assert init[a] == q[a];
    }
  }

  lemma UniqueSnoc(q: Query, p: (string, string))
    requires Unique(q) && p.0 !in Names(q)
    ensures Unique(q + [p])
  {
    var r := q + [p];
    forall a, b | 0 <= a < b < |r|
      ensures r[a].0 != r[b].0
    {
      assert r[a] == q[a];
      if b < |q| {
        assert r[b] == q[b];
      } else {
        assert q[a].0 in Names(q);
      }
    }
  }
}

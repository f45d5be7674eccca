/** The generic per-entity store (`DAL<T>`) that every handler works through.
    Its implementation is not part of this model; what the handlers rely on is
    stated here as functions over the table, a sequence of rows in storage order:
    - `Listar` is the table itself (never null, possibly empty);
    - `RecuperarPor(p)` is the first row satisfying `p`, or none;
    - `Atualizar(x)` replaces the row whose key equals `x`'s key;
    - `Deletar(x)` removes the rows whose key equals `x`'s key.
 */
module Store {

  datatype Option<+T> = None | Some(value: T)

  /** Index of the first element satisfying `p`. */
  function FirstIndex<T>(s: seq<T>, p: T -> bool): (r: Option<nat>)
    ensures r.Some? ==> r.value < |s| && p(s[r.value])
    ensures r.Some? ==> forall j :: 0 <= j < r.value ==> !p(s[j])
    ensures r.None? ==> forall j :: 0 <= j < |s| ==> !p(s[j])
  {
    if |s| == 0 then None
    else if p(s[0]) then Some(0)
    else match FirstIndex(s[1..], p)
      case None => None
      case Some(k) => Some(k + 1)
  }

  /** `RecuperarPor`: the first stored row satisfying the predicate, or none. */
  function RecuperarPor<T>(s: seq<T>, p: T -> bool): (r: Option<T>)
    ensures r.None? <==> forall j :: 0 <= j < |s| ==> !p(s[j])
    ensures r.Some? ==> p(r.value) && r.value in s
    ensures r.Some? ==> exists k :: 0 <= k < |s| && s[k] == r.value && forall j :: 0 <= j < k ==> !p(s[j])
  {
    match FirstIndex(s, p)
    case Some(k) => Some(s[k])
    case None => None
  }

  /** The elements of `s` that satisfy `keep`, in their original order. */
  function Filter<T>(s: seq<T>, keep: T -> bool): (r: seq<T>)
    ensures |r| <= |s|
    ensures forall i :: 0 <= i < |r| ==> r[i] in s && keep(r[i])
    ensures forall i :: 0 <= i < |s| && keep(s[i]) ==> s[i] in r
  {
    if s == [] then []
    else (if keep(s[0]) then [s[0]] else []) + Filter(s[1..], keep)
  }

  /** `Atualizar`: every row with the key of `x` is replaced by `x`. */
  function Atualizar<T>(s: seq<T>, key: T -> int, x: T): (r: seq<T>)
    ensures |r| == |s|
    ensures forall i :: 0 <= i < |s| ==> key(r[i]) == key(s[i])
    ensures forall i :: 0 <= i < |s| && key(s[i]) == key(x) ==> r[i] == x
    ensures forall i :: 0 <= i < |s| && key(s[i]) != key(x) ==> r[i] == s[i]
  {
    seq(|s|, i requires 0 <= i < |s| => if key(s[i]) == key(x) then x else s[i])
  }

  function KeyIsNot<T>(key: T -> int, k: int): T -> bool
  {
    x => key(x) != k
  }

  /** `Deletar`: every row with key `k` is removed. */
  function Deletar<T>(s: seq<T>, key: T -> int, k: int): seq<T>
  {
    Filter(s, KeyIsNot(key, k))
  }

  /** No two rows of the table share a key (a primary key). */
  ghost predicate UniqueKeys<T>(s: seq<T>, key: T -> int)
  {
    forall i, j :: 0 <= i < j < |s| ==> key(s[i]) != key(s[j])
  }

  /** With unique keys, updating a stored row replaces exactly that row. */
  lemma AtualizarAt<T>(s: seq<T>, key: T -> int, k: nat, x: T)
    requires UniqueKeys(s, key)
    requires k < |s| && key(s[k]) == key(x)
    ensures Atualizar(s, key, x) == s[k := x]
  {
    var r := Atualizar(s, key, x);
    forall i | 0 <= i < |s|
      ensures r[i] == s[k := x][i]
    {
      if i < k {
        assert key(s[i]) != key(s[k]);
      } else if i > k {
        assert key(s[k]) != key(s[i]);
      }
    }
  }

  /** Filtering keeps everything when every element is kept. */
  lemma {:induction false} FilterAll<T>(s: seq<T>, keep: T -> bool)
    requires forall j :: 0 <= j < |s| ==> keep(s[j])
    ensures Filter(s, keep) == s
  {
    if s != [] {
      assert keep(s[0]);
      FilterAll(s[1..], keep);
    }
  }

  /** Filtering distributes over concatenation. */
  lemma {:induction false} FilterConcat<T>(a: seq<T>, b: seq<T>, keep: T -> bool)
    ensures Filter(a + b, keep) == Filter(a, keep) + Filter(b, keep)
  {
    if a == [] {
      assert a + b == b;
    } else {
      assert (a + b)[0] == a[0];
      assert (a + b)[1..] == a[1..] + b;
      FilterConcat(a[1..], b, keep);
    }
  }

  /** With unique keys, deleting a stored row removes exactly that row and
      keeps the order of the others. */
  lemma DeletarAt<T>(s: seq<T>, key: T -> int, k: nat)
    requires UniqueKeys(s, key)
    requires k < |s|
    ensures Deletar(s, key, key(s[k])) == s[..k] + s[k + 1..]
  {
    var keep := KeyIsNot(key, key(s[k]));
    var pre, post := s[..k], s[k + 1..];
    assert s == pre + ([s[k]] + post);
    forall j | 0 <= j < |pre| ensures keep(pre[j]) {
      assert key(s[j]) != key(s[k]);
    }
    forall j | 0 <= j < |post| ensures keep(post[j]) {
      assert key(s[k]) != key(s[k + 1 + j]);
    }
    FilterAll(pre, keep);
    FilterAll(post, keep);
    assert Filter([s[k]], keep) == [] by {
      assert !keep(s[k]);
      assert [s[k]][1..] == [];
    }
    FilterConcat([s[k]], post, keep);
    FilterConcat(pre, [s[k]] + post, keep);
  }

  /** Deleting rows keeps the primary key unique. */
  lemma {:induction false} FilterUniqueKeys<T>(s: seq<T>, keep: T -> bool, key: T -> int)
    requires UniqueKeys(s, key)
    ensures UniqueKeys(Filter(s, keep), key)
  {
    if s != [] {
      var t := s[1..];
      assert UniqueKeys(t, key) by {
        forall i, j | 0 <= i < j < |t| ensures key(t[i]) != key(t[j]) {
          assert key(s[i + 1]) != key(s[j + 1]);
        }
      }
      FilterUniqueKeys(t, keep, key);
      var rest := Filter(t, keep);
      if keep(s[0]) {
        var r := [s[0]] + rest;
        forall i, j | 0 <= i < j < |r| ensures key(r[i]) != key(r[j]) {
          if i == 0 {
            assert r[j] == rest[j - 1] && rest[j - 1] in t;
            var m :| 0 <= m < |t| && t[m] == rest[j - 1];
            assert key(s[0]) != key(s[m + 1]);
          } else {
            assert r[i] == rest[i - 1] && r[j] == rest[j - 1];
          }
        }
        assert Filter(s, keep) == r;
      } else {
        assert Filter(s, keep) == rest;
      }
    }
  }

  /** Appending rows numbered from `proximo` on, in order, to a table whose keys are
      unique and below `proximo` keeps the keys unique. */
  lemma AppendFreshKeys<T>(s: seq<T>, t: seq<T>, key: T -> int, proximo: int)
    requires UniqueKeys(s, key)
    requires forall i :: 0 <= i < |s| ==> key(s[i]) < proximo
    requires forall j :: 0 <= j < |t| ==> key(t[j]) == proximo + j
    ensures UniqueKeys(s + t, key)
  {
    var r := s + t;
    forall i, j | 0 <= i < j < |r| ensures key(r[i]) != key(r[j]) {
      if j < |s| {
        assert r[i] == s[i] && r[j] == s[j];
      } else if i < |s| {
        assert r[i] == s[i] && r[j] == t[j - |s|];
      } else {
        assert r[i] == t[i - |s|] && r[j] == t[j - |s|];
      }
    }
  }

  /** Filtering drops everything when no element is kept. */
  lemma {:induction false} FilterNone<T>(s: seq<T>, keep: T -> bool)
    requires forall j :: 0 <= j < |s| ==> !keep(s[j])
    ensures Filter(s, keep) == []
  {
    if s != [] {
      assert !keep(s[0]);
      FilterNone(s[1..], keep);
    }
  }

  /** Filtering by a stronger test after a weaker one is filtering by the stronger one. */
  lemma {:induction false} FilterFilter<T>(s: seq<T>, weak: T -> bool, strong: T -> bool)
    requires forall x :: strong(x) ==> weak(x)
    ensures Filter(Filter(s, weak), strong) == Filter(s, strong)
  {
    if s != [] {
      FilterFilter(s[1..], weak, strong);
      var rest := Filter(s[1..], weak);
      if weak(s[0]) {
        assert Filter(s, weak) == [s[0]] + rest;
        assert ([s[0]] + rest)[0] == s[0] && ([s[0]] + rest)[1..] == rest;
      } else {
        assert Filter(s, weak) == rest;
      }
    }
  }

  /** The first index is determined by where the test first holds. */
  lemma {:induction false} FirstIndexAt<T>(s: seq<T>, p: T -> bool, k: nat)
    requires k < |s| && p(s[k])
    requires forall j :: 0 <= j < k ==> !p(s[j])
    ensures FirstIndex(s, p) == Some(k)
  {
    if k > 0 {
      assert !p(s[0]);
      FirstIndexAt(s[1..], p, k - 1);
    }
  }
}

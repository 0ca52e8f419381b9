/** SQL text as the search and update handlers build it: literal text with
    numbered placeholders `$1, $2, ...` interleaved, plus the array of
    parameter values the placeholders stand for. What the database does with
    the query is not modelled. */
module Query {
  import opened Js

  datatype Frag = Text(s: string) | Param(index: nat)

  type Sql = seq<Frag>

  /** A built query: `pool.query(sql, params)`. */
  datatype Built = Built(sql: Sql, params: seq<Val>)

  /** The placeholder numbers, in the order they occur in the text. */
  function Placeholders(q: Sql): seq<nat>
  {
    if q == [] then []
    else Placeholders(q[..|q| - 1]) + (match q[|q| - 1] case Text(_) => [] case Param(i) => [i])
  }

  /** `[lo, lo + 1, ..., lo + n - 1]`. */
  function Iota(lo: nat, n: nat): (r: seq<nat>)
    ensures |r| == n
  {
    if n == 0 then [] else Iota(lo, n - 1) + [lo + n - 1]
  }

  /** The `i`-th number of `Iota(lo, n)` is `lo + i`. */
  lemma {:induction false} IotaAt(lo: nat, n: nat, i: nat)
    requires i < n
    ensures Iota(lo, n)[i] == lo + i
  {
    if i < n - 1 {
      IotaAt(lo, n - 1, i);
    }
  }

  /** The invariant every builder keeps: the placeholders are exactly
      `$1..$n`, in order, with `n` the number of parameters. */
  predicate Numbered(q: Sql, params: seq<Val>)
  {
    Placeholders(q) == Iota(1, |params|)
  }

  /** The literal pieces of the text, in the order they occur. */
  function Texts(q: Sql): seq<string>
  {
    if q == [] then []
    else Texts(q[..|q| - 1]) + (match q[|q| - 1] case Text(t) => [t] case Param(_) => [])
  }

  /** Both views of a query distribute over concatenation. */
  lemma {:induction false} PiecesAppend(a: Sql, b: Sql)
    ensures Placeholders(a + b) == Placeholders(a) + Placeholders(b)
    ensures Texts(a + b) == Texts(a) + Texts(b)
    decreases |b|
  {
    if b == [] {
      assert a + b == a;
    } else {
      var c := b[..|b| - 1];
      assert (a + b)[..|a + b| - 1] == a + c;
      assert (a + b)[|a + b| - 1] == b[|b| - 1];
      PiecesAppend(a, c);
    }
  }

  /** Appends in a row are one append of the pieces. */
  lemma AppendTwo<T>(s: seq<T>, a: T, b: T)
    ensures s + [a] + [b] == s + [a, b]
  {
  }

  lemma AppendFour<T>(s: seq<T>, a: T, b: T, c: T, d: T)
    ensures s + [a] + [b] + [c] + [d] == s + [a, b, c, d]
  {
  }

  /** Appending literal text keeps the numbering. */
  function AddText(q: Sql, params: seq<Val>, t: string): (r: Sql)
    requires Numbered(q, params)
    ensures r == q + [Text(t)]
    ensures Numbered(r, params) && Texts(r) == Texts(q) + [t]
  {
    PiecesAppend(q, [Text(t)]);
    assert Placeholders([Text(t)]) == [] && Texts([Text(t)]) == [t];
    q + [Text(t)]
  }

  /** `query += text + '$' + (paramIndex++)` together with
      `params.push(v)`: one more placeholder, numbered one past the last,
      and the numbering invariant is kept. */
  lemma Bind(q: Sql, params: seq<Val>, t: string, v: Val)
    requires Numbered(q, params)
    ensures Numbered(q + [Text(t), Param(|params| + 1)], params + [v])
    ensures Texts(q + [Text(t), Param(|params| + 1)]) == Texts(q) + [t]
  {
    PiecesAppend(q, [Text(t), Param(|params| + 1)]);
    var b := [Text(t), Param(|params| + 1)];
    assert b[..1] == [Text(t)];
    assert b[..1][..0] == [];
    assert Placeholders([Text(t)]) == [] && Texts([Text(t)]) == [t];
    assert Placeholders(b) == [|params| + 1] && Texts(b) == [t];
  }
}

/** Label-vector gauges, abstracted to finite maps from label tuples to values. */
module GaugeVec {

  /** The ordered label values that select one child of a gauge vector. */
  type LabelTuple = seq<string>

  /** The children that `rows` write, in order: for each row, `WithLabelValues(key(row)...).Set(val(row))`.
      A later row with the same labels overwrites an earlier one. */
  function Assign<R, V>(v: map<LabelTuple, V>, rows: seq<R>, key: R -> LabelTuple, val: R -> V): map<LabelTuple, V>
    decreases |rows|
  {
    if rows == [] then v
    else Assign(v, rows[..|rows| - 1], key, val)[key(rows[|rows| - 1]) := val(rows[|rows| - 1])]
  }

  /** The label tuples that `rows` write. */
  function KeysOf<R>(rows: seq<R>, key: R -> LabelTuple): set<LabelTuple>
  {
    set i | 0 <= i < |rows| :: key(rows[i])
  }

  /** `x` is the value of the last of `rows` that carries the tuple `k`. */
  ghost predicate WrittenLast<R, V>(rows: seq<R>, key: R -> LabelTuple, val: R -> V, k: LabelTuple, x: V)
  {
    exists i :: 0 <= i < |rows| && key(rows[i]) == k && x == val(rows[i]) &&
                forall j :: i < j < |rows| ==> key(rows[j]) != k
  }

  /** A vector whose every child holds the presence marker 1. */
  ghost predicate AllPresent(v: map<LabelTuple, int>)
  {
    forall k :: k in v ==> v[k] == 1
  }

  /** The one-label tuples `[name]` of the given names. */
  function Singletons(names: set<string>): set<LabelTuple>
  {
    set n | n in names :: [n]
  }

  /** The one-label tuples `[name]` for the names of `m` in `names`, each holding `m[name]`:
      what a loop over a Go map writes. */
  function ByName<V>(m: map<string, V>, names: set<string>): (r: map<LabelTuple, V>)
    requires names <= m.Keys
    ensures forall n :: n in names ==> [n] in r && r[[n]] == m[n]
    ensures r.Keys == Singletons(names)
  {
    map k | k in Singletons(names) :: m[k[0]]
  }

  /** Laying the children of a Go map over a vector inserts or overwrites exactly the map's names. */
  lemma OverlayByName<V>(v: map<LabelTuple, V>, m: map<string, V>)
    ensures (v + ByName(m, m.Keys)).Keys == v.Keys + Singletons(m.Keys)
    ensures forall n :: n in m ==> (v + ByName(m, m.Keys))[[n]] == m[n]
    ensures forall k :: k in v && k !in Singletons(m.Keys) ==> (v + ByName(m, m.Keys))[k] == v[k]
  {
  }

  /** The one-label tuples `[name]` for the names of `state` in `names`, each holding 1 where
      the name's state is `side` and 0 where it is not: one side of the connectivity pair. */
  function Flags(state: map<string, bool>, names: set<string>, side: bool): (r: map<LabelTuple, int>)
    requires names <= state.Keys
    ensures forall n :: n in names ==> [n] in r && r[[n]] == (if state[n] == side then 1 else 0)
    ensures forall k :: k in r ==> |k| == 1 && k[0] in names
    ensures r.Keys == Singletons(names)
  {
    map k | k in Singletons(names) :: if state[k[0]] == side then 1 else 0
  }

  /** Laying one side of a connectivity map over a vector inserts or overwrites exactly the map's names. */
  lemma OverlayFlags(v: map<LabelTuple, int>, state: map<string, bool>, side: bool)
    ensures (v + Flags(state, state.Keys, side)).Keys == v.Keys + Singletons(state.Keys)
    ensures forall n :: n in state ==> (v + Flags(state, state.Keys, side))[[n]] == (if state[n] == side then 1 else 0)
    ensures forall k :: k in v && k !in Singletons(state.Keys) ==> (v + Flags(state, state.Keys, side))[k] == v[k]
  {
  }

  lemma KeysOfSnoc<R>(rows: seq<R>, key: R -> LabelTuple)
    requires rows != []
    ensures KeysOf(rows, key) == KeysOf(rows[..|rows| - 1], key) + {key(rows[|rows| - 1])}
  {
    var init, last := rows[..|rows| - 1], rows[|rows| - 1];
    assert rows == init + [last];
    forall k | k in KeysOf(rows, key) ensures k in KeysOf(init, key) + {key(last)} {
      var i :| 0 <= i < |rows| && key(rows[i]) == k;
      if i < |rows| - 1 { assert init[i] == rows[i]; }
    }
    forall k | k in KeysOf(init, key) ensures k in KeysOf(rows, key) {
      var i :| 0 <= i < |init| && key(init[i]) == k;
      assert rows[i] == init[i];
    }
  }

  /** Writing the rows into `v` is the same as laying the rows' own children over `v`. */
  lemma {:induction false} AssignIsUnion<R, V>(v: map<LabelTuple, V>, rows: seq<R>, key: R -> LabelTuple, val: R -> V)
    ensures Assign(v, rows, key, val) == v + Assign(map[], rows, key, val)
    decreases |rows|
  {
    if rows == [] {
      assert v + map[] == v;
    } else {
      var init, last := rows[..|rows| - 1], rows[|rows| - 1];
      AssignIsUnion(v, init, key, val);
      var a := Assign(map[], init, key, val);
      assert (v + a)[key(last) := val(last)] == v + a[key(last) := val(last)];
    }
  }

  /** The children after the writes are the old ones plus exactly the written tuples. */
  lemma {:induction false} AssignKeys<R, V>(v: map<LabelTuple, V>, rows: seq<R>, key: R -> LabelTuple, val: R -> V)
    ensures Assign(v, rows, key, val).Keys == v.Keys + KeysOf(rows, key)
    decreases |rows|
  {
    if rows == [] {
      assert KeysOf(rows, key) == {};
    } else {
      AssignKeys(v, rows[..|rows| - 1], key, val);
      KeysOfSnoc(rows, key);
    }
  }

  /** Writing rows into an empty vector gives exactly the rows' tuples. */
  lemma AssignFreshKeys<R, V>(rows: seq<R>, key: R -> LabelTuple, val: R -> V)
    ensures Assign(map[], rows, key, val).Keys == KeysOf(rows, key)
  {
    AssignKeys(map[], rows, key, val);
  }

  /** A written tuple holds the value of the LAST row that carries it. */
  lemma {:induction false} AssignLastWins<R, V>(v: map<LabelTuple, V>, rows: seq<R>, key: R -> LabelTuple, val: R -> V, k: LabelTuple)
    requires k in KeysOf(rows, key)
    ensures k in Assign(v, rows, key, val)
    ensures WrittenLast(rows, key, val, k, Assign(v, rows, key, val)[k])
    decreases |rows|
  {
    var n := |rows|;
    var init, last := rows[..n - 1], rows[n - 1];
    KeysOfSnoc(rows, key);
    if key(last) == k {
      assert key(rows[n - 1]) == k;
    } else {
      AssignLastWins(v, init, key, val, k);
      var i :| 0 <= i < |init| && key(init[i]) == k && Assign(v, init, key, val)[k] == val(init[i]) &&
               forall j :: i < j < |init| ==> key(init[j]) != k;
      assert key(rows[i]) == k;
      assert forall j :: i < j < |rows| ==> key(rows[j]) != k by {
        forall j | i < j < |rows| ensures key(rows[j]) != k {
          if j < n - 1 { assert rows[j] == init[j]; }
        }
      }
    }
  }

  /** A tuple no row carries keeps its old value, or stays absent. */
  lemma AssignOutside<R, V>(v: map<LabelTuple, V>, rows: seq<R>, key: R -> LabelTuple, val: R -> V, k: LabelTuple)
    requires k !in KeysOf(rows, key)
    ensures k in Assign(v, rows, key, val) <==> k in v
    ensures k in v ==> Assign(v, rows, key, val)[k] == v[k]
  {
    AssignIsUnion(v, rows, key, val);
    AssignKeys(map[], rows, key, val);
  }

  /** Writing the same rows twice leaves what writing them once leaves. */
  lemma AssignIdempotent<R, V>(v: map<LabelTuple, V>, rows: seq<R>, key: R -> LabelTuple, val: R -> V)
    ensures Assign(Assign(v, rows, key, val), rows, key, val) == Assign(v, rows, key, val)
  {
    var a := Assign(map[], rows, key, val);
    AssignIsUnion(v, rows, key, val);
    AssignIsUnion(v + a, rows, key, val);
    assert (v + a) + a == v + a;
  }

  /** Rows that all carry the presence marker keep a presence vector a presence vector. */
  lemma AssignKeepsPresence<R>(v: map<LabelTuple, int>, rows: seq<R>, key: R -> LabelTuple, val: R -> int)
    requires AllPresent(v)
    requires forall r :: val(r) == 1
    ensures AllPresent(Assign(v, rows, key, val))
  {
    forall k | k in Assign(v, rows, key, val) ensures Assign(v, rows, key, val)[k] == 1 {
      if k in KeysOf(rows, key) {
        AssignLastWins(v, rows, key, val, k);
      } else {
        AssignOutside(v, rows, key, val, k);
      }
    }
  }

  /** The first `i + 1` rows write the first `i` rows' children and then row `i`'s. */
  lemma AssignPrefix<R, V>(v: map<LabelTuple, V>, rows: seq<R>, key: R -> LabelTuple, val: R -> V, i: nat)
    requires i < |rows|
    ensures Assign(v, rows[..i + 1], key, val) == Assign(v, rows[..i], key, val)[key(rows[i]) := val(rows[i])]
  {
    assert rows[..i + 1][..i] == rows[..i];
  }

  /** Laying one more name of a Go map over a vector sets that name's child. */
  lemma OverlayInsert<V>(v: map<LabelTuple, V>, m: map<string, V>, names: set<string>, n: string)
    requires names <= m.Keys && n in m
    ensures v + ByName(m, names + {n}) == (v + ByName(m, names))[[n] := m[n]]
  {
    var a, b := v + ByName(m, names + {n}), (v + ByName(m, names))[[n] := m[n]];
    assert Singletons(names + {n}) == Singletons(names) + {[n]};
    assert a.Keys == b.Keys;
    forall k | k in a ensures a[k] == b[k] {
      if k != [n] && k in Singletons(names) {
        var x :| x in names && k == [x];
      }
    }
  }
}

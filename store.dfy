/**
 * The key-value store of internal/store/store.go. Viper's in-memory settings
 * are the `values` map of a `Store` object; writing them to the JSON file, and
 * the error that write may return, are not modelled.
 */
module Store {
  import opened Wrappers

  const MaxAppendLength: nat := 100

  /** A setting as decoded from JSON: a scalar or an array of settings. */
  datatype Value = Text(s: string) | Number(n: int) | Flag(b: bool) | List(items: seq<Value>)

  /**
   * The list Append stores: the current list with `value` added, and when that is
   * longer than the cap, its first entries dropped.
   */
  function Appended(current: seq<Value>, value: Value): (r: seq<Value>)
    ensures |r| == if |current| + 1 > MaxAppendLength then MaxAppendLength else |current| + 1
    ensures r[|r| - 1] == value
    ensures r == (current + [value])[|current| + 1 - |r|..]
  {
    var c := current + [value];
    if |c| > MaxAppendLength then c[|c| - MaxAppendLength..] else c
  }

  /** The last `MaxAppendLength` entries of `xs`, in order. */
  function LastEntries(xs: seq<Value>): (r: seq<Value>)
    ensures |r| <= MaxAppendLength
  {
    if |xs| > MaxAppendLength then xs[|xs| - MaxAppendLength..] else xs
  }

  /** Appending `values` one after the other. */
  function AppendedAll(current: seq<Value>, values: seq<Value>): seq<Value>
    decreases |values|
  {
    if values == [] then current else AppendedAll(Appended(current, values[0]), values[1..])
  }

  class Store {
    var values: map<string, Value>

    constructor()
      ensures values == map[]
    {
      values := map[];
    }

    /** viper.Get: the value of `key`, nil when it is not set. */
    function Get(key: string): Option<Value>
      reads this
    {
      if key in values then Some(values[key]) else None
    }

    /** Set: `key` now holds `value`; every other key keeps its value. */
    method Set(key: string, value: Value)
      modifies this
      ensures values == old(values)[key := value]
      ensures Get(key) == Some(value)
      ensures forall k :: k != key ==> Get(k) == old(Get(k))
    {
      values := values[key := value];
    }

    /**
     * Append: `key` must be unset or hold a list (anything else fails the type
     * assertion); it then holds the capped list with `value` last.
     */
    method Append(key: string, value: Value)
      requires key !in values || values[key].List?
      modifies this
      ensures key !in old(values) ==> values == old(values)[key := List([value])]
      ensures key in old(values) ==> values == old(values)[key := List(Appended(old(values)[key].items, value))]
    {
      var currentValue: seq<Value> := [];
      if key in values {
        currentValue := values[key].items;
      }
      currentValue := currentValue + [value];
      assert key !in values ==> currentValue == [value];
      if |currentValue| > MaxAppendLength {
        currentValue := currentValue[|currentValue| - MaxAppendLength..];
      }
      Set(key, List(currentValue));
    }
  }

  // ---------------------------------------------------------------------------

  /** Appending once more to the last 100 entries drops the oldest of them. */
  lemma {:induction false} AppendedOfLast(xs: seq<Value>, value: Value)
    ensures Appended(LastEntries(xs), value) == LastEntries(xs + [value])
  {
    var ys := xs + [value];
    if |xs| > MaxAppendLength {
      assert LastEntries(xs) + [value] == ys[|ys| - MaxAppendLength - 1..];
    }
  }

  /**
   * FIFO: however many values are appended, the list holds the last 100 of
   * everything appended, oldest first.
   */
  lemma {:induction false} AppendedAllKeepsLast(current: seq<Value>, values: seq<Value>)
    requires |current| <= MaxAppendLength
    ensures AppendedAll(current, values) == LastEntries(current + values)
    decreases |values|
  {
    if values == [] {
      assert current + values == current;
    } else {
      var next := Appended(current, values[0]);
      assert next == LastEntries(current + [values[0]]) by {
        AppendedOfLast(current, values[0]);
        assert LastEntries(current) == current;
      }
      AppendedAllKeepsLast(next, values[1..]);
      LastOfLast(current + [values[0]], values[1..]);
      HeadTail(current, values);
    }
  }

  lemma HeadTail(xs: seq<Value>, ys: seq<Value>)
    requires ys != []
    ensures xs + [ys[0]] + ys[1..] == xs + ys
  {
    assert ys == [ys[0]] + ys[1..];
  }

  /** Keeping the last 100 entries before appending more does not change the last 100 after. */
  lemma LastOfLast(xs: seq<Value>, ys: seq<Value>)
    ensures LastEntries(LastEntries(xs) + ys) == LastEntries(xs + ys)
  {
    if |xs| > MaxAppendLength {
      var zs := xs + ys;
      var ws := LastEntries(xs) + ys;
      assert ws == zs[|xs| - MaxAppendLength..];
      assert |ws| >= MaxAppendLength;
      assert ws[|ws| - MaxAppendLength..] == zs[|zs| - MaxAppendLength..];
    }
  }
}

/** Small shared vocabulary: optional values, failures, sums and the
    "last entry wins" dictionary that `new Map(entries)` and
    `Object.fromEntries(entries)` build. */
module Common {

  /** `T | undefined | null` */
  datatype Option<+T> = None | Some(value: T) {
    /** The `??` operator. */
    function GetOr(default: T): T {
      if Some? then value else default
    }
  }

  /** A call that either returns a value or fails with a message (a thrown
      `Error`, or an `ApiResponse` with `success: false`). */
  datatype Result<+T> = Ok(value: T) | Err(message: string)

  /** A string that is present and non-empty: what `if (s)` accepts. */
  predicate Filled(s: Option<string>) {
    s.Some? && s.value != ""
  }

  /** A call that returns nothing or fails with a message. */
  datatype Outcome = Pass | Fail(message: string)

  /** `xs.reduce((sum, x) => sum + x, 0)` on unbounded integers. */
  function Sum(xs: seq<int>): int {
    if xs == [] then 0 else xs[0] + Sum(xs[1..])
  }

  lemma {:induction false} SumAppend(xs: seq<int>, ys: seq<int>)
    ensures Sum(xs + ys) == Sum(xs) + Sum(ys)
  {
    if xs != [] {
      assert (xs + ys)[1..] == xs[1..] + ys;
      SumAppend(xs[1..], ys);
    } else {
      assert xs + ys == ys;
    }
  }

  /** Replacing one entry changes the sum by exactly the difference. */
  lemma {:induction false} SumUpdate(xs: seq<int>, k: nat, v: int)
    requires k < |xs|
    ensures Sum(xs[k := v]) == Sum(xs) - xs[k] + v
  {
    if k == 0 {
      assert xs[k := v][1..] == xs[1..];
    } else {
      assert xs[k := v][1..] == xs[1..][k - 1 := v];
      SumUpdate(xs[1..], k - 1, v);
    }
  }

  lemma {:induction false} SumNonNegative(xs: seq<int>)
    requires forall i :: 0 <= i < |xs| ==> xs[i] >= 0
    ensures Sum(xs) >= 0
  {
    if xs != [] {
      SumNonNegative(xs[1..]);
    }
  }

  /** Keys of a list of key/value pairs. */
  function Keys<V>(pairs: seq<(string, V)>): set<string> {
    set i | 0 <= i < |pairs| :: pairs[i].0
  }

  /** The dictionary built from a list of key/value pairs, where a later pair
      overwrites an earlier one with the same key: the semantics of
      `new Map(pairs)` and of `Object.fromEntries(pairs)`. */
  function LastWins<V>(pairs: seq<(string, V)>): (m: map<string, V>)
    ensures m.Keys == Keys(pairs)
  {
    if pairs == [] then map[]
    else
      var init := pairs[..|pairs| - 1];
      var last := pairs[|pairs| - 1];
      assert Keys(pairs) == Keys(init) + {last.0} by {
        forall k | k in Keys(pairs) ensures k in Keys(init) + {last.0} {
          var i :| 0 <= i < |pairs| && pairs[i].0 == k;
          if i < |pairs| - 1 { assert init[i] == pairs[i]; }
        }
      }
      LastWins(init)[last.0 := last.1]
  }

  /** Looking a key up finds the value of the last pair carrying it. */
  lemma {:induction false} LastWinsLookup<V>(pairs: seq<(string, V)>, i: nat)
    requires i < |pairs|
    requires forall j :: i < j < |pairs| ==> pairs[j].0 != pairs[i].0
    ensures pairs[i].0 in LastWins(pairs) && LastWins(pairs)[pairs[i].0] == pairs[i].1
  {
    if i < |pairs| - 1 {
      var init := pairs[..|pairs| - 1];
      assert init[i] == pairs[i];
      LastWinsLookup(init, i);
    }
  }
}

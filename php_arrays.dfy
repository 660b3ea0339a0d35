/**
 * PHP's ordered associative arrays, as far as the plugin's filters use them:
 * an ordered sequence of (key, value) entries whose keys are integers or
 * strings. Assigning to an existing key replaces the value in place;
 * assigning to a new key appends. `array_merge` renumbers the integer keys
 * of its inputs from 0 and lets later string keys overwrite earlier ones in
 * place.
 */
module PhpArrays {
  import opened Wrappers

  datatype Key = IntKey(i: int) | StrKey(s: string)

  type PhpArray<V> = seq<(Key, V)>

  predicate HasKey<V>(a: PhpArray<V>, k: Key) {
    exists i :: 0 <= i < |a| && a[i].0 == k
  }

  /** A real PHP array never holds the same key twice. */
  predicate UniqueKeys<V>(a: PhpArray<V>) {
    forall i, j :: 0 <= i < j < |a| ==> a[i].0 != a[j].0
  }

  /** `$a[$k]` when `isset`: the value of the first entry with key `k`. */
  function Get<V>(a: PhpArray<V>, k: Key): (r: Option<V>)
    ensures r.Some? <==> HasKey(a, k)
    ensures r.Some? ==> exists i :: 0 <= i < |a| && a[i] == (k, r.value)
    decreases |a|
  {
    if a == [] then None
    else if a[0].0 == k then Some(a[0].1)
    else
      var r := Get(a[1..], k);
      assert HasKey(a, k) ==> HasKey(a[1..], k) by {
        if HasKey(a, k) {
          var i :| 0 <= i < |a| && a[i].0 == k;
          assert a[1..][i - 1].0 == k;
        }
      }
      assert r.Some? ==> exists i :: 0 <= i < |a| && a[i] == (k, r.value) by {
        if r.Some? {
          var i :| 0 <= i < |a[1..]| && a[1..][i] == (k, r.value);
          assert a[i + 1] == (k, r.value);
        }
      }
      r
  }

  /** Every entry with key `k` takes the value `v`; everything else stays put. */
  function Replace<V>(a: PhpArray<V>, k: Key, v: V): (r: PhpArray<V>)
    ensures |r| == |a|
    ensures forall i :: 0 <= i < |a| ==> r[i].0 == a[i].0
    ensures forall i :: 0 <= i < |a| && a[i].0 != k ==> r[i] == a[i]
    ensures forall i :: 0 <= i < |a| && a[i].0 == k ==> r[i].1 == v
    decreases |a|
  {
    if a == [] then []
    else [if a[0].0 == k then (k, v) else a[0]] + Replace(a[1..], k, v)
  }

  lemma {:induction false} GetReplace<V>(a: PhpArray<V>, k: Key, v: V, k': Key)
    ensures Get(Replace(a, k, v), k') == if k' == k && HasKey(a, k) then Some(v) else Get(a, k')
    decreases |a|
  {
    var r := Replace(a, k, v);
    if a != [] {
      assert r[1..] == Replace(a[1..], k, v);
      GetReplace(a[1..], k, v, k');
      if a[0].0 != k' && k' == k && HasKey(a, k) {
        var i :| 0 <= i < |a| && a[i].0 == k;
        assert a[1..][i - 1].0 == k;
      }
    }
  }

  /**
   * `$a[$k] = $v`: the value is now `v` and every other key reads as before;
   * an existing key keeps its position, a new key is appended at the end.
   */
  function Assign<V>(a: PhpArray<V>, k: Key, v: V): (r: PhpArray<V>)
    ensures Get(r, k) == Some(v)
    ensures forall k' :: k' != k ==> Get(r, k') == Get(a, k')
    ensures HasKey(a, k) ==> |r| == |a|
    ensures HasKey(a, k) ==> forall i :: 0 <= i < |a| ==> r[i].0 == a[i].0 && (a[i].0 != k ==> r[i] == a[i])
    ensures !HasKey(a, k) ==> |r| == |a| + 1 && r[..|a|] == a && r[|a|] == (k, v)
    ensures UniqueKeys(a) ==> UniqueKeys(r)
  {
    if HasKey(a, k) then
      var r := Replace(a, k, v);
      GetReplace(a, k, v, k);
      forall k' | k' != k ensures Get(r, k') == Get(a, k') {
        GetReplace(a, k, v, k');
      }
      r
    else
      var r := a + [(k, v)];
      assert r[|a|] == (k, v);
      assert HasKey(r, k);
      GetAppend(a, k, v, k);
      forall k' | k' != k ensures Get(r, k') == Get(a, k') {
        GetAppend(a, k, v, k');
      }
      r
  }

  lemma {:induction false} GetAppend<V>(a: PhpArray<V>, k: Key, v: V, k': Key)
    requires !HasKey(a, k)
    ensures Get(a + [(k, v)], k') == if k' == k then Some(v) else Get(a, k')
    decreases |a|
  {
    if a != [] {
      assert (a + [(k, v)])[1..] == a[1..] + [(k, v)];
      assert !HasKey(a[1..], k);
      GetAppend(a[1..], k, v, k');
    }
  }

  /** The number of integer-keyed entries. */
  function IntCount<V>(a: PhpArray<V>): nat
    decreases |a|
  {
    if a == [] then 0 else (if a[0].0.IntKey? then 1 else 0) + IntCount(a[1..])
  }

  /**
   * The first step of `array_merge`: integer keys are renumbered in order
   * starting at `next`; string keys and all values stay where they were.
   */
  function Renumber<V>(a: PhpArray<V>, next: int): (r: PhpArray<V>)
    ensures |r| == |a|
    ensures forall i :: 0 <= i < |a| ==> r[i].1 == a[i].1
    ensures forall i :: 0 <= i < |a| && a[i].0.StrKey? ==> r[i].0 == a[i].0
    ensures forall i :: 0 <= i < |a| && a[i].0.IntKey? ==> r[i].0 == IntKey(next + IntCount(a[..i]))
    decreases |a|
  {
    if a == [] then []
    else
      var head := if a[0].0.IntKey? then (IntKey(next), a[0].1) else a[0];
      var step := if a[0].0.IntKey? then 1 else 0;
      var rest := Renumber(a[1..], next + step);
      var r := [head] + rest;
      forall i | 0 < i < |a| ensures IntCount(a[..i]) == step + IntCount(a[1..][..i - 1]) {
        assert a[..i][1..] == a[1..][..i - 1];
      }
      assert IntCount(a[..0]) == 0;
      r
  }

  /** The value of the last entry with key `k`: the one a sequence of assignments leaves behind. */
  function LastGet<V>(b: PhpArray<V>, k: Key): Option<V>
    decreases |b|
  {
    if b == [] then None
    else if b[|b| - 1].0 == k then Some(b[|b| - 1].1)
    else LastGet(b[..|b| - 1], k)
  }

  /** Reading `LastGet` from the front: a later entry with the key wins over the first one. */
  lemma {:induction false} LastGetCons<V>(x: (Key, V), t: PhpArray<V>, k: Key)
    ensures LastGet([x] + t, k) == if HasKey(t, k) then LastGet(t, k) else if x.0 == k then Some(x.1) else None
    decreases |t|
  {
    var xt := [x] + t;
    if t == [] {
      assert xt[..0] == [];
    } else {
      var init := t[..|t| - 1];
      assert xt[..|xt| - 1] == [x] + init;
      assert xt[|xt| - 1] == t[|t| - 1];
      LastGetCons(x, init, k);
      assert HasKey(t, k) <==> t[|t| - 1].0 == k || HasKey(init, k) by {
        if HasKey(t, k) && t[|t| - 1].0 != k {
          var i :| 0 <= i < |t| && t[i].0 == k;
          assert init[i].0 == k;
        }
        if HasKey(init, k) {
          var i :| 0 <= i < |init| && init[i].0 == k;
          assert t[i].0 == k;
        }
      }
    }
  }

  /** Appending an entry does not change what any other key reads. */
  lemma {:induction false} GetAppendOther<V>(a: PhpArray<V>, k: Key, v: V, k': Key)
    requires k' != k
    ensures Get(a + [(k, v)], k') == Get(a, k')
    decreases |a|
  {
    if a != [] {
      assert (a + [(k, v)])[1..] == a[1..] + [(k, v)];
      GetAppendOther(a[1..], k, v, k');
    }
  }

  /**
   * The accumulator after merging one entry `x`: an integer key is appended
   * under the next number; a string key is assigned (see `MergeOneAssigns`).
   */
  function MergeOne<V>(acc: PhpArray<V>, x: (Key, V), next: int): PhpArray<V> {
    if x.0.IntKey? then acc + [(IntKey(next), x.1)]
    else if HasKey(acc, x.0) then Replace(acc, x.0, x.1)
    else acc + [x]
  }

  lemma MergeOneAssigns<V>(acc: PhpArray<V>, x: (Key, V), next: int)
    requires x.0.StrKey?
    ensures MergeOne(acc, x, next) == Assign(acc, x.0, x.1)
  {
  }

  /** The second step of `array_merge`: append or overwrite the entries of `b`. */
  function MergeInto<V>(acc: PhpArray<V>, b: PhpArray<V>, next: int): (r: PhpArray<V>)
    ensures |acc| <= |r| <= |acc| + |b| && forall i :: 0 <= i < |acc| ==> r[i].0 == acc[i].0
    decreases |b|
  {
    if b == [] then acc
    else MergeInto(MergeOne(acc, b[0], next), b[1..], if b[0].0.IntKey? then next + 1 else next)
  }

  lemma HasKeyCons<V>(x: (Key, V), t: PhpArray<V>, k: Key)
    ensures HasKey([x] + t, k) <==> x.0 == k || HasKey(t, k)
  {
    var xt := [x] + t;
    assert xt[0] == x;
    if HasKey(xt, k) && x.0 != k {
      var i :| 0 <= i < |xt| && xt[i].0 == k;
      assert t[i - 1].0 == k;
    }
    if HasKey(t, k) {
      var i :| 0 <= i < |t| && t[i].0 == k;
      assert xt[i + 1].0 == k;
    }
  }

  /** After merging, a string key reads the last value `b` gives it, or else its value in `acc`. */
  lemma {:induction false} GetMergeInto<V>(acc: PhpArray<V>, b: PhpArray<V>, next: int, s: string)
    ensures Get(MergeInto(acc, b, next), StrKey(s)) ==
      (if HasKey(b, StrKey(s)) then LastGet(b, StrKey(s)) else Get(acc, StrKey(s)))
    decreases |b|
  {
    var k := StrKey(s);
    if b != [] {
      var x, t := b[0], b[1..];
      assert b == [x] + t;
      LastGetCons(x, t, k);
      HasKeyCons(x, t, k);
      if x.0.IntKey? {
        var acc' := acc + [(IntKey(next), x.1)];
        GetMergeInto(acc', t, next + 1, s);
        GetAppendOther(acc, IntKey(next), x.1, k);
      } else {
        var acc' := Assign(acc, x.0, x.1);
        GetMergeInto(acc', t, next, s);
        assert Get(acc', k) == if x.0 == k then Some(x.1) else Get(acc, k);
      }
    }
  }

  /** An entry `array_merge` appends for `b[j]`: an integer key numbered on from `next`, or a string key new to `acc`. */
  ghost predicate MergedFrom<V>(e: (Key, V), b: PhpArray<V>, j: int, next: int, acc: PhpArray<V>)
    requires 0 <= j < |b|
  {
    if b[j].0.IntKey? then e == (IntKey(next + IntCount(b[..j])), b[j].1)
    else e.0 == b[j].0 && !HasKey(acc, b[j].0)
  }

  /** Counting integer keys in a prefix of `b` past its first entry. */
  lemma IntCountPrefixTail<V>(b: PhpArray<V>, j: int)
    requires 0 < j <= |b|
    ensures IntCount(b[..j]) == (if b[0].0.IntKey? then 1 else 0) + IntCount(b[1..][..j - 1])
  {
    assert b[..j][1..] == b[1..][..j - 1];
  }

  /** One merge step leaves every entry of `acc` with another key as it was. */
  lemma MergeOneKeeps<V>(acc: PhpArray<V>, x: (Key, V), next: int)
    ensures var acc' := MergeOne(acc, x, next);
      |acc| <= |acc'| && forall i :: 0 <= i < |acc| && acc[i].0 != x.0 ==> acc'[i] == acc[i]
  {
  }

  /** What one merge step appends: the numbered integer entry, or a string entry new to `acc`. */
  lemma MergeOneAppends<V>(acc: PhpArray<V>, x: (Key, V), next: int)
    ensures var acc' := MergeOne(acc, x, next);
      && |acc| <= |acc'| <= |acc| + 1
      && (x.0.IntKey? ==> |acc'| == |acc| + 1 && acc'[|acc|] == (IntKey(next), x.1))
      && (x.0.StrKey? && |acc'| == |acc| + 1 ==> acc'[|acc|] == x && !HasKey(acc, x.0))
  {
  }

  /** One merge step removes no key. */
  lemma MergeOneKeepsKey<V>(acc: PhpArray<V>, x: (Key, V), next: int, k: Key)
    requires HasKey(acc, k)
    ensures HasKey(MergeOne(acc, x, next), k)
  {
    var i :| 0 <= i < |acc| && acc[i].0 == k;
    assert MergeOne(acc, x, next)[i].0 == k;
  }

  lemma MergeIntoUnfold<V>(acc: PhpArray<V>, b: PhpArray<V>, next: int)
    requires b != []
    ensures MergeInto(acc, b, next) ==
      MergeInto(MergeOne(acc, b[0], next), b[1..], if b[0].0.IntKey? then next + 1 else next)
  {
  }

  /** Entries of `acc` whose key `b` does not assign keep their place and value. */
  lemma {:induction false} MergeIntoKeeps<V>(acc: PhpArray<V>, b: PhpArray<V>, next: int)
    ensures var r := MergeInto(acc, b, next);
      forall i :: 0 <= i < |acc| && (acc[i].0.IntKey? || !HasKey(b, acc[i].0)) ==> r[i] == acc[i]
    decreases |b|
  {
    if b != [] {
      var x, t := b[0], b[1..];
      assert b == [x] + t;
      var next' := if x.0.IntKey? then next + 1 else next;
      MergeIntoUnfold(acc, b, next);
      MergeOneKeeps(acc, x, next);
      MergeIntoKeeps(MergeOne(acc, x, next), t, next');
      forall k ensures HasKey(b, k) <==> x.0 == k || HasKey(t, k) {
        HasKeyCons(x, t, k);
      }
    }
  }

  /** An entry appended for `b[1..][j]` after `acc'` was appended for `b[j + 1]` after `acc`. */
  lemma MergedFromShift<V>(e: (Key, V), b: PhpArray<V>, j: int, next: int, next': int,
                           acc: PhpArray<V>, acc': PhpArray<V>)
    requires 0 <= j < |b| - 1 && MergedFrom(e, b[1..], j, next', acc')
    requires next' == if b[0].0.IntKey? then next + 1 else next
    requires HasKey(acc, b[1..][j].0) ==> HasKey(acc', b[1..][j].0)
    ensures MergedFrom(e, b, j + 1, next, acc)
  {
    IntCountPrefixTail(b, j + 1);
    assert b[j + 1] == b[1..][j];
  }

  /** Whatever `MergeInto` adds after `acc` was appended for some entry of `b`. */
  lemma {:induction false} MergeIntoTail<V>(acc: PhpArray<V>, b: PhpArray<V>, next: int, i: int)
    requires |acc| <= i < |MergeInto(acc, b, next)|
    ensures exists j :: 0 <= j < |b| && MergedFrom(MergeInto(acc, b, next)[i], b, j, next, acc)
    decreases |b|
  {
    var r := MergeInto(acc, b, next);
    if b == [] {
      assert false;
    }
    var x, t := b[0], b[1..];
    var acc', next' := MergeOne(acc, x, next), if x.0.IntKey? then next + 1 else next;
    MergeIntoUnfold(acc, b, next);
    MergeOneAppends(acc, x, next);
    if i < |acc'| {
      assert b[..0] == [];
      if x.0.IntKey? {
        MergeIntoKeepsInt(acc', t, next', i);
      }
      assert MergedFrom(r[i], b, 0, next, acc);
    } else {
      MergeIntoTail(acc', t, next', i);
      var j' :| 0 <= j' < |t| && MergedFrom(r[i], t, j', next', acc');
      if HasKey(acc, t[j'].0) {
        MergeOneKeepsKey(acc, x, next, t[j'].0);
      }
      MergedFromShift(r[i], b, j', next, next', acc, acc');
    }
  }

  /** An integer-keyed entry of `acc` is still there after merging. */
  lemma MergeIntoKeepsInt<V>(acc: PhpArray<V>, b: PhpArray<V>, next: int, i: int)
    requires 0 <= i < |acc| && acc[i].0.IntKey?
    ensures |acc| <= |MergeInto(acc, b, next)| && MergeInto(acc, b, next)[i] == acc[i]
  {
    MergeIntoKeeps(acc, b, next);
  }

  /** Every integer-keyed entry of `b` is appended after `acc`, numbered on from `next`. */
  lemma {:induction false} MergeIntoAppendsInt<V>(acc: PhpArray<V>, b: PhpArray<V>, next: int, j: int)
    requires 0 <= j < |b| && b[j].0.IntKey?
    ensures exists i :: |acc| <= i < |MergeInto(acc, b, next)| && MergedFrom(MergeInto(acc, b, next)[i], b, j, next, acc)
    decreases |b|
  {
    var r := MergeInto(acc, b, next);
    var x, t := b[0], b[1..];
    var acc', next' := MergeOne(acc, x, next), if x.0.IntKey? then next + 1 else next;
    MergeIntoUnfold(acc, b, next);
    MergeOneAppends(acc, x, next);
    if j == 0 {
      assert IntCount(b[..0]) == 0;
      MergeIntoKeepsInt(acc', t, next', |acc|);
      assert MergedFrom(r[|acc|], b, 0, next, acc);
    } else {
      MergeIntoAppendsInt(acc', t, next', j - 1);
      var i :| |acc'| <= i < |r| && MergedFrom(r[i], t, j - 1, next', acc');
      if HasKey(acc, t[j - 1].0) {
        MergeOneKeepsKey(acc, x, next, t[j - 1].0);
      }
      MergedFromShift(r[i], b, j - 1, next, next', acc, acc');
    }
  }

  /**
   * `array_merge($a, $b)`: every entry of `a` keeps its position (with integer
   * keys renumbered) and its value unless `b` assigns its string key; a string
   * key reads the last value `b` gives it, or else its value in `a`. What
   * follows `a` is stated by `ArrayMergeTail` and `ArrayMergeAppendsInt`.
   */
  function ArrayMerge<V>(a: PhpArray<V>, b: PhpArray<V>): (r: PhpArray<V>)
    ensures |a| <= |r| <= |a| + |b|
    ensures forall i :: 0 <= i < |a| && a[i].0.StrKey? ==> r[i].0 == a[i].0
    ensures forall i :: 0 <= i < |a| && a[i].0.IntKey? ==> r[i].0 == IntKey(IntCount(a[..i]))
    ensures forall i :: 0 <= i < |a| && (a[i].0.IntKey? || !HasKey(b, a[i].0)) ==> r[i].1 == a[i].1
    ensures forall s ::
      Get(r, StrKey(s)) == (if HasKey(b, StrKey(s)) then LastGet(b, StrKey(s)) else Get(a, StrKey(s)))
  {
    var r := MergeInto(Renumber(a, 0), b, IntCount(a));
    MergeIntoKeeps(Renumber(a, 0), b, IntCount(a));
    forall s ensures Get(r, StrKey(s)) ==
      (if HasKey(b, StrKey(s)) then LastGet(b, StrKey(s)) else Get(a, StrKey(s)))
    {
      GetMergeInto(Renumber(a, 0), b, IntCount(a), s);
      GetRenumberString(a, 0, s);
    }
    r
  }

  /**
   * Nothing but `b`'s entries follows `a` in `array_merge($a, $b)`: an entry
   * past `a` is an integer-keyed entry of `b` renumbered on from `IntCount(a)`,
   * or carries a string key of `b` that `a` does not hold.
   */
  lemma ArrayMergeTail<V>(a: PhpArray<V>, b: PhpArray<V>, i: int)
    requires |a| <= i < |ArrayMerge(a, b)|
    ensures exists j :: 0 <= j < |b| && MergedFrom(ArrayMerge(a, b)[i], b, j, IntCount(a), a)
  {
    var e := ArrayMerge(a, b)[i];
    MergeIntoTail(Renumber(a, 0), b, IntCount(a), i);
    var j :| 0 <= j < |b| && MergedFrom(e, b, j, IntCount(a), Renumber(a, 0));
    MergedFromRenumber(e, b, j, IntCount(a), a);
  }

  /** Every integer-keyed entry of `b` lands after `a`, numbered on from `IntCount(a)`. */
  lemma ArrayMergeAppendsInt<V>(a: PhpArray<V>, b: PhpArray<V>, j: int)
    requires 0 <= j < |b| && b[j].0.IntKey?
    ensures exists i :: |a| <= i < |ArrayMerge(a, b)| && MergedFrom(ArrayMerge(a, b)[i], b, j, IntCount(a), a)
  {
    MergeIntoAppendsInt(Renumber(a, 0), b, IntCount(a), j);
    var i :| |a| <= i < |ArrayMerge(a, b)| && MergedFrom(ArrayMerge(a, b)[i], b, j, IntCount(a), Renumber(a, 0));
    MergedFromRenumber(ArrayMerge(a, b)[i], b, j, IntCount(a), a);
  }

  /** An entry merged after `Renumber(a, 0)` is merged after `a`: both hold the same string keys. */
  lemma MergedFromRenumber<V>(e: (Key, V), b: PhpArray<V>, j: int, next: int, a: PhpArray<V>)
    requires 0 <= j < |b| && MergedFrom(e, b, j, next, Renumber(a, 0))
    ensures MergedFrom(e, b, j, next, a)
  {
    if b[j].0.StrKey? {
      GetRenumberString(a, 0, b[j].0.s);
    }
  }

  /** Renumbering never touches string keys, so a string key reads as before. */
  lemma {:induction false} GetRenumberString<V>(a: PhpArray<V>, next: int, s: string)
    ensures Get(Renumber(a, next), StrKey(s)) == Get(a, StrKey(s))
    decreases |a|
  {
    if a != [] {
      var step := if a[0].0.IntKey? then 1 else 0;
      assert Renumber(a, next)[1..] == Renumber(a[1..], next + step);
      GetRenumberString(a[1..], next + step, s);
    }
  }

  /** Merging in one string-keyed entry is an assignment to the renumbered array. */
  lemma MergeOneString<V>(a: PhpArray<V>, s: string, v: V)
    ensures ArrayMerge(a, [(StrKey(s), v)]) == Assign(Renumber(a, 0), StrKey(s), v)
  {
    var b := [(StrKey(s), v)];
    var r := Renumber(a, 0);
    assert b[1..] == [];
    assert MergeInto(r, b, IntCount(a)) == MergeInto(Assign(r, StrKey(s), v), [], IntCount(a));
  }
}

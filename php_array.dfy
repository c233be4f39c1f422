/** PHP associative arrays as the data-access layer uses them: ordered maps from
    string keys to scalar values, with PHP's reading rules for missing keys. */
module PhpArray {

  datatype Option<T> = None | Some(value: T)

  /** A PHP scalar as it reaches the data-access layer: `null`, or a non-null
      value identified by its string form (the form PDO binds and the one a
      `string` parameter coerces it to). */
  datatype Value = Null | Text(s: string)

  predicate Distinct(ks: seq<string>) {
    forall i, j :: 0 <= i < j < |ks| ==> ks[i] != ks[j]
  }

  /** The keys of an association list, in order. */
  function Keys(m: seq<(string, Value)>): (ks: seq<string>)
    ensures |ks| == |m|
    ensures forall i :: 0 <= i < |m| ==> ks[i] == m[i].0
  {
    if m == [] then [] else [m[0].0] + Keys(m[1..])
  }

  /** A PHP array: insertion order is kept and no key occurs twice. */
  type FieldMap = m: seq<(string, Value)> | Distinct(Keys(m)) witness []

  lemma KeysAppend(a: seq<(string, Value)>, b: seq<(string, Value)>)
    ensures Keys(a + b) == Keys(a) + Keys(b)
  {
    assert |Keys(a + b)| == |Keys(a) + Keys(b)|;
    forall i | 0 <= i < |a + b| ensures Keys(a + b)[i] == (Keys(a) + Keys(b))[i] { }
  }

  lemma TailIsFieldMap(m: FieldMap)
    requires m != []
    ensures Distinct(Keys(m[1..])) && m[0].0 !in Keys(m[1..])
  {
    assert forall i :: 0 <= i < |m| - 1 ==> Keys(m[1..])[i] == Keys(m)[i + 1];
  }

  /** `$m[$k]`: the value stored under `k`, or null when the key is missing
      (PHP emits a warning and yields null). */
  function Get(m: FieldMap, k: string): (v: Value)
    ensures k !in Keys(m) ==> v == Null
    ensures forall i :: 0 <= i < |m| && m[i].0 == k ==> v == m[i].1
    decreases |m|
  {
    if m == [] then Null
    else if m[0].0 == k then m[0].1
    else
      TailIsFieldMap(m);
      var tail: FieldMap := m[1..];
      assert forall i :: 0 < i < |m| ==> m[i] == tail[i - 1];
      Get(tail, k)
  }

  /** `isset($m[$k])`: the key is present and its value is not null. */
  predicate IsSet(m: FieldMap, k: string) {
    Get(m, k).Text?
  }

  /** PHP's `empty($champs)` on a nullable array: null or no entries. */
  predicate IsEmpty(c: Option<FieldMap>) {
    c.None? || |c.value| == 0
  }

  /** A key read on a nullable array: null when the array is null or the key
      is not set, the key's value otherwise. This is both `$champs[$k] ?? null`
      and the guarded read `(is_array($champs) && isset($champs[$k])) ?
      $champs[$k] : null`; a plain `$champs[$k]` gives the same value (PHP
      warns about a missing offset and yields null). */
  function Field(c: Option<FieldMap>, k: string): (v: Value)
    ensures v == (if c.Some? && IsSet(c.value, k) then Get(c.value, k) else Null)
    ensures c.Some? ==> v == Get(c.value, k)
  {
    if c.None? then Null else Get(c.value, k)
  }

  /** `$m[$k] = $v`: an existing key is overwritten where it stands, a new key
      is appended at the end. */
  function Put(m: FieldMap, k: string, v: Value): (r: FieldMap)
    ensures k in Keys(m) ==> Keys(r) == Keys(m)
    ensures k in Keys(m) ==>
      forall i :: 0 <= i < |m| ==> r[i] == (if m[i].0 == k then (k, v) else m[i])
    ensures k !in Keys(m) ==> r == m + [(k, v)]
    decreases |m|
  {
    if m == [] then
      assert Keys([(k, v)]) == [k];
      [(k, v)]
    else
      TailIsFieldMap(m);
      var tail: FieldMap := m[1..];
      assert m == [m[0]] + tail;
      KeysAppend([m[0]], tail);
      if m[0].0 == k then
        var r := [(k, v)] + tail;
        KeysAppend([(k, v)], tail);
        r
      else
        var rest := Put(tail, k, v);
        assert k !in Keys(tail) ==> Keys(rest) == Keys(tail) + [k] by {
          if k !in Keys(tail) {
            KeysAppend(tail, [(k, v)]);
            assert Keys([(k, v)]) == [k];
          }
        }
        assert m[0].0 !in Keys(rest);
        KeysAppend([m[0]], rest);
        assert Keys([m[0]]) == [m[0].0];
        ConsDistinct(m[0].0, Keys(rest));
        [m[0]] + rest
  }

  lemma ConsDistinct(x: string, ks: seq<string>)
    requires Distinct(ks) && x !in ks
    ensures Distinct([x] + ks)
  {
  }

  /** The position of `k` in a list that holds it. */
  function IndexOf(ks: seq<string>, k: string): (i: nat)
    requires k in ks
    ensures i < |ks| && ks[i] == k
  {
    if ks[0] == k then 0 else 1 + IndexOf(ks[1..], k)
  }

  lemma RemoveAt(m: FieldMap, i: nat)
    requires i < |m|
    ensures |m[..i] + m[i + 1..]| == |m| - 1
    ensures forall j :: 0 <= j < |m| - 1 ==> (m[..i] + m[i + 1..])[j] == (if j < i then m[j] else m[j + 1])
    ensures Distinct(Keys(m[..i] + m[i + 1..]))
    ensures m[i].0 !in Keys(m[..i] + m[i + 1..])
  {
    var r := m[..i] + m[i + 1..];
    forall j | 0 <= j < |r| ensures r[j] == (if j < i then m[j] else m[j + 1]) { }
    var ks, mk := Keys(r), Keys(m);
    forall a, b | 0 <= a < b < |ks| ensures ks[a] != ks[b] {
      var a', b' := if a < i then a else a + 1, if b < i then b else b + 1;
      assert ks[a] == mk[a'] && ks[b] == mk[b'];
    }
    forall j | 0 <= j < |ks| ensures ks[j] != m[i].0 {
      var j' := if j < i then j else j + 1;
      assert ks[j] == mk[j'] && mk[i] == m[i].0;
    }
  }

  /** `unset($m[$k])`: the entry for `k` is removed; every other entry keeps its
      value and its place. */
  function Unset(m: FieldMap, k: string): (r: FieldMap)
    ensures k !in Keys(m) ==> r == m
    ensures forall i :: 0 <= i < |m| && m[i].0 == k ==> r == m[..i] + m[i + 1..]
    ensures k !in Keys(r)
  {
    if k in Keys(m) then
      var i := IndexOf(Keys(m), k);
      RemoveAt(m, i);
      m[..i] + m[i + 1..]
    else m
  }

  /** The PHP literal `[k1 => $c[k1], ..., kn => $c[kn]]`: the listed keys in
      that order, each bound to what the payload holds under it (null when it
      holds nothing). */
  function Project(c: FieldMap, ks: seq<string>): (r: FieldMap)
    requires Distinct(ks)
    ensures Keys(r) == ks
    ensures forall i :: 0 <= i < |ks| ==> r[i].1 == Get(c, ks[i])
  {
    var r := seq(|ks|, i requires 0 <= i < |ks| => (ks[i], Get(c, ks[i])));
    assert Keys(r) == ks;
    r
  }

  /** Reading a written key gives the written value; other keys read as before. */
  lemma {:induction false} PutGet(m: FieldMap, k: string, v: Value, k': string)
    ensures Get(Put(m, k, v), k) == v
    ensures k' != k ==> Get(Put(m, k, v), k') == Get(m, k')
  {
    var r := Put(m, k, v);
    if k in Keys(m) {
      var i :| 0 <= i < |m| && Keys(m)[i] == k;
      assert r[i] == (k, v);
      if k' != k {
        if k' in Keys(m) {
          var j :| 0 <= j < |m| && Keys(m)[j] == k';
          assert r[j] == m[j];
        } else {
          assert k' !in Keys(r);
        }
      }
    } else {
      KeysAppend(m, [(k, v)]);
      assert r[|m|] == (k, v);
      if k' != k {
        if k' in Keys(m) {
          var j :| 0 <= j < |m| && Keys(m)[j] == k';
          assert r[j] == m[j];
        } else {
          assert Keys([(k, v)]) == [k];
          assert k' !in Keys(r);
        }
      }
    }
  }

  lemma PutValues(m: FieldMap, k: string, v: Value)
    ensures Get(Put(m, k, v), k) == v
    ensures forall k' :: k' != k ==> Get(Put(m, k, v), k') == Get(m, k')
  {
    forall k' ensures k' != k ==> Get(Put(m, k, v), k') == Get(m, k') {
      PutGet(m, k, v, k');
    }
    PutGet(m, k, v, k);
  }

  lemma PutKeys(m: FieldMap, k: string, v: Value)
    ensures Keys(Put(m, k, v)) == if k in Keys(m) then Keys(m) else Keys(m) + [k]
  {
    if k !in Keys(m) {
      KeysAppend(m, [(k, v)]);
      assert Keys([(k, v)]) == [k];
    }
  }

  /** After `unset`, the removed key reads as null and every other key reads as before. */
  lemma {:induction false} UnsetGet(m: FieldMap, k: string, k': string)
    ensures Get(Unset(m, k), k) == Null
    ensures k' != k ==> Get(Unset(m, k), k') == Get(m, k')
  {
    if k' != k && k in Keys(m) {
      var i := IndexOf(Keys(m), k);
      if k' in Keys(m) {
        UnsetKeeps(m, i, IndexOf(Keys(m), k'));
      } else {
        UnsetAbsent(m, i, k');
      }
    }
  }

  /** Removing entry `i` keeps entry `j` at the position before or at `j`. */
  lemma UnsetKeeps(m: FieldMap, i: nat, j: nat)
    requires i < |m| && j < |m| && i != j
    ensures Get(Unset(m, m[i].0), m[j].0) == m[j].1
  {
    RemoveAt(m, i);
    var r := Unset(m, m[i].0);
    assert r == m[..i] + m[i + 1..];
    var j' := if j < i then j else j - 1;
    assert r[j'] == m[j];
  }

  /** A key the array lacks is still missing after an entry is removed. */
  lemma UnsetAbsent(m: FieldMap, i: nat, k': string)
    requires i < |m| && k' !in Keys(m)
    ensures Get(Unset(m, m[i].0), k') == Null
  {
    RemoveAt(m, i);
    var r := Unset(m, m[i].0);
    assert r == m[..i] + m[i + 1..];
    forall j | 0 <= j < |r| ensures Keys(r)[j] != k' {
      assert r[j] == (if j < i then m[j] else m[j + 1]);
    }
  }
}

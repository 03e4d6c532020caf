/**
 * JavaScript values as the monitor's helpers see them, and the object
 * operations they use: truthiness, `Object.keys`, property assignment
 * (`o[k] = v`, `{...o, [k]: v}`) and `Object.assign`.
 *
 * A JavaScript object is an association list of (key, value) pairs in key
 * insertion order. Assigning a key that is already present keeps its
 * position and replaces its value; assigning a new key appends it.
 */
module Js {

  datatype Option<+T> = None | Some(value: T)

  /** A JSON-like JavaScript value. Numbers are integers here. */
  datatype Json =
    | JUndefined
    | JNull
    | JBool(b: bool)
    | JNum(n: int)
    | JStr(s: string)
    | JArr(items: seq<Json>)
    | JObj(fields: seq<Property>)

  /** One own property of an object. */
  datatype Property = Property(key: string, value: Json)

  type Fields = seq<Property>

  /** JavaScript truthiness: `undefined`, `null`, `false`, `0` and `''` are falsy. */
  predicate Truthy(v: Json)
    ensures !Truthy(v) <==> v == JUndefined || v == JNull || v == JBool(false) || v == JNum(0) || v == JStr("")
  {
    match v
    case JUndefined => false
    case JNull => false
    case JBool(b) => b
    case JNum(n) => n != 0
    case JStr(s) => s != ""
    case JArr(_) => true
    case JObj(_) => true
  }

  /** The keys of an object, in order. */
  function KeysOf(fs: Fields): (ks: seq<string>)
    ensures |ks| == |fs|
  {
    if fs == [] then [] else [fs[0].key] + KeysOf(fs[1..])
  }

  /** A well-formed object never names a key twice. */
  predicate DistinctKeys(fs: Fields) {
    fs == [] || (fs[0].key !in KeysOf(fs[1..]) && DistinctKeys(fs[1..]))
  }

  /** No value of the object is itself a (non-array, non-null) object. */
  predicate FlatFields(fs: Fields) {
    forall i :: 0 <= i < |fs| ==> !fs[i].value.JObj?
  }

  /** Property read `o[k]`: the first entry with key `k`. */
  function Get(fs: Fields, k: string): (r: Option<Json>)
    ensures r.Some? <==> k in KeysOf(fs)
  {
    if fs == [] then None
    else if fs[0].key == k then Some(fs[0].value)
    else Get(fs[1..], k)
  }

  /** The value of the LAST entry with key `k`: what a run of assignments leaves behind. */
  function LastGet(fs: Fields, k: string): (r: Option<Json>)
    ensures r.Some? <==> k in KeysOf(fs)
  {
    if fs == [] then None
    else
      var rest := LastGet(fs[1..], k);
      if rest.Some? then rest
      else if fs[0].key == k then Some(fs[0].value)
      else None
  }

  /**
   * Property assignment `o[k] = v` on a fresh copy: an existing key keeps its
   * place and gets the new value, a new key goes to the end.
   */
  function Put(fs: Fields, k: string, v: Json): (r: Fields)
    ensures Get(r, k) == Some(v)
    ensures forall j :: j != k ==> Get(r, j) == Get(fs, j)
    ensures KeysOf(r) == if k in KeysOf(fs) then KeysOf(fs) else KeysOf(fs) + [k]
    ensures k !in KeysOf(fs) ==> r == fs + [Property(k, v)]
    ensures DistinctKeys(fs) ==> DistinctKeys(r)
    ensures FlatFields(fs) && !v.JObj? ==> FlatFields(r)
  {
    if fs == [] then [Property(k, v)]
    else if fs[0].key == k then [Property(k, v)] + fs[1..]
    else [fs[0]] + Put(fs[1..], k, v)
  }

  /** Every entry after an assignment is the assigned one or was there before. */
  lemma {:induction false} PutMembers(fs: Fields, k: string, v: Json)
    ensures forall i :: 0 <= i < |Put(fs, k, v)| ==> Put(fs, k, v)[i] == Property(k, v) || Put(fs, k, v)[i] in fs
  {
    if fs != [] && fs[0].key != k {
      PutMembers(fs[1..], k, v);
      assert Put(fs, k, v) == [fs[0]] + Put(fs[1..], k, v);
    }
  }

  /** The keys `added` contributes, one by one, to a key order `ks`. */
  function AddKeys(ks: seq<string>, added: seq<string>): (r: seq<string>)
    ensures forall k :: k in r <==> k in ks || k in added
    ensures |ks| <= |r| && r[..|ks|] == ks
    decreases |added|
  {
    if added == [] then ks
    else AddKeys(if added[0] in ks then ks else ks + [added[0]], added[1..])
  }

  /**
   * `Object.assign(acc, src)`: every entry of `src`, in order, assigned onto
   * `acc`. Keys of `acc` keep their places, new keys follow in the order in
   * which `src` first names them, and for every key the last value wins.
   */
  function Assign(acc: Fields, src: Fields): (r: Fields)
    ensures KeysOf(r) == AddKeys(KeysOf(acc), KeysOf(src))
    ensures forall k :: Get(r, k) == if k in KeysOf(src) then LastGet(src, k) else Get(acc, k)
    ensures DistinctKeys(acc) ==> DistinctKeys(r)
    ensures FlatFields(acc) && FlatFields(src) ==> FlatFields(r)
    decreases |src|
  {
    if src == [] then acc
    else Assign(Put(acc, src[0].key, src[0].value), src[1..])
  }

  lemma {:induction false} KeysOfAppend(a: Fields, b: Fields)
    ensures KeysOf(a + b) == KeysOf(a) + KeysOf(b)
  {
    if a != [] {
      assert (a + b)[1..] == a[1..] + b;
      KeysOfAppend(a[1..], b);
    } else {
      assert a + b == b;
    }
  }

  lemma {:induction false} AddKeysAppend(ks: seq<string>, a: seq<string>, b: seq<string>)
    ensures AddKeys(ks, a + b) == AddKeys(AddKeys(ks, a), b)
    decreases |a|
  {
    if a != [] {
      assert (a + b)[0] == a[0] && (a + b)[1..] == a[1..] + b;
      AddKeysAppend(if a[0] in ks then ks else ks + [a[0]], a[1..], b);
    } else {
      assert a + b == b;
    }
  }

  /** Adding a deduplicated key list adds the same keys as the list itself. */
  lemma {:induction false} AddKeysNested(ks: seq<string>, b: seq<string>, y: seq<string>)
    ensures AddKeys(ks, AddKeys(b, y)) == AddKeys(AddKeys(ks, b), y)
    decreases |y|
  {
    if y != [] {
      var x := y[0];
      var b' := if x in b then b else b + [x];
      AddKeysNested(ks, b', y[1..]);
      var c := AddKeys(ks, b);
      if x !in b {
        AddKeysAppend(ks, b, [x]);
        assert AddKeys(c, [x]) == if x in c then c else c + [x];
      }
    }
  }

  /** Assigning `a + b` is assigning `a`, then `b`. */
  lemma {:induction false} AssignAppend(acc: Fields, a: Fields, b: Fields)
    ensures Assign(acc, a + b) == Assign(Assign(acc, a), b)
    decreases |a|
  {
    if a != [] {
      assert (a + b)[0] == a[0] && (a + b)[1..] == a[1..] + b;
      AssignAppend(Put(acc, a[0].key, a[0].value), a[1..], b);
    } else {
      assert a + b == b;
    }
  }

  /** In an object without repeated keys the first and the last entry for a key are the same. */
  lemma {:induction false} LastGetOfDistinct(fs: Fields, k: string)
    requires DistinctKeys(fs)
    ensures LastGet(fs, k) == Get(fs, k)
  {
    if fs != [] {
      LastGetOfDistinct(fs[1..], k);
    }
  }

  /**
   * Two objects without repeated keys that list the same keys in the same
   * order and agree on every property are the same object.
   */
  lemma {:induction false} SameProperties(a: Fields, b: Fields)
    requires DistinctKeys(a) && DistinctKeys(b)
    requires KeysOf(a) == KeysOf(b)
    requires forall k :: Get(a, k) == Get(b, k)
    ensures a == b
  {
    if a != [] {
      var k0 := a[0].key;
      assert KeysOf(b)[0] == b[0].key;
      assert Get(a, k0) == Some(a[0].value) && Get(b, k0) == Some(b[0].value);
      forall k ensures Get(a[1..], k) == Get(b[1..], k) {
        if k != k0 {
          assert Get(a, k) == Get(a[1..], k) && Get(b, k) == Get(b[1..], k);
        }
      }
      assert KeysOf(a[1..]) == KeysOf(a)[1..] == KeysOf(b)[1..] == KeysOf(b[1..]);
      SameProperties(a[1..], b[1..]);
    }
  }

  /**
   * `Object.assign(acc, Object.assign({}, src))` equals
   * `Object.assign(acc, src)`: merging a flattened copy is merging the
   * entries it was built from.
   */
  lemma {:induction false} AssignDeduplicated(acc: Fields, src: Fields)
    requires DistinctKeys(acc)
    ensures Assign(acc, Assign([], src)) == Assign(acc, src)
  {
    var d := Assign([], src);
    AddKeysNested(KeysOf(acc), [], KeysOf(src));
    forall k ensures Get(Assign(acc, d), k) == Get(Assign(acc, src), k) {
      if k in KeysOf(src) {
        LastGetOfDistinct(d, k);
      }
    }
    SameProperties(Assign(acc, d), Assign(acc, src));
  }

  /**
   * A sequence identity kept generic on purpose: proved inside a context that
   * knows the contracts of `Assign` and `Put`, it exhausts the solver.
   */
  lemma MoveFirst<T>(a: seq<T>, s: seq<T>)
    requires s != []
    ensures (a + [s[0]]) + s[1..] == a + s
  {
    assert s == [s[0]] + s[1..];
  }

  /** Keys still unused after appending one entry whose key the rest does not name. */
  lemma {:induction false} DisjointAfterAppend(acc: Fields, src: Fields)
    requires src != [] && DistinctKeys(src)
    requires forall k :: k in KeysOf(src) ==> k !in KeysOf(acc)
    ensures forall k :: k in KeysOf(src[1..]) ==> k !in KeysOf(acc + [src[0]])
  {
    KeysOfAppend(acc, [src[0]]);
    assert KeysOf(src) == [src[0].key] + KeysOf(src[1..]);
  }

  /** Assigning entries whose keys are all new appends them unchanged. */
  lemma {:induction false} AssignDisjoint(acc: Fields, src: Fields)
    requires DistinctKeys(src)
    requires forall k :: k in KeysOf(src) ==> k !in KeysOf(acc)
    ensures Assign(acc, src) == acc + src
    decreases |src|
  {
    if src != [] {
      var acc' := acc + [src[0]];
      assert src[0].key in KeysOf(src);
      assert Assign(acc, src) == Assign(acc', src[1..]);
      DisjointAfterAppend(acc, src);
      AssignDisjoint(acc', src[1..]);
      MoveFirst(acc, src);
    }
  }

  /** Decimal rendering of an array index, as `Object.keys` gives it. */
  function NatToString(n: nat): (s: string)
    ensures |s| > 0
    ensures forall i :: 0 <= i < |s| ==> '0' <= s[i] <= '9'
  {
    var d := ['0', '1', '2', '3', '4', '5', '6', '7', '8', '9'][n % 10];
    if n < 10 then [d] else NatToString(n / 10) + [d]
  }

  /**
   * `Object.keys(v).map(k => [k, v[k]])` for a truthy value: an object's own
   * entries, the indices of an array or of a string, and nothing for a
   * number or a boolean.
   */
  function OwnEntries(v: Json): (r: Fields)
    ensures v.JObj? ==> r == v.fields
    ensures v.JArr? ==> |r| == |v.items|
    ensures v.JArr? ==> forall i :: 0 <= i < |r| ==> r[i] == Property(NatToString(i), v.items[i])
    ensures v.JStr? ==> |r| == |v.s|
    ensures v.JStr? ==> forall i :: 0 <= i < |r| ==> r[i] == Property(NatToString(i), JStr([v.s[i]]))
    ensures !v.JObj? && !v.JArr? && !v.JStr? ==> r == []
  {
    match v
    case JObj(fs) => fs
    case JArr(items) => seq(|items|, i requires 0 <= i < |items| => Property(NatToString(i), items[i]))
    case JStr(s) => seq(|s|, i requires 0 <= i < |s| => Property(NatToString(i), JStr([s[i]])))
    case _ => []
  }
}

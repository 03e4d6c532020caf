/**
 * The delta helpers of the Whisper monitor (Whisper/utils.ts):
 * `flattenObject`, `onlychanges` and `cleanDiff`.
 *
 * A delta is a jsondiffpatch-style tree: an object whose values are either
 * nested deltas or arrays whose length encodes the kind of change
 * (`[new]` added, `[old, new]` changed, `[old, 0, 0]` deleted). Objects that
 * stand for arrays carry the marker key `_t`.
 *
 * `JSON.stringify` is the parameter `show`: its exact formatting is not
 * modelled.
 */
module WhisperUtils {
  import opened Js

  // ---------------------------------------------------------------------
  // flattenObject
  // ---------------------------------------------------------------------

  /** The key under which a value is stored: `prefix ? prefix + '.' + key : key`. */
  function JoinKey(prefix: string, key: string): string {
    if prefix != "" then prefix + "." + key else key
  }

  /**
   * `flattenObject(obj, prefix)`: `''` for a falsy value; otherwise an object
   * mapping every dot-joined path to a leaf value. Only plain objects are
   * recursed into: arrays, `null` and scalars are leaves.
   */
  function FlattenObject(obj: Json, prefix: string := ""): (r: Json)
    ensures !Truthy(obj) <==> r == JStr("")
    ensures Truthy(obj) ==> r.JObj? && DistinctKeys(r.fields) && FlatFields(r.fields)
  {
    if !Truthy(obj) then JStr("")
    else JObj(FlattenInto([], OwnEntries(obj), prefix))
  }

  /**
   * The `reduce` over `Object.keys(obj)` with accumulator `acc`. A plain-object
   * value is flattened on its own under its joined key (the recursive call
   * `flattenObject(value, newKey)`, which for an object is
   * `FlattenInto([], value.fields, newKey)`) and merged with `Object.assign`;
   * any other value is assigned under its joined key.
   */
  function FlattenInto(acc: Fields, entries: Fields, prefix: string): (r: Fields)
    ensures DistinctKeys(acc) ==> DistinctKeys(r)
    ensures FlatFields(acc) ==> FlatFields(r)
    decreases entries
  {
    if entries == [] then acc
    else
      var key, value := entries[0].key, entries[0].value;
      var newKey := JoinKey(prefix, key);
      var acc' :=
        if value.JObj? then Assign(acc, FlattenInto([], value.fields, newKey))
        else Put(acc, newKey, value);
      FlattenInto(acc', entries[1..], prefix)
  }

  /**
   * Reference definition: every leaf under `entries`, in traversal order,
   * paired with its joined path, duplicates and all.
   */
  function Leaves(entries: Fields, prefix: string): (r: Fields)
    ensures FlatFields(r)
    decreases entries
  {
    if entries == [] then []
    else
      var newKey := JoinKey(prefix, entries[0].key);
      var first :=
        if entries[0].value.JObj? then Leaves(entries[0].value.fields, newKey)
        else [Property(newKey, entries[0].value)];
      first + Leaves(entries[1..], prefix)
  }

  /** The key of a leaf reached by following `path` from `prefix`. */
  function JoinPath(prefix: string, path: seq<string>): string
    decreases |path|
  {
    if path == [] then prefix else JoinPath(JoinKey(prefix, path[0]), path[1..])
  }

  /** Following the keys `path` through nested objects reaches the leaf `v`. */
  predicate LeafAt(entries: Fields, path: seq<string>, v: Json)
    decreases entries
  {
    exists i :: 0 <= i < |entries| && |path| > 0 && entries[i].key == path[0] &&
      if entries[i].value.JObj? then LeafAt(entries[i].value.fields, path[1..], v)
      else |path| == 1 && entries[i].value == v
  }

  /**
   * Flattening is inserting the leaves one by one: every leaf lands under its
   * joined path, in traversal order, and a later leaf with the same path
   * overwrites an earlier one.
   */
  lemma {:induction false} FlattenIntoIsAssignOfLeaves(acc: Fields, entries: Fields, prefix: string)
    requires DistinctKeys(acc)
    ensures FlattenInto(acc, entries, prefix) == Assign(acc, Leaves(entries, prefix))
    decreases entries
  {
    if entries != [] {
      var key, value := entries[0].key, entries[0].value;
      var newKey := JoinKey(prefix, key);
      var rest := Leaves(entries[1..], prefix);
      if value.JObj? {
        var inner := Leaves(value.fields, newKey);
        FlattenIntoIsAssignOfLeaves([], value.fields, newKey);
        var acc' := Assign(acc, FlattenInto([], value.fields, newKey));
        FlattenIntoIsAssignOfLeaves(acc', entries[1..], prefix);
        AssignDeduplicated(acc, inner);
        AssignAppend(acc, inner, rest);
      } else {
        var acc' := Put(acc, newKey, value);
        FlattenIntoIsAssignOfLeaves(acc', entries[1..], prefix);
        AssignAppend(acc, [Property(newKey, value)], rest);
      }
    }
  }

  /**
   * The keys of `flattenObject(obj, prefix)` are the joined leaf paths in the
   * order they are first reached, and each holds the value of the LAST leaf
   * reached under that path.
   */
  lemma FlattenLaterWins(obj: Json, prefix: string, k: string)
    requires Truthy(obj)
    ensures KeysOf(FlattenObject(obj, prefix).fields) == AddKeys([], KeysOf(Leaves(OwnEntries(obj), prefix)))
    ensures Get(FlattenObject(obj, prefix).fields, k) == LastGet(Leaves(OwnEntries(obj), prefix), k)
  {
    FlattenIntoIsAssignOfLeaves([], OwnEntries(obj), prefix);
  }

  /** On an object that is already flat, with the empty prefix, the leaves are its own entries. */
  lemma {:induction false} LeavesOfFlat(fs: Fields)
    requires FlatFields(fs)
    ensures Leaves(fs, "") == fs
  {
    if fs != [] {
      LeavesOfFlat(fs[1..]);
    }
  }

  /** `flattenObject(flattenObject(x))` is `flattenObject(x)`. */
  lemma FlattenIdempotent(obj: Json)
    ensures FlattenObject(FlattenObject(obj)) == FlattenObject(obj)
  {
    if Truthy(obj) {
      var fs := FlattenObject(obj).fields;
      FlattenIntoIsAssignOfLeaves([], fs, "");
      LeavesOfFlat(fs);
      AssignDisjoint([], fs);
    }
  }

  /** Every leaf listed is reached by a path of keys whose joined form is its key. */
  lemma {:induction false} LeavesHavePaths(entries: Fields, prefix: string, i: nat)
    requires i < |Leaves(entries, prefix)|
    ensures exists path: seq<string> ::
      Leaves(entries, prefix)[i].key == JoinPath(prefix, path) &&
      LeafAt(entries, path, Leaves(entries, prefix)[i].value)
    decreases entries
  {
    var leaf := Leaves(entries, prefix)[i];
    var key, value := entries[0].key, entries[0].value;
    var newKey := JoinKey(prefix, key);
    var first := if value.JObj? then Leaves(value.fields, newKey) else [Property(newKey, value)];
    var rest := Leaves(entries[1..], prefix);
    assert Leaves(entries, prefix) == first + rest;
    if i < |first| {
      if value.JObj? {
        LeavesHavePaths(value.fields, newKey, i);
        var p: seq<string> :| first[i].key == JoinPath(newKey, p) && LeafAt(value.fields, p, first[i].value);
        var path := [key] + p;
        assert path[1..] == p;
        assert JoinPath(prefix, path) == JoinPath(newKey, p);
        assert LeafAt(entries, path, leaf.value);
      } else {
        assert JoinPath(prefix, [key]) == newKey;
        assert LeafAt(entries, [key], leaf.value);
      }
    } else {
      LeavesHavePaths(entries[1..], prefix, i - |first|);
      var p: seq<string> :| rest[i - |first|].key == JoinPath(prefix, p) && LeafAt(entries[1..], p, rest[i - |first|].value);
      var j :| 0 <= j < |entries[1..]| && |p| > 0 && entries[1..][j].key == p[0] &&
        if entries[1..][j].value.JObj? then LeafAt(entries[1..][j].value.fields, p[1..], leaf.value)
        else |p| == 1 && entries[1..][j].value == leaf.value;
      assert entries[j + 1] == entries[1..][j];
      assert LeafAt(entries, p, leaf.value);
    }
  }

  /** Conversely, every leaf reached by a path of keys is listed under the joined path. */
  lemma {:induction false} PathsAreLeaves(entries: Fields, prefix: string, path: seq<string>, v: Json)
    requires LeafAt(entries, path, v)
    ensures Property(JoinPath(prefix, path), v) in Leaves(entries, prefix)
    decreases entries
  {
    var i :| 0 <= i < |entries| && |path| > 0 && entries[i].key == path[0] &&
      if entries[i].value.JObj? then LeafAt(entries[i].value.fields, path[1..], v)
      else |path| == 1 && entries[i].value == v;
    var key, value := entries[0].key, entries[0].value;
    var newKey := JoinKey(prefix, key);
    var first := if value.JObj? then Leaves(value.fields, newKey) else [Property(newKey, value)];
    assert Leaves(entries, prefix) == first + Leaves(entries[1..], prefix);
    if i == 0 {
      assert JoinPath(prefix, path) == JoinPath(newKey, path[1..]);
      if value.JObj? {
        PathsAreLeaves(value.fields, newKey, path[1..], v);
      } else {
        assert path[1..] == [];
      }
    } else {
      assert entries[1..][i - 1] == entries[i];
      assert LeafAt(entries[1..], path, v);
      PathsAreLeaves(entries[1..], prefix, path, v);
    }
  }

  /** An empty nested object contributes no key at all. */
  lemma EmptyObjectContributesNothing(acc: Fields, key: string, entries: Fields, prefix: string)
    ensures FlattenInto(acc, [Property(key, JObj([]))] + entries, prefix) == FlattenInto(acc, entries, prefix)
  {
    assert ([Property(key, JObj([]))] + entries)[1..] == entries;
  }

  // ---------------------------------------------------------------------
  // The array-length encoding of a change
  // ---------------------------------------------------------------------

  /** The three kinds of change a delta array stands for. */
  datatype Change =
    | Added(newValue: Json)
    | Modified(oldValue: Json, newValue: Json)
    | Deleted(oldValue: Json)

  /** The delta array for a change: `[new]`, `[old, new]` or `[old, 0, 0]`. */
  function EncodeChange(c: Change): Json {
    match c
    case Added(v) => JArr([v])
    case Modified(o, v) => JArr([o, v])
    case Deleted(o) => JArr([o, JNum(0), JNum(0)])
  }

  /** Reading a delta value by its array length; arrays of any other length and non-arrays are not changes. */
  function DecodeChange(v: Json): (r: Option<Change>)
    ensures r.Some? <==> v.JArr? && 1 <= |v.items| <= 3
    ensures v.JArr? && |v.items| == 1 ==> r == Some(Added(v.items[0]))
    ensures v.JArr? && |v.items| == 2 ==> r == Some(Modified(v.items[0], v.items[1]))
    ensures v.JArr? && |v.items| == 3 ==> r == Some(Deleted(v.items[0]))
  {
    if v.JArr? && |v.items| == 1 then Some(Added(v.items[0]))
    else if v.JArr? && |v.items| == 2 then Some(Modified(v.items[0], v.items[1]))
    else if v.JArr? && |v.items| == 3 then Some(Deleted(v.items[0]))
    else None
  }

  lemma DecodeEncode(c: Change)
    ensures DecodeChange(EncodeChange(c)) == Some(c)
  {
  }

  /** What a change leaves at its key: the new value, or nothing once deleted. */
  function NewValue(c: Change): Option<Json> {
    match c
    case Added(v) => Some(v)
    case Modified(_, v) => Some(v)
    case Deleted(_) => None
  }

  /** The English description of a change, with `show` for `JSON.stringify`. */
  function Describe(show: Json -> string, c: Change): string {
    match c
    case Added(v) => "A NEW VALUE WAS ADDED : " + show(v)
    case Modified(o, v) => "THIS VALUE : " + show(o) + " WAS CHANGED TO : " + show(v)
    case Deleted(o) => "THIS VALUE " + show(o) + "  WAS DELETED :"
  }

  // ---------------------------------------------------------------------
  // onlychanges
  // ---------------------------------------------------------------------

  /** `onlychanges(value)`: a falsy value is returned as it is; otherwise the reduce below from `{}`. */
  function OnlyChanges(value: Json): (r: Json)
    ensures !Truthy(value) ==> r == value
    ensures Truthy(value) ==> r.JObj?
  {
    if !Truthy(value) then value
    else JObj(OnlyChangesInto([], OwnEntries(value)))
  }

  /** The `reduce` of `onlychanges` over `entries`, from the accumulator `prev`. */
  function OnlyChangesInto(prev: Fields, entries: Fields): (r: Fields)
    ensures forall k :: k in KeysOf(r) ==> k in KeysOf(prev) || k in KeysOf(entries)
    ensures forall k :: k in KeysOf(prev) ==> k in KeysOf(r)
    ensures DistinctKeys(prev) ==> DistinctKeys(r)
    decreases entries
  {
    if entries == [] then prev
    else OnlyChangesInto(OnlyChangesStep(prev, entries[0]), entries[1..])
  }

  /**
   * The reducer callback of `onlychanges` for one key: an array of length 1
   * stores its element 0, of length 2 its element 1, of length 3 nothing,
   * of any other length itself; a plain object is reduced on its own (the
   * recursive call, which for an object is `JObj(OnlyChangesInto([],
   * fields))`); any other value is stored as it is.
   */
  function OnlyChangesStep(prev: Fields, entry: Property): (r: Fields)
    ensures forall j :: j != entry.key ==> Get(r, j) == Get(prev, j)
    ensures entry.value.JArr? && |entry.value.items| == 3 ==> r == prev
    ensures !(entry.value.JArr? && |entry.value.items| == 3) ==> entry.key in KeysOf(r)
    ensures KeysOf(r) == KeysOf(prev) || KeysOf(r) == KeysOf(prev) + [entry.key]
    ensures DistinctKeys(prev) ==> DistinctKeys(r)
    decreases entry
  {
    var key, keyValue := entry.key, entry.value;
    if keyValue.JArr? && |keyValue.items| == 1 then Put(prev, key, keyValue.items[0])
    else if keyValue.JArr? && |keyValue.items| == 2 then Put(prev, key, keyValue.items[1])
    else if keyValue.JArr? && |keyValue.items| == 3 then prev
    else if keyValue.JObj? then Put(prev, key, JObj(OnlyChangesInto([], keyValue.fields)))
    else Put(prev, key, keyValue)
  }

  /** What `onlychanges` stores for a delta value: `None` when the key is dropped. */
  function Surviving(v: Json): Option<Json> {
    match DecodeChange(v)
    case Some(c) => NewValue(c)
    case None => if v.JObj? then Some(OnlyChanges(v)) else Some(v)
  }

  /** The keys whose values `onlychanges` keeps, in order. */
  function KeptKeys(entries: Fields): seq<string> {
    if entries == [] then []
    else (if Surviving(entries[0].value).Some? then [entries[0].key] else []) + KeptKeys(entries[1..])
  }

  /** One reducer step stores exactly what the decoded change leaves behind. */
  lemma OnlyChangesStepSurviving(prev: Fields, entry: Property)
    ensures OnlyChangesStep(prev, entry) ==
      match Surviving(entry.value)
      case Some(x) => Put(prev, entry.key, x)
      case None => prev
  {
  }

  lemma {:induction false} OnlyChangesIntoGet(prev: Fields, entries: Fields, k: string)
    requires DistinctKeys(entries)
    ensures Get(OnlyChangesInto(prev, entries), k) ==
      if k in KeysOf(entries) && Surviving(Get(entries, k).value).Some? then Surviving(Get(entries, k).value)
      else Get(prev, k)
    decreases entries
  {
    if entries != [] {
      OnlyChangesStepSurviving(prev, entries[0]);
      OnlyChangesIntoGet(OnlyChangesStep(prev, entries[0]), entries[1..], k);
    }
  }

  /** Generic on purpose, like `MoveFirst`: the key-order proofs below exhaust the solver without it. */
  lemma Assoc<T>(a: seq<T>, b: seq<T>, c: seq<T>)
    ensures a + b + c == a + (b + c)
  {
  }

  lemma {:induction false} OnlyChangesIntoKeys(prev: Fields, entries: Fields)
    requires DistinctKeys(entries)
    requires forall k :: k in KeysOf(entries) ==> k !in KeysOf(prev)
    ensures KeysOf(OnlyChangesInto(prev, entries)) == KeysOf(prev) + KeptKeys(entries)
    decreases entries
  {
    if entries != [] {
      var key := entries[0].key;
      var next := OnlyChangesStep(prev, entries[0]);
      var kept := if Surviving(entries[0].value).Some? then [key] else [];
      assert KeysOf(next) == KeysOf(prev) + kept by {
        assert key in KeysOf(entries);
        OnlyChangesStepSurviving(prev, entries[0]);
      }
      assert forall k :: k in KeysOf(entries[1..]) ==> k !in KeysOf(next) by {
        assert KeysOf(entries) == [key] + KeysOf(entries[1..]);
      }
      OnlyChangesIntoKeys(next, entries[1..]);
      Assoc(KeysOf(prev), kept, KeptKeys(entries[1..]));
    }
  }

  /**
   * `onlychanges` on an object delta: each key maps to the new value of its
   * change (element 0 of `[new]`, element 1 of `[old, new]`), a deleted key
   * is absent, a nested object is reduced recursively and every other value
   * is kept; the surviving keys keep their order.
   */
  lemma OnlyChangesRules(delta: Json, k: string)
    requires delta.JObj? && DistinctKeys(delta.fields)
    ensures OnlyChanges(delta).JObj?
    ensures KeysOf(OnlyChanges(delta).fields) == KeptKeys(delta.fields)
    ensures Get(delta.fields, k).None? ==> Get(OnlyChanges(delta).fields, k).None?
    ensures Get(delta.fields, k).Some? ==>
      var v := Get(delta.fields, k).value;
      var r := Get(OnlyChanges(delta).fields, k);
      && (v.JArr? && |v.items| == 1 ==> r == Some(v.items[0]))
      && (v.JArr? && |v.items| == 2 ==> r == Some(v.items[1]))
      && (v.JArr? && |v.items| == 3 ==> r.None?)
      && (v.JArr? && !(1 <= |v.items| <= 3) ==> r == Some(v))
      && (v.JObj? ==> r == Some(OnlyChanges(v)))
      && (!v.JArr? && !v.JObj? ==> r == Some(v))
  {
    OnlyChangesIntoGet([], delta.fields, k);
    OnlyChangesIntoKeys([], delta.fields);
  }

  // ---------------------------------------------------------------------
  // cleanDiff
  // ---------------------------------------------------------------------

  /**
   * `cleanDiff(delta)`: a plain object is described key by key, skipping the
   * marker key `_t`; an array of length 1, 2 or 3 becomes the description of
   * the change it encodes; any other array and any scalar give `{}`.
   */
  function CleanDiff(show: Json -> string, delta: Json): (r: Json)
    ensures r.JStr? <==> DecodeChange(delta).Some?
    ensures r.JObj? <==> DecodeChange(delta).None?
    ensures delta.JObj? ==> r.JObj? && (forall k :: k in KeysOf(r.fields) <==> k in KeysOf(delta.fields) && k != "_t")
    decreases delta
  {
    match delta
    case JObj(fs) => JObj(CleanInto(show, [], fs))
    case JArr(_) =>
      var change := DecodeChange(delta);
      if change.Some? then JStr(Describe(show, change.value)) else JObj([])
    case _ => JObj([])
  }

  /** The `for...in` loop of `cleanDiff` over `entries`, filling `cleaned`. */
  function CleanInto(show: Json -> string, cleaned: Fields, entries: Fields): (r: Fields)
    ensures forall k :: k in KeysOf(r) <==> k in KeysOf(cleaned) || (k in KeysOf(entries) && k != "_t")
    ensures DistinctKeys(cleaned) ==> DistinctKeys(r)
    decreases entries
  {
    if entries == [] then cleaned
    else CleanInto(show, CleanStep(show, cleaned, entries[0]), entries[1..])
  }

  /** One iteration: `_t` is skipped, any other key gets `cleaned[key] = cleanDiff(delta[key])`. */
  function CleanStep(show: Json -> string, cleaned: Fields, entry: Property): (r: Fields)
    ensures entry.key == "_t" ==> r == cleaned
    ensures entry.key != "_t" ==> Get(r, entry.key) == Some(CleanDiff(show, entry.value))
    ensures forall j :: j != entry.key ==> Get(r, j) == Get(cleaned, j)
    ensures forall k :: k in KeysOf(r) <==> k in KeysOf(cleaned) || (k == entry.key && k != "_t")
    ensures DistinctKeys(cleaned) ==> DistinctKeys(r)
    decreases entry
  {
    if entry.key == "_t" then cleaned
    else Put(cleaned, entry.key, CleanDiff(show, entry.value))
  }

  /** `ks` without the marker key `_t`. */
  function WithoutMarker(ks: seq<string>): seq<string> {
    if ks == [] then []
    else (if ks[0] == "_t" then [] else [ks[0]]) + WithoutMarker(ks[1..])
  }

  /**
   * `cleanDiff` on an array or a scalar: by the array's length, the sentence
   * for an added, changed or deleted value; `{}` for any other length and for
   * any scalar.
   */
  lemma CleanDiffDescribesChange(show: Json -> string, delta: Json)
    ensures delta.JArr? && |delta.items| == 1 ==>
      CleanDiff(show, delta) == JStr("A NEW VALUE WAS ADDED : " + show(delta.items[0]))
    ensures delta.JArr? && |delta.items| == 2 ==>
      CleanDiff(show, delta) == JStr("THIS VALUE : " + show(delta.items[0]) + " WAS CHANGED TO : " + show(delta.items[1]))
    ensures delta.JArr? && |delta.items| == 3 ==>
      CleanDiff(show, delta) == JStr("THIS VALUE " + show(delta.items[0]) + "  WAS DELETED :")
    ensures delta.JArr? && !(1 <= |delta.items| <= 3) ==> CleanDiff(show, delta) == JObj([])
    ensures !delta.JArr? && !delta.JObj? ==> CleanDiff(show, delta) == JObj([])
  {
  }

  lemma {:induction false} CleanIntoGet(show: Json -> string, cleaned: Fields, entries: Fields, k: string)
    requires DistinctKeys(entries)
    ensures Get(CleanInto(show, cleaned, entries), k) ==
      if k in KeysOf(entries) && k != "_t" then Some(CleanDiff(show, Get(entries, k).value))
      else Get(cleaned, k)
    decreases entries
  {
    if entries != [] {
      CleanIntoGet(show, CleanStep(show, cleaned, entries[0]), entries[1..], k);
    }
  }

  lemma {:induction false} CleanIntoKeys(show: Json -> string, cleaned: Fields, entries: Fields)
    requires DistinctKeys(entries)
    requires forall k :: k in KeysOf(entries) ==> k !in KeysOf(cleaned)
    ensures KeysOf(CleanInto(show, cleaned, entries)) == KeysOf(cleaned) + WithoutMarker(KeysOf(entries))
    decreases entries
  {
    if entries != [] {
      var key := entries[0].key;
      var next := CleanStep(show, cleaned, entries[0]);
      var kept := if key == "_t" then [] else [key];
      assert KeysOf(next) == KeysOf(cleaned) + kept by {
        assert key in KeysOf(entries);
      }
      assert forall k :: k in KeysOf(entries[1..]) ==> k !in KeysOf(next) by {
        assert KeysOf(entries) == [key] + KeysOf(entries[1..]);
      }
      CleanIntoKeys(show, next, entries[1..]);
      Assoc(KeysOf(cleaned), kept, WithoutMarker(KeysOf(entries[1..])));
    }
  }

  /**
   * `cleanDiff` on an object: exactly the input's keys other than `_t`, in
   * order, each holding the `cleanDiff` of its value.
   */
  lemma CleanDiffObject(show: Json -> string, delta: Json, k: string)
    requires delta.JObj? && DistinctKeys(delta.fields)
    ensures CleanDiff(show, delta).JObj?
    ensures KeysOf(CleanDiff(show, delta).fields) == WithoutMarker(KeysOf(delta.fields))
    ensures Get(CleanDiff(show, delta).fields, k) ==
      if k in KeysOf(delta.fields) && k != "_t" then Some(CleanDiff(show, Get(delta.fields, k).value)) else None
  {
    CleanIntoGet(show, [], delta.fields, k);
    CleanIntoKeys(show, [], delta.fields);
  }

  /**
   * `onlychanges` and `cleanDiff` read the array encoding alike: at a key
   * other than `_t` holding an encoded change, `onlychanges` keeps the
   * change's new value (or drops the key) and `cleanDiff` writes the
   * change's description.
   */
  lemma OnlyChangesAgreesWithCleanDiff(show: Json -> string, delta: Json, k: string)
    requires delta.JObj? && DistinctKeys(delta.fields)
    requires k != "_t" && Get(delta.fields, k).Some?
    requires DecodeChange(Get(delta.fields, k).value).Some?
    ensures Get(OnlyChanges(delta).fields, k) == NewValue(DecodeChange(Get(delta.fields, k).value).value)
    ensures Get(CleanDiff(show, delta).fields, k) == Some(JStr(Describe(show, DecodeChange(Get(delta.fields, k).value).value)))
  {
    OnlyChangesIntoGet([], delta.fields, k);
    CleanIntoGet(show, [], delta.fields, k);
  }

  /** A described delta: description strings at the leaves, objects above them. */
  ghost predicate Described(show: Json -> string, v: Json)
    decreases v
  {
    match v
    case JStr(s) => exists c :: s == Describe(show, c)
    case JObj(fs) => forall i :: 0 <= i < |fs| ==> Described(show, fs[i].value)
    case _ => false
  }

  /** Every leaf `cleanDiff` produces is one of the three descriptions (or an empty object). */
  lemma {:induction false} CleanDiffIsDescribed(show: Json -> string, delta: Json)
    ensures Described(show, CleanDiff(show, delta))
    decreases delta
  {
    match delta
    case JObj(fs) => CleanIntoIsDescribed(show, [], fs);
    case JArr(items) =>
      if 1 <= |items| <= 3 {
        CleanDiffDescribesChange(show, delta);
      }
    case _ =>
  }

  lemma {:induction false} CleanIntoIsDescribed(show: Json -> string, cleaned: Fields, entries: Fields)
    requires forall i :: 0 <= i < |cleaned| ==> Described(show, cleaned[i].value)
    ensures forall i :: 0 <= i < |CleanInto(show, cleaned, entries)| ==> Described(show, CleanInto(show, cleaned, entries)[i].value)
    decreases entries
  {
    if entries != [] {
      if entries[0].key == "_t" {
        CleanIntoIsDescribed(show, cleaned, entries[1..]);
      } else {
        var d := CleanDiff(show, entries[0].value);
        CleanDiffIsDescribed(show, entries[0].value);
        PutMembers(cleaned, entries[0].key, d);
        CleanIntoIsDescribed(show, CleanStep(show, cleaned, entries[0]), entries[1..]);
      }
    }
  }
}

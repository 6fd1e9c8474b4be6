/**
 * `ConfigDataCollector`: the collector that stores the application's
 * configuration with each profiled request. Configuration objects are
 * stored twice: with their keys rewritten so that the document store
 * accepts them (`$` and `.` become full-width characters at every depth),
 * and flattened into one level whose nested keys join the path with `.`
 * and HTML-escape `$` and `.`, sorted by key.
 *
 * The service container is not part of this model: the configuration
 * parameters, the profiler section and the service names are parameters.
 */
module ConfigDataCollector {
  import opened Wrappers
  import opened Dict
  import Js
  import Text

  /** The key rewriting of `recursiveKeys`: `$` becomes U+FF04 and `.` becomes U+FF0E. */
  function StoreKey(key: string): (r: string)
    ensures '$' !in r && '.' !in r
  {
    var noDollar := Text.ReplaceAll(key, '$', "\U{FF04}");
    Text.ReplaceAllRemoves(key, '$', "\U{FF04}");
    Text.ReplaceAllRemoves(noDollar, '.', "\U{FF0E}");
    Text.ReplaceAllKeepsOut(noDollar, '.', "\U{FF0E}", '$');
    Text.ReplaceAll(noDollar, '.', "\U{FF0E}")
  }

  // ---------------------------------------------------------------------------
  // recursiveKeys
  // ---------------------------------------------------------------------------

  /**
   * `recursiveKeys(obj)`: values that are not objects, and arrays, come
   * back as they are; a plain object or a function becomes a new object
   * whose keys are rewritten and whose values are rewritten in turn.
   */
  function Stored(v: Js.Value): (r: Js.Value)
    ensures !Js.IsObject(v) || v.Arr? ==> r == v
    ensures v.Obj? || v.Func? ==> r.Obj? && Dict.Valid(r.fields)
    decreases v, 1
  {
    match v
    case Obj(fields) => Js.Obj(Assign([], StoredEntries(v)))
    case Func(_) => Js.Obj([])
    case _ => v
  }

  /** The assignments `temp[StoreKey(key)] = recursiveKeys(obj[key])`, one per key, in order. */
  function StoredEntries(v: Js.Value): (r: seq<(string, Js.Value)>)
    requires v.Obj?
    ensures |r| == |v.fields|
    ensures forall i | 0 <= i < |r| :: r[i] == (StoreKey(v.fields[i].0), Stored(v.fields[i].1))
    decreases v, 0
  {
    seq(|v.fields|, i requires 0 <= i < |v.fields| => (StoreKey(v.fields[i].0), Stored(v.fields[i].1)))
  }

  /** The keys of every object reached through objects (arrays are not entered) hold neither `$` nor `.`. */
  predicate StoreSafe(v: Js.Value)
    decreases v
  {
    match v
    case Obj(fields) =>
      forall i | 0 <= i < |fields| :: '$' !in fields[i].0 && '.' !in fields[i].0 && StoreSafe(fields[i].1)
    case _ => true
  }

  /** `recursiveKeys` leaves no `$` and no `.` in any key it rewrites. */
  lemma {:induction false} StoredIsSafe(v: Js.Value)
    ensures StoreSafe(Stored(v))
    decreases v
  {
    if v.Obj? {
      var e := StoredEntries(v);
      forall i | 0 <= i < |v.fields|
        ensures StoreSafe(Stored(v.fields[i].1))
      {
        StoredIsSafe(v.fields[i].1);
      }
      AssignEntries([], e);
      var r := Assign([], e);
      forall i | 0 <= i < |r|
        ensures '$' !in r[i].0 && '.' !in r[i].0 && StoreSafe(r[i].1)
      {
        assert r[i] in r;
        var j :| 0 <= j < |e| && e[j] == r[i];
      }
    }
  }

  /**
   * Every key of the object is stored under its rewritten key, and every
   * stored value is the rewriting of the value of one of the keys that
   * rewrite to its key (the last of them): leaves are kept as they are.
   */
  lemma StoredFields(fields: seq<(string, Js.Value)>, k: string) returns (i: nat)
    requires HasKey(Stored(Js.Obj(fields)).fields, k)
    ensures i < |fields| && StoreKey(fields[i].0) == k
    ensures Get(Stored(Js.Obj(fields)).fields, k) == Some(Stored(fields[i].1))
  {
    var e := StoredEntries(Js.Obj(fields));
    i := LastValueAt(e, k);
  }

  /** A key of the object is found, rewritten, in the result. */
  lemma StoredKeys(fields: seq<(string, Js.Value)>, i: nat)
    requires i < |fields|
    ensures HasKey(Stored(Js.Obj(fields)).fields, StoreKey(fields[i].0))
  {
    var e := StoredEntries(Js.Obj(fields));
    assert e[i].0 == StoreKey(fields[i].0);
    HasKeyOf(e, i);
  }

  lemma {:induction false} HasKeyOf<V>(e: seq<(string, V)>, i: nat)
    requires i < |e|
    ensures HasKey(e, e[i].0)
  {
    if i > 0 {
      HasKeyOf(e[1..], i - 1);
    }
  }

  /** `recursiveKeys`, as the source computes it: a loop over the keys filling a new object, recursing into each value. */
  method RecursiveKeys(v: Js.Value) returns (r: Js.Value)
    ensures r == Stored(v)
    decreases v
  {
    if v.Func? {
      return Js.Obj([]);
    }
    if !v.Obj? {
      return v;
    }
    var fields := v.fields;
    ghost var e := StoredEntries(v);
    var temp: seq<(string, Js.Value)> := [];
    var i := 0;
    while i < |fields|
      invariant 0 <= i <= |fields|
      invariant Assign(temp, e[i..]) == Assign([], e)
    {
      var child := RecursiveKeys(fields[i].1);
      assert e[i..][1..] == e[i + 1..];
      temp := Put(temp, StoreKey(fields[i].0), child);
      i := i + 1;
    }
    assert e[i..] == [];
    r := Js.Obj(temp);
  }

  // ---------------------------------------------------------------------------
  // flatten
  // ---------------------------------------------------------------------------

  /** The escaping of flat keys: `$` becomes `&#36;` and `.` becomes `&#46;`. */
  function FlatEscape(key: string): (r: string)
    ensures '$' !in r && '.' !in r
    ensures '$' !in key && '.' !in key ==> r == key
  {
    var noDollar := Text.ReplaceAll(key, '$', "&#36;");
    Text.ReplaceAllRemoves(key, '$', "&#36;");
    Text.ReplaceAllRemoves(noDollar, '.', "&#46;");
    Text.ReplaceAllWithout(key, '$', "&#36;");
    Text.ReplaceAllWithout(noDollar, '.', "&#46;");
    Text.ReplaceAllKeepsOut(noDollar, '.', "&#46;", '$');
    Text.ReplaceAll(noDollar, '.', "&#46;")
  }

  /** Escaping a path escapes each part, and the joining `.` becomes `&#46;`. */
  lemma FlatEscapePath(parent: string, key: string)
    ensures FlatEscape(parent + "." + key) == FlatEscape(parent) + "&#46;" + FlatEscape(key)
  {
    var p, k := Text.ReplaceAll(parent, '$', "&#36;"), Text.ReplaceAll(key, '$', "&#36;");
    Text.ReplaceAllConcat3(parent, ".", key, '$', "&#36;");
    Text.ReplaceAllChar('.', '$', "&#36;");
    assert Text.ReplaceAll(parent + "." + key, '$', "&#36;") == p + "." + k;
    Text.ReplaceAllConcat3(p, ".", k, '.', "&#46;");
    Text.ReplaceAllChar('.', '.', "&#46;");
  }

  /** The key a value is stored under: its own key at the top level (or under an empty parent), the escaped path below. */
  function FlatKey(nestKey: Option<string>, key: string): string {
    if nestKey.Some? && nestKey.value != "" then FlatEscape(nestKey.value + "." + key) else key
  }

  /** The key and the value of the `i`-th property `for (key in obj)` visits. */
  function EntryKey(v: Js.Value, i: nat): string
    requires i < |Js.Entries(v)|
  {
    Js.Entries(v)[i].0
  }

  /**
   * `flat` after the loop of `flatten(obj, nestKey)` has visited the first
   * `n` properties: a value that is an object is flattened under its flat
   * key and assigned in; any other value is assigned under its flat key.
   */
  function FlattenUpTo(v: Js.Value, n: nat, nestKey: Option<string>): seq<(string, Js.Value)>
    requires n <= |Js.Entries(v)|
    decreases v, n
  {
    if n == 0 then []
    else
      var val := if v.Obj? then v.fields[n - 1].1 else v.items[n - 1];
      FlattenStep(FlattenUpTo(v, n - 1, nestKey), nestKey, EntryKey(v, n - 1), val)
  }

  /** One iteration of the loop: the property `key` with value `val` merged into `flat`. */
  function FlattenStep(flat: seq<(string, Js.Value)>, nestKey: Option<string>, key: string, val: Js.Value): seq<(string, Js.Value)>
    decreases val, |Js.Entries(val)| + 2
  {
    var flatKey := FlatKey(nestKey, key);
    if Js.IsObject(val) then Assign(flat, Flattened(val, Some(flatKey)))
    else Put(flat, flatKey, val)
  }

  /** `flatten(obj, nestKey)`. */
  function Flattened(v: Js.Value, nestKey: Option<string>): seq<(string, Js.Value)>
    decreases v, |Js.Entries(v)| + 1
  {
    FlattenUpTo(v, |Js.Entries(v)|, nestKey)
  }

  /** The value of the `i`-th property. */
  lemma EntryValue(v: Js.Value, i: nat)
    requires i < |Js.Entries(v)|
    ensures Js.Entries(v)[i].1 == if v.Obj? then v.fields[i].1 else v.items[i]
  {
  }

  /** A flat dictionary: no key twice, and no value that is an object. */
  predicate Flat(d: seq<(string, Js.Value)>) {
    Dict.Valid(d) && forall i | 0 <= i < |d| :: !Js.IsObject(d[i].1)
  }

  lemma FlatPut(d: seq<(string, Js.Value)>, k: string, val: Js.Value)
    requires Flat(d) && !Js.IsObject(val)
    ensures Flat(Put(d, k, val))
  {
    PutEntries(d, k, val);
    var r := Put(d, k, val);
    forall i | 0 <= i < |r|
      ensures !Js.IsObject(r[i].1)
    {
      assert r[i] in r;
    }
  }

  lemma FlatAssign(d: seq<(string, Js.Value)>, e: seq<(string, Js.Value)>)
    requires Flat(d) && Flat(e)
    ensures Flat(Assign(d, e))
  {
    AssignEntries(d, e);
    var r := Assign(d, e);
    forall i | 0 <= i < |r|
      ensures !Js.IsObject(r[i].1)
    {
      assert r[i] in r;
    }
  }

  /** Every value `flatten` returns is a non-object, under a key of its own. */
  lemma {:induction false} FlattenedIsFlat(v: Js.Value, nestKey: Option<string>)
    ensures Flat(Flattened(v, nestKey))
    decreases v, |Js.Entries(v)| + 1
  {
    FlattenUpToIsFlat(v, |Js.Entries(v)|, nestKey);
  }

  lemma {:induction false} FlattenUpToIsFlat(v: Js.Value, n: nat, nestKey: Option<string>)
    requires n <= |Js.Entries(v)|
    ensures Flat(FlattenUpTo(v, n, nestKey))
    decreases v, n
  {
    if n > 0 {
      FlattenUpToIsFlat(v, n - 1, nestKey);
      var val := if v.Obj? then v.fields[n - 1].1 else v.items[n - 1];
      FlattenStepIsFlat(FlattenUpTo(v, n - 1, nestKey), nestKey, EntryKey(v, n - 1), val);
    }
  }

  lemma {:induction false} FlattenStepIsFlat(flat: seq<(string, Js.Value)>, nestKey: Option<string>, key: string, val: Js.Value)
    requires Flat(flat)
    ensures Flat(FlattenStep(flat, nestKey, key, val))
    decreases val, |Js.Entries(val)| + 2
  {
    var flatKey := FlatKey(nestKey, key);
    if Js.IsObject(val) {
      FlattenedIsFlat(val, Some(flatKey));
      FlatAssign(flat, Flattened(val, Some(flatKey)));
    } else {
      FlatPut(flat, flatKey, val);
    }
  }

  /** Every key of `d` starts with `prefix` and holds neither `$` nor `.`. */
  predicate KeysUnder(d: seq<(string, Js.Value)>, prefix: string) {
    forall i | 0 <= i < |d| :: Text.StartsWith(d[i].0, prefix) && '$' !in d[i].0 && '.' !in d[i].0
  }

  /**
   * Below a parent key, every flat key is the escaped parent followed by
   * `&#46;`, and holds neither `$` nor `.`.
   */
  lemma {:induction false} FlattenedKeys(v: Js.Value, parent: string)
    requires parent != ""
    ensures KeysUnder(Flattened(v, Some(parent)), FlatEscape(parent) + "&#46;")
    decreases v, |Js.Entries(v)| + 1
  {
    FlattenUpToKeys(v, |Js.Entries(v)|, parent);
  }

  lemma {:induction false} FlattenUpToKeys(v: Js.Value, n: nat, parent: string)
    requires parent != "" && n <= |Js.Entries(v)|
    ensures KeysUnder(FlattenUpTo(v, n, Some(parent)), FlatEscape(parent) + "&#46;")
    decreases v, n
  {
    if n > 0 {
      FlattenUpToKeys(v, n - 1, parent);
      var val := if v.Obj? then v.fields[n - 1].1 else v.items[n - 1];
      FlattenStepKeys(FlattenUpTo(v, n - 1, Some(parent)), parent, EntryKey(v, n - 1), val);
    }
  }

  lemma {:induction false} FlattenStepKeys(flat: seq<(string, Js.Value)>, parent: string, key: string, val: Js.Value)
    requires parent != "" && KeysUnder(flat, FlatEscape(parent) + "&#46;")
    ensures KeysUnder(FlattenStep(flat, Some(parent), key, val), FlatEscape(parent) + "&#46;")
    decreases val, |Js.Entries(val)| + 2
  {
    var prefix := FlatEscape(parent) + "&#46;";
    var flatKey := FlatKey(Some(parent), key);
    FlatEscapePath(parent, key);
    assert flatKey == prefix + FlatEscape(key);
    StartsWithConcat(flatKey, prefix, FlatEscape(key));
    if Js.IsObject(val) {
      FlattenedKeys(val, flatKey);
      StartsWithConcat(flatKey + "&#46;", flatKey, "&#46;");
      StartsWithTransitive(flatKey + "&#46;", prefix, flatKey);
      KeysUnderAssign(flat, Flattened(val, Some(flatKey)), prefix, flatKey + "&#46;");
    } else {
      KeysUnderPut(flat, flatKey, val, prefix);
    }
  }

  lemma StartsWithConcat(s: string, p: string, q: string)
    requires s == p + q
    ensures Text.StartsWith(s, p)
  {
    assert s[..|p|] == p;
  }

  lemma StartsWithTransitive(s: string, p: string, q: string)
    requires Text.StartsWith(s, q) && Text.StartsWith(q, p)
    ensures Text.StartsWith(s, p)
  {
    assert s[..|p|] == s[..|q|][..|p|];
  }

  lemma KeysUnderPut(d: seq<(string, Js.Value)>, k: string, val: Js.Value, prefix: string)
    requires KeysUnder(d, prefix) && Text.StartsWith(k, prefix) && '$' !in k && '.' !in k
    ensures KeysUnder(Put(d, k, val), prefix)
  {
    PutEntries(d, k, val);
    var r := Put(d, k, val);
    forall i | 0 <= i < |r|
      ensures Text.StartsWith(r[i].0, prefix) && '$' !in r[i].0 && '.' !in r[i].0
    {
      assert r[i] in r;
    }
  }

  lemma KeysUnderAssign(d: seq<(string, Js.Value)>, e: seq<(string, Js.Value)>, prefix: string, longer: string)
    requires KeysUnder(d, prefix) && KeysUnder(e, longer) && Text.StartsWith(longer, prefix)
    ensures KeysUnder(Assign(d, e), prefix)
  {
    AssignEntries(d, e);
    var r := Assign(d, e);
    forall i | 0 <= i < |r|
      ensures Text.StartsWith(r[i].0, prefix) && '$' !in r[i].0 && '.' !in r[i].0
    {
      assert r[i] in r;
      if r[i] in e {
        var j :| 0 <= j < |e| && e[j] == r[i];
        StartsWithTransitive(r[i].0, prefix, longer);
      }
    }
  }

  /**
   * Every property whose value is not an object is found under its flat
   * key: its own key at the top level. The last property to use a key
   * gives its value.
   */
  lemma {:induction false} FlattenedLeaves(v: Js.Value, nestKey: Option<string>, i: nat)
    requires i < |Js.Entries(v)| && !Js.IsObject(Js.Entries(v)[i].1)
    ensures HasKey(Flattened(v, nestKey), FlatKey(nestKey, EntryKey(v, i)))
    ensures nestKey.None? ==> FlatKey(nestKey, EntryKey(v, i)) == EntryKey(v, i)
    ensures i == |Js.Entries(v)| - 1 ==>
      Get(Flattened(v, nestKey), FlatKey(nestKey, EntryKey(v, i))) == Some(Js.Entries(v)[i].1)
  {
    var entries := Js.Entries(v);
    FlattenUpToNext(v, i, nestKey);
    FlattenStepLeaf(FlattenUpTo(v, i, nestKey), nestKey, entries[i].0, entries[i].1);
    FlattenUpToKeeps(v, i + 1, |entries|, nestKey, FlatKey(nestKey, entries[i].0));
  }

  /** A property whose value is not an object is assigned under its flat key. */
  lemma FlattenStepLeaf(flat: seq<(string, Js.Value)>, nestKey: Option<string>, key: string, val: Js.Value)
    requires !Js.IsObject(val)
    ensures Get(FlattenStep(flat, nestKey, key, val), FlatKey(nestKey, key)) == Some(val)
  {
  }

  /** Later properties never remove a flat key. */
  lemma {:induction false} FlattenUpToKeeps(v: Js.Value, m: nat, n: nat, nestKey: Option<string>, k: string)
    requires m <= n <= |Js.Entries(v)|
    requires HasKey(FlattenUpTo(v, m, nestKey), k)
    ensures HasKey(FlattenUpTo(v, n, nestKey), k)
    decreases n - m
  {
    if m < n {
      FlattenUpToNext(v, m, nestKey);
      FlattenStepKeeps(FlattenUpTo(v, m, nestKey), nestKey, Js.Entries(v)[m].0, Js.Entries(v)[m].1, k);
      FlattenUpToKeeps(v, m + 1, n, nestKey, k);
    }
  }

  lemma FlattenStepKeeps(flat: seq<(string, Js.Value)>, nestKey: Option<string>, key: string, val: Js.Value, k: string)
    requires HasKey(flat, k)
    ensures HasKey(FlattenStep(flat, nestKey, key, val), k)
  {
  }

  /** `flatten(obj, nestKey)`, as the source computes it: a loop over the properties, recursing into object values. */
  method Flatten(v: Js.Value, nestKey: Option<string>) returns (flat: seq<(string, Js.Value)>)
    ensures flat == Flattened(v, nestKey)
    decreases v, |Js.Entries(v)| + 1
  {
    var entries := Js.Entries(v);
    flat := [];
    var i := 0;
    while i < |entries|
      invariant 0 <= i <= |entries|
      invariant flat == FlattenUpTo(v, i, nestKey)
    {
      var val := if v.Obj? then v.fields[i].1 else v.items[i];
      FlattenUpToNext(v, i, nestKey);
      assert entries[i].1 == val;
      flat := FlattenProperty(flat, nestKey, entries[i].0, val);
      i := i + 1;
    }
  }

  lemma FlattenUpToNext(v: Js.Value, i: nat, nestKey: Option<string>)
    requires i < |Js.Entries(v)|
    ensures FlattenUpTo(v, i + 1, nestKey) == FlattenStep(FlattenUpTo(v, i, nestKey), nestKey, Js.Entries(v)[i].0, Js.Entries(v)[i].1)
  {
  }

  /** One iteration of `flatten`'s loop: the property `key` with value `val` merged into `flat`. */
  method FlattenProperty(flat: seq<(string, Js.Value)>, nestKey: Option<string>, key: string, val: Js.Value)
    returns (flat': seq<(string, Js.Value)>)
    ensures flat' == FlattenStep(flat, nestKey, key, val)
    decreases val, |Js.Entries(val)| + 2
  {
    var flatKey := key;
    if nestKey.Some? && nestKey.value != "" {
      flatKey := FlatEscape(nestKey.value + "." + key);
    }
    if Js.IsObject(val) {
      var sub := Flatten(val, Some(flatKey));
      flat' := Assign(flat, sub);
    } else {
      flat' := Put(flat, flatKey, val);
    }
  }

  // ---------------------------------------------------------------------------
  // collectData and isEnabled
  // ---------------------------------------------------------------------------

  /** The keys in ascending order (`Array.prototype.sort` on strings). */
  function SortKeys(keys: seq<string>): (r: seq<string>)
    ensures multiset(r) == multiset(keys)
    decreases |keys|
  {
    if keys == [] then []
    else
      assert keys == [keys[0]] + keys[1..];
      Insert(keys[0], SortKeys(keys[1..]))
  }

  /** No string occurs twice. */
  predicate Distinct(keys: seq<string>) {
    forall i, j | 0 <= i < j < |keys| :: keys[i] != keys[j]
  }

  /** Distinct keys sort into a strictly ascending sequence. */
  lemma {:induction false} SortKeysAscending(keys: seq<string>)
    requires Distinct(keys)
    ensures Ascending(SortKeys(keys))
    decreases |keys|
  {
    if keys != [] {
      DistinctTail(keys);
      SortKeysAscending(keys[1..]);
      assert keys[0] !in multiset(SortKeys(keys[1..]));
      InsertAscending(keys[0], SortKeys(keys[1..]));
    }
  }

  lemma DistinctTail(keys: seq<string>)
    requires keys != [] && Distinct(keys)
    ensures Distinct(keys[1..])
    ensures keys[0] !in multiset(keys[1..])
  {
    assert forall j | 0 <= j < |keys[1..]| :: keys[1..][j] == keys[j + 1] != keys[0];
  }

  /** Strictly ascending in JavaScript's string order. */
  predicate Ascending(s: seq<string>) {
    forall i, j | 0 <= i < j < |s| :: Text.Below(s[i], s[j])
  }

  /** `x` placed before the first element it is below. */
  function Insert(x: string, s: seq<string>): (r: seq<string>)
    ensures multiset(r) == multiset(s) + multiset{x}
    decreases |s|
  {
    if s == [] then [x]
    else if Text.Below(s[0], x) then
      assert s == [s[0]] + s[1..];
      [s[0]] + Insert(x, s[1..])
    else [x] + s
  }

  /** An element below every element of an ascending sequence can go in front. */
  lemma AscendingCons(h: string, t: seq<string>)
    requires Ascending(t) && forall y | y in t :: Text.Below(h, y)
    ensures Ascending([h] + t)
  {
    var r := [h] + t;
    forall i, j | 0 <= i < j < |r|
      ensures Text.Below(r[i], r[j])
    {
      assert r[j] == t[j - 1];
      if i > 0 {
        assert r[i] == t[i - 1];
      } else {
        assert t[j - 1] in t;
      }
    }
  }

  lemma {:induction false} InsertAscending(x: string, s: seq<string>)
    requires Ascending(s) && x !in s
    ensures Ascending(Insert(x, s))
    decreases |s|
  {
    if s != [] {
      assert s == [s[0]] + s[1..];
      assert Ascending(s[1..]) by {
        forall i, j | 0 <= i < j < |s[1..]|
          ensures Text.Below(s[1..][i], s[1..][j])
        {
          assert s[1..][i] == s[i + 1] && s[1..][j] == s[j + 1];
        }
      }
      if Text.Below(s[0], x) {
        InsertAscending(x, s[1..]);
        forall y | y in Insert(x, s[1..])
          ensures Text.Below(s[0], y)
        {
          assert y in multiset(Insert(x, s[1..]));
          if y != x {
            assert y in multiset(s[1..]);
            var k :| 0 <= k < |s[1..]| && s[1..][k] == y;
            assert s[k + 1] == y;
          }
        }
        AscendingCons(s[0], Insert(x, s[1..]));
      } else {
        Text.BelowTotal(s[0], x);
        assert x != s[0];
        forall y | y in s
          ensures Text.Below(x, y)
        {
          var k :| 0 <= k < |s| && s[k] == y;
          if k > 0 {
            Text.BelowTransitive(x, s[0], s[k]);
          }
        }
        AscendingCons(x, s);
      }
    }
  }

  /** The sorted keys of `flat`, each with its value: `configFlat`. */
  function SortedCopy(flat: seq<(string, Js.Value)>): (r: seq<(string, Js.Value)>)
  {
    var keys := SortKeys(Keys(flat));
    seq(|keys|, i requires 0 <= i < |keys| => (keys[i], Get(flat, keys[i]).GetOr(Js.Undefined)))
  }

  /** `configFlat` lists the keys of the flat configuration in ascending order, each with its value. */
  lemma SortedCopyOrdered(flat: seq<(string, Js.Value)>)
    requires Dict.Valid(flat)
    ensures Ascending(Keys(SortedCopy(flat)))
    ensures Dict.Valid(SortedCopy(flat))
    ensures forall k :: Get(SortedCopy(flat), k) == Get(flat, k)
  {
    KeysDistinct(flat);
    SortKeysAscending(Keys(flat));
    var keys := SortKeys(Keys(flat));
    var e := SortedCopy(flat);
    assert Keys(e) == keys;
    BelowDistinct(keys);
    KeysValid(e);
    forall k
      ensures Get(e, k) == Get(flat, k)
    {
      SortedCopyGet(flat, k);
    }
  }

  lemma SortedCopyGet(flat: seq<(string, Js.Value)>, k: string)
    requires Dict.Valid(SortedCopy(flat))
    ensures Get(SortedCopy(flat), k) == Get(flat, k)
  {
    if HasKey(SortedCopy(flat), k) {
      SortedCopyHas(flat, k);
    } else {
      SortedCopyLacks(flat, k);
    }
  }

  /** `Object.keys` of the sorted copy are the sorted keys. */
  lemma SortedCopyKeys(flat: seq<(string, Js.Value)>)
    ensures Keys(SortedCopy(flat)) == SortKeys(Keys(flat))
  {
  }

  lemma SortedCopyHas(flat: seq<(string, Js.Value)>, k: string)
    requires Dict.Valid(SortedCopy(flat)) && HasKey(SortedCopy(flat), k)
    ensures Get(SortedCopy(flat), k) == Get(flat, k)
  {
    var keys := SortKeys(Keys(flat));
    var e := SortedCopy(flat);
    var i := GetIndex(e, k);
    GetAt(e, i);
    assert e[i] == (keys[i], Get(flat, keys[i]).GetOr(Js.Undefined));
    assert keys[i] in multiset(Keys(flat));
    KeysMembers(flat);
  }

  lemma SortedCopyLacks(flat: seq<(string, Js.Value)>, k: string)
    requires !HasKey(SortedCopy(flat), k)
    ensures Get(flat, k) == None
  {
    KeysMembers(SortedCopy(flat));
    SortedCopyKeys(flat);
    assert k !in multiset(SortKeys(Keys(flat)));
    KeysMembers(flat);
  }

  lemma BelowDistinct(keys: seq<string>)
    requires Ascending(keys)
    ensures forall i, j | 0 <= i < j < |keys| :: keys[i] != keys[j]
  {
    forall i, j | 0 <= i < j < |keys|
      ensures keys[i] != keys[j]
    {
      Text.BelowIrreflexive(keys[i]);
    }
  }

  /** An entry sequence whose keys are distinct is a well-formed object. */
  lemma {:induction false} KeysValid<V>(e: seq<(string, V)>)
    requires forall i, j | 0 <= i < j < |Keys(e)| :: Keys(e)[i] != Keys(e)[j]
    ensures Dict.Valid(e)
  {
    if e != [] {
      assert forall i, j | 0 <= i < j < |Keys(e[1..])| :: Keys(e[1..])[i] == Keys(e)[i + 1] && Keys(e[1..])[j] == Keys(e)[j + 1];
      KeysValid(e[1..]);
      KeysMembers(e[1..]);
      assert forall j | 0 <= j < |Keys(e[1..])| :: Keys(e[1..])[j] == Keys(e)[j + 1] != Keys(e)[0];
    }
  }

  /** With distinct keys, an entry's key is not among the entries before it. */
  lemma PrefixLacks<V>(e: seq<(string, V)>, i: nat)
    requires i < |e| && DistinctKeys(e)
    ensures !HasKey(e[..i], e[i].0)
  {
    KeysMembers(e[..i]);
    assert forall j | 0 <= j < i :: Keys(e[..i])[j] == e[j].0 != e[i].0;
  }

  lemma {:induction false} GetIndex<V>(e: seq<(string, V)>, k: string) returns (i: nat)
    requires HasKey(e, k)
    ensures i < |e| && e[i].0 == k
  {
    if e[0].0 == k {
      i := 0;
    } else {
      var j := GetIndex(e[1..], k);
      i := j + 1;
    }
  }

  /** No key occurs twice among the entries. */
  predicate DistinctKeys<V>(e: seq<(string, V)>) {
    forall a, b | 0 <= a < b < |e| :: e[a].0 != e[b].0
  }

  lemma SortedCopyDistinct(flat: seq<(string, Js.Value)>)
    requires Dict.Valid(flat)
    ensures DistinctKeys(SortedCopy(flat))
  {
    var keys := SortKeys(Keys(flat));
    KeysDistinct(flat);
    SortKeysAscending(Keys(flat));
    BelowDistinct(keys);
  }

  /** With distinct keys, assigning the next entry into a prefix extends the prefix by it. */
  lemma PutNext<V>(e: seq<(string, V)>, i: nat)
    requires i < |e| && DistinctKeys(e)
    ensures Put(e[..i], e[i].0, e[i].1) == e[..i + 1]
  {
    PrefixLacks(e, i);
    PutNew(e[..i], e[i].0, e[i].1);
    assert e[..i + 1] == e[..i] + [e[i]];
  }

  /** The reduce of `collectData`: the keys of `flat` sorted, then assigned one by one into a new object. */
  method SortFlat(flat: seq<(string, Js.Value)>) returns (sorted: seq<(string, Js.Value)>)
    requires Dict.Valid(flat)
    ensures sorted == SortedCopy(flat)
  {
    var keys := SortKeys(Keys(flat));
    ghost var e := SortedCopy(flat);
    SortedCopyDistinct(flat);
    sorted := [];
    var i := 0;
    while i < |keys|
      invariant 0 <= i <= |keys| == |e|
      invariant sorted == e[..i]
    {
      PutNext(e, i);
      assert e[i] == (keys[i], Get(flat, keys[i]).GetOr(Js.Undefined));
      sorted := Put(sorted, keys[i], Get(flat, keys[i]).GetOr(Js.Undefined));
      i := i + 1;
    }
    assert e[..i] == e;
  }

  /**
   * `collectData`: the flattened configuration parameters with their keys
   * sorted, and the service names passed through `recursiveKeys` (an
   * array, so unchanged).
   */
  method CollectData(parameters: Js.Value, serviceNames: seq<string>) returns (r: Js.Value)
    ensures r == Js.Obj([
      ("configFlat", Js.Obj(SortedCopy(Flattened(parameters, None)))),
      ("services", Js.Arr(seq(|serviceNames|, i requires 0 <= i < |serviceNames| => Js.Str(serviceNames[i]))))])
  {
    var flat := Flatten(parameters, None);
    FlattenedIsFlat(parameters, None);
    var sorted := SortFlat(flat);
    var services := RecursiveKeys(Js.Arr(seq(|serviceNames|, i requires 0 <= i < |serviceNames| => Js.Str(serviceNames[i]))));
    r := Js.Obj([("configFlat", Js.Obj(sorted)), ("services", services)]);
  }

  /**
   * `isEnabled()`: `collect_config === undefined || collect_config` read
   * from the profiler's configuration section; reading it from a missing
   * section throws.
   */
  function IsEnabled(profilerConfig: Js.Value): (r: Result<Js.Value, Js.JsError>)
    ensures r.Failure? <==> profilerConfig.Undefined? || profilerConfig.Null?
    ensures r.Success? ==>
      var setting := Js.Prop(profilerConfig, "collect_config").value;
      (Js.Truthy(r.value) <==> setting.Undefined? || Js.Truthy(setting))
  {
    match Js.Prop(profilerConfig, "collect_config")
    case Failure(e) => Failure(e)
    case Success(setting) => Success(if setting.Undefined? then Js.Bool(true) else setting)
  }
}

/**
 * The dashboard timeline's data records and graph object: `TimelineData`
 * copies the recognised fields of a plain object onto a fresh record, and
 * `TimelineGraph` keeps the plotted entries and a configuration object that
 * `setConfig` may only overwrite, never extend with unknown keys.
 *
 * Objects are dictionaries of their own properties (`Dict`); what a key
 * reads through the prototype is given by the name sets below.
 */
module TimelineChart {
  import opened Wrappers
  import opened Dict
  import Js
  import Timeline

  /**
   * The names every plain object has through `Object.prototype`, so that
   * `key in obj` holds for them without an own property. (`__proto__` is
   * left out: assigning it replaces the prototype instead of storing a value.)
   */
  const ObjectPrototypeNames: set<string> := {
    "constructor", "hasOwnProperty", "isPrototypeOf", "propertyIsEnumerable",
    "toString", "toLocaleString", "valueOf",
    "__defineGetter__", "__defineSetter__", "__lookupGetter__", "__lookupSetter__"
  }

  /** The fields `TimelineData.prototype` declares. */
  const RecordFields: set<string> := {
    "constructor", "id", "isSection", "section", "name", "category",
    "periods", "hasPeriods", "firstPeriod", "lastPeriod"
  }

  /** `key in proto` for the prototype of a `TimelineData`. */
  predicate InRecordPrototype(key: string) {
    key in RecordFields || key in ObjectPrototypeNames
  }

  /** `TimelineData.PeriodTemplate`: every time field 0. */
  const PeriodTemplate: Js.Value :=
    Js.Obj([("start", Js.Num(0)), ("end", Js.Num(0)), ("startedAt", Js.Num(0)), ("finishedAt", Js.Num(0))])

  /** The own fields a record gets before any data is copied: fresh `periods`, `firstPeriod` and `lastPeriod`. */
  const FreshRecord: seq<(string, Js.Value)> :=
    [("periods", Js.Arr([])), ("firstPeriod", PeriodTemplate), ("lastPeriod", PeriodTemplate)]

  /** One step of the copying loop: a recognised key is assigned, any other ignored. */
  function CopyStep(own: seq<(string, Js.Value)>, kv: (string, Js.Value)): seq<(string, Js.Value)> {
    if InRecordPrototype(kv.0) then Put(own, kv.0, kv.1) else own
  }

  /** The own fields after copying the entries `e` in order onto `own`. */
  function CopyAll(own: seq<(string, Js.Value)>, e: seq<(string, Js.Value)>): seq<(string, Js.Value)>
    decreases |e|
  {
    if e == [] then own else CopyStep(CopyAll(own, e[..|e| - 1]), e[|e| - 1])
  }

  /**
   * Copying keeps every key it does not recognise as it was, and leaves a
   * recognised key with the value of its last occurrence in `e`.
   */
  lemma {:induction false} CopyAllReads(own: seq<(string, Js.Value)>, e: seq<(string, Js.Value)>, k: string)
    ensures Get(CopyAll(own, e), k) ==
      if InRecordPrototype(k) && HasKey(e, k) then LastValue(e, k) else Get(own, k)
    decreases |e|
  {
    if e != [] {
      var init := e[..|e| - 1];
      assert e == init + [e[|e| - 1]];
      CopyAllReads(own, init, k);
      LastValueSnoc(init, e[|e| - 1], k);
      HasKeySnoc(init, e[|e| - 1], k);
    }
  }

  /** Copying never adds a key outside the prototype's. */
  lemma {:induction false} CopyAllKeys(own: seq<(string, Js.Value)>, e: seq<(string, Js.Value)>, k: string)
    requires HasKey(CopyAll(own, e), k)
    ensures HasKey(own, k) || InRecordPrototype(k)
    decreases |e|
  {
    if e != [] && !HasKey(CopyAll(own, e[..|e| - 1]), k) {
      assert InRecordPrototype(e[|e| - 1].0) && k == e[|e| - 1].0;
    } else if e != [] {
      CopyAllKeys(own, e[..|e| - 1], k);
    }
  }

  lemma {:induction false} HasKeySnoc<K, V>(d: seq<(K, V)>, kv: (K, V), k: K)
    ensures HasKey(d + [kv], k) <==> HasKey(d, k) || kv.0 == k
  {
    if d != [] {
      assert (d + [kv])[1..] == d[1..] + [kv];
      HasKeySnoc(d[1..], kv, k);
    }
  }

  lemma {:induction false} LastValueSnoc<K, V>(d: seq<(K, V)>, kv: (K, V), k: K)
    ensures LastValue(d + [kv], k) == if kv.0 == k then Some(kv.1) else LastValue(d, k)
  {
    if d == [] {
      assert [kv][1..] == [];
    } else {
      assert (d + [kv])[1..] == d[1..] + [kv];
      LastValueSnoc(d[1..], kv, k);
    }
  }

  /** `new TimelineData(data)`: a record holding the recognised fields of `data` as own properties. */
  class TimelineData {
    var own: seq<(string, Js.Value)>

    constructor(data: Js.Value)
      ensures own == CopyAll(FreshRecord, Js.Entries(data))
    {
      var e := Js.Entries(data);
      var fields := FreshRecord;
      var i := 0;
      while i < |e|
        invariant 0 <= i <= |e|
        invariant fields == CopyAll(FreshRecord, e[..i])
      {
        assert e[..i + 1][..i] == e[..i];
        if InRecordPrototype(e[i].0) {
          fields := Put(fields, e[i].0, e[i].1);
        }
        i := i + 1;
      }
      assert e[..|e|] == e;
      own := fields;
    }
  }

  /** `key.substr(0, 2) === 'fn'`: the key names a callback. */
  predicate IsCallbackKey(key: string) {
    |key| >= 2 && key[..2] == "fn"
  }

  /** Whether `setConfig` takes `key := value` into a configuration `cfg`. */
  predicate Admits(cfg: seq<(string, Js.Value)>, key: string, value: Js.Value) {
    (HasKey(cfg, key) || key in ObjectPrototypeNames) && (!IsCallbackKey(key) || value.Func?)
  }

  /** One iteration of `setConfig`'s loop. */
  function ConfigStep(cfg: seq<(string, Js.Value)>, kv: (string, Js.Value)): seq<(string, Js.Value)> {
    if Admits(cfg, kv.0, kv.1) then Put(cfg, kv.0, kv.1) else cfg
  }

  /** The configuration after `setConfig` has visited the entries `e` in order. */
  function Configure(cfg: seq<(string, Js.Value)>, e: seq<(string, Js.Value)>): seq<(string, Js.Value)>
    decreases |e|
  {
    if e == [] then cfg else ConfigStep(Configure(cfg, e[..|e| - 1]), e[|e| - 1])
  }

  /** The entries `setConfig` takes, in order: those `Admits` lets through. */
  function Admitted(cfg: seq<(string, Js.Value)>, e: seq<(string, Js.Value)>): (r: seq<(string, Js.Value)>)
    ensures forall i | 0 <= i < |r| :: Admits(cfg, r[i].0, r[i].1)
    decreases |e|
  {
    if e == [] then []
    else
      var last := e[|e| - 1];
      Admitted(cfg, e[..|e| - 1]) + (if Admits(cfg, last.0, last.1) then [last] else [])
  }

  /** An admitted key is present already or inherited from `Object.prototype`; a callback key carries a function. */
  lemma {:induction false} AdmittedKeys(cfg: seq<(string, Js.Value)>, e: seq<(string, Js.Value)>, k: string)
    requires HasKey(Admitted(cfg, e), k)
    ensures HasKey(cfg, k) || k in ObjectPrototypeNames
    ensures IsCallbackKey(k) ==> LastValue(Admitted(cfg, e), k).value.Func?
    decreases |e|
  {
    var a := Admitted(cfg, e);
    var j := HasKeyAt(a, k);
    assert Admits(cfg, a[j].0, a[j].1);
    LastValueIsSome(a, k);
  }

  lemma {:induction false} HasKeyAt<K, V>(d: seq<(K, V)>, k: K) returns (j: nat)
    requires HasKey(d, k)
    ensures j < |d| && d[j].0 == k
  {
    if d[0].0 == k {
      j := 0;
    } else {
      var j' := HasKeyAt(d[1..], k);
      j := j' + 1;
    }
  }

  /** The last value of a key is one of the values listed under it. */
  lemma {:induction false} LastValueIsSome<K, V>(d: seq<(K, V)>, k: K)
    requires HasKey(d, k)
    ensures exists j :: 0 <= j < |d| && d[j].0 == k && LastValue(d, k) == Some(d[j].1)
  {
    if HasKey(d[1..], k) {
      LastValueIsSome(d[1..], k);
      var j :| 0 <= j < |d[1..]| && d[1..][j].0 == k && LastValue(d[1..], k) == Some(d[1..][j].1);
      assert d[j + 1] == d[1..][j];
    } else {
      assert LastValue(d[1..], k) == None;
      assert d[0].0 == k && LastValue(d, k) == Some(d[0].1);
    }
  }

  /**
   * After `setConfig`, the configuration holds exactly its old keys plus the
   * admitted ones; an admitted key reads the value of its last admitted
   * occurrence and every other key reads as before.
   */
  lemma {:induction false} ConfigureReads(cfg: seq<(string, Js.Value)>, e: seq<(string, Js.Value)>)
    ensures forall k :: HasKey(Configure(cfg, e), k) <==> HasKey(cfg, k) || HasKey(Admitted(cfg, e), k)
    ensures forall k ::
      Get(Configure(cfg, e), k) == (if HasKey(Admitted(cfg, e), k) then LastValue(Admitted(cfg, e), k) else Get(cfg, k))
    decreases |e|
  {
    if e != [] {
      var init := e[..|e| - 1];
      var last := e[|e| - 1];
      var c := Configure(cfg, init);
      var a := Admitted(cfg, init);
      ConfigureReads(cfg, init);
      assert Admits(c, last.0, last.1) <==> Admits(cfg, last.0, last.1) by {
        if HasKey(a, last.0) {
          AdmittedKeys(cfg, init, last.0);
        }
      }
      if Admits(cfg, last.0, last.1) {
        assert Admitted(cfg, e) == a + [last];
        forall k
          ensures HasKey(a + [last], k) <==> HasKey(a, k) || last.0 == k
          ensures LastValue(a + [last], k) == if last.0 == k then Some(last.1) else LastValue(a, k)
        {
          HasKeySnoc(a, last, k);
          LastValueSnoc(a, last, k);
        }
      } else {
        assert Admitted(cfg, e) == a;
      }
    }
  }

  /**
   * `TimelineGraph`: the entries to plot, their count with the derived
   * `hasData`/`dataLastIdx`, and the configuration. The default
   * configuration (sizes, callbacks, colours) belongs to rendering and is
   * given to the constructor.
   */
  class TimelineGraph {
    var data: seq<Timeline.Entry>
    var dataLen: nat
    var hasData: bool
    var dataLastIdx: int
    var config: seq<(string, Js.Value)>

    constructor(data: seq<Timeline.Entry>, defaults: seq<(string, Js.Value)>)
      ensures this.data == data && dataLen == |data|
      ensures hasData <==> |data| != 0
      ensures dataLastIdx == |data| - 1
      ensures config == defaults
    {
      this.data := data;
      dataLen := |data|;
      hasData := |data| != 0;
      dataLastIdx := |data| - 1;
      config := defaults;
    }

    /** `setData(data)`: `hasData` exactly when there is an entry, and `dataLastIdx` the last index (-1 when empty). */
    method SetData(data: seq<Timeline.Entry>)
      modifies this
      ensures this.data == data && dataLen == |data|
      ensures hasData <==> |data| != 0
      ensures dataLastIdx == |data| - 1
      ensures config == old(config)
    {
      this.data := data;
      dataLen := |this.data|;
      hasData := dataLen != 0;
      dataLastIdx := dataLen - 1;
    }

    /** `setConfig(config)`: the admitted entries of `cfg` are assigned in order; returns the graph itself. */
    method SetConfig(cfg: Js.Value) returns (self: TimelineGraph)
      modifies this
      ensures self == this
      ensures config == Configure(old(config), Js.Entries(cfg))
      ensures data == old(data) && dataLen == old(dataLen) && hasData == old(hasData) && dataLastIdx == old(dataLastIdx)
    {
      var e := Js.Entries(cfg);
      ghost var start := config;
      var i := 0;
      while i < |e|
        invariant 0 <= i <= |e|
        invariant config == Configure(start, e[..i])
        invariant data == old(data) && dataLen == old(dataLen) && hasData == old(hasData) && dataLastIdx == old(dataLastIdx)
      {
        assert e[..i + 1][..i] == e[..i];
        var key := e[i].0;
        if (HasKey(config, key) || key in ObjectPrototypeNames) && (!IsCallbackKey(key) || e[i].1.Func?) {
          config := Put(config, key, e[i].1);
        }
        i := i + 1;
      }
      assert e[..|e|] == e;
      self := this;
    }
  }
}

/**
 * `DashboardController`: the navigation of the profiler dashboard, the
 * data-collector keys of a request document whose collector is enabled and
 * has a dashboard panel, in the order the document lists them.
 */
module DashboardController {
  import opened Wrappers
  import Js
  import Dict
  import opened DashboardService

  /** `a` is `b` with some elements left out, the rest in their order. */
  predicate Subsequence<T(==)>(a: seq<T>, b: seq<T>)
    decreases |b|
  {
    a == [] || (b != [] && ((a[0] == b[0] && Subsequence(a[1..], b[1..])) || Subsequence(a, b[1..])))
  }

  /** Whether `navigation` keeps a key: its collector is enabled and has a dashboard. */
  predicate Shown(c: Collector) {
    c.enabled && c.hasDashboard
  }

  /**
   * `navigation(keys, service)`: `keys.filter` over `getCollector(key)`; a
   * key with no registered collector reads `isEnabled` of `null`, a
   * TypeError.
   */
  function Navigation(keys: seq<string>, collectors: seq<Collector>): (r: Result<seq<string>, Js.JsError>)
    ensures r.Failure? ==> r.error == Js.TypeError
    ensures r.Success? ==> |r.value| <= |keys|
    decreases |keys|
  {
    if keys == [] then Success([])
    else
      var c := FindCollector(collectors, keys[0]);
      if c.None? then Failure(Js.TypeError)
      else
        match Navigation(keys[1..], collectors)
        case Failure(e) => Failure(e)
        case Success(rest) => Success(if Shown(c.value) then [keys[0]] + rest else rest)
  }

  /** `navigation` throws exactly when some key has no registered collector. */
  lemma {:induction false} NavigationFails(keys: seq<string>, collectors: seq<Collector>)
    ensures Navigation(keys, collectors).Failure? <==> exists k | k in keys :: FindCollector(collectors, k).None?
    decreases |keys|
  {
    if keys != [] {
      NavigationFails(keys[1..], collectors);
      if FindCollector(collectors, keys[0]).None? {
        assert keys[0] in keys;
      } else if Navigation(keys[1..], collectors).Failure? {
        var k :| k in keys[1..] && FindCollector(collectors, k).None?;
        assert k in keys;
      } else {
        forall k | k in keys
          ensures FindCollector(collectors, k).Some?
        {
          if k != keys[0] {
            assert k in keys[1..];
          }
        }
      }
    }
  }

  /** `navigation` keeps exactly the keys whose collector is enabled and has a dashboard. */
  lemma {:induction false} NavigationKeeps(keys: seq<string>, collectors: seq<Collector>)
    requires Navigation(keys, collectors).Success?
    ensures forall k :: k in Navigation(keys, collectors).value <==>
      k in keys && FindCollector(collectors, k).Some? && Shown(FindCollector(collectors, k).value)
    decreases |keys|
  {
    if keys != [] {
      NavigationKeeps(keys[1..], collectors);
      assert forall k | k in keys :: k == keys[0] || k in keys[1..];
      assert forall k | k in keys[1..] :: k in keys;
    }
  }

  /** The navigation lists the kept keys in the order the input lists them. */
  lemma {:induction false} NavigationOrdered(keys: seq<string>, collectors: seq<Collector>)
    requires Navigation(keys, collectors).Success?
    ensures Subsequence(Navigation(keys, collectors).value, keys)
    decreases |keys|
  {
    if keys != [] {
      NavigationOrdered(keys[1..], collectors);
      var rest := Navigation(keys[1..], collectors).value;
      if Shown(FindCollector(collectors, keys[0]).value) {
        assert ([keys[0]] + rest)[1..] == rest;
      }
    }
  }

  /**
   * `index`: the navigation of the dashboard home, empty without requests,
   * otherwise over `Object.keys` of the newest request's `collectedData`.
   * `Object.keys` of `undefined` or `null` is a TypeError.
   */
  function Index(requests: seq<Js.Value>, collectors: seq<Collector>): (r: Result<seq<string>, Js.JsError>)
    ensures requests == [] ==> r == Success([])
    ensures requests != [] && requests[0].Obj? ==>
      var data := Js.Prop(requests[0], "collectedData").value;
      (data.Undefined? || data.Null? ==> r == Failure(Js.TypeError)) &&
      (data.Obj? ==> r == Navigation(Dict.Keys(data.fields), collectors))
    ensures requests != [] && (requests[0].Undefined? || requests[0].Null?) ==> r == Failure(Js.TypeError)
  {
    if requests == [] then Success([])
    else
      match Js.Prop(requests[0], "collectedData")
      case Failure(e) => Failure(e)
      case Success(data) =>
        if data.Undefined? || data.Null? then Failure(Js.TypeError)
        else Navigation(ObjectKeys(data), collectors)
  }

  /** `Object.keys(v)` of a value that is not `undefined` or `null`. */
  function ObjectKeys(v: Js.Value): (ks: seq<string>)
    ensures |ks| == |Js.Entries(v)|
    ensures forall i | 0 <= i < |ks| :: ks[i] == Js.Entries(v)[i].0
  {
    Dict.Keys(Js.Entries(v))
  }
}

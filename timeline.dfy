/**
 * The dashboard's timeline preparation: a request's section tree is
 * flattened into a dataset of entries keyed by node id, each entry holding
 * the sorted periods of a named section or of an event, and the entries are
 * then ordered for plotting and numbered.
 *
 * Periods here carry only `start` and `end`; the `Date` copies the page
 * attaches for plotting are not part of this model.
 */
module Timeline {
  import opened Wrappers
  import opened Dict
  import opened TimingTree

  // ---------------------------------------------------------------------
  // Periods
  // ---------------------------------------------------------------------

  /** The order `sortPeriod` sorts by: start ascending, then end ascending. */
  predicate PeriodLe(a: Period, b: Period) {
    a.start < b.start || (a.start == b.start && a.end <= b.end)
  }

  /** `sortPeriod(a, b)`: the start difference, or when that is 0 the end difference. */
  function SortPeriod(a: Period, b: Period): int {
    if a.start - b.start != 0 then a.start - b.start else a.end - b.end
  }

  /** The comparator is a total order on periods: negative, zero or positive exactly as `PeriodLe` says. */
  lemma SortPeriodOrders(a: Period, b: Period)
    ensures SortPeriod(a, b) <= 0 <==> PeriodLe(a, b)
    ensures SortPeriod(a, b) == 0 <==> a == b
    ensures SortPeriod(a, b) == -SortPeriod(b, a)
  {
  }

  predicate SortedPeriods(ps: seq<Period>) {
    forall i, j | 0 <= i < j < |ps| :: PeriodLe(ps[i], ps[j])
  }

  function InsertPeriod(p: Period, ps: seq<Period>): (r: seq<Period>)
    requires SortedPeriods(ps)
    ensures SortedPeriods(r)
    ensures multiset(r) == multiset(ps) + multiset{p}
  {
    if ps == [] then [p]
    else
      assert ps == [ps[0]] + ps[1..];
      SortedPeriodsTail(ps);
      if PeriodLe(p, ps[0]) then
        SortedPeriodsCons(p, ps);
        [p] + ps
      else
        var rest := InsertPeriod(p, ps[1..]);
        forall q | q in rest
          ensures PeriodLe(ps[0], q)
        {
          assert q in multiset(rest);
          if q != p {
            assert q in multiset(ps[1..]);
          }
        }
        SortedPeriodsCons(ps[0], rest);
        [ps[0]] + rest
  }

  /** The tail of a sorted sequence is sorted; its head comes no later than any of it. */
  lemma SortedPeriodsTail(ps: seq<Period>)
    requires SortedPeriods(ps) && ps != []
    ensures SortedPeriods(ps[1..])
    ensures forall q | q in ps[1..] :: PeriodLe(ps[0], q)
  {
    assert forall i | 0 <= i < |ps[1..]| :: ps[1..][i] == ps[i + 1];
  }

  /** A period no later than every one of a sorted sequence can go in front. */
  lemma SortedPeriodsCons(h: Period, t: seq<Period>)
    requires SortedPeriods(t) && ((t != [] && PeriodLe(h, t[0])) || forall q | q in t :: PeriodLe(h, q))
    ensures SortedPeriods([h] + t)
  {
    var r := [h] + t;
    forall i, j | 0 <= i < j < |r|
      ensures PeriodLe(r[i], r[j])
    {
      assert r[j] == t[j - 1];
      if i > 0 {
        assert r[i] == t[i - 1];
      } else {
        assert t[j - 1] in t;
      }
    }
  }

  /** `periods.sort(sortPeriod)`: the periods in ascending order. */
  function SortPeriods(ps: seq<Period>): (r: seq<Period>)
    ensures SortedPeriods(r)
    ensures multiset(r) == multiset(ps)
  {
    if ps == [] then []
    else
      assert ps == ps[..|ps| - 1] + [ps[|ps| - 1]];
      InsertPeriod(ps[|ps| - 1], SortPeriods(ps[..|ps| - 1]))
  }

  /** There is only one sorted arrangement of a collection of periods. */
  lemma {:induction false} SortedUnique(a: seq<Period>, b: seq<Period>)
    requires SortedPeriods(a) && SortedPeriods(b)
    requires multiset(a) == multiset(b)
    ensures a == b
    decreases |a|
  {
    if a != [] {
      SortedHeads(a, b);
      SortedHeads(b, a);
      assert a[0] == b[0];
      assert a == [a[0]] + a[1..] && b == [b[0]] + b[1..];
      assert multiset(a) == multiset{a[0]} + multiset(a[1..]);
      assert multiset(b) == multiset{b[0]} + multiset(b[1..]);
      assert multiset(a[1..]) == multiset(a) - multiset{a[0]};
      assert multiset(b[1..]) == multiset(b) - multiset{b[0]};
      SortedUnique(a[1..], b[1..]);
    } else {
      assert |b| == |multiset(b)| == 0;
    }
  }

  /** The first of a sorted arrangement comes no later than the first of any other, and the tails stay sorted. */
  lemma SortedHeads(a: seq<Period>, b: seq<Period>)
    requires SortedPeriods(a) && SortedPeriods(b) && a != []
    requires multiset(a) == multiset(b)
    ensures b != [] && PeriodLe(b[0], a[0])
    ensures SortedPeriods(a[1..])
  {
    assert a[0] in multiset(b);
    var j :| 0 <= j < |b| && b[j] == a[0];
    assert forall i, j | 0 <= i < j < |a[1..]| :: a[1..][i] == a[i + 1] && a[1..][j] == a[j + 1];
  }

  // ---------------------------------------------------------------------
  // Entries
  // ---------------------------------------------------------------------

  /**
   * One timeline entry (`TimelineData`). `firstPeriod`/`lastPeriod` are
   * `None` where the page would read `periods[0]` of an empty list, which
   * is `undefined`.
   */
  datatype Entry = Entry(
    id: nat, isSection: bool, section: Option<string>, name: Option<string>, category: string,
    periods: seq<Period>, hasPeriods: bool, firstPeriod: Option<Period>, lastPeriod: Option<Period>,
    idx: Option<nat>)

  /** The `{start: 0, end: 0}` placeholder period of a new entry. */
  const Placeholder := Period(0, 0)

  /** A section name is used only when truthy: not `null` and not empty. */
  predicate Named(s: Section) {
    s.name.Some? && s.name.value != ""
  }

  function SectionEntry(s: Section): Entry {
    Entry(s.id, true, s.name, None, "section", [], false, Some(Placeholder), Some(Placeholder), None)
  }

  /** An event entry; an empty category is falsy and becomes 'default'. */
  function EventEntry(s: Section, e: Event): Entry {
    Entry(e.id, false, s.name, Some(e.name), if e.category == "" then "default" else e.category,
          [], false, Some(Placeholder), Some(Placeholder), None)
  }

  /** A consistent entry: sorted periods, first and last matching them, and no periods without `hasPeriods`. */
  predicate Coherent(en: Entry) {
    && SortedPeriods(en.periods)
    && (en.periods != [] ==> en.firstPeriod == Some(en.periods[0]) && en.lastPeriod == Some(en.periods[|en.periods| - 1]))
    && (!en.hasPeriods ==> en.periods == [])
    && (en.isSection ==> en.category == "section" && en.name.None?)
    && (!en.isSection ==> en.category != "" && en.name.Some?)
    && en.idx.None?
  }

  /** Concatenate then sort: the entry's periods with `ps`, and first, last and `hasPeriods` updated. */
  function Merge(en: Entry, ps: seq<Period>): (r: Entry)
    ensures r.hasPeriods && SortedPeriods(r.periods)
    ensures multiset(r.periods) == multiset(en.periods) + multiset(ps)
    ensures r.periods != [] ==> r.firstPeriod == Some(r.periods[0]) && r.lastPeriod == Some(r.periods[|r.periods| - 1])
    ensures r.periods == [] ==> r.firstPeriod.None? && r.lastPeriod.None?
    ensures r.id == en.id && r.isSection == en.isSection && r.section == en.section && r.name == en.name
    ensures r.category == en.category && r.idx == en.idx
  {
    var sorted := SortPeriods(en.periods + ps);
    en.(periods := sorted,
        firstPeriod := if sorted == [] then None else Some(sorted[0]),
        lastPeriod := if sorted == [] then None else Some(sorted[|sorted| - 1]),
        hasPeriods := true)
  }

  lemma MergeCoherent(en: Entry, ps: seq<Period>)
    ensures Coherent(en) ==> Coherent(Merge(en, ps))
  {
  }

  type Dataset = seq<(nat, Entry)>

  /** A dataset in good order: no repeated key, every entry under its own id, every entry coherent. */
  ghost predicate Good(ds: Dataset) {
    && Valid(ds)
    && (forall k | Get(ds, k).Some? :: Get(ds, k).value.id == k && Coherent(Get(ds, k).value))
  }

  /** `dataset[k].periods = dataset[k].periods.concat(ps).sort(...)` and the updates that follow it. */
  function UpdateWith(ds: Dataset, k: nat, ps: seq<Period>): (r: Dataset)
    ensures forall k' :: HasKey(r, k') <==> HasKey(ds, k')
    ensures forall k' | k' != k :: Get(r, k') == Get(ds, k')
    ensures Get(ds, k).Some? ==> Get(r, k) == Some(Merge(Get(ds, k).value, ps))
    ensures Good(ds) ==> Good(r)
  {
    match Get(ds, k)
    case Some(en) => MergeCoherent(en, ps); Put(ds, k, Merge(en, ps))
    case None => ds
  }

  /** The visit of one event: only an event with periods makes or updates an entry, and its named section's entry. */
  function EventStep(e: Event, s: Section, ds: Dataset): Dataset {
    if e.periods == [] then ds
    else
      var d1 := if HasKey(ds, e.id) then ds else Put(ds, e.id, EventEntry(s, e));
      var d2 := UpdateWith(d1, e.id, e.periods);
      if Named(s) then UpdateWith(d2, s.id, e.periods) else d2
  }

  function EventsStep(es: seq<Event>, s: Section, ds: Dataset): Dataset {
    if es == [] then ds else EventStep(es[|es| - 1], s, EventsStep(es[..|es| - 1], s, ds))
  }

  /** Merging a nested dataset: a present key gets the nested periods merged in, a new key gets the nested entry. */
  function MergeNested(keys: seq<nat>, d: Dataset, ds: Dataset): Dataset {
    if keys == [] then ds
    else
      var prev := MergeNested(keys[..|keys| - 1], d, ds);
      var x := keys[|keys| - 1];
      match Get(d, x)
      case None => prev
      case Some(dx) => if HasKey(prev, x) then UpdateWith(prev, x, dx.periods) else Put(prev, x, dx)
  }

  /** The visit of one section of the list. */
  function SectionStep(s: Section, ds: Dataset): Dataset
    decreases s
  {
    var d1 := if Named(s) && !HasKey(ds, s.id) then Put(ds, s.id, SectionEntry(s)) else ds;
    var d2 := EventsStep(s.events, s, d1);
    if s.sections != [] then
      var d := FlattenFrom(s.sections, []);
      MergeNested(Keys(d), d, d2)
    else d2
  }

  function FlattenFrom(f: seq<Section>, ds: Dataset): Dataset
    decreases f
  {
    if f == [] then ds else SectionStep(f[|f| - 1], FlattenFrom(f[..|f| - 1], ds))
  }

  /** `flattenSections(sections)`. */
  function Flatten(f: seq<Section>): Dataset {
    FlattenFrom(f, [])
  }

  /** `flattenSections`: index loops over sections and events, and a recursive call merged key by key. */
  method FlattenSections(sections: seq<Section>) returns (dataset: Dataset)
    ensures dataset == Flatten(sections)
    decreases sections
  {
    dataset := [];
    for i := 0 to |sections|
      invariant dataset == FlattenFrom(sections[..i], [])
    {
      var section := sections[i];
      assert sections[..i + 1][..i] == sections[..i];
      ghost var d0 := dataset;
      if Named(section) && !HasKey(dataset, section.id) {
        dataset := Put(dataset, section.id, SectionEntry(section));
      }
      dataset := FlattenEvents(section, dataset);
      if section.sections != [] {
        var d := FlattenSections(section.sections);
        dataset := MergeNestedInto(d, dataset);
      }
      assert dataset == SectionStep(section, d0);
    }
    assert sections[..|sections|] == sections;
  }

  /** The loop over one section's events. */
  method FlattenEvents(section: Section, d1: Dataset) returns (dataset: Dataset)
    ensures dataset == EventsStep(section.events, section, d1)
  {
    dataset := d1;
    for x := 0 to |section.events|
      invariant dataset == EventsStep(section.events[..x], section, d1)
    {
      var event := section.events[x];
      assert section.events[..x + 1][..x] == section.events[..x];
      ghost var before := dataset;
      if event.periods != [] {
        if !HasKey(dataset, event.id) {
          dataset := Put(dataset, event.id, EventEntry(section, event));
        }
        dataset := UpdateWith(dataset, event.id, event.periods);
        if Named(section) {
          dataset := UpdateWith(dataset, section.id, event.periods);
        }
      }
      assert dataset == EventStep(event, section, before);
    }
    assert section.events[..|section.events|] == section.events;
  }

  /** The `for (x in d)` loop merging a nested dataset. */
  method MergeNestedInto(d: Dataset, d2: Dataset) returns (dataset: Dataset)
    ensures dataset == MergeNested(Keys(d), d, d2)
  {
    dataset := d2;
    var keys := Keys(d);
    KeysMembers(d);
    for k := 0 to |keys|
      invariant dataset == MergeNested(keys[..k], d, d2)
    {
      var x := keys[k];
      assert keys[..k + 1][..k] == keys[..k];
      if HasKey(dataset, x) {
        dataset := UpdateWith(dataset, x, Get(d, x).value.periods);
      } else {
        dataset := Put(dataset, x, Get(d, x).value);
      }
    }
    assert keys[..|keys|] == keys;
  }

  // ---------------------------------------------------------------------
  // Properties of the flattened dataset
  // ---------------------------------------------------------------------

  lemma PutGood(ds: Dataset, k: nat, en: Entry)
    requires Good(ds) && en.id == k && Coherent(en)
    ensures Good(Put(ds, k, en))
  {
  }

  lemma EventStepGood(e: Event, s: Section, ds: Dataset)
    requires Good(ds)
    ensures Good(EventStep(e, s, ds))
  {
    if e.periods != [] && !HasKey(ds, e.id) {
      PutGood(ds, e.id, EventEntry(s, e));
    }
  }

  lemma {:induction false} EventsStepGood(es: seq<Event>, s: Section, ds: Dataset)
    requires Good(ds)
    ensures Good(EventsStep(es, s, ds))
  {
    if es != [] {
      EventsStepGood(es[..|es| - 1], s, ds);
      EventStepGood(es[|es| - 1], s, EventsStep(es[..|es| - 1], s, ds));
    }
  }

  lemma {:induction false} MergeNestedGood(keys: seq<nat>, d: Dataset, ds: Dataset)
    requires Good(d) && Good(ds)
    ensures Good(MergeNested(keys, d, ds))
  {
    if keys != [] {
      MergeNestedGood(keys[..|keys| - 1], d, ds);
      var prev := MergeNested(keys[..|keys| - 1], d, ds);
      var x := keys[|keys| - 1];
      if Get(d, x).Some? && !HasKey(prev, x) {
        PutGood(prev, x, Get(d, x).value);
      }
    }
  }

  lemma {:induction false} SectionStepGood(s: Section, ds: Dataset)
    requires Good(ds)
    ensures Good(SectionStep(s, ds))
    decreases s
  {
    var d1 := if Named(s) && !HasKey(ds, s.id) then Put(ds, s.id, SectionEntry(s)) else ds;
    if Named(s) && !HasKey(ds, s.id) {
      PutGood(ds, s.id, SectionEntry(s));
    }
    EventsStepGood(s.events, s, d1);
    if s.sections != [] {
      var d := FlattenFrom(s.sections, []);
      FlattenFromGood(s.sections, []);
      MergeNestedGood(Keys(d), d, EventsStep(s.events, s, d1));
    }
  }

  lemma {:induction false} FlattenFromGood(f: seq<Section>, ds: Dataset)
    requires Good(ds)
    ensures Good(FlattenFrom(f, ds))
    decreases f
  {
    if f != [] {
      FlattenFromGood(f[..|f| - 1], ds);
      SectionStepGood(f[|f| - 1], FlattenFrom(f[..|f| - 1], ds));
    }
  }

  /**
   * The flattened dataset has no repeated key; every entry sits under its
   * own id, has its periods sorted with `firstPeriod`/`lastPeriod` the first
   * and last of them, has `hasPeriods` set whenever it has periods, and is a
   * 'section' entry without a name or an event entry with a name and a
   * non-empty category.
   */
  lemma FlattenGood(f: seq<Section>)
    ensures Good(Flatten(f))
  {
    FlattenFromGood(f, []);
  }

  /** The ids of the events of `es` that have at least one period. */
  function PeriodEventIds(es: seq<Event>): set<nat> {
    if es == [] then {}
    else PeriodEventIds(es[..|es| - 1]) + (if es[|es| - 1].periods != [] then {es[|es| - 1].id} else {})
  }

  function SectionEntryIds(s: Section): set<nat>
    decreases s
  {
    (if Named(s) then {s.id} else {}) + PeriodEventIds(s.events) + EntryIds(s.sections)
  }

  /** The ids that deserve an entry: named sections and events with periods, at any depth. */
  function EntryIds(f: seq<Section>): set<nat>
    decreases f
  {
    if f == [] then {} else EntryIds(f[..|f| - 1]) + SectionEntryIds(f[|f| - 1])
  }

  lemma {:induction false} EventsStepKeys(es: seq<Event>, s: Section, ds: Dataset)
    ensures forall k :: HasKey(EventsStep(es, s, ds), k) <==> HasKey(ds, k) || k in PeriodEventIds(es)
  {
    if es != [] {
      EventsStepKeys(es[..|es| - 1], s, ds);
    }
  }

  lemma {:induction false} MergeNestedKeys(keys: seq<nat>, d: Dataset, ds: Dataset)
    ensures forall k :: HasKey(MergeNested(keys, d, ds), k) <==> HasKey(ds, k) || (k in keys && HasKey(d, k))
  {
    if keys != [] {
      MergeNestedKeys(keys[..|keys| - 1], d, ds);
      assert keys == keys[..|keys| - 1] + [keys[|keys| - 1]];
    }
  }

  lemma {:induction false} SectionStepKeys(s: Section, ds: Dataset)
    ensures forall k :: HasKey(SectionStep(s, ds), k) <==> HasKey(ds, k) || k in SectionEntryIds(s)
    decreases s
  {
    var d1 := if Named(s) && !HasKey(ds, s.id) then Put(ds, s.id, SectionEntry(s)) else ds;
    EventsStepKeys(s.events, s, d1);
    if s.sections != [] {
      var d := FlattenFrom(s.sections, []);
      FlattenFromKeys(s.sections, []);
      KeysMembers(d);
      MergeNestedKeys(Keys(d), d, EventsStep(s.events, s, d1));
    }
  }

  lemma {:induction false} FlattenFromKeys(f: seq<Section>, ds: Dataset)
    ensures forall k :: HasKey(FlattenFrom(f, ds), k) <==> HasKey(ds, k) || k in EntryIds(f)
    decreases f
  {
    if f != [] {
      FlattenFromKeys(f[..|f| - 1], ds);
      SectionStepKeys(f[|f| - 1], FlattenFrom(f[..|f| - 1], ds));
    }
  }

  /** Only named sections and events with at least one period get an entry, at any depth. */
  lemma FlattenKeys(f: seq<Section>)
    ensures forall k :: HasKey(Flatten(f), k) <==> k in EntryIds(f)
  {
    FlattenFromKeys(f, []);
  }

  // ---------------------------------------------------------------------
  // Entries of individual nodes, when node ids are unique
  // ---------------------------------------------------------------------

  function EventIdSet(es: seq<Event>): set<nat> {
    if es == [] then {} else EventIdSet(es[..|es| - 1]) + {es[|es| - 1].id}
  }

  function NodeIdSet(s: Section): set<nat>
    decreases s
  {
    {s.id} + EventIdSet(s.events) + IdSet(s.sections)
  }

  /** The ids of every section and event of a forest. */
  function IdSet(f: seq<Section>): set<nat>
    decreases f
  {
    if f == [] then {} else IdSet(f[..|f| - 1]) + NodeIdSet(f[|f| - 1])
  }

  predicate UniqueEvents(es: seq<Event>) {
    es == [] || (UniqueEvents(es[..|es| - 1]) && es[|es| - 1].id !in EventIdSet(es[..|es| - 1]))
  }

  predicate UniqueSection(s: Section)
    decreases s
  {
    && s.id !in EventIdSet(s.events)
    && s.id !in IdSet(s.sections)
    && EventIdSet(s.events) !! IdSet(s.sections)
    && UniqueEvents(s.events)
    && UniqueForest(s.sections)
  }

  /** No two nodes of the forest share an id. */
  predicate UniqueForest(f: seq<Section>)
    decreases f
  {
    f == [] || (UniqueForest(f[..|f| - 1]) && UniqueSection(f[|f| - 1]) && IdSet(f[..|f| - 1]) !! NodeIdSet(f[|f| - 1]))
  }

  /** `s` is a section of the forest, at any depth. */
  predicate Within(s: Section, f: seq<Section>)
    decreases f
  {
    f != [] && (Within(s, f[..|f| - 1]) || f[|f| - 1] == s || Within(s, f[|f| - 1].sections))
  }

  lemma {:induction false} WithinUnique(s: Section, f: seq<Section>)
    requires UniqueForest(f) && Within(s, f)
    ensures UniqueSection(s) && NodeIdSet(s) <= IdSet(f)
    decreases f
  {
    var front := f[..|f| - 1];
    var last := f[|f| - 1];
    if Within(s, front) {
      WithinUnique(s, front);
    } else if last != s {
      WithinUnique(s, last.sections);
    }
  }

  lemma {:induction false} EventInIds(es: seq<Event>, e: Event)
    requires e in es
    ensures e.id in EventIdSet(es)
  {
    if es[|es| - 1] != e {
      assert es == es[..|es| - 1] + [es[|es| - 1]];
      EventInIds(es[..|es| - 1], e);
    }
  }

  lemma EventStepFrame(e: Event, s: Section, ds: Dataset, k: nat)
    requires k != e.id && k != s.id
    ensures Get(EventStep(e, s, ds), k) == Get(ds, k)
  {
  }

  lemma {:induction false} EventsStepFrame(es: seq<Event>, s: Section, ds: Dataset, k: nat)
    requires k != s.id && k !in EventIdSet(es)
    ensures Get(EventsStep(es, s, ds), k) == Get(ds, k)
  {
    if es != [] {
      EventsStepFrame(es[..|es| - 1], s, ds, k);
      EventStepFrame(es[|es| - 1], s, EventsStep(es[..|es| - 1], s, ds), k);
    }
  }

  lemma {:induction false} MergeNestedFrame(keys: seq<nat>, d: Dataset, ds: Dataset, k: nat)
    requires k !in keys
    ensures Get(MergeNested(keys, d, ds), k) == Get(ds, k)
  {
    if keys != [] {
      assert keys == keys[..|keys| - 1] + [keys[|keys| - 1]];
      MergeNestedFrame(keys[..|keys| - 1], d, ds, k);
    }
  }

  lemma {:induction false} SectionStepFrame(s: Section, ds: Dataset, k: nat)
    requires k !in NodeIdSet(s)
    ensures Get(SectionStep(s, ds), k) == Get(ds, k)
    decreases s
  {
    var d1 := if Named(s) && !HasKey(ds, s.id) then Put(ds, s.id, SectionEntry(s)) else ds;
    EventsStepFrame(s.events, s, d1, k);
    if s.sections != [] {
      var d := FlattenFrom(s.sections, []);
      FlattenFromFrame(s.sections, [], k);
      KeysMembers(d);
      MergeNestedFrame(Keys(d), d, EventsStep(s.events, s, d1), k);
    }
  }

  /** Flattening a forest touches no key that is not the id of one of its nodes. */
  lemma {:induction false} FlattenFromFrame(f: seq<Section>, ds: Dataset, k: nat)
    requires k !in IdSet(f)
    ensures Get(FlattenFrom(f, ds), k) == Get(ds, k)
    decreases f
  {
    if f != [] {
      FlattenFromFrame(f[..|f| - 1], ds, k);
      SectionStepFrame(f[|f| - 1], FlattenFrom(f[..|f| - 1], ds), k);
    }
  }

  lemma {:induction false} MergeNestedTakes(keys: seq<nat>, d: Dataset, ds: Dataset, x: nat)
    requires forall i, j | 0 <= i < j < |keys| :: keys[i] != keys[j]
    requires x in keys && Get(ds, x).None? && Get(d, x).Some?
    ensures Get(MergeNested(keys, d, ds), x) == Get(d, x)
  {
    var front := keys[..|keys| - 1];
    if keys[|keys| - 1] == x {
      assert forall i | 0 <= i < |front| :: front[i] != x;
      MergeNestedFrame(front, d, ds, x);
    } else {
      assert keys == front + [keys[|keys| - 1]];
      MergeNestedTakes(front, d, ds, x);
    }
  }

  /** All the periods of the events of `es`, in order. */
  function DirectPeriods(es: seq<Event>): seq<Period> {
    if es == [] then [] else DirectPeriods(es[..|es| - 1]) + es[|es| - 1].periods
  }

  /** `en` is `base` with the periods `ps` merged in. */
  predicate Accumulates(en: Entry, base: Entry, ps: seq<Period>) {
    && en.(periods := base.periods, hasPeriods := base.hasPeriods, firstPeriod := base.firstPeriod, lastPeriod := base.lastPeriod) == base
    && multiset(en.periods) == multiset(base.periods) + multiset(ps)
    && Coherent(en)
    && (ps == [] ==> en == base)
    && (ps != [] ==> en.hasPeriods)
  }

  lemma AccumulatesMerge(en: Entry, base: Entry, ps: seq<Period>, q: seq<Period>)
    requires Accumulates(en, base, ps) && q != []
    ensures Accumulates(Merge(en, q), base, ps + q)
  {
    MergeCoherent(en, q);
  }

  lemma AppendAssoc<T>(a: seq<T>, b: seq<T>, c: seq<T>)
    ensures a + (b + c) == (a + b) + c
  {
  }

  lemma EventStepSectionEntry(e: Event, s: Section, ds: Dataset, base: Entry, ps: seq<Period>)
    requires Named(s) && s.id != e.id
    requires Get(ds, s.id).Some? && Accumulates(Get(ds, s.id).value, base, ps)
    ensures Get(EventStep(e, s, ds), s.id).Some?
    ensures Accumulates(Get(EventStep(e, s, ds), s.id).value, base, ps + e.periods)
  {
    if e.periods == [] {
      assert ps + [] == ps;
    } else {
      var d1 := if HasKey(ds, e.id) then ds else Put(ds, e.id, EventEntry(s, e));
      var d2 := UpdateWith(d1, e.id, e.periods);
      assert Get(d2, s.id) == Get(ds, s.id);
      AccumulatesMerge(Get(ds, s.id).value, base, ps, e.periods);
    }
  }

  lemma {:induction false} EventsStepSectionEntry(es: seq<Event>, s: Section, ds: Dataset, base: Entry, ps: seq<Period>)
    requires Named(s) && s.id !in EventIdSet(es)
    requires Get(ds, s.id).Some? && Accumulates(Get(ds, s.id).value, base, ps)
    ensures Get(EventsStep(es, s, ds), s.id).Some?
    ensures Accumulates(Get(EventsStep(es, s, ds), s.id).value, base, ps + DirectPeriods(es))
  {
    if es == [] {
      assert ps + [] == ps;
    } else {
      var front := es[..|es| - 1];
      var e := es[|es| - 1];
      var prev := EventsStep(front, s, ds);
      var next := EventStep(e, s, prev);
      assert EventsStep(es, s, ds) == next;
      EventsStepSectionEntry(front, s, ds, base, ps);
      var ps1 := ps + DirectPeriods(front);
      EventStepSectionEntry(e, s, prev, base, ps1);
      assert DirectPeriods(es) == DirectPeriods(front) + e.periods;
      AppendAssoc(ps, DirectPeriods(front), e.periods);
    }
  }

  lemma {:induction false} FlattenFromSectionEntry(f: seq<Section>, ds: Dataset, s: Section)
    requires UniqueForest(f) && Within(s, f) && Named(s) && Get(ds, s.id).None?
    ensures Get(FlattenFrom(f, ds), s.id).Some?
    ensures Accumulates(Get(FlattenFrom(f, ds), s.id).value, SectionEntry(s), DirectPeriods(s.events))
    decreases f
  {
    var front := f[..|f| - 1];
    var last := f[|f| - 1];
    var mid := FlattenFrom(front, ds);
    WithinUnique(s, f);
    if Within(s, front) {
      FlattenFromSectionEntry(front, ds, s);
      WithinUnique(s, front);
      SectionStepFrame(last, mid, s.id);
    } else if last == s {
      FlattenFromFrame(front, ds, s.id);
      var d1 := Put(mid, s.id, SectionEntry(s));
      EventsStepSectionEntry(s.events, s, d1, SectionEntry(s), []);
      assert [] + DirectPeriods(s.events) == DirectPeriods(s.events);
      var d2 := EventsStep(s.events, s, d1);
      if s.sections != [] {
        var d := FlattenFrom(s.sections, []);
        FlattenFromFrame(s.sections, [], s.id);
        KeysMembers(d);
        MergeNestedFrame(Keys(d), d, d2, s.id);
      }
    } else {
      WithinUnique(s, last.sections);
      FlattenFromFrame(front, ds, s.id);
      var d1 := if Named(last) && !HasKey(mid, last.id) then Put(mid, last.id, SectionEntry(last)) else mid;
      EventsStepFrame(last.events, last, d1, s.id);
      var d2 := EventsStep(last.events, last, d1);
      var d := FlattenFrom(last.sections, []);
      FlattenFromSectionEntry(last.sections, [], s);
      FlattenFromGood(last.sections, []);
      KeysDistinct(d);
      KeysMembers(d);
      MergeNestedTakes(Keys(d), d, d2, s.id);
    }
  }

  /**
   * With node ids unique across the tree, the entry of a named section at
   * any depth holds exactly the periods of its own events, sorted, and none
   * of its nested sections' periods; it has periods iff one of its events does.
   */
  lemma FlattenSectionEntry(f: seq<Section>, s: Section)
    requires UniqueForest(f) && Within(s, f) && Named(s)
    ensures Get(Flatten(f), s.id).Some?
    ensures var en := Get(Flatten(f), s.id).value;
      && en.periods == SortPeriods(DirectPeriods(s.events))
      && en.id == s.id && en.isSection && en.section == s.name && en.category == "section"
      && (en.hasPeriods <==> DirectPeriods(s.events) != [])
  {
    FlattenFromSectionEntry(f, [], s);
    var en := Get(Flatten(f), s.id).value;
    SortedUnique(en.periods, SortPeriods(DirectPeriods(s.events)));
  }

  lemma {:induction false} EventsStepEventEntry(es: seq<Event>, s: Section, ds: Dataset, e: Event)
    requires UniqueEvents(es) && e in es && e.periods != [] && s.id !in EventIdSet(es) && Get(ds, e.id).None?
    ensures Get(EventsStep(es, s, ds), e.id) == Some(Merge(EventEntry(s, e), e.periods))
  {
    var front := es[..|es| - 1];
    var last := es[|es| - 1];
    assert es == front + [last];
    if last == e {
      EventsStepFrame(front, s, ds, e.id);
    } else {
      EventsStepEventEntry(front, s, ds, e);
      EventInIds(front, e);
      EventStepFrame(last, s, EventsStep(front, s, ds), e.id);
    }
  }

  lemma {:induction false} FlattenFromEventEntry(f: seq<Section>, ds: Dataset, s: Section, e: Event)
    requires UniqueForest(f) && Within(s, f) && e in s.events && e.periods != [] && Get(ds, e.id).None?
    ensures Get(FlattenFrom(f, ds), e.id) == Some(Merge(EventEntry(s, e), e.periods))
    decreases f
  {
    var front := f[..|f| - 1];
    var last := f[|f| - 1];
    var mid := FlattenFrom(front, ds);
    WithinUnique(s, f);
    EventInIds(s.events, e);
    if Within(s, front) {
      FlattenFromEventEntry(front, ds, s, e);
      WithinUnique(s, front);
      SectionStepFrame(last, mid, e.id);
    } else if last == s {
      FlattenFromFrame(front, ds, e.id);
      var d1 := if Named(s) && !HasKey(mid, s.id) then Put(mid, s.id, SectionEntry(s)) else mid;
      EventsStepEventEntry(s.events, s, d1, e);
      var d2 := EventsStep(s.events, s, d1);
      if s.sections != [] {
        var d := FlattenFrom(s.sections, []);
        FlattenFromFrame(s.sections, [], e.id);
        KeysMembers(d);
        MergeNestedFrame(Keys(d), d, d2, e.id);
      }
    } else {
      WithinUnique(s, last.sections);
      FlattenFromFrame(front, ds, e.id);
      var d1 := if Named(last) && !HasKey(mid, last.id) then Put(mid, last.id, SectionEntry(last)) else mid;
      EventsStepFrame(last.events, last, d1, e.id);
      var d2 := EventsStep(last.events, last, d1);
      var d := FlattenFrom(last.sections, []);
      FlattenFromEventEntry(last.sections, [], s, e);
      FlattenFromGood(last.sections, []);
      KeysDistinct(d);
      KeysMembers(d);
      MergeNestedTakes(Keys(d), d, d2, e.id);
    }
  }

  /**
   * With node ids unique across the tree, an event with periods gets the
   * entry built from its section's name, its own name and category
   * (`'default'` when empty) and exactly its own periods, sorted.
   */
  lemma FlattenEventEntry(f: seq<Section>, s: Section, e: Event)
    requires UniqueForest(f) && Within(s, f) && e in s.events && e.periods != []
    ensures Get(Flatten(f), e.id) == Some(Merge(EventEntry(s, e), e.periods))
    ensures Get(Flatten(f), e.id).value.periods == SortPeriods(e.periods)
  {
    FlattenFromEventEntry(f, [], s, e);
    var base := EventEntry(s, e);
    assert Merge(base, e.periods).periods == SortPeriods(base.periods + e.periods);
    assert base.periods + e.periods == e.periods;
  }

  // ---------------------------------------------------------------------
  // Ordering and numbering
  // ---------------------------------------------------------------------

  /** `firstPeriod.start`, read as 0 where the period is missing. */
  function FirstStart(en: Entry): int {
    if en.firstPeriod.Some? then en.firstPeriod.value.start else 0
  }

  /** `lastPeriod.end`, read as 0 where the period is missing. */
  function LastEnd(en: Entry): int {
    if en.lastPeriod.Some? then en.lastPeriod.value.end else 0
  }

  /**
   * The comparator `aggregateSections` passes to `sort`: entries with
   * periods first, then by first start; on a tie a section comes first,
   * and two events go by last end.
   */
  function Compare(a: Entry, b: Entry): (c: int)
    ensures a.hasPeriods && !b.hasPeriods ==> c < 0
    ensures !a.hasPeriods && b.hasPeriods ==> c > 0
    ensures a.hasPeriods && b.hasPeriods && FirstStart(a) != FirstStart(b) ==> (c < 0 <==> FirstStart(a) < FirstStart(b)) && c != 0
    ensures (a.hasPeriods <==> b.hasPeriods) && (a.hasPeriods ==> FirstStart(a) == FirstStart(b)) ==>
      (a.isSection ==> c == -1) && (!a.isSection && b.isSection ==> c == 1)
      && (!a.isSection && !b.isSection ==> (c < 0 <==> LastEnd(a) < LastEnd(b)) && (c == 0 <==> LastEnd(a) == LastEnd(b)))
  {
    var diff :=
      if !a.hasPeriods then (if b.hasPeriods then 1 else 0)
      else if !b.hasPeriods then -1
      else FirstStart(a) - FirstStart(b);
    if diff == 0 then
      if a.isSection then -1
      else if b.isSection then 1
      else LastEnd(a) - LastEnd(b)
    else diff
  }

  /**
   * The order the comparator intends: entries with periods first, then by
   * first start, then sections before events, then (between events) by
   * last end. Two sections it does not separate are equivalent.
   */
  predicate Before(a: Entry, b: Entry) {
    if a.hasPeriods != b.hasPeriods then a.hasPeriods
    else if a.hasPeriods && FirstStart(a) != FirstStart(b) then FirstStart(a) < FirstStart(b)
    else if a.isSection != b.isSection then a.isSection
    else !a.isSection && LastEnd(a) < LastEnd(b)
  }

  /** `Before` is a strict weak order. */
  lemma BeforeIsStrictWeakOrder(a: Entry, b: Entry, c: Entry)
    ensures !Before(a, a)
    ensures Before(a, b) ==> !Before(b, a)
    ensures Before(a, b) && Before(b, c) ==> Before(a, c)
    ensures !Before(a, b) && !Before(b, c) ==> !Before(a, c)
  {
  }

  /** Two sections the first comparison does not separate. */
  predicate TiedSections(a: Entry, b: Entry) {
    a.isSection && b.isSection && a.hasPeriods == b.hasPeriods && (a.hasPeriods ==> FirstStart(a) == FirstStart(b))
  }

  /** For tied sections the comparator answers -1 both ways: it is not a consistent ordering there. */
  lemma TiedSectionsInconsistent(a: Entry, b: Entry)
    requires TiedSections(a, b)
    ensures Compare(a, b) == -1 && Compare(b, a) == -1
  {
  }

  /** On every other pair the comparator is consistent and agrees with `Before` in both directions. */
  lemma CompareAgrees(a: Entry, b: Entry)
    requires !TiedSections(a, b)
    ensures Compare(a, b) < 0 <==> Before(a, b)
    ensures Compare(a, b) > 0 <==> Before(b, a)
    ensures Compare(a, b) < 0 <==> Compare(b, a) > 0
  {
  }

  predicate SortedEntries(xs: seq<Entry>) {
    forall i, j | 0 <= i < j < |xs| :: !Before(xs[j], xs[i])
  }

  /** Insertion after every entry that `x` does not come before, so equivalent entries keep their order. */
  function InsertEntry(x: Entry, xs: seq<Entry>): (r: seq<Entry>)
    requires SortedEntries(xs)
    ensures SortedEntries(r)
    ensures multiset(r) == multiset(xs) + multiset{x}
  {
    if xs == [] || !Before(x, xs[|xs| - 1]) then
      NotBeforeAny(x, xs);
      SortedSnoc(xs, x);
      xs + [x]
    else
      var front := xs[..|xs| - 1];
      var last := xs[|xs| - 1];
      assert xs == front + [last];
      SortedFront(xs, front, last);
      var r := InsertEntry(x, front);
      InsertedBeforeLast(x, last, front, r);
      SortedSnoc(r, last);
      r + [last]
  }

  /** An entry that does not come before the last of a sorted sequence comes before none of it. */
  lemma NotBeforeAny(x: Entry, xs: seq<Entry>)
    requires SortedEntries(xs) && (xs == [] || !Before(x, xs[|xs| - 1]))
    ensures forall y | y in xs :: !Before(x, y)
  {
    forall y | y in xs
      ensures !Before(x, y)
    {
      BeforeIsStrictWeakOrder(x, xs[|xs| - 1], y);
    }
  }

  /** An entry no element comes after can be appended to a sorted sequence. */
  lemma SortedSnoc(r: seq<Entry>, last: Entry)
    requires SortedEntries(r) && forall y | y in r :: !Before(last, y)
    ensures SortedEntries(r + [last])
  {
    var t := r + [last];
    forall i, j | 0 <= i < j < |t|
      ensures !Before(t[j], t[i])
    {
      assert t[i] == r[i];
      if j == |r| {
        assert r[i] in r;
      } else {
        assert t[j] == r[j];
      }
    }
  }

  /** The front of a sorted sequence is sorted, and its last entry comes before none of the front. */
  lemma SortedFront(xs: seq<Entry>, front: seq<Entry>, last: Entry)
    requires SortedEntries(xs) && xs == front + [last]
    ensures SortedEntries(front)
    ensures forall y | y in front :: !Before(last, y)
  {
    assert forall i | 0 <= i < |front| :: front[i] == xs[i];
    assert last == xs[|xs| - 1];
    forall y | y in front
      ensures !Before(last, y)
    {
      var i :| 0 <= i < |front| && front[i] == y;
      assert xs[i] == y;
    }
  }

  /** After inserting `x`, which comes before `last`, into the front, `last` still comes before none of it. */
  lemma InsertedBeforeLast(x: Entry, last: Entry, front: seq<Entry>, r: seq<Entry>)
    requires Before(x, last) && forall y | y in front :: !Before(last, y)
    requires multiset(r) == multiset(front) + multiset{x}
    ensures forall y | y in r :: !Before(last, y)
  {
    forall y | y in r
      ensures !Before(last, y)
    {
      assert y in multiset(r);
      if y == x {
        BeforeIsStrictWeakOrder(x, last, x);
      } else {
        assert y in multiset(front);
      }
    }
  }

  function SortEntries(xs: seq<Entry>): (r: seq<Entry>)
    ensures SortedEntries(r)
    ensures multiset(r) == multiset(xs)
  {
    if xs == [] then []
    else
      assert xs == xs[..|xs| - 1] + [xs[|xs| - 1]];
      InsertEntry(xs[|xs| - 1], SortEntries(xs[..|xs| - 1]))
  }

  predicate DistinctIds(xs: seq<Entry>) {
    forall i, j | 0 <= i < j < |xs| :: xs[i].id != xs[j].id
  }

  lemma {:induction false} InsertEntryDistinct(x: Entry, xs: seq<Entry>)
    requires SortedEntries(xs) && DistinctIds(xs)
    requires forall y | y in xs :: y.id != x.id
    ensures DistinctIds(InsertEntry(x, xs))
  {
    if xs == [] || !Before(x, xs[|xs| - 1]) {
      DistinctSnoc(xs, x);
    } else {
      var front := xs[..|xs| - 1];
      var last := xs[|xs| - 1];
      assert xs == front + [last];
      SortedFront(xs, front, last);
      DistinctFront(xs, front, last);
      InsertEntryDistinct(x, front);
      var r := InsertEntry(x, front);
      forall y | y in r
        ensures y.id != last.id
      {
        assert y in multiset(r);
        if y != x {
          assert y in multiset(front);
        }
      }
      DistinctSnoc(r, last);
    }
  }

  /** The front of a sequence with distinct ids has distinct ids, none of them the last one's. */
  lemma DistinctFront(xs: seq<Entry>, front: seq<Entry>, last: Entry)
    requires DistinctIds(xs) && xs == front + [last]
    ensures DistinctIds(front)
    ensures forall y | y in front :: y.id != last.id
  {
    assert forall i | 0 <= i < |front| :: front[i] == xs[i];
    assert last == xs[|xs| - 1];
    forall y | y in front
      ensures y.id != last.id
    {
      var i :| 0 <= i < |front| && front[i] == y;
      assert xs[i] == y;
    }
  }

  /** An entry whose id none of the others has can be appended. */
  lemma DistinctSnoc(r: seq<Entry>, last: Entry)
    requires DistinctIds(r) && forall y | y in r :: y.id != last.id
    ensures DistinctIds(r + [last])
  {
    var t := r + [last];
    forall i, j | 0 <= i < j < |t|
      ensures t[i].id != t[j].id
    {
      assert t[i] == r[i];
      if j == |r| {
        assert r[i] in r;
      } else {
        assert t[j] == r[j];
      }
    }
  }

  lemma {:induction false} SortEntriesDistinct(xs: seq<Entry>)
    requires DistinctIds(xs)
    ensures DistinctIds(SortEntries(xs))
  {
    if xs != [] {
      var front := xs[..|xs| - 1];
      var last := xs[|xs| - 1];
      SortEntriesDistinct(front);
      var sf := SortEntries(front);
      forall y | y in sf
        ensures y.id != last.id
      {
        assert y in multiset(front);
        var i :| 0 <= i < |front| && front[i] == y;
        assert xs[i] == y;
      }
      InsertEntryDistinct(last, sf);
    }
  }

  /** Each entry numbered with its position: `idx` set, nothing else changed. */
  function Number(xs: seq<Entry>): (r: seq<Entry>)
    ensures |r| == |xs|
    ensures forall i | 0 <= i < |r| :: r[i] == xs[i].(idx := Some(i))
  {
    seq(|xs|, i requires 0 <= i < |xs| => xs[i].(idx := Some(i)))
  }

  /** The dataset's entries in sorted order, each numbered with its position. */
  function Plot(data: Dataset): (r: seq<Entry>)
    ensures |r| == |data|
  {
    var sorted := SortEntries(Values(data));
    assert |multiset(sorted)| == |multiset(Values(data))|;
    Number(sorted)
  }

  /** `aggregateSections(sections)`. */
  function Aggregate(f: seq<Section>): seq<Entry> {
    Plot(Flatten(f))
  }

  /** `aggregateSections`: flatten, sort, then write each entry's `idx` while mapping to the array. */
  method AggregateSections(sections: seq<Section>) returns (out: seq<Entry>)
    ensures out == Aggregate(sections)
  {
    var data := FlattenSections(sections);
    var sorted := SortEntries(Values(data));
    out := [];
    for i := 0 to |sorted|
      invariant |out| == i
      invariant forall j | 0 <= j < i :: out[j] == sorted[j].(idx := Some(j))
    {
      out := out + [sorted[i].(idx := Some(i))];
    }
  }

  /** The values of a dataset in good order: their ids are its keys, none twice, and none numbered yet. */
  lemma ValuesOfGood(data: Dataset)
    requires Good(data)
    ensures var vals := Values(data);
      && DistinctIds(vals)
      && (forall i | 0 <= i < |vals| :: Get(data, vals[i].id) == Some(vals[i]) && vals[i].idx.None?)
      && (forall k | HasKey(data, k) :: exists i :: 0 <= i < |vals| && vals[i].id == k)
  {
    var vals := Values(data);
    KeysDistinct(data);
    KeysMembers(data);
    forall i | 0 <= i < |data|
      ensures Get(data, data[i].0) == Some(vals[i]) && vals[i].id == data[i].0 && vals[i].idx.None?
    {
      GetAt(data, i);
    }
    forall i, j | 0 <= i < j < |vals|
      ensures vals[i].id != vals[j].id
    {
      assert Keys(data)[i] == data[i].0 && Keys(data)[j] == data[j].0;
    }
    forall k | HasKey(data, k)
      ensures exists i :: 0 <= i < |vals| && vals[i].id == k
    {
      assert k in Keys(data);
      var j :| 0 <= j < |data| && Keys(data)[j] == k;
      assert vals[j].id == k;
    }
  }

  lemma SameElements(a: seq<Entry>, b: seq<Entry>)
    requires multiset(a) == multiset(b)
    ensures forall y :: y in a <==> y in b
  {
    forall y
      ensures y in a <==> y in b
    {
      assert y in a <==> y in multiset(a);
      assert y in b <==> y in multiset(b);
    }
  }

  /** Numbering keeps the order: `Before` does not look at `idx`. */
  lemma NumberOrdered(xs: seq<Entry>)
    requires SortedEntries(xs)
    ensures SortedEntries(Number(xs))
  {
    var out := Number(xs);
    forall i, j | 0 <= i < j < |out|
      ensures !Before(out[j], out[i])
    {
      assert !Before(xs[j], xs[i]);
    }
  }

  /** Numbering keeps the ids, so distinct ones stay distinct. */
  lemma NumberDistinct(xs: seq<Entry>)
    requires DistinctIds(xs)
    ensures DistinctIds(Number(xs))
  {
    var out := Number(xs);
    forall i, j | 0 <= i < j < |out|
      ensures out[i].id != out[j].id
    {
      assert out[i].id == xs[i].id && out[j].id == xs[j].id;
    }
  }

  /** The entries of the sorted values are the dataset's own. */
  lemma SortedValues(data: Dataset)
    requires Good(data)
    ensures var sorted := SortEntries(Values(data));
      && DistinctIds(sorted)
      && (forall i | 0 <= i < |sorted| :: Get(data, sorted[i].id) == Some(sorted[i]) && sorted[i].idx.None?)
      && (forall k | HasKey(data, k) :: exists i :: 0 <= i < |sorted| && sorted[i].id == k)
  {
    var vals := Values(data);
    var sorted := SortEntries(vals);
    ValuesOfGood(data);
    SortEntriesDistinct(vals);
    SameElements(sorted, vals);
    forall i | 0 <= i < |sorted|
      ensures Get(data, sorted[i].id) == Some(sorted[i]) && sorted[i].idx.None?
    {
      assert sorted[i] in vals;
    }
    forall k | HasKey(data, k)
      ensures exists i :: 0 <= i < |sorted| && sorted[i].id == k
    {
      var j :| 0 <= j < |vals| && vals[j].id == k;
      assert vals[j] in sorted;
    }
  }

  lemma PlotEntries(data: Dataset)
    requires Good(data)
    ensures var out := Plot(data);
      && (forall i | 0 <= i < |out| :: Get(data, out[i].id) == Some(out[i].(idx := None)))
      && (forall k | HasKey(data, k) :: exists i :: 0 <= i < |out| && out[i].id == k)
      && DistinctIds(out)
  {
    var sorted := SortEntries(Values(data));
    var out := Number(sorted);
    assert out == Plot(data);
    SortedValues(data);
    NumberDistinct(sorted);
    forall i | 0 <= i < |out|
      ensures Get(data, out[i].id) == Some(out[i].(idx := None))
    {
      assert out[i].(idx := None) == sorted[i];
    }
    forall k | HasKey(data, k)
      ensures exists i :: 0 <= i < |out| && out[i].id == k
    {
      var i :| 0 <= i < |sorted| && sorted[i].id == k;
      assert out[i].id == k;
    }
  }

  /**
   * The aggregated array has one element per entry of the dataset and no
   * id twice; each element is the dataset's entry with `idx` set.
   */
  lemma AggregateEntries(f: seq<Section>)
    ensures var out := Aggregate(f);
      && (forall i | 0 <= i < |out| :: Get(Flatten(f), out[i].id) == Some(out[i].(idx := None)))
      && (forall k | HasKey(Flatten(f), k) :: exists i :: 0 <= i < |out| && out[i].id == k)
      && DistinctIds(out)
  {
    FlattenGood(f);
    PlotEntries(Flatten(f));
  }

  /**
   * The aggregated array is ordered: entries with periods before entries
   * without; among entries with periods ascending first start; otherwise
   * tied, a section before an event, and between events ascending last end.
   */
  lemma AggregateOrdered(f: seq<Section>)
    ensures var out := Aggregate(f);
      forall i, j | 0 <= i < j < |out| ::
        && (out[j].hasPeriods ==> out[i].hasPeriods)
        && (out[i].hasPeriods && out[j].hasPeriods ==> FirstStart(out[i]) <= FirstStart(out[j]))
        && ((out[i].hasPeriods == out[j].hasPeriods && (out[i].hasPeriods ==> FirstStart(out[i]) == FirstStart(out[j]))) ==>
              (out[j].isSection ==> out[i].isSection) &&
              (!out[i].isSection && !out[j].isSection ==> LastEnd(out[i]) <= LastEnd(out[j])))
  {
    var sorted := SortEntries(Values(Flatten(f)));
    NumberOrdered(sorted);
  }


}

/**
 * The stopwatch data collector: one depth-first walk over the shared timing
 * tree that extracts what belongs to one request.
 *
 * - A section associated with this request is moved into the result as it
 *   is, and its removal from the shared tree is scheduled.
 * - A section associated with another request is skipped with its whole
 *   subtree.
 * - From a shared (unassociated) section, every period that started inside
 *   the request's window is copied into a result section and result event
 *   created on the first such period; a period outside the window that is
 *   older than the maximum request time schedules the section's removal.
 *
 * The walk never changes the tree it walks: removals are collected in a
 * pending list and applied afterwards (`Stopwatch.FlushPending`).
 */
module DataCollector {
  import opened Wrappers
  import opened TimingTree
  import Tally

  /** Sections older than this many microseconds are candidates for removal at the least. */
  const MinRequestTime := 1500000

  /** The fixed inputs of one walk; `now` is the microsecond clock, read once for the walk. */
  datatype Window = Window(req: RequestRef, startedAt: int, finishedAt: int, maxRequestTime: int, now: int)

  /** A period is collected when it started within the window, both bounds included; its end is ignored. */
  predicate InWindow(p: Period, w: Window) {
    w.startedAt <= p.start <= w.finishedAt
  }

  /** An out-of-window period that schedules the removal of its section. */
  predicate Stale(p: Period, w: Window) {
    !InWindow(p, w) && w.now - p.start > w.maxRequestTime
  }

  /**
   * The state of the scan over one shared section: the identity of its
   * result section once created, the result events completed so far, the
   * result event of the source event being scanned, the removal schedule,
   * and the next free node identity.
   */
  datatype Scan = Scan(sectionId: Option<nat>, events: seq<Event>, useEvent: Option<Event>, pending: seq<nat>, next: nat)

  /** The accumulated result of the walk: result sections, removal schedule, next free identity. */
  datatype Walk = Walk(preserved: seq<Section>, pending: seq<nat>, next: nat)

  function PeriodStep(p: Period, e: Event, s: Section, w: Window, st: Scan): Scan {
    if InWindow(p, w) then
      var sid := if st.sectionId.None? then st.next else st.sectionId.value;
      var n1 := if st.sectionId.None? then st.next + 1 else st.next;
      var ev := if st.useEvent.None? then Event(n1, e.name, e.category, []) else st.useEvent.value;
      var n2 := if st.useEvent.None? then n1 + 1 else n1;
      Scan(Some(sid), st.events, Some(ev.(periods := ev.periods + [p])), st.pending, n2)
    else if w.now - p.start > w.maxRequestTime then
      st.(pending := st.pending + [s.id])
    else
      st
  }

  function ScanPeriods(ps: seq<Period>, e: Event, s: Section, w: Window, st: Scan): Scan {
    if ps == [] then st
    else PeriodStep(ps[|ps| - 1], e, s, w, ScanPeriods(ps[..|ps| - 1], e, s, w, st))
  }

  /** A result event, once created, is part of its result section. */
  function CloseEvent(st: Scan): Scan {
    if st.useEvent.Some? then st.(events := st.events + [st.useEvent.value], useEvent := None) else st
  }

  function ScanEvent(e: Event, s: Section, w: Window, st: Scan): Scan {
    CloseEvent(ScanPeriods(e.periods, e, s, w, st.(useEvent := None)))
  }

  function ScanEvents(es: seq<Event>, s: Section, w: Window, st: Scan): Scan {
    if es == [] then st
    else ScanEvent(es[|es| - 1], s, w, ScanEvents(es[..|es| - 1], s, w, st))
  }

  /** The result section a scan created, if it created one. */
  function Created(s: Section, st: Scan): seq<Section> {
    if st.sectionId.Some? then [Section(st.sectionId.value, s.name, Untagged, st.events, [])] else []
  }

  /** One step of the walk: the visit of one section of the forest. */
  function ReduceSection(s: Section, w: Window, acc: Walk): Walk
    decreases s
  {
    if HasRequest(s.tag, Some(w.req)) then
      Walk(acc.preserved + [s], acc.pending + [s.id], acc.next)
    else if !HasRequest(s.tag, None) then
      var st := ScanEvents(s.events, s, w, Scan(None, [], None, acc.pending, acc.next));
      ReduceForest(s.sections, w, Walk(acc.preserved + Created(s, st), st.pending, st.next))
    else
      acc
  }

  /** The walk over a forest, section by section in order. */
  function ReduceForest(f: seq<Section>, w: Window, acc: Walk): Walk
    decreases f
  {
    if f == [] then acc
    else ReduceSection(f[|f| - 1], w, ReduceForest(f[..|f| - 1], w, acc))
  }

  /** `reduceStopwatchData`: the walk, with the nested loops over events and periods of each shared section. */
  method ReduceStopwatchData(recurse: seq<Section>, w: Window, acc: Walk) returns (r: Walk)
    ensures r == ReduceForest(recurse, w, acc)
    decreases recurse
  {
    r := acc;
    for i := 0 to |recurse|
      invariant r == ReduceForest(recurse[..i], w, acc)
    {
      var section := recurse[i];
      assert recurse[..i + 1][..i] == recurse[..i];
      if HasRequest(section.tag, Some(w.req)) {
        r := Walk(r.preserved + [section], r.pending + [section.id], r.next);
      } else if !HasRequest(section.tag, None) {
        var st := ScanSection(section, w, r.pending, r.next);
        var created := if st.sectionId.Some? then [Section(st.sectionId.value, section.name, Untagged, st.events, [])] else [];
        r := ReduceStopwatchData(section.sections, w, Walk(r.preserved + created, st.pending, st.next));
      }
    }
    assert recurse[..|recurse|] == recurse;
  }

  /** The loop over the events of one shared section, and within it the loop over each event's periods. */
  method ScanSection(section: Section, w: Window, pending0: seq<nat>, next0: nat) returns (st: Scan)
    ensures st == ScanEvents(section.events, section, w, Scan(None, [], None, pending0, next0))
  {
    var useSection: Option<nat> := None;
    var events: seq<Event> := [];
    var pending := pending0;
    var next := next0;
    ghost var st0 := Scan(None, [], None, pending0, next0);
    for x := 0 to |section.events|
      invariant Scan(useSection, events, None, pending, next) == ScanEvents(section.events[..x], section, w, st0)
    {
      var event := section.events[x];
      assert section.events[..x + 1][..x] == section.events[..x];
      var useEvent: Option<Event>;
      useSection, useEvent, pending, next := ScanEventPeriods(event, section, w, useSection, events, pending, next);
      if useEvent.Some? {
        events := events + [useEvent.value];
      }
    }
    assert section.events[..|section.events|] == section.events;
    st := Scan(useSection, events, None, pending, next);
  }

  /** The loop over the periods of one event: the result section and event created at the first period in the window. */
  method ScanEventPeriods(event: Event, section: Section, w: Window, useSection0: Option<nat>, events: seq<Event>, pending0: seq<nat>, next0: nat)
    returns (useSection: Option<nat>, useEvent: Option<Event>, pending: seq<nat>, next: nat)
    ensures Scan(useSection, events, useEvent, pending, next) == ScanPeriods(event.periods, event, section, w, Scan(useSection0, events, None, pending0, next0))
  {
    useSection, useEvent, pending, next := useSection0, None, pending0, next0;
    ghost var se := Scan(useSection0, events, None, pending0, next0);
    for y := 0 to |event.periods|
      invariant Scan(useSection, events, useEvent, pending, next) == ScanPeriods(event.periods[..y], event, section, w, se)
    {
      var period := event.periods[y];
      assert event.periods[..y + 1][..y] == event.periods[..y];
      ghost var cur := Scan(useSection, events, useEvent, pending, next);
      assert ScanPeriods(event.periods[..y + 1], event, section, w, se) == PeriodStep(period, event, section, w, cur);
      if w.startedAt <= period.start && period.start <= w.finishedAt {
        if useSection.None? {
          useSection := Some(next);
          next := next + 1;
        }
        if useEvent.None? {
          useEvent := Some(Event(next, event.name, event.category, []));
          next := next + 1;
        }
        useEvent := Some(useEvent.value.(periods := useEvent.value.periods + [period]));
      } else if w.now - period.start > w.maxRequestTime {
        pending := pending + [section.id];
      }
      assert Scan(useSection, events, useEvent, pending, next) == PeriodStep(period, event, section, w, cur);
    }
    assert event.periods[..|event.periods|] == event.periods;
  }

  // ---------------------------------------------------------------------
  // A reference description of the result, free of node identities
  // ---------------------------------------------------------------------

  /** What one result section is expected to be: a moved section, or a copy of a shared section's in-window periods. */
  datatype Piece = Moved(section: Section) | Copied(name: Option<string>, events: seq<EventCopy>)

  datatype EventCopy = EventCopy(name: string, category: string, periods: seq<Period>)

  /** The periods of `ps` that started within the window, in order. */
  function InWindowPeriods(ps: seq<Period>, w: Window): seq<Period> {
    if ps == [] then []
    else InWindowPeriods(ps[..|ps| - 1], w) + (if InWindow(ps[|ps| - 1], w) then [ps[|ps| - 1]] else [])
  }

  /** The events with at least one in-window period, each reduced to those periods. */
  function CopiedEvents(es: seq<Event>, w: Window): seq<EventCopy> {
    if es == [] then []
    else
      var e := es[|es| - 1];
      var ps := InWindowPeriods(e.periods, w);
      CopiedEvents(es[..|es| - 1], w) + (if ps != [] then [EventCopy(e.name, e.category, ps)] else [])
  }

  function ExpectedSection(s: Section, w: Window): seq<Piece>
    decreases s
  {
    if HasRequest(s.tag, Some(w.req)) then [Moved(s)]
    else if !HasRequest(s.tag, None) then
      var evs := CopiedEvents(s.events, w);
      (if evs == [] then [] else [Copied(s.name, evs)]) + Expected(s.sections, w)
    else []
  }

  /** The expected result sections of a forest, in depth-first order, all at top level. */
  function Expected(f: seq<Section>, w: Window): seq<Piece>
    decreases f
  {
    if f == [] then []
    else Expected(f[..|f| - 1], w) + ExpectedSection(f[|f| - 1], w)
  }

  function CopyOf(e: Event): EventCopy {
    EventCopy(e.name, e.category, e.periods)
  }

  function Copies(es: seq<Event>): (cs: seq<EventCopy>)
    ensures |cs| == |es|
  {
    if es == [] then [] else Copies(es[..|es| - 1]) + [CopyOf(es[|es| - 1])]
  }

  /** A result section realizes a piece: it is the moved section, or an unassociated leaf with exactly the copied events. */
  predicate Realizes(r: Section, p: Piece) {
    match p
    case Moved(s) => r == s
    case Copied(name, evs) => r.name == name && r.tag == Untagged && r.sections == [] && Copies(r.events) == evs
  }

  predicate RealizesAll(rs: seq<Section>, ps: seq<Piece>) {
    |rs| == |ps| && forall i :: 0 <= i < |rs| ==> Realizes(rs[i], ps[i])
  }

  function CurrentPeriods(u: Option<Event>): seq<Period> {
    if u.Some? then u.value.periods else []
  }

  /** Scanning the periods of one event copies exactly its in-window periods into one result event, created on the first. */
  lemma {:induction false} ScanPeriodsCopies(ps: seq<Period>, e: Event, s: Section, w: Window, st0: Scan)
    requires st0.useEvent.Some? ==> st0.useEvent.value.name == e.name && st0.useEvent.value.category == e.category
    ensures var st := ScanPeriods(ps, e, s, w, st0);
      && st.events == st0.events
      && (st.useEvent.Some? <==> st0.useEvent.Some? || InWindowPeriods(ps, w) != [])
      && (st.useEvent.Some? ==> st.useEvent.value.name == e.name && st.useEvent.value.category == e.category)
      && CurrentPeriods(st.useEvent) == CurrentPeriods(st0.useEvent) + InWindowPeriods(ps, w)
      && (st.sectionId.Some? <==> st0.sectionId.Some? || InWindowPeriods(ps, w) != [])
  {
    if ps != [] {
      ScanPeriodsCopies(ps[..|ps| - 1], e, s, w, st0);
    }
  }

  /** Scanning a section's events appends exactly the copied events; the result section exists iff one was copied. */
  lemma {:induction false} ScanEventsCopies(es: seq<Event>, s: Section, w: Window, st0: Scan)
    requires st0.useEvent.None?
    ensures var st := ScanEvents(es, s, w, st0);
      && st.useEvent.None?
      && Copies(st.events) == Copies(st0.events) + CopiedEvents(es, w)
      && (st.sectionId.Some? <==> st0.sectionId.Some? || CopiedEvents(es, w) != [])
  {
    if es != [] {
      var e := es[|es| - 1];
      var mid := ScanEvents(es[..|es| - 1], s, w, st0);
      ScanEventsCopies(es[..|es| - 1], s, w, st0);
      ScanPeriodsCopies(e.periods, e, s, w, mid.(useEvent := None));
      var sp := ScanPeriods(e.periods, e, s, w, mid.(useEvent := None));
      var ps := InWindowPeriods(e.periods, w);
      assert CurrentPeriods(sp.useEvent) == [] + ps;
      if sp.useEvent.Some? {
        assert Copies(sp.events + [sp.useEvent.value]) == Copies(sp.events) + [CopyOf(sp.useEvent.value)];
        assert CopyOf(sp.useEvent.value) == EventCopy(e.name, e.category, ps);
      }
    }
  }

  lemma RealizesAllAppend(rs1: seq<Section>, ps1: seq<Piece>, rs2: seq<Section>, ps2: seq<Piece>)
    requires RealizesAll(rs1, ps1) && RealizesAll(rs2, ps2)
    ensures RealizesAll(rs1 + rs2, ps1 + ps2)
  {
    forall i | 0 <= i < |rs1 + rs2|
      ensures Realizes((rs1 + rs2)[i], (ps1 + ps2)[i])
    {
      if i < |rs1| {
        assert (rs1 + rs2)[i] == rs1[i] && (ps1 + ps2)[i] == ps1[i];
      } else {
        assert (rs1 + rs2)[i] == rs2[i - |rs1|] && (ps1 + ps2)[i] == ps2[i - |rs1|];
      }
    }
  }

  /**
   * The walk appends to the result exactly the expected sections: moved
   * sections as they are, and one copy per shared section with an
   * in-window period, holding exactly those periods.
   */
  lemma {:induction false} ReduceSectionRealizes(s: Section, w: Window, acc: Walk)
    ensures var r := ReduceSection(s, w, acc);
      && |acc.preserved| <= |r.preserved|
      && r.preserved[..|acc.preserved|] == acc.preserved
      && RealizesAll(r.preserved[|acc.preserved|..], ExpectedSection(s, w))
    decreases s, 1
  {
    var r := ReduceSection(s, w, acc);
    if HasRequest(s.tag, Some(w.req)) {
      assert r.preserved[|acc.preserved|..] == [s];
    } else if !HasRequest(s.tag, None) {
      ReduceSharedRealizes(s, w, acc);
    } else {
      assert r.preserved[|acc.preserved|..] == [];
    }
  }

  /** The case of a shared section: its copy, then what the walk over its children appends. */
  lemma {:induction false} ReduceSharedRealizes(s: Section, w: Window, acc: Walk)
    requires !HasRequest(s.tag, Some(w.req)) && !HasRequest(s.tag, None)
    ensures var r := ReduceSection(s, w, acc);
      && |acc.preserved| <= |r.preserved|
      && r.preserved[..|acc.preserved|] == acc.preserved
      && RealizesAll(r.preserved[|acc.preserved|..], ExpectedSection(s, w))
    decreases s, 0
  {
    var r := ReduceSection(s, w, acc);
    {
      var st0 := Scan(None, [], None, acc.pending, acc.next);
      var st := ScanEvents(s.events, s, w, st0);
      ScanEventsCopies(s.events, s, w, st0);
      var mid := Walk(acc.preserved + Created(s, st), st.pending, st.next);
      ReduceForestRealizes(s.sections, w, mid);
      var evs := CopiedEvents(s.events, w);
      var head: seq<Piece> := if evs == [] then [] else [Copied(s.name, evs)];
      assert RealizesAll(Created(s, st), head);
      assert r.preserved[|acc.preserved|..] == Created(s, st) + r.preserved[|mid.preserved|..];
      RealizesAllAppend(Created(s, st), head, r.preserved[|mid.preserved|..], Expected(s.sections, w));
    }
  }

  lemma {:induction false} ReduceForestRealizes(f: seq<Section>, w: Window, acc: Walk)
    ensures var r := ReduceForest(f, w, acc);
      && |acc.preserved| <= |r.preserved|
      && r.preserved[..|acc.preserved|] == acc.preserved
      && RealizesAll(r.preserved[|acc.preserved|..], Expected(f, w))
    decreases f, 2
  {
    if f == [] {
      assert ReduceForest(f, w, acc).preserved[|acc.preserved|..] == [];
    } else {
      var mid := ReduceForest(f[..|f| - 1], w, acc);
      var r := ReduceSection(f[|f| - 1], w, mid);
      ReduceForestRealizes(f[..|f| - 1], w, acc);
      ReduceSectionRealizes(f[|f| - 1], w, mid);
      assert r.preserved[|acc.preserved|..] == mid.preserved[|acc.preserved|..] + r.preserved[|mid.preserved|..];
      RealizesAllAppend(mid.preserved[|acc.preserved|..], Expected(f[..|f| - 1], w),
                        r.preserved[|mid.preserved|..], ExpectedSection(f[|f| - 1], w));
    }
  }

  /** A period is copied iff it started inside the window; copies keep the source order. */
  lemma {:induction false} InWindowPeriodsMembers(ps: seq<Period>, w: Window)
    ensures forall p :: p in InWindowPeriods(ps, w) <==> p in ps && InWindow(p, w)
  {
    if ps != [] {
      InWindowPeriodsMembers(ps[..|ps| - 1], w);
      assert ps == ps[..|ps| - 1] + [ps[|ps| - 1]];
    }
  }

  /** No copied event is empty: every result event created from a shared section holds a period. */
  lemma {:induction false} CopiedEventsNonEmpty(es: seq<Event>, w: Window)
    ensures forall c | c in CopiedEvents(es, w) :: c.periods != []
  {
    if es != [] {
      CopiedEventsNonEmpty(es[..|es| - 1], w);
    }
  }

  // ---------------------------------------------------------------------
  // The removal schedule
  // ---------------------------------------------------------------------

  /** Some period of `ps` schedules a removal. */
  predicate AnyStale(ps: seq<Period>, w: Window) {
    ps != [] && (AnyStale(ps[..|ps| - 1], w) || Stale(ps[|ps| - 1], w))
  }

  predicate AnyStaleEvent(es: seq<Event>, w: Window) {
    es != [] && (AnyStaleEvent(es[..|es| - 1], w) || AnyStale(es[|es| - 1].periods, w))
  }

  /** Only a period outside the window can schedule a removal. */
  lemma {:induction false} AnyStaleIff(ps: seq<Period>, w: Window)
    ensures AnyStale(ps, w) <==> exists i :: 0 <= i < |ps| && !InWindow(ps[i], w) && w.now - ps[i].start > w.maxRequestTime
  {
    if ps != [] {
      AnyStaleIff(ps[..|ps| - 1], w);
      if AnyStale(ps[..|ps| - 1], w) {
        var i :| 0 <= i < |ps| - 1 && !InWindow(ps[..|ps| - 1][i], w) && w.now - ps[..|ps| - 1][i].start > w.maxRequestTime;
        assert ps[i] == ps[..|ps| - 1][i];
      }
      if exists i :: 0 <= i < |ps| && !InWindow(ps[i], w) && w.now - ps[i].start > w.maxRequestTime {
        var i :| 0 <= i < |ps| && !InWindow(ps[i], w) && w.now - ps[i].start > w.maxRequestTime;
        if i < |ps| - 1 {
          assert ps[..|ps| - 1][i] == ps[i];
        }
      }
    }
  }

  function RemovalsOfSection(s: Section, w: Window): set<nat>
    decreases s
  {
    if HasRequest(s.tag, Some(w.req)) then {s.id}
    else if !HasRequest(s.tag, None) then
      (if AnyStaleEvent(s.events, w) then {s.id} else {}) + ExpectedRemovals(s.sections, w)
    else {}
  }

  /** The sections whose removal the walk is expected to schedule. */
  function ExpectedRemovals(f: seq<Section>, w: Window): set<nat>
    decreases f
  {
    if f == [] then {}
    else ExpectedRemovals(f[..|f| - 1], w) + RemovalsOfSection(f[|f| - 1], w)
  }

  function Elems(xs: seq<nat>): set<nat> {
    set x | x in xs
  }

  lemma {:induction false} ScanPeriodsSchedules(ps: seq<Period>, e: Event, s: Section, w: Window, st0: Scan)
    ensures Elems(ScanPeriods(ps, e, s, w, st0).pending) == Elems(st0.pending) + (if AnyStale(ps, w) then {s.id} else {})
  {
    if ps != [] {
      ScanPeriodsSchedules(ps[..|ps| - 1], e, s, w, st0);
    }
  }

  lemma {:induction false} ScanEventsSchedules(es: seq<Event>, s: Section, w: Window, st0: Scan)
    ensures Elems(ScanEvents(es, s, w, st0).pending) == Elems(st0.pending) + (if AnyStaleEvent(es, w) then {s.id} else {})
  {
    if es != [] {
      var e := es[|es| - 1];
      var mid := ScanEvents(es[..|es| - 1], s, w, st0);
      ScanEventsSchedules(es[..|es| - 1], s, w, st0);
      ScanPeriodsSchedules(e.periods, e, s, w, mid.(useEvent := None));
    }
  }

  /** The walk schedules exactly the expected removals: moved sections, and shared sections with a stale period, at any depth. */
  lemma {:induction false} ReduceSectionSchedules(s: Section, w: Window, acc: Walk)
    ensures Elems(ReduceSection(s, w, acc).pending) == Elems(acc.pending) + RemovalsOfSection(s, w)
    decreases s
  {
    if HasRequest(s.tag, Some(w.req)) {
    } else if !HasRequest(s.tag, None) {
      var st0 := Scan(None, [], None, acc.pending, acc.next);
      var st := ScanEvents(s.events, s, w, st0);
      ScanEventsSchedules(s.events, s, w, st0);
      ReduceForestSchedules(s.sections, w, Walk(acc.preserved + Created(s, st), st.pending, st.next));
    }
  }

  lemma {:induction false} ReduceForestSchedules(f: seq<Section>, w: Window, acc: Walk)
    ensures Elems(ReduceForest(f, w, acc).pending) == Elems(acc.pending) + ExpectedRemovals(f, w)
    decreases f
  {
    if f != [] {
      ReduceForestSchedules(f[..|f| - 1], w, acc);
      ReduceSectionSchedules(f[|f| - 1], w, ReduceForest(f[..|f| - 1], w, acc));
    }
  }

  /** A section associated with another request changes nothing: not collected, not descended into, not removed. */
  lemma OtherRequestSkipped(s: Section, w: Window, acc: Walk)
    requires HasRequest(s.tag, None) && !HasRequest(s.tag, Some(w.req))
    ensures ReduceSection(s, w, acc) == acc
    ensures ExpectedSection(s, w) == [] && RemovalsOfSection(s, w) == {}
  {
  }

  // ---------------------------------------------------------------------
  // A second walk after the scheduled removals
  // ---------------------------------------------------------------------

  /** The sections a walk moves into its result. */
  function MovedOfSection(s: Section, w: Window): set<nat>
    decreases s
  {
    if HasRequest(s.tag, Some(w.req)) then {s.id}
    else if !HasRequest(s.tag, None) then MovedIds(s.sections, w)
    else {}
  }

  function MovedIds(f: seq<Section>, w: Window): set<nat>
    decreases f
  {
    if f == [] then {}
    else MovedIds(f[..|f| - 1], w) + MovedOfSection(f[|f| - 1], w)
  }

  lemma {:induction false} MovedAreRemoved(f: seq<Section>, w: Window)
    ensures MovedIds(f, w) <= ExpectedRemovals(f, w)
    decreases f
  {
    if f != [] {
      MovedAreRemoved(f[..|f| - 1], w);
      var s := f[|f| - 1];
      if !HasRequest(s.tag, Some(w.req)) && !HasRequest(s.tag, None) {
        MovedAreRemoved(s.sections, w);
      }
    }
  }

  /** Once every moved section is removed, a walk over what remains moves nothing. */
  lemma {:induction false} NothingMovedAfterRemoval(f: seq<Section>, w: Window, ids: set<nat>)
    requires MovedIds(f, w) <= ids
    ensures forall p | p in Expected(RemoveIds(f, ids), w) :: p.Copied?
    decreases f
  {
    if f != [] {
      var front := f[..|f| - 1];
      var last := f[|f| - 1];
      NothingMovedAfterRemoval(front, w, ids);
      var rf := RemoveIds(front, ids);
      if last.id in ids {
        assert RemoveIds(f, ids) == rf + [];
        assert rf + [] == rf;
      } else {
        var kept := last.(sections := RemoveIds(last.sections, ids));
        assert RemoveIds(f, ids) == rf + [kept];
        assert (rf + [kept])[..|rf + [kept]| - 1] == rf;
        if !HasRequest(last.tag, Some(w.req)) && !HasRequest(last.tag, None) {
          NothingMovedAfterRemoval(last.sections, w, ids);
        }
      }
    }
  }

  /**
   * After the removals a walk scheduled are applied, walking again over the
   * same window moves no associated section: every result is a copy of
   * shared periods.
   */
  lemma SecondWalkMovesNothing(f: seq<Section>, w: Window, acc: Walk, acc2: Walk)
    ensures var first := ReduceForest(f, w, acc);
      var rest := RemoveIds(f, Elems(first.pending));
      var second := ReduceForest(rest, w, acc2);
      && |acc2.preserved| <= |second.preserved|
      && forall s | s in second.preserved[|acc2.preserved|..] :: s.tag == Untagged
  {
    var first := ReduceForest(f, w, acc);
    var rest := RemoveIds(f, Elems(first.pending));
    ReduceForestSchedules(f, w, acc);
    MovedAreRemoved(f, w);
    NothingMovedAfterRemoval(f, w, Elems(first.pending));
    ReduceForestRealizes(rest, w, acc2);
    var second := ReduceForest(rest, w, acc2);
    var tail := second.preserved[|acc2.preserved|..];
    forall s | s in tail
      ensures s.tag == Untagged
    {
      var i :| 0 <= i < |tail| && tail[i] == s;
      assert Expected(rest, w)[i] in Expected(rest, w);
    }
  }

  // ---------------------------------------------------------------------
  // The collector
  // ---------------------------------------------------------------------

  /** The times of the profiled request, from its stored document. */
  datatype Times = Times(startedAt: int, finishedAt: int)

  class Collector {
    const stopwatch: Stopwatch

    constructor (stopwatch: Stopwatch)
      ensures this.stopwatch == stopwatch
    {
      this.stopwatch := stopwatch;
    }

    function Name(): string { "Stopwatch" }
    predicate HasDashboard() { true }
    predicate IsEnabled() { true }

    /**
     * `collectData`: without a document the result is `{}` (None); otherwise the
     * JSON of a fresh stopwatch holding the walk's result sections. The
     * maximum request time is never below `MinRequestTime`. The shared
     * tree is left as it was; its removal schedule grows by the walk's.
     * `maxObserved` is what the request service reports as its maximum
     * request time; `firstId` is the first identity the fresh stopwatch hands out.
     */
    method CollectData(req: RequestRef, document: Option<Times>, maxObserved: int, now: int, firstId: nat)
      returns (result: Option<StopwatchJson>)
      modifies stopwatch
      ensures document.None? ==> result.None? && unchanged(stopwatch)
      ensures document.Some? ==>
        var w := Window(req, document.value.startedAt, document.value.finishedAt, Tally.Max(MinRequestTime, maxObserved), now);
        var walk := ReduceForest(old(stopwatch.sections), w, Walk([], old(stopwatch.pending), firstId));
        && result == Some(StopwatchJson(None, [], walk.preserved, Js.Null))
        && stopwatch.pending == walk.pending
        && stopwatch.sections == old(stopwatch.sections)
        && stopwatch.name == old(stopwatch.name) && stopwatch.request == old(stopwatch.request)
        && stopwatch.events == old(stopwatch.events) && stopwatch.nextId == old(stopwatch.nextId)
    {
      if document.None? {
        return None;
      }
      var reduced := new Stopwatch(None, firstId);
      var w := Window(req, document.value.startedAt, document.value.finishedAt, Tally.Max(MinRequestTime, maxObserved), now);
      var walk := ReduceStopwatchData(stopwatch.sections, w, Walk(reduced.sections, stopwatch.pending, reduced.nextId));
      reduced.sections := walk.preserved;
      reduced.nextId := walk.next;
      stopwatch.pending := walk.pending;
      result := Some(reduced.ToJson());
    }
  }
}

/**
 * The shared timing tree: a stopwatch holds sections, a section holds events
 * and nested sections, an event holds the start/end periods (microseconds,
 * `end` is 0 while open) it was timed over. A section may be associated with
 * one request through that request's profiler id.
 *
 * The underlying stopwatch library is not part of this model. Its nodes are
 * objects; here they are values whose `id` stands for the object's identity.
 */
module TimingTree {
  import opened Wrappers
  import Js

  datatype Period = Period(start: int, end: int)

  datatype Event = Event(id: nat, name: string, category: string, periods: seq<Period>)

  /**
   * The `_request` slot of a section: `null`, or a copy `{_profiler_id}` of
   * the associated request's id, which may itself be `undefined`.
   */
  datatype Tag = Untagged | Tagged(profilerId: Option<string>)

  datatype Section = Section(id: nat, name: Option<string>, tag: Tag, events: seq<Event>, sections: seq<Section>)

  /** The part of a request object the tree looks at: its `_profiler_id`. */
  datatype RequestRef = RequestRef(profilerId: Option<string>)

  /** The argument `hasProfilerId` compares against: a profiler id string or the `0` that stands for a missing one. */
  datatype IdArg = IdZero | IdString(s: string)

  /** `request._profiler_id || 0`. */
  function IdArgOf(req: RequestRef): (a: IdArg)
    ensures a.IdString? <==> req.profilerId.Some? && req.profilerId.value != ""
    ensures a.IdString? ==> a.s == req.profilerId.value
  {
    match req.profilerId
    case Some(s) => if s != "" then IdString(s) else IdZero
    case None => IdZero
  }

  /** The slot `setRequest(request)` stores: a copy of the request's id only. */
  function TagFor(req: RequestRef): Tag {
    Tagged(req.profilerId)
  }

  /** `hasProfilerId(id)`; `None` is the call without an argument. */
  predicate HasProfilerId(tag: Tag, id: Option<IdArg>) {
    match id
    case None => tag.Untagged? || tag.profilerId.None?
    case Some(arg) => tag.Tagged? && tag.profilerId.Some? && arg == IdString(tag.profilerId.value)
  }

  /** `hasRequest(request)`; `None` is the call without an argument. */
  predicate HasRequest(tag: Tag, req: Option<RequestRef>) {
    match req
    case None => tag.Tagged?
    case Some(r) => HasProfilerId(tag, Some(IdArgOf(r)))
  }

  /** Without a request, `hasRequest` asks whether the section is associated at all. */
  lemma HasAnyRequestIff(tag: Tag)
    ensures HasRequest(tag, None) <==> tag != Untagged
  {
  }

  /**
   * With a request, `hasRequest` holds exactly when the stored id is that
   * request's (non-empty) id: a missing id is compared as `0`, which no
   * stored id equals.
   */
  lemma HasRequestIff(tag: Tag, req: RequestRef)
    ensures HasRequest(tag, Some(req)) <==>
      tag.Tagged? && tag.profilerId.Some? && tag.profilerId == req.profilerId && req.profilerId.value != ""
  {
  }

  /** A section associated with a request, and only such a section, is not shared. */
  lemma MatchingIsTagged(tag: Tag, req: RequestRef)
    ensures HasRequest(tag, Some(req)) ==> HasRequest(tag, None)
    ensures HasRequest(TagFor(req), Some(req)) <==> req.profilerId.Some? && req.profilerId.value != ""
  {
  }

  /** Without an argument, `hasProfilerId` holds for shared sections and for sections stored with an `undefined` id. */
  lemma HasNoProfilerIdIff(tag: Tag)
    ensures HasProfilerId(tag, None) <==> !HasRequest(tag, None) || tag == Tagged(None)
  {
  }

  /** `removeSection`, applied for a set of section identities at every depth of a forest. */
  function RemoveIds(f: seq<Section>, ids: set<nat>): (r: seq<Section>)
    ensures |r| <= |f|
    decreases f
  {
    if f == [] then []
    else
      var last := f[|f| - 1];
      RemoveIds(f[..|f| - 1], ids)
        + (if last.id in ids then [] else [last.(sections := RemoveIds(last.sections, ids))])
  }

  /** The identities of every section in a forest, at any depth. */
  function SectionIds(f: seq<Section>): set<nat>
    decreases f
  {
    if f == [] then {}
    else
      var last := f[|f| - 1];
      SectionIds(f[..|f| - 1]) + {last.id} + SectionIds(last.sections)
  }

  /** Removing sections leaves no section with a removed identity. */
  lemma {:induction false} RemoveIdsRemoves(f: seq<Section>, ids: set<nat>)
    ensures SectionIds(RemoveIds(f, ids)) <= SectionIds(f) - ids
    decreases f
  {
    if f != [] {
      var last := f[|f| - 1];
      var front := RemoveIds(f[..|f| - 1], ids);
      RemoveIdsRemoves(f[..|f| - 1], ids);
      RemoveIdsRemoves(last.sections, ids);
      if last.id !in ids {
        var kept := last.(sections := RemoveIds(last.sections, ids));
        assert (front + [kept])[..|front + [kept]| - 1] == front;
      } else {
        assert front + [] == front;
      }
    }
  }

  /** Removing the same sections again changes nothing: removal is idempotent. */
  lemma {:induction false} RemoveIdsIdempotent(f: seq<Section>, ids: set<nat>)
    ensures RemoveIds(RemoveIds(f, ids), ids) == RemoveIds(f, ids)
    decreases f
  {
    if f != [] {
      var last := f[|f| - 1];
      var front := RemoveIds(f[..|f| - 1], ids);
      RemoveIdsIdempotent(f[..|f| - 1], ids);
      if last.id !in ids {
        var kept := last.(sections := RemoveIds(last.sections, ids));
        RemoveIdsIdempotent(last.sections, ids);
        assert (front + [kept])[..|front + [kept]| - 1] == front;
      } else {
        assert front + [] == front;
      }
    }
  }

  /** Removing identities that occur nowhere changes nothing. */
  lemma {:induction false} RemoveAbsentIds(f: seq<Section>, ids: set<nat>)
    requires SectionIds(f) !! ids
    ensures RemoveIds(f, ids) == f
    decreases f
  {
    if f != [] {
      var last := f[|f| - 1];
      RemoveAbsentIds(f[..|f| - 1], ids);
      RemoveAbsentIds(last.sections, ids);
      assert f == f[..|f| - 1] + [last];
    }
  }

  /** The plain-object form `toJSON` produces: the node plus `profilerId`. */
  datatype StopwatchJson = StopwatchJson(name: Option<string>, events: seq<Event>, sections: seq<Section>, profilerId: Js.Value)

  /**
   * A stopwatch (the process-wide root, or a freshly made one that a
   * collector reduces into). `nextId` hands out the identities of the
   * sections it creates; `pending` holds the identities of sections whose
   * removal has been scheduled for the next tick.
   */
  class Stopwatch {
    var name: Option<string>
    var request: Tag
    var events: seq<Event>
    var sections: seq<Section>
    var nextId: nat
    var pending: seq<nat>

    /** A new stopwatch is not associated with any request. */
    constructor (name: Option<string>, firstId: nat)
      ensures this.name == name && request == Untagged
      ensures events == [] && sections == [] && pending == [] && nextId == firstId
    {
      this.name := name;
      request := Untagged;
      events := [];
      sections := [];
      nextId := firstId;
      pending := [];
    }

    /** `section(name = null)`: appends one new, unassociated, empty section and returns it. */
    method NewSection(name: Option<string>) returns (s: Section)
      modifies this
      ensures s == Section(old(nextId), name, Untagged, [], [])
      ensures sections == old(sections) + [s]
      ensures nextId == old(nextId) + 1
      ensures this.name == old(this.name) && request == old(request) && events == old(events) && pending == old(pending)
    {
      s := Section(nextId, name, Untagged, [], []);
      sections := sections + [s];
      nextId := nextId + 1;
    }

    /** `setRequest(request)`: stores a copy of the request's profiler id and returns the same object. */
    method SetRequest(req: RequestRef) returns (self: Stopwatch)
      modifies this
      ensures self == this
      ensures request == TagFor(req)
      ensures name == old(name) && events == old(events) && sections == old(sections)
      ensures nextId == old(nextId) && pending == old(pending)
    {
      request := TagFor(req);
      self := this;
    }

    /** `hasRequest(request)` on this stopwatch; `None` is the call without an argument. */
    predicate HasRequestQuery(req: Option<RequestRef>): (b: bool)
      reads this
      ensures req.None? ==> (b <==> request != Untagged)
      ensures req.Some? ==> (b <==> request.Tagged? && request.profilerId.Some? && request.profilerId == req.value.profilerId && req.value.profilerId.value != "")
    {
      HasRequest(request, req)
    }

    /** `hasProfilerId(id)` on this stopwatch; `None` is the call without an argument. */
    predicate HasProfilerIdQuery(id: Option<IdArg>): (b: bool)
      reads this
      ensures id.None? ==> (b <==> request == Untagged || request == Tagged(None))
      ensures id == Some(IdZero) ==> !b
      ensures id.Some? && id.value.IdString? ==> (b <==> request == Tagged(Some(id.value.s)))
    {
      HasProfilerId(request, id)
    }

    /** `request(request, name)`: one new named subsection, associated with the request, appended and returned. */
    method Request(req: RequestRef, name: Option<string>) returns (s: Section)
      modifies this
      ensures s == Section(old(nextId), name, TagFor(req), [], [])
      ensures sections == old(sections) + [s]
      ensures nextId == old(nextId) + 1
      ensures this.name == old(this.name) && request == old(request) && events == old(events) && pending == old(pending)
    {
      var created := NewSection(name);
      s := created.(tag := TagFor(req));
      sections := sections[..|sections| - 1] + [s];
    }

    /** `toJSON()`: `profilerId` is the stored id, or `null` when the stopwatch is not associated. */
    function ToJson(): (j: StopwatchJson)
      reads this
      ensures request == Untagged ==> j.profilerId == Js.Null
      ensures request == Tagged(None) ==> j.profilerId == Js.Undefined
      ensures request.Tagged? && request.profilerId.Some? ==> j.profilerId == Js.Str(request.profilerId.value)
      ensures j.sections == sections && j.events == events && j.name == name
    {
      var id := match request
        case Untagged => Js.Null
        case Tagged(None) => Js.Undefined
        case Tagged(Some(p)) => Js.Str(p);
      StopwatchJson(name, events, sections, id)
    }

    /** The next tick: every scheduled removal is carried out, then the schedule is empty. */
    method FlushPending()
      modifies this
      ensures sections == RemoveIds(old(sections), set i | i in old(pending))
      ensures pending == []
      ensures name == old(name) && request == old(request) && events == old(events) && nextId == old(nextId)
    {
      sections := RemoveIds(sections, set i | i in pending);
      pending := [];
    }
  }
}

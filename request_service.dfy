/**
 * `ProfilerRequestService`: the registry of requests being profiled and the
 * running request-time statistics, together with the two string rules it
 * applies when a request starts and stops: reading the raw response header
 * block into a dictionary, and turning a referer into the path of the
 * parent request.
 *
 * The request id (a SHA-1 digest of the clock and a random number), the
 * clock readings and the current process statistic are parameters.
 */
module ProfilerRequestService {
  import opened Wrappers
  import opened Dict
  import opened Text
  import Tally
  import Js

  /** A process statistic snapshot, as the stat service builds it (`ProcessStat`). */
  datatype ProcessStat = ProcessStat(
    activeRequests: int, maxActiveRequests: int,
    meanRequestTime: Tally.Fraction, avgRequestTime: int, maxRequestTime: int,
    cpu: int, meanCpu: Tally.Fraction, avgCpu: int, maxCpu: int, cpuUsage: Js.Value,
    memory: int, meanMemory: Tally.Fraction, avgMemory: int, maxMemory: int,
    iterationsSinceGC: nat, intervalSpeed: Js.Value)

  /** The response part of a finished request document. */
  datatype ResponseData = ResponseData(headers: seq<(string, string)>, statusCode: int)

  /** A profiler `Request` document while and after it is active. */
  datatype RequestDoc = RequestDoc(
    profilerId: string, path: string, startedAt: int, activeRequests: nat,
    stats: seq<ProcessStat>,
    response: Option<ResponseData>, finishedAt: Option<int>, requestTime: Option<int>)

  /** The conga request object, as far as the profiler reads and writes it. */
  class IncomingRequest {
    var profilerId: Option<string>
    const originalUrl: string
    const referer: Option<string>

    constructor(profilerId: Option<string>, originalUrl: string, referer: Option<string>)
      ensures this.profilerId == profilerId && this.originalUrl == originalUrl && this.referer == referer
    {
      this.profilerId := profilerId;
      this.originalUrl := originalUrl;
      this.referer := referer;
    }
  }

  /** The conga response object: its raw header block (`_header`) and status. */
  class OutgoingResponse {
    var profilerId: Option<string>
    const header: Option<string>
    const statusCode: int

    constructor(header: Option<string>, statusCode: int)
      ensures profilerId == None && this.header == header && this.statusCode == statusCode
    {
      profilerId := None;
      this.header := header;
      this.statusCode := statusCode;
    }
  }

  /** `if (request._profiler_id)`: a present, non-empty id. */
  predicate HasId(id: Option<string>) {
    id.Some? && id.value != ""
  }

  /** The property name `_profiler_id in _activeRequests` looks up: a missing id converts to "undefined". */
  function IdKey(id: Option<string>): string {
    id.GetOr("undefined")
  }

  /** A hexadecimal SHA-1 digest: 40 lower-case hexadecimal digits. */
  predicate IsDigest(s: string) {
    |s| == 40 && forall i | 0 <= i < |s| :: '0' <= s[i] <= '9' || 'a' <= s[i] <= 'f'
  }

  /** The message of the error a second start of the same request is rejected with. */
  function AlreadyStarted(id: string): string {
    "Request, \"" + id + "\", has already been started."
  }

  /** The profiler's registry of active requests and its request-time statistics. */
  class RequestService {
    /** `_time`: request times in µs, with the mode over the times themselves. */
    const time: Tally.Accumulator
    var totalRequestCount: nat
    /** `_activeRequests`: documents keyed by profiler id, in insertion order. */
    var active: seq<(string, RequestDoc)>
    var activeCount: int
    var maxActiveCount: int

    /**
     * The counters agree with the registry: the active count is the number
     * of registered documents, each registered under its own id, and the
     * highest active count is never below it; the request-time statistics
     * cover exactly the stopped requests.
     */
    ghost predicate Valid()
      reads this, time
    {
      RegistryValid() && TimeValid()
    }

    /** The registry half of `Valid`. */
    ghost predicate RegistryValid()
      reads this
    {
      && Dict.Valid(active)
      && activeCount == |active|
      && maxActiveCount >= activeCount
      && (forall i | 0 <= i < |active| :: active[i].1.profilerId == active[i].0)
    }

    /** The statistics half of `Valid`. */
    ghost predicate TimeValid()
      reads this, time
    {
      && time.Valid()
      && totalRequestCount == |time.samples|
      && time.samples == time.keys
      && (totalRequestCount > 0 ==> time.mean == Tally.Fraction(time.total, totalRequestCount))
    }

    constructor()
      ensures Valid() && fresh(time)
      ensures active == [] && activeCount == 0 && maxActiveCount == 0 && totalRequestCount == 0
      ensures time.samples == []
    {
      time := new Tally.Accumulator();
      totalRequestCount := 0;
      active := [];
      activeCount := 0;
      maxActiveCount := 0;
    }

    /**
     * `startRequest(request, response)`. A request that already carries an
     * id is rejected and nothing changes. Otherwise the new id is written
     * to the request and the response, and a fresh document, holding the
     * current statistic if there is one, is registered under it.
     */
    method StartRequest(request: IncomingRequest, response: OutgoingResponse, newId: string, now: int, stat: Option<ProcessStat>)
      returns (r: Result<RequestDoc, string>)
      requires Valid()
      requires IsDigest(newId) && !HasKey(active, newId)
      modifies this, request, response
      ensures Valid()
      ensures HasId(old(request.profilerId)) ==>
        && r == Failure(AlreadyStarted(old(request.profilerId).value))
        && active == old(active) && activeCount == old(activeCount) && maxActiveCount == old(maxActiveCount)
        && request.profilerId == old(request.profilerId) && response.profilerId == old(response.profilerId)
      ensures !HasId(old(request.profilerId)) ==>
        && r == Success(RequestDoc(newId, request.originalUrl, now, old(activeCount),
                                   if stat.Some? then [stat.value] else [], None, None, None))
        && request.profilerId == Some(newId) && response.profilerId == Some(newId)
        && active == Put(old(active), newId, r.value)
        && activeCount == old(activeCount) + 1
        && maxActiveCount == Tally.Max(old(maxActiveCount), activeCount)
      ensures totalRequestCount == old(totalRequestCount)
    {
      if HasId(request.profilerId) {
        return Failure(AlreadyStarted(request.profilerId.value));
      }
      request.profilerId := Some(newId);
      response.profilerId := Some(newId);
      var document := RequestDoc(newId, request.originalUrl, now, activeCount, [], None, None, None);
      if stat.Some? {
        document := document.(stats := [stat.value]);
      }
      PutAppends(active, newId, document);
      active := Put(active, newId, document);
      activeCount := activeCount + 1;
      maxActiveCount := Tally.Max(maxActiveCount, activeCount);
      r := Success(document);
    }

    /**
     * `stopRequest(request, response)`. Without a request, or for one not
     * registered, nothing changes and there is no document. Otherwise the
     * document leaves the registry, receives the parsed response headers,
     * the finish time and `requestTime = finishedAt - startedAt`, and that
     * time is recorded in the statistics.
     */
    method StopRequest(request: Option<IncomingRequest>, response: OutgoingResponse, now: int)
      returns (doc: Option<RequestDoc>)
      requires Valid()
      modifies this, time
      ensures Valid()
      ensures old(request.None? || !HasKey(active, IdKey(request.value.profilerId))) ==>
        && doc == None
        && active == old(active) && activeCount == old(activeCount) && totalRequestCount == old(totalRequestCount)
        && time.samples == old(time.samples) && time.total == old(time.total) && time.mode == old(time.mode)
      ensures old(request.Some? && HasKey(active, IdKey(request.value.profilerId))) ==>
        var key := old(IdKey(request.value.profilerId));
        var started := Get(old(active), key).value;
        var diff := now - started.startedAt;
        && doc == Some(Completed(started, response.header, response.statusCode, now))
        && active == Remove(old(active), key)
        && activeCount == old(activeCount) - 1
        && totalRequestCount == old(totalRequestCount) + 1
        && time.samples == old(time.samples) + [diff]
        && time.total == old(time.total) + diff
        && time.max == Tally.Max(old(time.max), diff)
      ensures maxActiveCount == old(maxActiveCount)
    {
      if request.None? {
        return None;
      }
      var key := IdKey(request.value.profilerId);
      var found := Get(active, key);
      if found.None? {
        return None;
      }
      var document := Finish(key, response.header, response.statusCode, now);
      doc := Some(document);
    }

    /** The registered branch of `stopRequest`: the document is taken out, completed, and its time recorded. */
    method Finish(key: string, header: Option<string>, statusCode: int, now: int) returns (document: RequestDoc)
      requires Valid() && HasKey(active, key)
      modifies this, time
      ensures Valid()
      ensures var started := Get(old(active), key).value;
        var diff := now - started.startedAt;
        && document == Completed(started, header, statusCode, now)
        && active == Remove(old(active), key)
        && activeCount == old(activeCount) - 1
        && totalRequestCount == old(totalRequestCount) + 1
        && time.samples == old(time.samples) + [diff]
        && time.total == old(time.total) + diff
        && time.max == Tally.Max(old(time.max), diff)
      ensures maxActiveCount == old(maxActiveCount)
    {
      var started := Unregister(key);
      document := Completed(started, header, statusCode, now);
      RecordTime(document.requestTime.value);
    }

    /** Takes the document registered under `key` out of the registry. */
    method Unregister(key: string) returns (started: RequestDoc)
      requires Valid() && HasKey(active, key)
      modifies this
      ensures Valid()
      ensures started == Get(old(active), key).value
      ensures active == Remove(old(active), key) && activeCount == old(activeCount) - 1
      ensures maxActiveCount == old(maxActiveCount) && totalRequestCount == old(totalRequestCount)
    {
      started := Get(active, key).value;
      ghost var before := active;
      RemoveValid(before, key);
      active := Remove(active, key);
      activeCount := activeCount - 1;
    }

    /** Records a finished request's time: one more request, its time added to the statistics. */
    method RecordTime(diff: int)
      requires Valid()
      modifies this, time
      ensures Valid()
      ensures totalRequestCount == old(totalRequestCount) + 1
      ensures time.samples == old(time.samples) + [diff]
      ensures time.total == old(time.total) + diff && time.max == Tally.Max(old(time.max), diff)
      ensures active == old(active) && activeCount == old(activeCount) && maxActiveCount == old(maxActiveCount)
    {
      time.Record(diff, diff, totalRequestCount + 1);
      totalRequestCount := totalRequestCount + 1;
    }
  }

  /**
   * A stopped request's document: the response headers parsed and the
   * status recorded, the finish time set and the request time its
   * difference from the start time; nothing else changes.
   */
  function Completed(started: RequestDoc, header: Option<string>, statusCode: int, now: int): (d: RequestDoc)
    ensures d.requestTime == Some(now - started.startedAt) && d.finishedAt == Some(now)
    ensures d.response == Some(ResponseData(ParseHeaders(header), statusCode))
    ensures d.profilerId == started.profilerId && d.path == started.path && d.startedAt == started.startedAt
    ensures d.activeRequests == started.activeRequests && d.stats == started.stats
  {
    started.(response := Some(ResponseData(ParseHeaders(header), statusCode)),
             finishedAt := Some(now), requestTime := Some(now - started.startedAt))
  }

  /** Registering a new key appends it, so every entry keeps its place and its own id. */
  lemma PutAppends(d: seq<(string, RequestDoc)>, k: string, doc: RequestDoc)
    requires Dict.Valid(d) && !HasKey(d, k) && doc.profilerId == k
    requires forall i | 0 <= i < |d| :: d[i].1.profilerId == d[i].0
    ensures Put(d, k, doc) == d + [(k, doc)]
    ensures forall i | 0 <= i < |Put(d, k, doc)| :: Put(d, k, doc)[i].1.profilerId == Put(d, k, doc)[i].0
  {
    PutNew(d, k, doc);
  }

  /** Unregistering keeps every other entry under its own id. */
  lemma RemoveValid(d: seq<(string, RequestDoc)>, k: string)
    requires forall i | 0 <= i < |d| :: d[i].1.profilerId == d[i].0
    ensures forall i | 0 <= i < |Remove(d, k)| :: Remove(d, k)[i].1.profilerId == Remove(d, k)[i].0
  {
    RemoveEntries(d, k);
  }

  // ---------------------------------------------------------------------
  // Response headers
  // ---------------------------------------------------------------------

  /**
   * What one line of the header block contributes: the text before the
   * first ':' as key and the text between the first and second ':' as
   * value, both trimmed. A line without a value stores its key text under
   * the empty key; a line that is empty stores nothing.
   */
  function HeaderEntry(line: string): Option<(string, string)> {
    var pieces := Split(line, ":");
    KeyValue(pieces[0], if |pieces| > 1 then pieces[1] else "")
  }

  /** The entry a line's key and value pieces give (a missing value reads as the empty string, both being falsy). */
  function KeyValue(key: string, value: string): Option<(string, string)> {
    if value == "" then
      if key == "" then None else Some(("", Trim(key)))
    else Some((Trim(key), Trim(value)))
  }

  /** The entries the lines contribute, in order. */
  function HeaderEntries(lines: seq<string>): (r: seq<(string, string)>)
    ensures |r| <= |lines|
  {
    if lines == [] then []
    else
      var rest := HeaderEntries(lines[1..]);
      match HeaderEntry(lines[0])
      case Some(kv) => [kv] + rest
      case None => rest
  }

  /** The response's header block split into lines (`(response._header || '').split('\r\n')`). */
  function HeaderLines(header: Option<string>): seq<string> {
    Split(header.GetOr(""), "\r\n")
  }

  /**
   * The dictionary the header block reduces to: each key the lines
   * contribute, with the value of the last line contributing it.
   */
  function ParseHeaders(header: Option<string>): (r: seq<(string, string)>)
    ensures Dict.Valid(r)
    ensures forall k :: HasKey(r, k) <==> HasKey(HeaderEntries(HeaderLines(header)), k)
    ensures forall k :: Get(r, k) == LastValue(HeaderEntries(HeaderLines(header)), k)
  {
    Assign([], HeaderEntries(HeaderLines(header)))
  }

  /**
   * A header line `key:value`, possibly followed by further ':'-separated
   * text, contributes the trimmed key and the trimmed value; with an empty
   * value it contributes its key text under the empty key, or nothing when
   * the key is empty too.
   */
  lemma HeaderEntryOf(key: string, value: string, tail: string)
    requires ':' !in key && ':' !in value && (tail == "" || tail[0] == ':')
    ensures HeaderEntry(key + ":" + value + tail) ==
      if value == "" then (if key == "" then None else Some(("", Trim(key))))
      else Some((Trim(key), Trim(value)))
  {
    HeaderPieces(key, value, tail);
  }

  /** Such a line splits at ':' into the key, the value and whatever the tail holds. */
  lemma HeaderPieces(key: string, value: string, tail: string)
    requires ':' !in key && ':' !in value && (tail == "" || tail[0] == ':')
    ensures var pieces := Split(key + ":" + value + tail, ":");
      |pieces| > 1 && pieces[0] == key && pieces[1] == value
  {
    assert key + ":" + value + tail == key + [':'] + (value + tail);
    SplitAt(key, ':', value + tail);
    if tail == "" {
      assert value + tail == value;
      SplitWithout(value, ':');
    } else {
      assert value + tail == value + [':'] + tail[1..];
      SplitAt(value, ':', tail[1..]);
    }
  }

  /** A line without any ':' contributes its trimmed text under the empty key, unless it is empty. */
  lemma HeaderEntryWithoutColon(line: string)
    requires ':' !in line
    ensures HeaderEntry(line) == if line == "" then None else Some(("", Trim(line)))
  {
    SplitWithout(line, ':');
  }

  // ---------------------------------------------------------------------
  // Parent request path
  // ---------------------------------------------------------------------

  /** The number of leading characters of `s` that are not ':'. */
  function LeadingNonColons(s: string): (n: nat)
    ensures n <= |s| && (forall i | 0 <= i < n :: s[i] != ':') && (n < |s| ==> s[n] == ':')
  {
    if s == [] || s[0] == ':' then 0 else 1 + LeadingNonColons(s[1..])
  }

  /** The number of ':' characters `s` starts with. */
  function LeadingColons(s: string): (n: nat)
    ensures n <= |s| && (forall i | 0 <= i < n :: s[i] == ':') && (n < |s| ==> s[n] != ':')
  {
    if s == [] || s[0] != ':' then 0 else 1 + LeadingColons(s[1..])
  }

  /**
   * The pattern `^[^:]*:*\/\/` with `[^:]*` fixed to the first `n`
   * characters and `:*` trying `m` colons, then fewer: the end of the first
   * match, if any.
   */
  function TryColons(s: string, n: nat, m: nat): (r: Option<nat>)
    requires n + m <= |s|
    ensures r.Some? ==> 2 <= r.value <= |s| && s[r.value - 2] == '/' && s[r.value - 1] == '/'
    decreases m
  {
    if n + m + 2 <= |s| && s[n + m] == '/' && s[n + m + 1] == '/' then Some(n + m + 2)
    else if m == 0 then None
    else TryColons(s, n, m - 1)
  }

  /** The pattern with `[^:]*` trying its first `n` characters, then fewer, as the regular expression engine backtracks. */
  function TryNonColons(s: string, n: nat): (r: Option<nat>)
    requires n <= |s|
    ensures r.Some? ==> 2 <= r.value <= |s| && s[r.value - 2] == '/' && s[r.value - 1] == '/'
    decreases n
  {
    var r := TryColons(s, n, LeadingColons(s[n..]));
    if r.Some? then r
    else if n == 0 then None
    else TryNonColons(s, n - 1)
  }

  /** `s.replace(/^[^:]*:*\/\//, '')`: the scheme prefix through the first matching '//' removed. */
  function StripScheme(s: string): (r: string)
    ensures |r| <= |s| && r == s[|s| - |r|..]
  {
    match TryNonColons(s, LeadingNonColons(s))
    case Some(e) => s[e..]
    case None => s
  }

  /** `getParentRequest`: no path without a referer, otherwise the referer without its scheme. */
  function ParentPath(referer: Option<string>): (r: Option<string>)
    ensures r.None? <==> referer.None? || referer.value == ""
    ensures r.Some? ==> |r.value| <= |referer.value| && r.value == referer.value[|referer.value| - |r.value|..]
  {
    if referer.None? || referer.value == "" then None else Some(StripScheme(referer.value))
  }

  /** The parent of a request whose referer is `scheme://rest` is looked up under `rest`. */
  lemma ParentPathOf(scheme: string, rest: string)
    requires ':' !in scheme
    ensures ParentPath(Some(scheme + "://" + rest)) == Some(rest)
  {
    StripSchemeOf(scheme, rest);
  }

  /** A referer `scheme://rest` whose scheme has no ':' gives `rest`, whatever `rest` holds. */
  lemma StripSchemeOf(scheme: string, rest: string)
    requires ':' !in scheme
    ensures StripScheme(scheme + "://" + rest) == rest
  {
    var s := scheme + "://" + rest;
    var n := |scheme|;
    assert s[n] == ':';
    assert forall i | 0 <= i < n :: s[i] == scheme[i];
    assert LeadingNonColons(s) == n;
    assert s[n..][0] == ':' && s[n..][1] == '/';
    assert LeadingColons(s[n..]) == 1;
    assert s[n + 1] == '/' && s[n + 2] == '/';
    assert s[n + 3..] == rest;
  }

  /** A referer with no "//" in it is left as it is. */
  lemma StripSchemeUnmatched(s: string)
    requires forall i | 0 <= i < |s| - 1 :: !(s[i] == '/' && s[i + 1] == '/')
    ensures StripScheme(s) == s
  {
  }
}

# conga-profiler, modelled in Dafny

This project models the core of the conga-profiler bundle. The core is a timing-instrumentation engine with a few small rules around it. Every module states its behaviour as contracts and proves them.

- **The timing tree** (`TimingTree`). A stopwatch holds sections. A section holds events and nested sections. An event holds its `{start, end}` periods in microseconds. A section may be associated with one request through that request's `_profiler_id`. The stopwatch is a class whose `sections` field is reassigned. `section(name)` appends one untagged section. `request(req, name)` appends one section tagged with the request's id.
- **Per-request extraction** (`DataCollector`). This is the depth-first walk of `reduceStopwatchData`:
  - a section tagged with this request is moved into the result;
  - a section tagged with another request is skipped together with its subtree;
  - every untagged section contributes its in-window periods (both bounds inclusive) to a result section and result event, each created on the first matching period;
  - an out-of-window period older than the maximum request time schedules its section for removal.
  
  Removals are collected in a pending list. They are applied once the walk ends, as `process.nextTick` does.
- **Timeline flattening and ordering** (`Timeline`, `TimelineChart`). The dashboard page turns the tree into a dataset of entries keyed by node id. Each entry holds a sorted list of periods. The entries are sorted with the page's comparator and numbered. `TimelineData` copies the fields its prototype knows. `TimelineGraph.setConfig` may only overwrite configuration keys, never add new ones.
- **Streaming statistics** (`Tally`, `ProfilerRequestService`, `ProfilerStatService`). Each statistic keeps a count, total, maximum and mean. Its mode comes from an occurrence map and is replaced only on a strictly greater count. Three things use these statistics:
  - the request service keeps the registry of active requests and the request-time statistic;
  - the stat service keeps the CPU and memory statistics under one sample count;
  - the stat service also decides the delay before the next sample.
- **The small rules**:
  - the configuration collector's key escaping and flattening (`ConfigDataCollector`, over `Text`);
  - the HTTP status to CSS class map (`RequestStatusMapper`);
  - first-decider request matching (`RequestMatcher`);
  - raw response-header parsing and referer stripping (`ProfilerRequestService`);
  - sliding access-token expiry (`DashboardService`);
  - the dashboard navigation filter (`DashboardController`);
  - the profiler's enable and caching latches (`ProfilerService`);
  - the profiler role (`ProfilerUser`);
  - error JSON merging (`ProfilerError`);
  - the dashboard client's Basic `Authorization` header and denied-route latch (`HttpService`). The header follows section 2 of RFC 7617 and is built with `Base64` (section 4 of RFC 4648) over `Utf8` (section 3 of RFC 3629).

Some modules describe JavaScript itself:
- `Js` models JavaScript values: truthiness, `instanceof Object`, and property reads that throw a `TypeError` on `undefined` or `null`.
- `Dict` models plain objects used as dictionaries, in insertion order.
- `Wrappers` holds `Option` and `Result`.

Clocks, random values, the service container and storage are parameters of the operations that read them.

In two places the walk does less than its comments and names suggest, and the model follows the code:
- Only a period outside the window can schedule a removal, because the age test sits in an `else if` (`lib/collector/stopwatch/DataCollector.js:52-64`). The comment at line 62 speaks of removing the shared section whenever it is older than the maximum request time.
- A section tagged with another request is neither collected nor recursed into, so its subsections are never examined (`lib/collector/stopwatch/DataCollector.js:38-45`).

What is removed is the whole section, not single periods.

The timeline comparator is not a consistent ordering: two sections that start together compare as -1 both ways (`TiedSectionsInconsistent`). The model sorts by the order the comparator intends (`Before`), which is a strict weak order. It proves that the two agree on every other pair (`CompareAgrees`).

## Model

| member | source | states |
|---|---|---|
| RequestStatusMapper.MapStatusToClass | lib/resources/conga-dashboard/public/js/RequestStatusMapper.js:3-24 | 429 gives `is-dark` ahead of the 4xx rule; [200,300) `is-success`; [300,400) `is-info`; other 4xx `is-warning`; [500,600) `is-danger`; the result is `undefined` exactly below 200 or from 600 up |
| RequestStatusMapper.ClassesAreDistinctPerRange | lib/resources/conga-dashboard/public/js/RequestStatusMapper.js:5-23 | two statuses with the same class are both 429 or neither, and otherwise lie in the same hundred |
| ProfilerUser.IndexOf | lib/security/ProfilerUser.js:21 | `indexOf` is -1 exactly when the role is absent, otherwise the first position holding it |
| ProfilerUser.WithProfilerRole | lib/security/ProfilerUser.js:21-22 | the roles always contain `ROLE_PROFILER`; present roles are left as they are; otherwise the role is appended at the end |
| ProfilerUser.WithProfilerRoleIdempotent | lib/security/ProfilerUser.js:21-22 | building a user from an existing user's roles adds nothing more |
| ProfilerUser.WithProfilerRoleKeeps | lib/security/ProfilerUser.js:22 | the given roles stay in front, in their order, and only `ROLE_PROFILER` can be new |
| ProfilerUser.User.constructor | lib/security/ProfilerUser.js:20-24 | the defaults are `'anon.'`, `null` and a new empty list; the caller's role list itself gains `ROLE_PROFILER` when it lacked it |
| ProfilerError.Serialize | lib/error/ProfilerError.js:25-35 | the JSON always carries the error's own `message`; without a cause or a `toJSON` it is just `{message}`; it fails (TypeError) exactly when the cause's `toJSON()` gives a truthy primitive |
| ProfilerError.SerializeMerges | lib/error/ProfilerError.js:28-33 | for a cause whose `toJSON()` is an object, its message comes out as `previousMessage` and every other field except `message` is carried over |
| ProfilerError.Error.constructor | lib/error/ProfilerError.js:9-16 | the message defaults to `'Profiler Error'`; a cause is kept only when it is an Error, and then its stack is appended after a newline |
| ProfilerError.Error.ToJSON | lib/error/ProfilerError.js:25-35 | whenever `toJSON()` returns, its `message` is the error's own message |
| DashboardService.FindToken | lib/service/DashboardService.js:68 | the position found holds the token and no earlier one does; `None` exactly when no document holds it |
| DashboardService.Check | lib/service/DashboardService.js:66-85 | an unknown token is refused and nothing changes; a token is accepted exactly when it is known and `now < expiresAt`; an accepted token's expiry becomes `now` + 7,200,000 and no other document changes; a refused known token is deleted |
| DashboardService.StaysValid | lib/service/DashboardService.js:74-81 | a token accepted at `now` is accepted again at any time within the next two hours |
| DashboardService.ExpiresAfterIdle | lib/service/DashboardService.js:74-78 | a token left unchecked for two hours or more is refused and its document deleted |
| DashboardService.Unexpired | lib/service/DashboardService.js:57-59 | the sweep never grows the table |
| DashboardService.UnexpiredMembers | lib/service/DashboardService.js:58 | the sweep keeps exactly the documents expiring after `now` |
| DashboardService.FindCollector | lib/service/DashboardService.js:92-100 | a collector found is registered and has the name; `null` exactly when no collector has it |
| DashboardService.FindCollectorFirst | lib/service/DashboardService.js:93-97 | the collector found is the first one in tag order with that name |
| DashboardService.Service.constructor | lib/service/DashboardService.js:22-26 | the service starts from the given token table and the collectors registered under the tag |
| DashboardService.Service.GenerateAccessToken | lib/service/DashboardService.js:39-45 | the new document has the random text and expires at `now` + 7,200,000 ms; it is appended to the table |
| DashboardService.Service.IsAccessToken | lib/service/DashboardService.js:66-85 | the answer and the new table are exactly those of `Check` |
| DashboardService.Service.RemoveExpiredAccessTokens | lib/service/DashboardService.js:57-59 | the loop leaves exactly `Unexpired` of the old table |
| DashboardService.Service.GetCollector | lib/service/DashboardService.js:92-100 | the loop returns exactly what `FindCollector` finds |
| DashboardService.GeneratedIsValid | lib/service/DashboardService.js:39-42 | a freshly generated token whose text is new is accepted until two hours have passed |
| DashboardController.Navigation | lib/controller/DashboardController.js:19-22 | a failure is always the TypeError of reading a missing collector; the navigation is never longer than the keys |
| DashboardController.NavigationFails | lib/controller/DashboardController.js:20-21 | `navigation` throws exactly when some key has no registered collector |
| DashboardController.NavigationKeeps | lib/controller/DashboardController.js:19-22 | a key is kept exactly when its collector is enabled and has a dashboard |
| DashboardController.NavigationOrdered | lib/controller/DashboardController.js:19 | the navigation is an order-preserving subsequence of the keys |
| DashboardController.Index | lib/controller/DashboardController.js:46-51 | no requests give an empty navigation; otherwise it is `navigation` over the keys of the newest request's `collectedData`, and a missing `collectedData` is a TypeError |
| RequestMatcher.StripAt | lib/profiler/RequestMatcher.js:42 | a leading `@` is dropped and nothing else changes |
| RequestMatcher.MatcherStep | lib/profiler/RequestMatcher.js:37-59 | a string naming no service skips; a service that is not a matcher raises the LogicError; a matcher service's answer is returned; a truthy `ip` decides `ip === request.ip` ahead of `route`; otherwise a truthy `route` decides the regular-expression test of the pattern on `originalUrl`, raising the SyntaxError when the pattern does not compile; an object with neither key skips; arrays and functions with neither key skip; a number, boolean, `null` or `undefined` raises the LogicError; an object matcher's decision is a boolean |
| RequestMatcher.Matches | lib/profiler/RequestMatcher.js:30-34 | a missing profiler configuration is a TypeError; a non-object `matchers` gives `false` |
| RequestMatcher.FirstDeciderWins | lib/profiler/RequestMatcher.js:36-60 | when every matcher before the i-th skips and the i-th decides, its decision is the result |
| RequestMatcher.LaterIgnored | lib/profiler/RequestMatcher.js:36-60 | replacing every matcher after the first decider leaves the result unchanged |
| RequestMatcher.NoDeciderUndefined | lib/profiler/RequestMatcher.js:36-61 | when no matcher decides the result is `undefined` |
| RequestMatcher.MatchRequest | lib/profiler/RequestMatcher.js:30-61 | the loop with its early returns and throws computes exactly `Matches` |
| ProfilerService.ProfilerSection | lib/service/ProfilerService.js:40 | reading the section fails exactly when the configuration service is not an object; an absent section reads `undefined` |
| ProfilerService.EnabledValue | lib/service/ProfilerService.js:78-79 | the value is truthy exactly when the configuration is an object whose `enabled` is undefined or truthy; non-objects give `false` |
| ProfilerService.ManagerConfigured | lib/service/ProfilerService.js:55-56 | reading `bass` throws exactly on an `undefined` or `null` section |
| ProfilerService.Service.constructor | lib/service/ProfilerService.js:18-21 | the service starts disabled with nothing cached |
| ProfilerService.Service.GetConfig | lib/service/ProfilerService.js:27-32 | a truthy cached configuration is kept; otherwise the container's is cached; the other caches do not change |
| ProfilerService.Service.GetProfilerConfig | lib/service/ProfilerService.js:38-43 | a truthy cached section is returned without a lookup; otherwise the section is read and cached |
| ProfilerService.Service.GetStorageManager | lib/service/ProfilerService.js:50-67 | the answer is `StorageAnswer` of the caches before the call: the cached manager unless a new session is asked for, otherwise a throw exactly when the section or its `bass` cannot be read, `null` exactly when no `bass.manager` is configured, else the created manager; a cached manager leaves the configuration caches alone, any other call leaves them as reading the section does; the first manager created is cached and a later session never replaces it |
| ProfilerService.Service.IsEnabled | lib/service/ProfilerService.js:73-86 | the answer is `EnabledAnswer` of the caches before the call: a cached truthy answer is returned and nothing is read; otherwise a throw exactly when the section cannot be read, else `EnabledValue` of the section, which is cached; the configuration caches end as reading the section leaves them |
| ProfilerService.ConfigRead | lib/service/ProfilerService.js:27-32 | a truthy cached configuration is the answer; otherwise the container's |
| ProfilerService.ProfilerConfigRead | lib/service/ProfilerService.js:38-43 | a truthy cached section is the answer; otherwise reading the section throws exactly when the configuration read is not an object |
| ProfilerService.EnabledAnswer | lib/service/ProfilerService.js:73-86 | a truthy cache answers `true`; otherwise the answer throws exactly when the section read does, and is truthy exactly when the section is an object whose `enabled` is undefined or truthy |
| ProfilerService.StorageAnswer | lib/service/ProfilerService.js:50-67 | the cached manager unless a new session is asked for; otherwise a throw exactly when the section read or the `bass` read throws, `null` exactly when no manager is configured, and the created manager otherwise |
| HttpService.BasicAuthorization | lib/resources/conga-dashboard/public/js/HttpService.js:9-10 | the header value starts with `Basic ` |
| HttpService.BasicAuthorizationDecodes | lib/resources/conga-dashboard/public/js/HttpService.js:9-10 | decoding the base64 after `Basic ` (section 4 of RFC 4648) and then the UTF-8 bytes gives back `username:password`, as section 2 of RFC 7617 has the server do |
| HttpService.BasicUserRecoverable | lib/resources/conga-dashboard/public/js/HttpService.js:10 | a user name without `:` is exactly the text before the first `:`, and the password all that follows it |
| HttpService.Copy | lib/resources/conga-dashboard/public/js/HttpService.js:49 | `Object.assign({}, route)` is an object reading every key as the route does |
| HttpService.WithAuthorization | lib/resources/conga-dashboard/public/js/HttpService.js:8-10 | the options sent are an object; writing the header fails only with a TypeError |
| HttpService.AuthorizationOfNothing | lib/resources/conga-dashboard/public/js/HttpService.js:8-10 | falsy options become `{headers: {Authorization}}` |
| HttpService.MergedHeaders | lib/resources/conga-dashboard/public/js/HttpService.js:8 | `headers` of the merged options reads as in the options, `{}` when they have none |
| HttpService.MergedOther | lib/resources/conga-dashboard/public/js/HttpService.js:8 | every other key of the merged options reads as in the options |
| HttpService.UpdatedOther | lib/resources/conga-dashboard/public/js/HttpService.js:8-9 | writing `headers` leaves every other option as the caller gave it |
| HttpService.AuthorizationNeedsObject | lib/resources/conga-dashboard/public/js/HttpService.js:8-10 | with options that are an object, the header can be written exactly when their `headers` (default `{}`) is an object |
| HttpService.AuthorizationAdded | lib/resources/conga-dashboard/public/js/HttpService.js:8-10 | object headers keep every header and gain `Authorization`; every other option is kept |
| HttpService.Router.Push | lib/resources/conga-dashboard/public/js/HttpService.js:40-51 | a push appends the route and leaves the current route alone |
| HttpService.Session.constructor | lib/resources/conga-dashboard/public/js/HttpService.js:1-4 | the module starts without a user, password, denied route or pending timer |
| HttpService.Session.CheckOptions | lib/resources/conga-dashboard/public/js/HttpService.js:6-13 | without both credentials the options are returned unchanged; otherwise they gain the Basic header; the only failure is a TypeError |
| HttpService.Session.CheckTimer | lib/resources/conga-dashboard/public/js/HttpService.js:15-24 | the timer is pending again and nothing else changes |
| HttpService.Session.TimerFires | lib/resources/conga-dashboard/public/js/HttpService.js:20-23 | the timer firing forgets both credentials, is spent (no timer is pending afterwards) and keeps the denied route |
| HttpService.Session.Authenticate | lib/resources/conga-dashboard/public/js/HttpService.js:28-32 | the given user and password are stored and the timer restarts |
| HttpService.Session.Route | lib/resources/conga-dashboard/public/js/HttpService.js:34-41 | the saved denied route is pushed and cleared; without one `{name: 'profiler'}` is pushed |
| HttpService.Session.Get | lib/resources/conga-dashboard/public/js/HttpService.js:43-54 | the request goes out with `checkOptions` of the options; a 401 or 403 saves a copy of the current route only when none is saved (the first denial wins) and pushes the login route; any other outcome pushes nothing and saves nothing |
| Base64.Encode | lib/resources/conga-dashboard/public/js/HttpService.js:10 | a non-empty byte string gives at least one four-character group |
| Base64.EncodeLength | lib/resources/conga-dashboard/public/js/HttpService.js:10 | the encoding is `4 * ceil(n / 3)` characters long, padding included (section 4 of RFC 4648) |
| Base64.DecodeEncode | lib/resources/conga-dashboard/public/js/HttpService.js:10 | decoding the encoding gives back the bytes |
| Utf8.EncodeChar | lib/resources/conga-dashboard/public/js/HttpService.js:10 | a character takes one to four bytes, one exactly when it is ASCII (then the byte is its code), and every byte after the first is a continuation byte (section 3 of RFC 3629) |
| Utf8.Encode | lib/resources/conga-dashboard/public/js/HttpService.js:10 | the bytes of `new Buffer(s)` number between one and four per character |
| Utf8.EncodeConcat | lib/resources/conga-dashboard/public/js/HttpService.js:10 | encoding a concatenation is the concatenation of the encodings |
| Utf8.DecodeEncode | lib/resources/conga-dashboard/public/js/HttpService.js:10 | decoding the UTF-8 bytes gives back the string |
| TimingTree.IdArgOf | lib/stopwatch/CompositeMixin.js:43 | the argument is the request's id exactly when that id is a non-empty string, and `0` otherwise |
| TimingTree.HasAnyRequestIff | lib/stopwatch/CompositeMixin.js:40-41 | `hasRequest()` without a request holds exactly when the section is associated with a request |
| TimingTree.HasRequestIff | lib/stopwatch/CompositeMixin.js:43-55 | `hasRequest(req)` holds exactly when the stored id is present and equals the request's non-empty id; a missing id (compared as `0`) never matches |
| TimingTree.MatchingIsTagged | lib/stopwatch/CompositeMixin.js:29-44 | a section matching a request is associated; a section tagged by `setRequest(req)` matches `req` exactly when `req` has a non-empty id |
| TimingTree.Stopwatch.HasRequestQuery | lib/stopwatch/CompositeMixin.js:39-44 | without an argument, whether the stopwatch is associated with any request; with a request, whether the stored id is present and equals that request's non-empty id |
| TimingTree.Stopwatch.HasProfilerIdQuery | lib/stopwatch/CompositeMixin.js:51-56 | without an argument, true exactly when unassociated or stored with an `undefined` id; the `0` for a missing id never matches; a string id matches exactly the stored one |
| TimingTree.HasNoProfilerIdIff | lib/stopwatch/CompositeMixin.js:52-53 | `hasProfilerId()` holds exactly for unassociated sections and sections stored with an `undefined` id |
| TimingTree.RemoveIds | lib/collector/stopwatch/DataCollector.js:43-63 | removing sections never adds any |
| TimingTree.RemoveIdsRemoves | lib/collector/stopwatch/DataCollector.js:43-63 | after the removals no section with a removed identity is left, at any depth, and no new identity appears |
| TimingTree.RemoveIdsIdempotent | lib/collector/stopwatch/DataCollector.js:43-63 | scheduling the same section for removal twice has the effect of once |
| TimingTree.RemoveAbsentIds | lib/collector/stopwatch/DataCollector.js:43-63 | removing sections that are not in the tree changes nothing |
| TimingTree.Stopwatch.constructor | lib/stopwatch/CompositeMixin.js:19-22 | a new stopwatch or section is unassociated and empty |
| TimingTree.Stopwatch.NewSection | lib/stopwatch/Stopwatch.js:21-25 | exactly one new section, with the given name (default `null`), unassociated and empty, is appended; the sections already there are unchanged and keep their order |
| TimingTree.Stopwatch.SetRequest | lib/stopwatch/CompositeMixin.js:29-32 | only a copy of the request's id is stored, and the same object is returned |
| TimingTree.Stopwatch.Request | lib/stopwatch/CompositeMixin.js:64-66 | one new named subsection, tagged with the request's id, is appended and returned |
| TimingTree.Stopwatch.ToJson | lib/stopwatch/CompositeMixin.js:72-76 | `profilerId` is `null` when unassociated, the stored id otherwise (`undefined` when it was missing) |
| TimingTree.Stopwatch.FlushPending | lib/collector/stopwatch/DataCollector.js:43-63 | the next tick removes exactly the scheduled sections and empties the schedule |
| DataCollector.ReduceStopwatchData | lib/collector/stopwatch/DataCollector.js:36-71 | the walk, with its loops over sections, events and periods, produces exactly the reference walk `ReduceForest` (result sections, removal schedule, identities) about which the lemmas below are proved |
| DataCollector.ScanSection | lib/collector/stopwatch/DataCollector.js:47-66 | the loop over a shared section's events computes exactly the reference scan of those events |
| DataCollector.ScanEventPeriods | lib/collector/stopwatch/DataCollector.js:49-65 | the loop over one event's periods computes exactly the reference scan of those periods: result section and result event created at the first in-window period, in-window periods appended, stale ones scheduling a removal |
| DataCollector.ScanPeriodsCopies | lib/collector/stopwatch/DataCollector.js:50-60 | scanning an event's periods copies exactly its in-window periods, in order, into one result event with the source name and category; the result event and the result section exist exactly when a period was copied |
| DataCollector.ScanEventsCopies | lib/collector/stopwatch/DataCollector.js:48-66 | scanning a section's events appends exactly the events with an in-window period, each reduced to those periods; the result section exists exactly when something was copied |
| DataCollector.ReduceSectionRealizes | lib/collector/stopwatch/DataCollector.js:37-69 | visiting a section keeps the result so far and appends exactly the expected pieces: a section of this request moved as it is, or one unassociated leaf copy per shared section with copied periods, followed by those of its subsections, all at top level |
| DataCollector.ReduceSharedRealizes | lib/collector/stopwatch/DataCollector.js:45-68 | for a shared section: its copy (when any period was in the window) and then everything the walk over its subsections appends |
| DataCollector.ReduceForestRealizes | lib/collector/stopwatch/DataCollector.js:37-70 | the walk over a forest appends exactly the expected pieces of its sections in depth-first order |
| DataCollector.InWindowPeriodsMembers | lib/collector/stopwatch/DataCollector.js:51-52 | a period is copied exactly when `startedAt <= start <= finishedAt`, both bounds included, whatever its end |
| DataCollector.CopiedEventsNonEmpty | lib/collector/stopwatch/DataCollector.js:53-60 | no result event is empty |
| DataCollector.AnyStaleIff | lib/collector/stopwatch/DataCollector.js:61-64 | a section is scheduled for removal by its periods exactly when one lies outside the window and is older than the maximum request time; an in-window period never schedules |
| DataCollector.ScanPeriodsSchedules | lib/collector/stopwatch/DataCollector.js:61-63 | an event's periods schedule their section exactly when one of them is stale |
| DataCollector.ScanEventsSchedules | lib/collector/stopwatch/DataCollector.js:48-66 | a shared section's events schedule it exactly when some period of theirs is stale |
| DataCollector.ReduceSectionSchedules | lib/collector/stopwatch/DataCollector.js:38-68 | visiting a section schedules exactly the expected removals: a section of this request, and shared sections with a stale period, at any depth below shared sections |
| DataCollector.ReduceForestSchedules | lib/collector/stopwatch/DataCollector.js:37-70 | the walk over a forest schedules exactly the expected removals |
| DataCollector.OtherRequestSkipped | lib/collector/stopwatch/DataCollector.js:38-45 | a section of another request is not collected, not descended into and not removed |
| DataCollector.MovedAreRemoved | lib/collector/stopwatch/DataCollector.js:40-43 | every section moved into the result is also scheduled for removal |
| DataCollector.NothingMovedAfterRemoval | lib/collector/stopwatch/DataCollector.js:43-63 | once the moved sections are removed, nothing left would be moved |
| DataCollector.SecondWalkMovesNothing | lib/collector/stopwatch/DataCollector.js:40-43 | after the scheduled removals run, a second walk over the same window moves no associated section |
| DataCollector.Collector.constructor | lib/collector/stopwatch/DataCollector.js:81-85 | the collector holds the shared stopwatch |
| DataCollector.Collector.CollectData | lib/collector/stopwatch/DataCollector.js:118-135 | without a document the result is `{}` and nothing changes; otherwise the JSON of a fresh stopwatch holding the walk's result, with the maximum request time `max(1500000, observed)`; the shared tree is not touched during the walk and only its removal schedule grows |
| Tally.Max | lib/service/ProfilerRequestService.js:257 | `Math.max`: at least both arguments, and one of them |
| Tally.Accumulator.constructor | lib/service/ProfilerRequestService.js:24-60 | an empty accumulator: empty occurrence map, best count 0, mode, maximum and total 0, and the invariant holds |
| Tally.Accumulator.Record | lib/service/ProfilerRequestService.js:243-258 | one more sample: its key's count goes up by one and takes over the mode only when it strictly exceeds the best count; the total adds the sample, the maximum is the larger of the old maximum and the sample, and the mean is total over count; the invariant is kept |
| Tally.Accumulator.CountKey | lib/service/ProfilerRequestService.js:243-252 | the occurrence map and the strictly-greater mode rule, keeping the mode bookkeeping equal to that of all keys seen |
| Tally.Accumulator.AddSample | lib/service/ProfilerRequestService.js:255-258 | the total, the maximum and the mean, keeping total the sum and maximum the largest of the samples |
| Tally.ModeCounts | lib/service/ProfilerRequestService.js:244-248 | the occurrence map holds exactly the keys seen, each with its number of occurrences |
| Tally.ModeSnoc | lib/service/ProfilerRequestService.js:244-252 | a new key gets count 1, a seen one its count plus one, and the mode rule then applies |
| Tally.ModeIsMostFrequent | lib/service/ProfilerRequestService.js:243-252 | the best count is the highest number of occurrences of any key and is the mode's own count |
| Tally.ModeReachedFirst | lib/service/ProfilerRequestService.js:249-252 | ties go to the key that reached the best count first: at some prefix the mode already had that count while every other key was below it |
| Tally.LargestBounds | lib/service/ProfilerRequestService.js:257 | the maximum is at least 0 and every sample, and is 0 or one of the samples |
| ProfilerRequestService.RequestService.constructor | lib/service/ProfilerRequestService.js:24-91 | empty registry, zero counters, no samples, and the invariant holds |
| ProfilerRequestService.RequestService.StartRequest | lib/service/ProfilerRequestService.js:110-178 | a request that already has an id is rejected with the "has already been started" error and nothing changes; otherwise the id is written to request and response, a document holding the current statistic (when there is one) is stored under the id, the active count goes up by one and the highest active count becomes the larger of itself and the new count; the invariant (active count equals the registry size and never exceeds the highest) is kept |
| ProfilerRequestService.RequestService.StopRequest | lib/service/ProfilerRequestService.js:187-258 | without a request or for an unregistered one there is no document and nothing changes; otherwise the document leaves the registry, the active count goes down by one, the document gains the parsed headers, the finish time and `requestTime = finishedAt - startedAt`, and that time is recorded in count, total and maximum |
| ProfilerRequestService.RequestService.Finish | lib/service/ProfilerRequestService.js:197-258 | the registered branch of `stopRequest`, with the same new state |
| ProfilerRequestService.RequestService.Unregister | lib/service/ProfilerRequestService.js:197-202 | the registered document is returned and removed, the active count goes down by one and the invariant is kept |
| ProfilerRequestService.RequestService.RecordTime | lib/service/ProfilerRequestService.js:243-258 | one more stopped request: its time is a new sample, the registry is untouched |
| ProfilerRequestService.Completed | lib/service/ProfilerRequestService.js:206-229 | the stored document with the parsed headers and status, `finishedAt = now` and `requestTime = now - startedAt`; every other field is unchanged |
| ProfilerRequestService.PutAppends | lib/service/ProfilerRequestService.js:168 | registering a new id appends it, and every document stays under its own id |
| ProfilerRequestService.RemoveValid | lib/service/ProfilerRequestService.js:200-201 | unregistering keeps every other document under its own id |
| ProfilerRequestService.HeaderEntries | lib/service/ProfilerRequestService.js:207-217 | the lines contribute at most one entry each |
| ProfilerRequestService.ParseHeaders | lib/service/ProfilerRequestService.js:207-217 | the result has no repeated key; a key is present exactly when some line contributes it, and it holds the value of the last such line |
| ProfilerRequestService.HeaderEntryOf | lib/service/ProfilerRequestService.js:208-214 | a line `key:value` (and any further `:` text) contributes the trimmed key with the trimmed value between the first and second `:`; an empty value puts the key text under the empty key, and an empty line contributes nothing |
| ProfilerRequestService.HeaderPieces | lib/service/ProfilerRequestService.js:208 | splitting such a line at `:` gives the key first and the value second |
| ProfilerRequestService.HeaderEntryWithoutColon | lib/service/ProfilerRequestService.js:208-214 | a line with no `:` contributes its trimmed text under the empty key, unless it is empty |
| ProfilerRequestService.TryColons | lib/service/ProfilerRequestService.js:392 | a match found ends just after a `//` |
| ProfilerRequestService.TryNonColons | lib/service/ProfilerRequestService.js:392 | a match found ends just after a `//` |
| ProfilerRequestService.StripScheme | lib/service/ProfilerRequestService.js:392 | the path is a suffix of the referer |
| ProfilerRequestService.StripSchemeOf | lib/service/ProfilerRequestService.js:389-392 | a referer `scheme://rest` whose scheme has no `:` gives the path `rest`, whatever `rest` holds |
| ProfilerRequestService.ParentPath | lib/service/ProfilerRequestService.js:388-392 | no path exactly when the referer is missing or empty; otherwise the path is a suffix of the referer |
| ProfilerRequestService.ParentPathOf | lib/service/ProfilerRequestService.js:388-392 | a referer `scheme://rest` whose scheme has no `:` is looked up under the path `rest` |
| ProfilerRequestService.StripSchemeUnmatched | lib/service/ProfilerRequestService.js:392 | a referer with no `//` is left as it is |
| Text.Split | lib/service/ProfilerRequestService.js:207 | `split` always gives at least one piece |
| Text.JoinSplit | lib/service/ProfilerRequestService.js:207 | joining the pieces with the separator gives back the string |
| Text.SplitWithout | lib/service/ProfilerRequestService.js:208 | a string without the separator splits into itself alone |
| Text.SplitAt | lib/service/ProfilerRequestService.js:208 | the first piece is the text before the first separator, the rest are the pieces after it |
| Text.TrimStart | lib/service/ProfilerRequestService.js:214 | a suffix of the string, beginning with a non-space, with only white space removed |
| Text.TrimEnd | lib/service/ProfilerRequestService.js:214 | a prefix of the string, ending with a non-space, with only white space removed |
| Text.Trim | lib/service/ProfilerRequestService.js:214 | the result neither starts nor ends with white space, and a string without white space is unchanged |
| Text.ReplaceAllRemoves | lib/collector/ConfigDataCollector.js:31 | no occurrence of the character is left, unless the replacement brings it back |
| Text.ReplaceAllWithout | lib/collector/ConfigDataCollector.js:52 | a string without the character is unchanged |
| Text.ReplaceAllConcat | lib/collector/ConfigDataCollector.js:52 | replacing in a concatenation replaces in each part |
| Text.ReplaceAllConcat3 | lib/collector/ConfigDataCollector.js:52 | replacing in three consecutive parts replaces in each |
| Text.ReplaceAllChar | lib/collector/ConfigDataCollector.js:52 | a one-character string becomes the replacement or stays |
| Text.ReplaceAllKeepsOut | lib/collector/ConfigDataCollector.js:31 | a character absent from both the string and the replacement stays absent |
| Text.BelowTotal | lib/collector/ConfigDataCollector.js:112 | the default `sort` order on keys is total and asymmetric |
| Text.BelowIrreflexive | lib/collector/ConfigDataCollector.js:112 | no key sorts before itself |
| Text.BelowTransitive | lib/collector/ConfigDataCollector.js:112 | the order is transitive |
| ConfigDataCollector.StoreKey | lib/collector/ConfigDataCollector.js:31 | a rewritten key holds neither `$` nor `.` |
| ConfigDataCollector.Stored | lib/collector/ConfigDataCollector.js:18-35 | values that are not objects, and arrays, come back unchanged; a plain object or a function becomes a well-formed new object |
| ConfigDataCollector.StoredEntries | lib/collector/ConfigDataCollector.js:29-32 | one assignment per key, in key order: the rewritten key with the rewritten value |
| ConfigDataCollector.StoredIsSafe | lib/collector/ConfigDataCollector.js:24-31 | at every depth reached through objects, no key of the result holds `$` or `.` |
| ConfigDataCollector.StoredFields | lib/collector/ConfigDataCollector.js:29-32 | every key of the result comes from a key of the object, and holds the rewriting of that key's value (the last such key wins) |
| ConfigDataCollector.StoredKeys | lib/collector/ConfigDataCollector.js:29-32 | every key of the object is present, rewritten, in the result |
| ConfigDataCollector.RecursiveKeys | lib/collector/ConfigDataCollector.js:18-35 | the loop over the keys, with its recursion into each value, computes exactly `Stored` |
| ConfigDataCollector.FlatEscape | lib/collector/ConfigDataCollector.js:52 | an escaped key holds neither `$` nor `.`, and a key holding neither is unchanged |
| ConfigDataCollector.FlatEscapePath | lib/collector/ConfigDataCollector.js:52 | escaping `parent + '.' + key` escapes both parts, and the joining `.` itself becomes `&#46;` |
| ConfigDataCollector.FlattenedIsFlat | lib/collector/ConfigDataCollector.js:54-60 | `flatten` returns a well-formed object none of whose values is an object |
| ConfigDataCollector.FlattenUpToIsFlat | lib/collector/ConfigDataCollector.js:49-61 | after any number of iterations of the loop the result is still flat |
| ConfigDataCollector.FlattenStepIsFlat | lib/collector/ConfigDataCollector.js:54-60 | one iteration of the loop keeps the result flat |
| ConfigDataCollector.FlattenedKeys | lib/collector/ConfigDataCollector.js:50-53 | below a (non-empty) parent key every flat key starts with the escaped parent followed by `&#46;`, and holds neither `$` nor `.` |
| ConfigDataCollector.FlattenUpToKeys | lib/collector/ConfigDataCollector.js:49-61 | after any number of iterations, every key below a parent has that form |
| ConfigDataCollector.FlattenStepKeys | lib/collector/ConfigDataCollector.js:50-60 | one iteration keeps every key below a parent in that form |
| ConfigDataCollector.FlattenedLeaves | lib/collector/ConfigDataCollector.js:50-59 | every property whose value is not an object is present under its flat key, which at the top level is its own unescaped key; the last property gives its value |
| ConfigDataCollector.FlattenStepLeaf | lib/collector/ConfigDataCollector.js:58-59 | a non-object value is assigned under its flat key |
| ConfigDataCollector.FlattenUpToKeeps | lib/collector/ConfigDataCollector.js:54-60 | later properties never remove a flat key |
| ConfigDataCollector.FlattenStepKeeps | lib/collector/ConfigDataCollector.js:54-60 | one iteration never removes a flat key |
| ConfigDataCollector.Flatten | lib/collector/ConfigDataCollector.js:43-63 | the loop over the properties, with its recursion into object values, computes exactly `Flattened` |
| ConfigDataCollector.FlattenProperty | lib/collector/ConfigDataCollector.js:50-60 | one iteration of the loop: an object value flattened and assigned in under its flat key, any other value assigned under it |
| ConfigDataCollector.SortKeys | lib/collector/ConfigDataCollector.js:112 | the sorted keys are a permutation of the keys |
| ConfigDataCollector.SortKeysAscending | lib/collector/ConfigDataCollector.js:112 | distinct keys sort into strictly ascending order |
| ConfigDataCollector.Insert | lib/collector/ConfigDataCollector.js:112 | inserting adds exactly the one key |
| ConfigDataCollector.InsertAscending | lib/collector/ConfigDataCollector.js:112 | inserting a new key into an ascending sequence keeps it ascending |
| ConfigDataCollector.SortedCopyOrdered | lib/collector/ConfigDataCollector.js:112-115 | `configFlat` lists its keys in ascending order, is well formed, and reads every key exactly as the flat configuration does |
| ConfigDataCollector.SortedCopyGet | lib/collector/ConfigDataCollector.js:113 | every key of `configFlat` reads as in the flat configuration |
| ConfigDataCollector.SortedCopyKeys | lib/collector/ConfigDataCollector.js:112 | the keys of `configFlat` are the sorted keys of the flat configuration |
| ConfigDataCollector.SortedCopyDistinct | lib/collector/ConfigDataCollector.js:112-115 | `configFlat` lists no key twice |
| ConfigDataCollector.SortFlat | lib/collector/ConfigDataCollector.js:112-115 | the reduce over the sorted keys builds exactly the sorted copy |
| ConfigDataCollector.CollectData | lib/collector/ConfigDataCollector.js:109-118 | the result is `{configFlat, services}`: the sorted flattening of the parameters, and the service names unchanged (an array) |
| ConfigDataCollector.IsEnabled | lib/collector/ConfigDataCollector.js:101-104 | reading the setting throws exactly on a missing profiler section; otherwise the answer is truthy exactly when `collect_config` is undefined or truthy |
| ProfilerStatService.Round | lib/service/ProfilerStatService.js:298 | `Math.round` of a percentage held in hundredths: the nearest whole percent, a half rounded up |
| ProfilerStatService.RoundedAll | lib/service/ProfilerStatService.js:296-307 | the CPU mode keys are the samples, each rounded to a whole percent, in order |
| ProfilerStatService.MonitoringValue | lib/service/ProfilerStatService.js:282 | reading a setting under a missing `monitoring` section is a TypeError; under an object section it succeeds |
| ProfilerStatService.OrDefault | lib/service/ProfilerStatService.js:200 | `configured \|\| default` is truthy, and is the configured value when that is truthy |
| ProfilerStatService.ConfiguredDelay | lib/service/ProfilerStatService.js:199-201 | a delay the getter settles on with monitoring on is always truthy |
| ProfilerStatService.NextDelay | lib/service/ProfilerStatService.js:383-391 | no next sample exactly when the delay is `DELAY_STOP` (-1); otherwise the idle delay when no request is active, the current delay when some is |
| ProfilerStatService.WithStat | lib/service/ProfilerStatService.js:364-366 | every active request's document, in order and under its own id, gains the statistic at the end of its `stats`; nothing else changes |
| ProfilerStatService.StatService.constructor | lib/service/ProfilerStatService.js:183-188 | with the module-level state fresh: no samples, zero counters, no delay, no current statistic, nothing cached; the invariant holds |
| ProfilerStatService.StatService.IsMonitoringEnabled | lib/service/ProfilerStatService.js:240-253 | false whenever the profiler is disabled; otherwise true when a true answer is cached or the configuration is an object whose `monitoring` is undefined or an object with a truthy `enabled`; a true answer is cached |
| ProfilerStatService.StatService.Delay | lib/service/ProfilerStatService.js:194-220 | a cached truthy delay is returned as it is; otherwise the default (1000 idle, 50 busy) or, with monitoring on, the configured delay or the default when that is falsy, which is cached; a missing `monitoring` section throws and caches nothing; the other getter's cache is untouched |
| ProfilerStatService.GetterDelay | lib/service/ProfilerStatService.js:194-220 | a truthy cache is the answer; with the profiler disabled the default; a throw exactly when nothing is cached, monitoring is (or becomes) on and the `monitoring` section cannot be read; every successful answer is truthy |
| ProfilerStatService.StatService.StartMonitoring | lib/service/ProfilerStatService.js:271-287 | the monitoring latch ends as `isMonitoringEnabled` leaves it (set to the configured answer only when the profiler is enabled and nothing true is cached); with monitoring off nothing else happens; otherwise the delay is recorded and a sample requested, unless reading `monitoring.persist` throws |
| ProfilerStatService.StatService.StopMonitoring | lib/service/ProfilerStatService.js:403-408 | afterwards `isMonitorDelay(DELAY_STOP)` holds, and nothing else changes |
| ProfilerStatService.StatService.OnSample | lib/service/ProfilerStatService.js:287-395 | one more sample: `hops` up by one; CPU and memory totals add the sample and their maxima take the larger; the means stay `total / hops` and the modes follow the strictly-greater rule over rounded CPU and over memory (the invariant); the new statistic records the sample's CPU, its `cpuUsage` and memory, is current and is appended to every active request; the iteration counter restarts at 200 (or past 10 on the random draw); the next delay is `ScheduledDelay` of the state before the sample (none once stopped, a throw exactly when the idle getter throws, else the idle getter's answer when no request is active and the current delay otherwise); the idle cache and the monitoring latch end as that getter leaves them and the busy cache is unchanged |
| ProfilerStatService.StatService.Sample | lib/service/ProfilerStatService.js:289-380 | the sample's effect on the statistics; the current statistic is the snapshot of the request counters, the sample's CPU, `cpuUsage` and memory and the updated statistics; it is appended to the active requests; the iteration counter advances or restarts |
| ProfilerStatService.StatService.Publish | lib/service/ProfilerStatService.js:347-380 | the statistic becomes current and is attached to every active request; the counter advances and restarts at its limit |
| ProfilerStatService.StatService.ScheduleNext | lib/service/ProfilerStatService.js:382-394 | the result is `ScheduledDelay` of the state before the call: no next sample once stopped, a throw exactly when the idle getter throws, else `NextDelay` of the current delay and the getter's answer; the idle cache and the monitoring latch end as the getter leaves them, the busy cache is unchanged |
| ProfilerStatService.ScheduledDelay | lib/service/ProfilerStatService.js:382-394 | none exactly when the delay is `DELAY_STOP`; a throw exactly when the idle getter throws; with no active request the idle getter's answer, otherwise the current delay; a truthy cached idle delay or monitoring off gives `NextDelay` over that value or the default |
| ProfilerStatService.StatService.Accumulate | lib/service/ProfilerStatService.js:289-325 | both statistics gain the sample and share the one sample count, keeping means and modes as the invariant states |
| ProfilerStatService.StatService.AttachToActive | lib/service/ProfilerStatService.js:364-366 | the loop over the active requests appends the statistic to each, keeping the registry's invariant |
| Timeline.SortPeriodOrders | lib/resources/public/js/stopwatch.js:633-635 | `sortPeriod` is negative or zero exactly when the first period starts earlier, or at the same time and ends no later; zero only for equal periods; antisymmetric |
| Timeline.SortPeriods | lib/resources/public/js/stopwatch.js:704 | `sort(sortPeriod)` yields an ascending arrangement of the same periods (a permutation) |
| Timeline.InsertPeriod | lib/resources/public/js/stopwatch.js:704 | one period inserted into an ascending list keeps it ascending and adds exactly that period |
| Timeline.SortedUnique | lib/resources/public/js/stopwatch.js:704 | two ascending arrangements of the same periods are equal, so the result does not depend on how the sort proceeds |
| Timeline.Merge | lib/resources/public/js/stopwatch.js:704-707 | concatenating then sorting: the periods are ascending and are the old ones plus the new; `firstPeriod`/`lastPeriod` are the first and last of them (undefined when none); `hasPeriods` is set; every other field kept |
| Timeline.UpdateWith | lib/resources/public/js/stopwatch.js:704-713 | the update of one key: same keys; only that entry changes, to the merge; a dataset in good order stays in good order |
| Timeline.FlattenSections | lib/resources/public/js/stopwatch.js:658-733 | the loop over the sections, the events and the nested dataset computes `Flatten` |
| Timeline.FlattenEvents | lib/resources/public/js/stopwatch.js:686-716 | the loop over one section's events computes the events' visit |
| Timeline.MergeNestedInto | lib/resources/public/js/stopwatch.js:717-729 | the `for (x in d)` loop computes the key-by-key merge of the nested dataset |
| Timeline.FlattenGood | lib/resources/public/js/stopwatch.js:658-733 | the flattened dataset has every entry under its own id, its periods ascending with `firstPeriod`/`lastPeriod` their first and last, `hasPeriods` set whenever it has periods; a section entry is category 'section' without a name, an event entry has a name and a non-empty category |
| Timeline.FlattenKeys | lib/resources/public/js/stopwatch.js:671-729 | exactly the named sections and the events with at least one period get an entry, at any depth |
| Timeline.FlattenFromFrame | lib/resources/public/js/stopwatch.js:658-733 | flattening a forest changes no key that is not the id of one of its nodes |
| Timeline.FlattenSectionEntry | lib/resources/public/js/stopwatch.js:672-714 | with node ids unique, a named section at any depth gets an entry holding exactly its own events' periods, sorted, and none of its nested sections'; it has periods iff one of its events does |
| Timeline.FlattenEventEntry | lib/resources/public/js/stopwatch.js:688-707 | with node ids unique, an event with periods gets the entry built from its section's name, its own name and category ('default' when empty), holding exactly its own periods sorted |
| Timeline.BeforeIsStrictWeakOrder | lib/resources/public/js/stopwatch.js:745-772 | the order the comparator intends is irreflexive, asymmetric, transitive, with transitive incomparability |
| Timeline.Compare | lib/resources/public/js/stopwatch.js:745-772 | an entry with periods comes before one without; two entries with periods and different first starts go by first start; otherwise a section in front compares as -1, an event before a section as 1, and two events go by last end, 0 exactly when those are equal |
| Timeline.TiedSectionsInconsistent | lib/resources/public/js/stopwatch.js:758-763 | two sections the first comparison does not separate each compare as -1 against the other |
| Timeline.CompareAgrees | lib/resources/public/js/stopwatch.js:745-772 | on every other pair the comparator is consistent and negative or positive exactly as the intended order says |
| Timeline.InsertEntry | lib/resources/public/js/stopwatch.js:745 | an entry inserted into an ordered list keeps it ordered and adds exactly that entry |
| Timeline.SortEntries | lib/resources/public/js/stopwatch.js:745 | the entries in the intended order, a permutation of the input |
| Timeline.SortEntriesDistinct | lib/resources/public/js/stopwatch.js:745 | sorting keeps distinct ids distinct |
| Timeline.Number | lib/resources/public/js/stopwatch.js:773-777 | each entry gets its position as `idx`, nothing else changes |
| Timeline.NumberOrdered | lib/resources/public/js/stopwatch.js:773-777 | numbering keeps the order |
| Timeline.NumberDistinct | lib/resources/public/js/stopwatch.js:773-777 | numbering keeps the ids distinct |
| Timeline.Plot | lib/resources/public/js/stopwatch.js:745-777 | one element per dataset entry |
| Timeline.PlotEntries | lib/resources/public/js/stopwatch.js:745-777 | over a dataset in good order: every element is the dataset's entry under its id with `idx` set, every key appears, no id twice |
| Timeline.AggregateSections | lib/resources/public/js/stopwatch.js:740-778 | flattening, sorting and numbering in a loop computes `Aggregate` |
| Timeline.AggregateEntries | lib/resources/public/js/stopwatch.js:740-778 | one element per flattened entry, each the entry under its own id with `idx` set, no id twice |
| Timeline.AggregateOrdered | lib/resources/public/js/stopwatch.js:745-772 | entries with periods come before entries without; among those with periods ascending first start; at the same start a section before an event, and events by ascending last end |
| TimelineChart.CopyAllReads | lib/resources/public/js/stopwatch.js:21-26 | copying `data` leaves an unrecognised key as it was and gives a key the prototype knows the value of its last occurrence |
| TimelineChart.CopyAllKeys | lib/resources/public/js/stopwatch.js:21-26 | copying adds no key outside the prototype's |
| TimelineChart.TimelineData.constructor | lib/resources/public/js/stopwatch.js:15-27 | fresh `periods`, `firstPeriod`, `lastPeriod`, then the copying loop over `data` |
| TimelineChart.Admitted | lib/resources/public/js/stopwatch.js:117-122 | the entries `setConfig` takes all pass its test |
| TimelineChart.AdmittedKeys | lib/resources/public/js/stopwatch.js:119 | an admitted key is already present or inherited from `Object.prototype`, and a key starting with 'fn' carries a function |
| TimelineChart.ConfigureReads | lib/resources/public/js/stopwatch.js:117-124 | after `setConfig` the configuration holds exactly its old keys plus the admitted ones; an admitted key reads its last admitted value, every other key reads as before |
| TimelineChart.TimelineGraph.constructor | lib/resources/public/js/stopwatch.js:51-84 | the entries stored with their count, `hasData` iff non-empty, `dataLastIdx` the last index; the configuration is the given defaults |
| TimelineChart.TimelineGraph.SetData | lib/resources/public/js/stopwatch.js:110-115 | the entries and count stored, `hasData` iff non-empty, `dataLastIdx` the last index (-1 when empty); the configuration is kept |
| TimelineChart.TimelineGraph.SetConfig | lib/resources/public/js/stopwatch.js:117-124 | the configuration becomes `Configure` of the old one over the given entries; the data fields are kept; returns the graph itself |

## Left out

### External effects and I/O
- Storage calls are not modelled: `createDocument`, `persist`, `flush`, `findBy`, `removeBy` and `remove` are foreign I/O. The token store is an in-memory table, and the request documents are values kept by the request service.
- Id and token generation, process sampling and clocks are not modelled. The SHA-1 request id, the `crypto.randomBytes` token text, the `pidusage` CPU, `cpuUsage` and memory readings, and the microsecond and millisecond clocks are taken as parameters.
- `os.loadavg`, `process.uptime`, `requestPerSec` and the load average of a process statistic are not modelled. They are read from the operating system and are not modelled as inputs.
- The `pid`, `createdAt` and `microtime` fields of a process statistic are not modelled, for the same reason.
- Timers are not modelled: `setTimeout`/`clearTimeout`, the ten-minute credential timer and the delay between samples. A timer firing is an operation (`HttpService.Session.TimerFires`, `ProfilerStatService.StatService.OnSample`). The delay is returned instead of scheduled.
- `global.gc` is not modelled because it is a runtime call. The `Math.random` trigger that decides the iteration counter's early restart is a boolean parameter.
- The random sweep of expired tokens is not modelled, because it is nondeterministic. `DashboardService.Service.RemoveExpiredAccessTokens` models the sweep itself.
- Asynchronous orchestration is not modelled: the Promise chains of the services and controllers and the rejections they carry. `process.nextTick` becomes the pending-removal list applied by `TimingTree.Stopwatch.FlushPending`.
- The conga-stopwatch library (`StopwatchEvent`, `StopwatchPeriod.microtime`, `removeSection`, the base `section`/`toJSON`) is not part of this model. The tree is modelled directly. Node ids stand for object identity, and removal drops every node with a pending id at any depth.
- ProfilerRequestService.RequestService.StartRequest: a newly generated id is required not to be active already. This stands in for the SHA-1 digest of the clock and a random number never colliding. On a collision the source would overwrite the registry entry and still count one more active request, so the count would exceed the registry size.
- ProfilerRequestService.RequestService.StartRequest: the `profiler.start` section the source opens and closes on the shared stopwatch around the call (`lib/service/ProfilerRequestService.js:124-126`) is not modelled. `TimingTree.Stopwatch.Request` models that operation on its own.
- DataCollector.Collector.CollectData: the microsecond clock is read once for the whole walk, while the source reads it afresh for each open period (`lib/collector/stopwatch/DataCollector.js:61`).
- `DataCollector.ReduceStopwatchData`: `preserve.section(name)` is modelled as appending a new section with the next fresh id. Whether the library would reuse a section of the same name is not part of this model.
- The CPU and memory getters `getMaxCpu` to `getAverageMemory` (`lib/service/ProfilerStatService.js:422-464`) are not modelled. They name undefined variables and would throw.
- The catch branch of `index` refers to an undefined `stopwatch` (`lib/controller/DashboardController.js:53`). It is not modelled for the same reason.

### JavaScript semantics
- Floating point is not modelled. Numbers are integers. A CPU percentage is held in hundredths, and `Math.round` is `(c + 50) / 100` rounded down (`ProfilerStatService.Round`).
- Tally.Accumulator.AddSample: the mean is the exact fraction `total / count`, not the floating-point quotient the source stores.
- The `Date` conversion of periods (`mapPeriods`) is not modelled: it is float division and belongs to rendering. Timeline periods carry only `start` and `end`.
- `Timeline.Compare`: when merging two empty periods lists leaves `firstPeriod` undefined, the source comparator would throw on `.start`. The model reads the start as 0 there. That happens only when two sections share an id and neither has periods.
- `Timeline.SortEntries` is a stable insertion sort by the intended order. For tied sections the engine's sort order follows no contract, because the comparator is inconsistent there.
- Object identity in `===` between objects is not modelled. Values are compared structurally, which agrees with `===` on the primitives the source compares.
- `Js.Entries`: a string has no keys here, while JavaScript's `for...in` enumerates its indices. None of the modelled walks is given a string.
- Integer-like keys are not moved to the front. JavaScript enumerates them first in ascending order; the model keeps insertion order for every key.
- `__proto__` as a key is not modelled, because assigning it replaces the prototype instead of storing a value.
- Strings are sequences of code points. `ConfigDataCollector.SortKeys` compares code points, where JavaScript's default sort compares UTF-16 code units. The two differ only for characters above U+FFFF.
- `TimelineChart.TimelineData.constructor`: the defaults a record reads through its prototype (`category: 'default'`, `isSection: false` and so on) are not own fields. Only the copied fields are modelled.
- `RequestMatcher.Matches`: a regular expression is a parameter that tests a pattern against a URL, with `None` when the pattern does not compile.
- `ProfilerService.Service.GetConfig`: the configuration service's `get` is a lookup in a plain object.
- `ProfilerError.Error.constructor`: a message that is not a string is not modelled. The message is a string or absent.
- `ProfilerUser.User.constructor`: `null` roles and the fields inherited from the conga-security user are not modelled.
- `HttpService.WithAuthorization`: headers given as an array or a function are left unchanged.
- The header object is copied, not mutated in place.
- The `Buffer` that encodes the credentials is modelled as UTF-8.

### Outside the core
- Rendering is not modelled: the d3/SVG/canvas work of the timeline page, `getFirstDataPeriod` and the time scale. The default chart configuration is given to `TimelineChart.TimelineGraph.constructor`.
- The Vue UI components and the page's DOM filter are not modelled.
- Plumbing and shells are not modelled:
  - the conga-security delegation;
  - the kernel and application listeners and the API controller;
  - the debug command;
  - the abstract interfaces;
  - the trivial wrappers and the field bags beyond the fields the core reads;
  - the index re-exports.

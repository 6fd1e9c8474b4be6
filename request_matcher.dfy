/**
 * `RequestMatcher`: whether a request is profiled, decided by the first
 * configured matcher that decides. A matcher is the name of a container
 * service (a leading `@` is dropped) that answers for itself, or an object
 * naming an IP address or a route pattern; anything else is a
 * configuration error.
 *
 * The container is given as the services it holds, a custom matcher as
 * the answer it gives for the request, and regular expressions as a test
 * function that says whether a pattern matches a URL (`None` when the
 * pattern is not a valid regular expression).
 */
module RequestMatcher {
  import opened Wrappers
  import opened Dict
  import Js

  /** A service the container holds: a `RequestMatcherInterface` with its answer for the request, or any other service. */
  datatype Service = Matcher(answer: Js.Value) | OtherService

  /** The request fields a matcher reads. */
  datatype Request = Request(ip: Js.Value, originalUrl: string)

  /** A regular-expression test: `Some(new RegExp(pattern).test(url))`, `None` when the pattern does not compile. */
  type RegexTest = (Js.Value, string) -> Option<bool>

  /** What one matcher does: nothing (the loop goes on), or a decision returned or thrown. */
  datatype Step = Skip | Decide(result: Result<Js.Value, Js.JsError>)

  /** The message of the configuration error for the matcher called `name`. */
  function InvalidMatcher(name: string): Js.JsError {
    Js.LogicError("Invalid matcher configuration provided as, \"" + name + "\".")
  }

  /** `sid.replace(/^@/, '')`. */
  function StripAt(sid: string): (r: string)
    ensures |sid| > 0 && sid[0] == '@' ==> sid == "@" + r
    ensures (|sid| == 0 || sid[0] != '@') ==> r == sid
  {
    if |sid| > 0 && sid[0] == '@' then sid[1..] else sid
  }

  /** The body of the loop for the matcher `name` whose configuration is `matcher`. */
  function MatcherStep(name: string, matcher: Js.Value, services: seq<(string, Service)>, request: Request, regex: RegexTest): (s: Step)
    ensures matcher.Str? && !HasKey(services, StripAt(matcher.s)) ==> s == Skip
    ensures matcher.Str? && Get(services, StripAt(matcher.s)) == Some(OtherService) ==> s == Decide(Failure(InvalidMatcher(name)))
    ensures matcher.Str? && Get(services, StripAt(matcher.s)).Some? && Get(services, StripAt(matcher.s)).value.Matcher? ==>
      s == Decide(Success(Get(services, StripAt(matcher.s)).value.answer))
    ensures matcher.Obj? && Js.Truthy(Js.Prop(matcher, "ip").value) ==>
      s == Decide(Success(Js.Bool(Js.Prop(matcher, "ip").value == request.ip)))
    ensures matcher.Obj? && !Js.Truthy(Js.Prop(matcher, "ip").value) && Js.Truthy(Js.Prop(matcher, "route").value) ==>
      s == match regex(Js.Prop(matcher, "route").value, request.originalUrl)
           case None => Decide(Failure(Js.SyntaxError))
           case Some(b) => Decide(Success(Js.Bool(b)))
    ensures matcher.Obj? && !Js.Truthy(Js.Prop(matcher, "ip").value) && !Js.Truthy(Js.Prop(matcher, "route").value) ==> s == Skip
    ensures (matcher.Arr? || matcher.Func?) ==> s == Skip
    ensures !matcher.Str? && !Js.IsObject(matcher) ==> s == Decide(Failure(InvalidMatcher(name)))
    ensures s.Decide? && s.result.Success? && !matcher.Str? ==> s.result.value.Bool?
  {
    match matcher
    case Str(sid) =>
      var service := Get(services, StripAt(sid));
      if service.None? then Skip
      else if service.value.OtherService? then Decide(Failure(InvalidMatcher(name)))
      else Decide(Success(service.value.answer))
    case Obj(_) =>
      var ip := Js.Prop(matcher, "ip").value;
      var route := Js.Prop(matcher, "route").value;
      if Js.Truthy(ip) then Decide(Success(Js.Bool(ip == request.ip)))
      else if Js.Truthy(route) then
        (match regex(route, request.originalUrl)
         case None => Decide(Failure(Js.SyntaxError))
         case Some(b) => Decide(Success(Js.Bool(b))))
      else Skip
    case Arr(_) => Skip
    case Func(_) => Skip
    case _ => Decide(Failure(InvalidMatcher(name)))
  }

  /** The loop over the matchers from the first: the first decision, or `undefined` when none decides. */
  function FirstDecision(matchers: seq<(string, Js.Value)>, services: seq<(string, Service)>, request: Request, regex: RegexTest): Result<Js.Value, Js.JsError>
    decreases |matchers|
  {
    if matchers == [] then Success(Js.Undefined)
    else
      match MatcherStep(matchers[0].0, matchers[0].1, services, request, regex)
      case Skip => FirstDecision(matchers[1..], services, request, regex)
      case Decide(r) => r
  }

  /** `matches(request)` over the profiler configuration: `false` unless `matchers` is an object. */
  function Matches(profilerConfig: Js.Value, services: seq<(string, Service)>, request: Request, regex: RegexTest): (r: Result<Js.Value, Js.JsError>)
    ensures profilerConfig.Undefined? || profilerConfig.Null? ==> r == Failure(Js.TypeError)
    ensures profilerConfig.Obj? && !Js.IsObject(Js.Prop(profilerConfig, "matchers").value) ==> r == Success(Js.Bool(false))
  {
    match Js.Prop(profilerConfig, "matchers")
    case Failure(e) => Failure(e)
    case Success(config) =>
      if !Js.IsObject(config) then Success(Js.Bool(false))
      else FirstDecision(Js.Entries(config), services, request, regex)
  }

  /**
   * The first matcher that decides fixes the result: when every matcher
   * before the `i`-th skips and the `i`-th decides, its decision is the
   * result, whatever the later matchers are.
   */
  lemma {:induction false} FirstDeciderWins(matchers: seq<(string, Js.Value)>, services: seq<(string, Service)>, request: Request, regex: RegexTest, i: nat)
    requires i < |matchers|
    requires forall j | 0 <= j < i :: MatcherStep(matchers[j].0, matchers[j].1, services, request, regex) == Skip
    requires MatcherStep(matchers[i].0, matchers[i].1, services, request, regex).Decide?
    ensures FirstDecision(matchers, services, request, regex) == MatcherStep(matchers[i].0, matchers[i].1, services, request, regex).result
    decreases i
  {
    if i > 0 {
      assert forall j | 0 <= j < i - 1 :: matchers[1..][j] == matchers[j + 1];
      FirstDeciderWins(matchers[1..], services, request, regex, i - 1);
    }
  }

  /** Later matchers are not consulted: replacing everything after the first decider leaves the result unchanged. */
  lemma LaterIgnored(matchers: seq<(string, Js.Value)>, later: seq<(string, Js.Value)>, services: seq<(string, Service)>, request: Request, regex: RegexTest, i: nat)
    requires i < |matchers|
    requires forall j | 0 <= j < i :: MatcherStep(matchers[j].0, matchers[j].1, services, request, regex) == Skip
    requires MatcherStep(matchers[i].0, matchers[i].1, services, request, regex).Decide?
    ensures FirstDecision(matchers[..i + 1] + later, services, request, regex) == FirstDecision(matchers, services, request, regex)
  {
    var m := matchers[..i + 1] + later;
    assert forall j | 0 <= j <= i :: m[j] == matchers[j];
    FirstDeciderWins(matchers, services, request, regex, i);
    FirstDeciderWins(m, services, request, regex, i);
  }

  /** When no matcher decides the result is `undefined`. */
  lemma {:induction false} NoDeciderUndefined(matchers: seq<(string, Js.Value)>, services: seq<(string, Service)>, request: Request, regex: RegexTest)
    requires forall j | 0 <= j < |matchers| :: MatcherStep(matchers[j].0, matchers[j].1, services, request, regex) == Skip
    ensures FirstDecision(matchers, services, request, regex) == Success(Js.Undefined)
    decreases |matchers|
  {
    if matchers != [] {
      assert forall j | 0 <= j < |matchers[1..]| :: matchers[1..][j] == matchers[j + 1];
      NoDeciderUndefined(matchers[1..], services, request, regex);
    }
  }

  /** `matches`, as the source computes it: a loop over the matchers that returns, or throws, at the first decision. */
  method MatchRequest(profilerConfig: Js.Value, services: seq<(string, Service)>, request: Request, regex: RegexTest)
    returns (r: Result<Js.Value, Js.JsError>)
    ensures r == Matches(profilerConfig, services, request, regex)
  {
    var read := Js.Prop(profilerConfig, "matchers");
    if read.Failure? {
      return Failure(read.error);
    }
    var config := read.value;
    if !Js.IsObject(config) {
      return Success(Js.Bool(false));
    }
    var matchers := Js.Entries(config);
    var i := 0;
    while i < |matchers|
      invariant 0 <= i <= |matchers|
      invariant FirstDecision(matchers[i..], services, request, regex) == FirstDecision(matchers, services, request, regex)
    {
      var name := matchers[i].0;
      var matcher := matchers[i].1;
      assert matchers[i..][0] == matchers[i] && matchers[i..][1..] == matchers[i + 1..];
      if matcher.Str? {
        var sid := StripAt(matcher.s);
        if HasKey(services, sid) {
          var service := Get(services, sid).value;
          if !service.Matcher? {
            return Failure(InvalidMatcher(name));
          }
          return Success(service.answer);
        }
      } else if Js.IsObject(matcher) {
        var ip := Js.Prop(matcher, "ip").value;
        var route := Js.Prop(matcher, "route").value;
        if Js.Truthy(ip) {
          return Success(Js.Bool(ip == request.ip));
        } else if Js.Truthy(route) {
          var test := regex(route, request.originalUrl);
          if test.None? {
            return Failure(Js.SyntaxError);
          }
          return Success(Js.Bool(test.value));
        }
      } else {
        return Failure(InvalidMatcher(name));
      }
      i := i + 1;
    }
    assert matchers[i..] == [];
    r := Success(Js.Undefined);
  }
}

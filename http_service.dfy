/**
 * `HttpService`: the dashboard's HTTP client. It keeps the credentials of
 * the last login for ten minutes after the last use, sends them as a Basic
 * `Authorization` header (section 2 of RFC 7617), and on a 401 or 403
 * answer remembers the route the user was on, once, and sends them to the
 * login page; after login `route` returns them there.
 *
 * The module's `let` variables are the fields of one `Session`; the Vue
 * router is a `Router` whose pushes are recorded; the ten-minute timer is
 * a flag and its firing an operation; the HTTP outcome is a parameter.
 */
module HttpService {
  import opened Wrappers
  import opened Dict
  import Js
  import Utf8
  import Base64

  /** The route `route` goes to when no denied route is saved. */
  const ProfilerRoute: Js.Value := Js.Obj([("name", Js.Str("profiler"))])

  /** The route a denied request goes to. */
  const LoginRoute: Js.Value := Js.Obj([("name", Js.Str("profiler.login"))])

  /** A credential as JavaScript tests it: a non-empty string (`null` and `''` are falsy). */
  predicate Set(v: Option<string>) {
    v.Some? && v.value != ""
  }

  /** `'Basic ' + new Buffer(username + ':' + password).toString('base64')`. */
  function BasicAuthorization(username: string, password: string): (h: string)
    ensures |h| >= 6 && h[..6] == "Basic "
  {
    "Basic " + Base64.Encode(Utf8.Encode(username + ":" + password))
  }

  /** The server reads the user and password back from the header. */
  lemma BasicAuthorizationDecodes(username: string, password: string)
    ensures var h := BasicAuthorization(username, password);
      && Base64.Decode(h[6..]).Some?
      && Utf8.Decode(Base64.Decode(h[6..]).value) == Some(username + ":" + password)
  {
    var h := BasicAuthorization(username, password);
    assert h[6..] == Base64.Encode(Utf8.Encode(username + ":" + password));
    Base64.DecodeEncode(Utf8.Encode(username + ":" + password));
    Utf8.DecodeEncode(username + ":" + password);
  }

  /** A user name without `:` is told apart from the password in the header. */
  lemma BasicUserRecoverable(username: string, password: string, i: nat)
    requires ':' !in username
    requires i == |username|
    ensures (username + ":" + password)[..i] == username
    ensures (username + ":" + password)[i] == ':'
    ensures (username + ":" + password)[i + 1..] == password
  {
  }

  /** `Object.assign({}, route)`: a copy of the route's own fields. */
  function Copy(route: Js.Value): (r: Js.Value)
    ensures r.Obj?
    ensures route.Obj? && Valid(route.fields) ==> forall k :: Get(r.fields, k) == Get(route.fields, k)
  {
    var c := Assign([], Js.Entries(route));
    assert route.Obj? && Valid(route.fields) ==> forall k :: LastValue(route.fields, k) == Get(route.fields, k) by {
      if route.Obj? && Valid(route.fields) {
        forall k
          ensures LastValue(route.fields, k) == Get(route.fields, k)
        {
          LastValueOfValid(route.fields, k);
        }
      }
    }
    Js.Obj(c)
  }

  /**
   * The body of `checkOptions` once both credentials are set: a copy of
   * the options (`{headers: {}}` when they are falsy) whose `headers` carry
   * `Authorization`. Writing the header onto `headers` that are `null`,
   * `undefined` or a primitive is a TypeError (module code is strict).
   */
  function WithAuthorization(options: Js.Value, authorization: string): (r: Result<Js.Value, Js.JsError>)
    ensures r.Success? ==> r.value.Obj?
    ensures r.Failure? ==> r.error == Js.TypeError
  {
    var given := if Js.Truthy(options) then options else Js.Obj([]);
    var merged := Assign([("headers", Js.Obj([]))], Js.Entries(given));
    var headers := Get(merged, "headers").value;
    match headers
    case Obj(h) => Success(Js.Obj(Put(merged, "headers", Js.Obj(Put(h, "Authorization", Js.Str(authorization))))))
    case Arr(_) => Success(Js.Obj(merged))
    case Func(_) => Success(Js.Obj(merged))
    case _ => Failure(Js.TypeError)
  }

  /** Falsy options become `{headers: {Authorization}}`. */
  lemma AuthorizationOfNothing(options: Js.Value, authorization: string)
    requires !Js.Truthy(options)
    ensures WithAuthorization(options, authorization) == Success(Js.Obj([("headers", Js.Obj([("Authorization", Js.Str(authorization))]))]))
  {
    var merged := Assign([("headers", Js.Obj([]))], Js.Entries(Js.Obj([])));
    assert merged == [("headers", Js.Obj([]))];
    assert Get(merged, "headers") == Some(Js.Obj([]));
    var headers := Put([], "Authorization", Js.Str(authorization));
    assert headers == [("Authorization", Js.Str(authorization))];
    assert Put(merged, "headers", Js.Obj(headers)) == [("headers", Js.Obj(headers))];
  }

  /** `{headers: {}}` with the options assigned over it: `headers` reads as in the options, defaulting to `{}`. */
  lemma MergedHeaders(fields: seq<(string, Js.Value)>)
    requires Valid(fields)
    ensures Get(Assign([("headers", Js.Obj([]))], fields), "headers") == Some(Get(fields, "headers").GetOr(Js.Obj([])))
  {
    LastValueOfValid(fields, "headers");
  }

  /** `{headers: {}}` with the options assigned over it: any other key reads as in the options. */
  lemma MergedOther(fields: seq<(string, Js.Value)>, k: string)
    requires Valid(fields) && k != "headers"
    ensures Get(Assign([("headers", Js.Obj([]))], fields), k) == Get(fields, k)
  {
    LastValueOfValid(fields, k);
  }

  /** With well-formed options, the header can be written exactly when `headers` (default `{}`) is an object. */
  lemma AuthorizationNeedsObject(fields: seq<(string, Js.Value)>, authorization: string)
    requires Valid(fields)
    ensures WithAuthorization(Js.Obj(fields), authorization).Success? <==> Js.IsObject(Get(fields, "headers").GetOr(Js.Obj([])))
  {
    MergedHeaders(fields);
  }

  /**
   * Options with well-formed fields and object `headers` (or none) keep
   * every option but `headers`; the headers keep every header and gain
   * `Authorization`.
   */
  lemma AuthorizationAdded(fields: seq<(string, Js.Value)>, authorization: string)
    requires Valid(fields)
    requires Get(fields, "headers").GetOr(Js.Obj([])).Obj?
    ensures var r := WithAuthorization(Js.Obj(fields), authorization);
      var headers := Get(fields, "headers").GetOr(Js.Obj([]));
      && r.Success?
      && (forall k | k != "headers" :: Get(r.value.fields, k) == Get(fields, k))
      && Get(r.value.fields, "headers") == Some(Js.Obj(Put(headers.fields, "Authorization", Js.Str(authorization))))
  {
    var merged := Assign([("headers", Js.Obj([]))], fields);
    var headers := Get(fields, "headers").GetOr(Js.Obj([]));
    MergedHeaders(fields);
    assert Get(merged, "headers").value == headers;
    var updated := Put(merged, "headers", Js.Obj(Put(headers.fields, "Authorization", Js.Str(authorization))));
    assert WithAuthorization(Js.Obj(fields), authorization) == Success(Js.Obj(updated));
    forall k | k != "headers"
      ensures Get(updated, k) == Get(fields, k)
    {
      UpdatedOther(fields, Js.Obj(Put(headers.fields, "Authorization", Js.Str(authorization))), k);
    }
  }

  /** Replacing `headers` in the merged options leaves every other key reading as in the options. */
  lemma UpdatedOther(fields: seq<(string, Js.Value)>, headers: Js.Value, k: string)
    requires Valid(fields) && k != "headers"
    ensures Get(Put(Assign([("headers", Js.Obj([]))], fields), "headers", headers), k) == Get(fields, k)
  {
    MergedOther(fields, k);
  }

  /** The Vue router: the routes pushed onto it, and the current one. */
  class Router {
    var pushed: seq<Js.Value>
    var current: Js.Value

    constructor(current: Js.Value)
      ensures pushed == [] && this.current == current
    {
      pushed := [];
      this.current := current;
    }

    /** `$router.push(route)`. */
    method Push(route: Js.Value)
      modifies this
      ensures pushed == old(pushed) + [route] && current == old(current)
    {
      pushed := pushed + [route];
    }
  }

  class Session {
    var username: Option<string>
    var password: Option<string>
    var deniedRoute: Option<Js.Value>
    /** Whether the ten-minute credential timer is pending. */
    var timerPending: bool

    constructor()
      ensures username == None && password == None && deniedRoute == None && !timerPending
    {
      username := None;
      password := None;
      deniedRoute := None;
      timerPending := false;
    }

    /** `checkOptions(options)`: the Basic header is added only when both credentials are set. */
    function CheckOptions(options: Js.Value): (r: Result<Js.Value, Js.JsError>)
      reads this
      ensures !(Set(username) && Set(password)) ==> r == Success(options)
      ensures r.Failure? ==> r.error == Js.TypeError
    {
      if !(Set(username) && Set(password)) then Success(options)
      else WithAuthorization(options, BasicAuthorization(username.value, password.value))
    }

    /** `checkTimer()`: the ten-minute timer starts again. */
    method CheckTimer()
      modifies this
      ensures timerPending
      ensures username == old(username) && password == old(password) && deniedRoute == old(deniedRoute)
    {
      timerPending := true;
    }

    /** The timer firing ten minutes after the last use: the credentials are forgotten, and the timer is spent. */
    method TimerFires()
      requires timerPending
      modifies this
      ensures username == None && password == None && !timerPending
      ensures deniedRoute == old(deniedRoute)
    {
      username := None;
      password := None;
      timerPending := false;
    }

    /** `authenticate(user, pass)` (`None` for `null` or `undefined`). */
    method Authenticate(user: Option<string>, pass: Option<string>)
      modifies this
      ensures username == user && password == pass && timerPending
      ensures deniedRoute == old(deniedRoute)
    {
      username := user;
      password := pass;
      CheckTimer();
    }

    /** `route($router)`: back to the saved denied route, which is cleared, or to the profiler. */
    method Route(router: Router)
      modifies this, router
      ensures router.pushed == old(router.pushed) + [if old(deniedRoute).Some? then old(deniedRoute).value else ProfilerRoute]
      ensures router.current == old(router.current)
      ensures deniedRoute == None
      ensures username == old(username) && password == old(password) && timerPending == old(timerPending)
    {
      var route := ProfilerRoute;
      if deniedRoute.Some? {
        route := deniedRoute.value;
        deniedRoute := None;
      }
      router.Push(route);
    }

    /**
     * `get($http, $router, url, options)`, the request answered with
     * `failure` (`None` when it succeeds, otherwise the status of the
     * rejected response): the options the request is sent with. On a 401
     * or 403 the current route is saved unless one is saved already, and
     * the login route is pushed.
     */
    method Get(router: Router, options: Js.Value, failure: Option<int>) returns (sent: Result<Js.Value, Js.JsError>)
      modifies this, router
      ensures timerPending && username == old(username) && password == old(password)
      ensures sent == CheckOptions(options)
      ensures var denied := sent.Success? && failure.Some? && (failure.value == 401 || failure.value == 403);
        && router.pushed == old(router.pushed) + (if denied then [LoginRoute] else [])
        && deniedRoute == (if denied && old(deniedRoute).None? then Some(Copy(old(router.current))) else old(deniedRoute))
      ensures router.current == old(router.current)
    {
      CheckTimer();
      sent := CheckOptions(options);
      if sent.Failure? {
        return;
      }
      if failure.Some? && (failure.value == 401 || failure.value == 403) {
        if deniedRoute.None? {
          deniedRoute := Some(Copy(router.current));
        }
        router.Push(LoginRoute);
      }
    }
  }
}

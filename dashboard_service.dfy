/**
 * `DashboardService`: the dashboard's access tokens and its lookup of data
 * collectors by name. A token lives for two hours after it was issued or
 * last checked (a sliding expiry); checking an expired token deletes it.
 *
 * The token store is modelled as an in-memory table in store order, the
 * clock (milliseconds) and the random token text are parameters, and the
 * collectors registered under the data-collector tag are given in tag
 * order.
 */
module DashboardService {
  import opened Wrappers

  /** `MAX_STALE_LIFETIME`: two hours, in milliseconds. */
  const MaxStaleLifetime: int := 3600 * 2 * 1000

  /** An `AccessToken` document: the token text and when it expires (ms). */
  datatype AccessToken = AccessToken(token: string, expiresAt: int)

  /** A registered data collector, with its answers to `getName`, `isEnabled` (as truthiness) and `hasDashboard`. */
  datatype Collector = Collector(name: string, enabled: bool, hasDashboard: bool)

  /** `findOneBy('AccessToken', {token})`: the position of the first document with this token. */
  function FindToken(tokens: seq<AccessToken>, token: string): (r: Option<nat>)
    ensures r.Some? ==> r.value < |tokens| && tokens[r.value].token == token
    ensures r.Some? ==> forall j | 0 <= j < r.value :: tokens[j].token != token
    ensures r.None? ==> forall j | 0 <= j < |tokens| :: tokens[j].token != token
    decreases |tokens|
  {
    if tokens == [] then None
    else if tokens[0].token == token then Some(0)
    else match FindToken(tokens[1..], token)
      case None => None
      case Some(i) => Some(i + 1)
  }

  /**
   * `isAccessToken(token)` at time `now`: the answer and the new table. An
   * unknown token is refused; an expired one (`now >= expiresAt`) is
   * refused and deleted; a valid one is accepted and its expiry slides to
   * `now + MAX_STALE_LIFETIME`.
   */
  function Check(tokens: seq<AccessToken>, token: string, now: int): (r: (bool, seq<AccessToken>))
    ensures FindToken(tokens, token).None? ==> r == (false, tokens)
    ensures r.0 <==> FindToken(tokens, token).Some? && now < tokens[FindToken(tokens, token).value].expiresAt
    ensures r.0 ==> |r.1| == |tokens| && r.1[FindToken(tokens, token).value].expiresAt == now + MaxStaleLifetime
    ensures r.0 ==> forall j | 0 <= j < |tokens| && j != FindToken(tokens, token).value :: r.1[j] == tokens[j]
    ensures !r.0 && FindToken(tokens, token).Some? ==>
      var i := FindToken(tokens, token).value;
      r.1 == tokens[..i] + tokens[i + 1..]
  {
    match FindToken(tokens, token)
    case None => (false, tokens)
    case Some(i) =>
      if now >= tokens[i].expiresAt then (false, tokens[..i] + tokens[i + 1..])
      else (true, tokens[i := tokens[i].(expiresAt := now + MaxStaleLifetime)])
  }

  /** A token accepted at `now` is accepted again at any time before two more hours have passed. */
  lemma StaysValid(tokens: seq<AccessToken>, token: string, now: int, later: int)
    requires Check(tokens, token, now).0
    requires now <= later < now + MaxStaleLifetime
    ensures Check(Check(tokens, token, now).1, token, later).0
  {
    var i := FindToken(tokens, token).value;
    var t := Check(tokens, token, now).1;
    assert forall j | 0 <= j < i :: t[j] == tokens[j];
    assert FindToken(t, token) == Some(i) by {
      FindFirst(t, token, i);
    }
  }

  /** A token not checked for two hours or more is refused and deleted. */
  lemma ExpiresAfterIdle(tokens: seq<AccessToken>, token: string, now: int, later: int)
    requires Check(tokens, token, now).0
    requires later >= now + MaxStaleLifetime
    ensures !Check(Check(tokens, token, now).1, token, later).0
    ensures |Check(Check(tokens, token, now).1, token, later).1| == |tokens| - 1
  {
    var i := FindToken(tokens, token).value;
    var t := Check(tokens, token, now).1;
    assert forall j | 0 <= j < i :: t[j] == tokens[j];
    FindFirst(t, token, i);
  }

  /** The first position holding the token is what `FindToken` finds. */
  lemma {:induction false} FindFirst(tokens: seq<AccessToken>, token: string, i: nat)
    requires i < |tokens| && tokens[i].token == token
    requires forall j | 0 <= j < i :: tokens[j].token != token
    ensures FindToken(tokens, token) == Some(i)
  {
    if i > 0 {
      assert forall j | 0 <= j < i - 1 :: tokens[1..][j] == tokens[j + 1];
      FindFirst(tokens[1..], token, i - 1);
    }
  }

  /** `removeBy('AccessToken', {expiresAt: {lte: now}})`: the tokens still valid at `now`, in order. */
  function Unexpired(tokens: seq<AccessToken>, now: int): (r: seq<AccessToken>)
    ensures |r| <= |tokens|
    decreases |tokens|
  {
    if tokens == [] then []
    else (if tokens[0].expiresAt > now then [tokens[0]] else []) + Unexpired(tokens[1..], now)
  }

  /** The sweep keeps exactly the tokens that expire after `now`. */
  lemma {:induction false} UnexpiredMembers(tokens: seq<AccessToken>, now: int)
    ensures forall t | t in Unexpired(tokens, now) :: t in tokens && t.expiresAt > now
    ensures forall t | t in tokens && t.expiresAt > now :: t in Unexpired(tokens, now)
    decreases |tokens|
  {
    if tokens != [] {
      UnexpiredMembers(tokens[1..], now);
      assert tokens == [tokens[0]] + tokens[1..];
    }
  }

  /** The first collector in tag order whose `getName()` is `name`. */
  function FindCollector(collectors: seq<Collector>, name: string): (r: Option<Collector>)
    ensures r.Some? ==> r.value in collectors && r.value.name == name
    ensures r.None? <==> forall c | c in collectors :: c.name != name
    decreases |collectors|
  {
    if collectors == [] then None
    else if collectors[0].name == name then Some(collectors[0])
    else
      assert forall c | c in collectors :: c == collectors[0] || c in collectors[1..];
      FindCollector(collectors[1..], name)
  }

  /** The collector found is the first one with that name. */
  lemma {:induction false} FindCollectorFirst(collectors: seq<Collector>, name: string) returns (i: nat)
    requires FindCollector(collectors, name).Some?
    ensures i < |collectors| && collectors[i] == FindCollector(collectors, name).value
    ensures forall j | 0 <= j < i :: collectors[j].name != name
    decreases |collectors|
  {
    if collectors[0].name == name {
      i := 0;
    } else {
      var k := FindCollectorFirst(collectors[1..], name);
      i := k + 1;
      assert forall j | 0 < j < i :: collectors[j] == collectors[1..][j - 1];
    }
  }

  /** The dashboard service: the token table and the registered collectors. */
  class Service {
    var tokens: seq<AccessToken>
    const collectors: seq<Collector>

    constructor(tokens: seq<AccessToken>, collectors: seq<Collector>)
      ensures this.tokens == tokens && this.collectors == collectors
    {
      this.tokens := tokens;
      this.collectors := collectors;
    }

    /** `generateAccessToken()` with the random token text `hex` at time `now`: a new token valid for two hours is stored. */
    method GenerateAccessToken(hex: string, now: int) returns (doc: AccessToken)
      modifies this
      ensures doc == AccessToken(hex, now + MaxStaleLifetime)
      ensures tokens == old(tokens) + [doc]
    {
      doc := AccessToken(hex, now + MaxStaleLifetime);
      tokens := tokens + [doc];
    }

    /** `isAccessToken(token)` at time `now`. */
    method IsAccessToken(token: string, now: int) returns (valid: bool)
      modifies this
      ensures (valid, tokens) == Check(old(tokens), token, now)
    {
      var found := FindToken(tokens, token);
      if found.None? {
        return false;
      }
      var i := found.value;
      valid := true;
      if now >= tokens[i].expiresAt {
        tokens := tokens[..i] + tokens[i + 1..];
        valid := false;
      }
      if valid {
        tokens := tokens[i := tokens[i].(expiresAt := now + MaxStaleLifetime)];
      }
    }

    /** `removeExpiredAccessTokens()` at time `now`. */
    method RemoveExpiredAccessTokens(now: int)
      modifies this
      ensures tokens == Unexpired(old(tokens), now)
    {
      var all := tokens;
      var kept: seq<AccessToken> := [];
      var i := 0;
      while i < |all|
        invariant 0 <= i <= |all|
        invariant kept + Unexpired(all[i..], now) == Unexpired(all, now)
      {
        var t := all[i];
        assert all[i..] == [t] + all[i + 1..];
        var rest := Unexpired(all[i + 1..], now);
        if t.expiresAt > now {
          assert kept + ([t] + rest) == (kept + [t]) + rest;
          kept := kept + [t];
        }
        i := i + 1;
      }
      assert all[i..] == [];
      tokens := kept;
    }

    /** `getCollector(name)`: a loop over the tags returning the first collector with that name, else `null`. */
    method GetCollector(name: string) returns (c: Option<Collector>)
      ensures c == FindCollector(collectors, name)
    {
      var i := 0;
      while i < |collectors|
        invariant 0 <= i <= |collectors|
        invariant FindCollector(collectors[i..], name) == FindCollector(collectors, name)
      {
        assert collectors[i..][0] == collectors[i] && collectors[i..][1..] == collectors[i + 1..];
        if collectors[i].name == name {
          return Some(collectors[i]);
        }
        i := i + 1;
      }
      assert collectors[i..] == [];
      return None;
    }
  }

  /** A freshly generated token is accepted until two hours have passed, when no older token has the same text. */
  lemma GeneratedIsValid(tokens: seq<AccessToken>, hex: string, now: int, later: int)
    requires forall t | t in tokens :: t.token != hex
    requires later < now + MaxStaleLifetime
    ensures Check(tokens + [AccessToken(hex, now + MaxStaleLifetime)], hex, later).0
  {
    var t := tokens + [AccessToken(hex, now + MaxStaleLifetime)];
    assert forall j | 0 <= j < |tokens| :: t[j] == tokens[j] && tokens[j] in tokens;
    FindFirst(t, hex, |tokens|);
  }
}

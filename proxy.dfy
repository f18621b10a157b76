/** The serverless proxy `GET /api/board?boardId=<id>&access=<token>`: an
    ordered chain of checks (shared secret, board id, upstream credentials),
    then four upstream reads whose results are forwarded with a short-lived
    cache directive. The upstream is a parameter: a function from a URL to
    what reading it gives, a parsed JSON document or a failure. */
module Proxy {
  import opened Board

  /** A query parameter: absent, given once (a string) or repeated (an array). */
  datatype QueryValue = Absent | Text(s: string) | Repeated(items: seq<string>)

  /** `req.query`: missing altogether reads as `{}`. */
  datatype Query = Query(boardId: QueryValue, access: QueryValue)

  /** The environment: `PUBLIC_DASHBOARD_TOKEN`, `TRELLO_KEY`, `TRELLO_TOKEN`. */
  datatype Env = Env(publicToken: Option<string>, trelloKey: Option<string>, trelloToken: Option<string>)

  /** What `fetch(url).then(r => r.json())` settles to: the parsed document
      (kept as its text) or a rejection with a message. */
  datatype Fetched = Parsed(json: string) | Failed(message: string)

  datatype Body =
    | ErrorBody(error: string, details: Option<string>)
    | Payload(board: string, lists: string, cards: string, members: string)

  /** The status, the body, and whether the `Cache-Control` header was set. */
  datatype Reply = Reply(status: int, body: Body, cached: bool)

  const Unauthorized := "unauthorized"
  const MissingBoardId := "missing boardId"
  const NotConfigured := "TRELLO_KEY or TRELLO_TOKEN not configured"
  const InternalError := "internal_error"
  const Base := "https://api.trello.com/1"
  const CacheControl := "Cache-Control"
  const CacheDirective := "s-maxage=60, stale-while-revalidate=300"

  /** A truthy environment variable: set and not empty. */
  function Truthy(v: Option<string>): bool
  {
    v.Some? && v.value != ""
  }

  function QueryOf(q: Option<Query>): Query
  {
    if q.Some? then q.value else Query(Absent, Absent)
  }

  /** `required && access !== required`: only the very same string passes. */
  function Denied(q: Option<Query>, env: Env): bool
  {
    Truthy(env.publicToken) && QueryOf(q).access != Text(env.publicToken.value)
  }

  /** `!boardId || typeof boardId !== "string"`. */
  function BadBoardId(q: Option<Query>): bool
  {
    !(QueryOf(q).boardId.Text? && QueryOf(q).boardId.s != "")
  }

  function Unconfigured(env: Env): bool
  {
    !Truthy(env.trelloKey) || !Truthy(env.trelloToken)
  }

  /** The checks before any upstream read, in the order the handler makes
      them; `None` when every check passes. */
  function EarlyReply(q: Option<Query>, env: Env): (r: Option<Reply>)
    ensures r.Some? <==> Denied(q, env) || BadBoardId(q) || Unconfigured(env)
    ensures r.Some? ==> !r.value.cached && r.value.body.ErrorBody? && r.value.body.details.None?
  {
    if Denied(q, env) then Some(Reply(401, ErrorBody(Unauthorized, None), false))
    else if BadBoardId(q) then Some(Reply(400, ErrorBody(MissingBoardId, None), false))
    else if Unconfigured(env) then Some(Reply(500, ErrorBody(NotConfigured, None), false))
    else None
  }

  /** `key=${key}&token=${token}`. */
  function Auth(key: string, token: string): string
  {
    "key=" + key + "&token=" + token
  }

  const BoardFields := "?fields=name,url&"
  const ListFields := "/lists?fields=id,name,pos&"
  const CardFields := "/cards?fields=id,name,idList,labels,dateLastActivity,shortUrl,closed,idMembers,due&"
  const MemberFields := "/members?fields=id,fullName,username,initials&"

  function BoardPrefix(boardId: string): string
  {
    Base + "/boards/" + boardId
  }

  /** The four upstream URLs: the board, its lists, its cards and its
      members. Each starts with the board's address, the id spliced in as
      given, and ends with the credentials. */
  function UpstreamUrls(boardId: string, key: string, token: string): (urls: seq<string>)
    ensures |urls| == 4
    ensures forall i :: 0 <= i < 4 ==>
              |BoardPrefix(boardId)| + |Auth(key, token)| <= |urls[i]|
              && urls[i][..|BoardPrefix(boardId)|] == BoardPrefix(boardId)
              && urls[i][|urls[i]| - |Auth(key, token)|..] == Auth(key, token)
  {
    var prefix := BoardPrefix(boardId);
    var auth := Auth(key, token);
    var paths := [BoardFields, ListFields, CardFields, MemberFields];
    var urls := seq(4, i requires 0 <= i < 4 => prefix + paths[i] + auth);
    forall i | 0 <= i < 4
      ensures urls[i][..|prefix|] == prefix && urls[i][|urls[i]| - |auth|..] == auth
    {
      assert urls[i] == prefix + (paths[i] + auth);
      assert urls[i] == (prefix + paths[i]) + auth;
    }
    urls
  }

  /** The URLs the handler reads: none when it returns early. */
  function UpstreamCalls(q: Option<Query>, env: Env): (urls: seq<string>)
    ensures EarlyReply(q, env).Some? ==> urls == []
    ensures EarlyReply(q, env).None? ==> |urls| == 4
  {
    if EarlyReply(q, env).Some? then []
    else UpstreamUrls(QueryOf(q).boardId.s, env.trelloKey.value, env.trelloToken.value)
  }

  /** The message of the first failed read, if any. */
  function FirstFailure(results: seq<Fetched>): (m: Option<string>)
    ensures m.None? <==> forall i :: 0 <= i < |results| ==> results[i].Parsed?
  {
    if results == [] then None
    else if results[0].Failed? then Some(results[0].message)
    else
      var rest := FirstFailure(results[1..]);
      assert forall i :: 1 <= i < |results| ==> results[i] == results[1..][i - 1];
      rest
  }

  /** The message reported is the one of the first read that failed. */
  lemma {:induction false} FirstFailureAt(results: seq<Fetched>, k: nat)
    requires k < |results| && results[k].Failed?
    requires forall i :: 0 <= i < k ==> results[i].Parsed?
    ensures FirstFailure(results) == Some(results[k].message)
  {
    if k > 0 {
      assert results[1..][k - 1] == results[k];
      FirstFailureAt(results[1..], k - 1);
    }
  }

  /** `Promise.all` over the reads, then the 200 reply, or the `catch`. */
  function Forward(results: seq<Fetched>): (r: Reply)
    requires |results| == 4
    ensures r.status == 200 <==> forall i :: 0 <= i < 4 ==> results[i].Parsed?
  {
    var failure := FirstFailure(results);
    if failure.Some? then Reply(500, ErrorBody(InternalError, failure), false)
    else Reply(200, Payload(results[0].json, results[1].json, results[2].json, results[3].json), true)
  }

  /** `handler(req, res)`, as a value. */
  function Handle(q: Option<Query>, env: Env, upstream: string -> Fetched): (r: Reply)
    ensures EarlyReply(q, env).Some? ==> r == EarlyReply(q, env).value
    ensures EarlyReply(q, env).None? ==>
              (r.status == 200 <==> forall u :: u in UpstreamCalls(q, env) ==> upstream(u).Parsed?)
  {
    var early := EarlyReply(q, env);
    if early.Some? then early.value
    else
      var urls := UpstreamCalls(q, env);
      var results := [upstream(urls[0]), upstream(urls[1]), upstream(urls[2]), upstream(urls[3])];
      assert urls == [urls[0], urls[1], urls[2], urls[3]];
      Forward(results)
  }

  /** A configured shared secret is checked before anything else: a request
      without exactly that `access` string gets 401, whatever else it holds. */
  lemma DeniedFirst(q: Option<Query>, env: Env, upstream: string -> Fetched)
    requires Truthy(env.publicToken) && QueryOf(q).access != Text(env.publicToken.value)
    ensures Handle(q, env, upstream) == Reply(401, ErrorBody(Unauthorized, None), false)
  {
  }

  /** Without a configured secret, `access` plays no part. */
  lemma AccessIgnored(b: QueryValue, a1: QueryValue, a2: QueryValue, env: Env, upstream: string -> Fetched)
    requires !Truthy(env.publicToken)
    ensures Handle(Some(Query(b, a1)), env, upstream) == Handle(Some(Query(b, a2)), env, upstream)
  {
  }

  /** A request that passes the secret but lacks a non-empty string
      `boardId` gets 400. */
  lemma MissingBoardFirst(q: Option<Query>, env: Env, upstream: string -> Fetched)
    requires !Denied(q, env) && BadBoardId(q)
    ensures Handle(q, env, upstream) == Reply(400, ErrorBody(MissingBoardId, None), false)
  {
  }

  /** Missing credentials give 500 before any upstream read. */
  lemma CredentialsChecked(q: Option<Query>, env: Env, upstream: string -> Fetched)
    requires !Denied(q, env) && !BadBoardId(q) && Unconfigured(env)
    ensures Handle(q, env, upstream) == Reply(500, ErrorBody(NotConfigured, None), false)
    ensures UpstreamCalls(q, env) == []
  {
  }

  /** The reply depends on the upstream only through the URLs it reads;
      after an early return it does not depend on it at all. */
  lemma OnlyCallsMatter(q: Option<Query>, env: Env, up1: string -> Fetched, up2: string -> Fetched)
    requires forall u :: u in UpstreamCalls(q, env) ==> up1(u) == up2(u)
    ensures Handle(q, env, up1) == Handle(q, env, up2)
  {
    var urls := UpstreamCalls(q, env);
    if EarlyReply(q, env).None? {
      assert urls[0] in urls && urls[1] in urls && urls[2] in urls && urls[3] in urls;
    }
  }

  /** When every check passes, the reply is 200 with the four documents and
      the cache directive exactly when all four reads succeed, and otherwise
      500 `internal_error` with the message of the first failed read in URL order. */
  lemma Forwarded(q: Option<Query>, env: Env, upstream: string -> Fetched)
    requires EarlyReply(q, env).None?
    ensures var urls := UpstreamCalls(q, env);
            var r := Handle(q, env, upstream);
            && ((forall i :: 0 <= i < 4 ==> upstream(urls[i]).Parsed?) ==>
                  r == Reply(200, Payload(upstream(urls[0]).json, upstream(urls[1]).json,
                                          upstream(urls[2]).json, upstream(urls[3]).json), true))
            && (forall k :: 0 <= k < 4 && upstream(urls[k]).Failed?
                               && (forall i :: 0 <= i < k ==> upstream(urls[i]).Parsed?) ==>
                  r == Reply(500, ErrorBody(InternalError, Some(upstream(urls[k]).message)), false))
  {
    var urls := UpstreamCalls(q, env);
    var results := [upstream(urls[0]), upstream(urls[1]), upstream(urls[2]), upstream(urls[3])];
    assert forall i :: 0 <= i < 4 ==> results[i] == upstream(urls[i]);
    forall k | 0 <= k < 4 && results[k].Failed? && (forall i :: 0 <= i < k ==> results[i].Parsed?)
      ensures FirstFailure(results) == Some(results[k].message)
    {
      FirstFailureAt(results, k);
    }
  }

  /** Every reply is one of the four documented ones, and only a 200 carries
      the cache directive. */
  lemma ReplyShapes(q: Option<Query>, env: Env, upstream: string -> Fetched)
    ensures var r := Handle(q, env, upstream);
            && r.status in {200, 400, 401, 500}
            && (r.cached <==> r.status == 200)
            && (r.status == 200 <==> r.body.Payload?)
  {
  }

  /** The `res` object: a status code (200 until set), the headers set so
      far, and the JSON body once sent. */
  class Response {
    var statusCode: int
    var headers: seq<(string, string)>
    var body: Option<Body>

    constructor()
      ensures statusCode == 200 && headers == [] && body == None
    {
      statusCode := 200;
      headers := [];
      body := None;
    }

    /** `res.setHeader(name, value)`. */
    method SetHeader(name: string, value: string)
      modifies this
      ensures headers == old(headers) + [(name, value)]
      ensures statusCode == old(statusCode) && body == old(body)
    {
      headers := headers + [(name, value)];
    }

    /** `res.status(code)`. */
    method Status(code: int)
      modifies this
      ensures statusCode == code
      ensures headers == old(headers) && body == old(body)
    {
      statusCode := code;
    }

    /** `.json(b)`. */
    method Json(b: Body)
      modifies this
      ensures body == Some(b)
      ensures statusCode == old(statusCode) && headers == old(headers)
    {
      body := Some(b);
    }
  }

  /** `handler(req, res)`: the checks, then the reads, then the reply written
      onto a fresh response. */
  method Handler(q: Option<Query>, env: Env, upstream: string -> Fetched) returns (res: Response)
    ensures fresh(res)
    ensures res.statusCode == Handle(q, env, upstream).status
    ensures res.body == Some(Handle(q, env, upstream).body)
    ensures res.headers == if Handle(q, env, upstream).cached then [(CacheControl, CacheDirective)] else []
  {
    res := new Response();
    var query := QueryOf(q);
    var required := env.publicToken;
    if Truthy(required) && query.access != Text(required.value) {
      res.Status(401);
      res.Json(ErrorBody(Unauthorized, None));
      return;
    }
    if !(query.boardId.Text? && query.boardId.s != "") {
      res.Status(400);
      res.Json(ErrorBody(MissingBoardId, None));
      return;
    }
    var key, token := env.trelloKey, env.trelloToken;
    if !Truthy(key) || !Truthy(token) {
      res.Status(500);
      res.Json(ErrorBody(NotConfigured, None));
      return;
    }
    var urls := UpstreamUrls(query.boardId.s, key.value, token.value);
    var results := [upstream(urls[0]), upstream(urls[1]), upstream(urls[2]), upstream(urls[3])];
    var failure := FirstFailure(results);
    if failure.Some? {
      res.Status(500);
      res.Json(ErrorBody(InternalError, failure));
      return;
    }
    res.SetHeader(CacheControl, CacheDirective);
    res.Status(200);
    res.Json(Payload(results[0].json, results[1].json, results[2].json, results[3].json));
  }
}

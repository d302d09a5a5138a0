/**
 * The request handler, without the HTTP transport: which handler a path
 * reaches, how a submitted prompt is checked and stored, and which status
 * code and payload a status or result query answers with.
 */
module Proxy {
  import opened Options
  import opened Storage
  import opened Text
  import opened Lifecycle

  const OK := 200
  const ACCEPTED := 202
  const BAD_REQUEST := 400
  const NOT_FOUND := 404

  /** The submission path, and the prefix of every query path. */
  const PromptPath: string := "/api/v1/prompt"
  const QueryPrefix: string := "/api/v1/prompt/"

  /** The JSON objects the handler writes. */
  datatype Payload =
    | IdOnly(id: string)
    | IdStatus(id: string, status: string)
    | IdStatusResult(id: string, status: string, result: Option<string>)
    | ErrorMessage(error: string)

  datatype Response =
    | Json(code: int, payload: Payload)        // a JSON reply
    | HttpError(code: int, message: string)    // the server's own error page
    | IndexPage                                // the static front page
    | Aborted                                  // an exception escaped: no reply is written

  /** The `"prompt"` member of a decoded JSON object. */
  datatype PromptField =
    | Absent          // missing, null, or any other value Python treats as false
    | Str(s: string)  // a string
    | NonText         // a true-valued non-string (a number, a list, ...)

  /** The request body as JSON decoding left it; an empty body decodes to `{}`. */
  datatype Body =
    | InvalidJson
    | NotAnObject           // valid JSON that has no `get` (a list, a number, ...)
    | Object(prompt: PromptField)

  /** The outcome of checking the `"prompt"` member. */
  datatype CheckedPrompt = Accepted(prompt: string) | Blank | Unusable

  /** Strip surrounding whitespace; refuse what is then empty. */
  function CheckPrompt(f: PromptField): (c: CheckedPrompt)
    ensures c.Unusable? <==> f.NonText?
    ensures c.Blank? <==> f.Absent? || (f.Str? && forall k :: 0 <= k < |f.s| ==> IsPythonSpace(f.s[k]))
    ensures c.Accepted? ==>
      && f.Str?
      && c.prompt == Strip(f.s, IsPythonSpace)
      && c.prompt != []
      && !IsPythonSpace(c.prompt[0])
      && !IsPythonSpace(c.prompt[|c.prompt| - 1])
  {
    match f
    case Absent => Blank
    case NonText => Unusable
    case Str(s) =>
      StripEmptyIff(s, IsPythonSpace);
      var p := Strip(s, IsPythonSpace);
      if p == [] then Blank else Accepted(p)
  }

  /** A POST reaches the submit handler when its path without trailing slashes is `PromptPath`. */
  predicate PostReachesSubmit(path: string)
    ensures PostReachesSubmit(path) ==> SlashPadded(path, PromptPath)
  {
    RStrip(path, IsSlash) == PromptPath
  }

  /** Where a GET request goes. */
  datatype GetTarget = Index | Status(id: string) | Result(id: string) | NoRoute

  /** The fourth and fifth segments of a query path, checked for shape. */
  function ParseQuery(path: string): (r: GetTarget)
    ensures r != Index
    ensures r.Status? || r.Result? ==> '/' !in r.id
  {
    var parts := Split(Strip(path, IsSlash), '/');
    if |parts| != 5 then NoRoute
    else if parts[4] == "status" then Status(parts[3])
    else if parts[4] == "result" then Result(parts[3])
    else NoRoute
  }

  function StartsWith(s: string, prefix: string): bool {
    |prefix| <= |s| && s[..|prefix|] == prefix
  }

  /** Where a GET path leads: the front page only for `/`, a query handler only under `QueryPrefix`. */
  function GetRoute(path: string): (r: GetTarget)
    ensures r == Index <==> path == "/"
    ensures r.Status? || r.Result? ==> StartsWith(path, QueryPrefix) && '/' !in r.id
  {
    if path == "/" then Index
    else if StartsWith(path, QueryPrefix) then ParseQuery(path)
    else NoRoute
  }

  /** The answer to a status query: 404 for an unknown id, else 200 with the stored id and status. */
  function PromptStatus(t: Table, id: string): (r: Response)
    ensures r.Json?
    ensures r.code == NOT_FOUND <==> id !in t
    ensures r.code == OK <==> id in t
    ensures id !in t ==> r.payload == ErrorMessage("Prompt not found")
    ensures id in t ==> r.payload == IdStatus(id, t[id].status.Name())
  {
    if id !in t then Json(NOT_FOUND, ErrorMessage("Prompt not found"))
    else Json(OK, IdStatus(id, t[id].status.Name()))
  }

  /**
   * The answer to a result query: 404 for an unknown id, 202 with no result
   * while the job is not completed, and 200 with the stored result once it is.
   */
  function PromptResult(t: Table, id: string): (r: Response)
    ensures r.Json?
    ensures r.code == NOT_FOUND <==> id !in t
    ensures r.code == ACCEPTED <==> id in t && t[id].status != Completed
    ensures r.code == OK <==> id in t && t[id].status == Completed
    ensures id !in t ==> r.payload == ErrorMessage("Prompt not found")
    ensures r.code == ACCEPTED ==> r.payload == IdStatus(id, t[id].status.Name())
    ensures r.code == OK ==> r.payload == IdStatusResult(id, "completed", t[id].result)
  {
    if id !in t then Json(NOT_FOUND, ErrorMessage("Prompt not found"))
    else if t[id].status != Completed then Json(ACCEPTED, IdStatus(id, t[id].status.Name()))
    else Json(OK, IdStatusResult(id, t[id].status.Name(), t[id].result))
  }

  /**
   * A GET request; it only reads the table. A JSON answer other than 404
   * always reports the stored status of a stored job whose id has no slash.
   */
  function HandleGet(t: Table, path: string): (r: Response)
    ensures r == IndexPage <==> path == "/"
    ensures r.HttpError? ==> r == HttpError(NOT_FOUND, "Not Found")
    ensures r.Json? && r.code == NOT_FOUND ==> r.payload == ErrorMessage("Prompt not found")
    ensures r.Json? && r.code != NOT_FOUND ==>
      && (r.payload.IdStatus? || r.payload.IdStatusResult?)
      && r.payload.id in t && '/' !in r.payload.id
      && r.payload.status == t[r.payload.id].status.Name()
  {
    match GetRoute(path)
    case Index => IndexPage
    case Status(id) => PromptStatus(t, id)
    case Result(id) => PromptResult(t, id)
    case NoRoute => HttpError(NOT_FOUND, "Not Found")
  }

  /**
   * Submit a prompt. `freshId` is the generated identifier and `now` the
   * clock reading. An id already in the table makes the INSERT raise, so
   * the request ends without a reply and nothing is stored.
   */
  method HandlePromptSubmit(db: PromptTable, body: Body, freshId: string, now: nat) returns (resp: Response)
    modifies db
    ensures body.InvalidJson? ==> resp == Json(BAD_REQUEST, ErrorMessage("Invalid JSON"))
    ensures body.NotAnObject? ==> resp == Aborted
    ensures body.Object? && CheckPrompt(body.prompt).Unusable? ==> resp == Aborted
    ensures body.Object? && CheckPrompt(body.prompt).Blank? ==>
      resp == Json(BAD_REQUEST, ErrorMessage("Prompt is required"))
    ensures body.Object? && CheckPrompt(body.prompt).Accepted? ==>
      var prompt := CheckPrompt(body.prompt).prompt;
      if freshId in old(db.rows) then resp == Aborted
      else
        && resp == Json(OK, IdOnly(freshId))
        && db.rows == Apply(old(db.rows), Submit(freshId, prompt, now))
        && db.rows == old(db.rows)[freshId := Job(prompt, Queued, None, now, now)]
    ensures resp != Json(OK, IdOnly(freshId)) ==> db.rows == old(db.rows)
  {
    match body
    case InvalidJson =>
      resp := Json(BAD_REQUEST, ErrorMessage("Invalid JSON"));
    case NotAnObject =>
      resp := Aborted;
    case Object(field) =>
      match CheckPrompt(field)
      case Unusable =>
        resp := Aborted;
      case Blank =>
        resp := Json(BAD_REQUEST, ErrorMessage("Prompt is required"));
      case Accepted(prompt) =>
        var inserted := db.Insert(freshId, NewJob(prompt, now));
        if inserted {
          resp := Json(OK, IdOnly(freshId));
        } else {
          resp := Aborted;
        }
  }

  /** A POST request: only the submission path is served. */
  method HandlePost(db: PromptTable, path: string, body: Body, freshId: string, now: nat) returns (resp: Response)
    modifies db
    ensures !PostReachesSubmit(path) ==> resp == HttpError(NOT_FOUND, "Not Found") && db.rows == old(db.rows)
    ensures PostReachesSubmit(path) && body.InvalidJson? ==> resp == Json(BAD_REQUEST, ErrorMessage("Invalid JSON"))
    ensures PostReachesSubmit(path) && body.Object? && CheckPrompt(body.prompt).Blank? ==>
      resp == Json(BAD_REQUEST, ErrorMessage("Prompt is required"))
    ensures PostReachesSubmit(path) && (body.NotAnObject? || (body.Object? && CheckPrompt(body.prompt).Unusable?)) ==>
      resp == Aborted
    ensures PostReachesSubmit(path) && body.Object? && CheckPrompt(body.prompt).Accepted? ==>
      var prompt := CheckPrompt(body.prompt).prompt;
      if freshId in old(db.rows) then resp == Aborted
      else
        && resp == Json(OK, IdOnly(freshId))
        && db.rows == Apply(old(db.rows), Submit(freshId, prompt, now))
        && db.rows == old(db.rows)[freshId := Job(prompt, Queued, None, now, now)]
    ensures resp != Json(OK, IdOnly(freshId)) ==> db.rows == old(db.rows)
  {
    if PostReachesSubmit(path) {
      resp := HandlePromptSubmit(db, body, freshId, now);
    } else {
      resp := HttpError(NOT_FOUND, "Not Found");
    }
  }

  // ---------------------------------------------------------------------
  // Which paths reach which handler

  /** `path` is `base` followed by nothing but slashes. */
  predicate SlashPadded(path: string, base: string) {
    StartsWith(path, base) && forall k :: |base| <= k < |path| ==> path[k] == '/'
  }

  /** POST is served exactly for `/api/v1/prompt` followed by any number of slashes. */
  lemma PostRouteIff(path: string)
    ensures PostReachesSubmit(path) <==> SlashPadded(path, PromptPath)
  {
    if SlashPadded(path, PromptPath) {
      var tail := path[|PromptPath|..];
      assert path == PromptPath + tail;
      assert PromptPath[|PromptPath| - 1] == 't';
      RStripOfKeptEnd(PromptPath, tail, IsSlash);
    }
  }

  /** Three separator-free segments in front of `r` come off as three parts. */
  lemma SplitThreeSegments(a: string, b: string, c: string, r: string)
    requires '/' !in a && '/' !in b && '/' !in c
    ensures Split(a + ['/'] + (b + ['/'] + (c + ['/'] + r)), '/') == [a, b, c] + Split(r, '/')
  {
    SplitCons(a, b + ['/'] + (c + ['/'] + r), '/');
    SplitCons(b, c + ['/'] + r, '/');
    SplitCons(c, r, '/');
  }

  /** Splitting after the fixed segments peels them off one by one. */
  lemma FixedSegmentsSplit(r: string)
    ensures Split("api/v1/prompt/" + r, '/') == ["api", "v1", "prompt"] + Split(r, '/')
  {
    assert "api/v1/prompt/" + r == "api" + ['/'] + ("v1" + ['/'] + ("prompt" + ['/'] + r));
    SplitThreeSegments("api", "v1", "prompt", r);
  }

  /** The fixed segments alone split into three parts. */
  lemma FixedSegmentsAlone()
    ensures |Split("api/v1/prompt", '/')| == 3
  {
    var parts := ["api", "v1", "prompt"];
    assert Join(parts, '/') == "api/v1/prompt";
    SplitJoin(parts, '/');
  }

  /** The submission path itself is served. */
  lemma SubmitPathServed()
    ensures PostReachesSubmit(PromptPath)
  {
    PostRouteIff(PromptPath);
  }

  /** A prompt with text and no surrounding whitespace is accepted unchanged. */
  lemma PlainPromptAccepted(prompt: string)
    requires prompt != [] && !IsPythonSpace(prompt[0]) && !IsPythonSpace(prompt[|prompt| - 1])
    ensures CheckPrompt(Str(prompt)) == Accepted(prompt)
  {
    StripSurrounded([], prompt, [], IsPythonSpace);
    assert [] + prompt + [] == prompt;
  }

  /** A prompt that has text and no surrounding whitespace is accepted unchanged, whatever whitespace pads it. */
  lemma PaddedPromptAccepted(head: string, prompt: string, tail: string)
    requires forall k :: 0 <= k < |head| ==> IsPythonSpace(head[k])
    requires forall k :: 0 <= k < |tail| ==> IsPythonSpace(tail[k])
    requires prompt != [] && !IsPythonSpace(prompt[0]) && !IsPythonSpace(prompt[|prompt| - 1])
    ensures CheckPrompt(Str(head + prompt + tail)) == Accepted(prompt)
  {
    StripSurrounded(head, prompt, tail, IsPythonSpace);
  }

  /** With the leading slash gone, a query path's first three segments are fixed. */
  lemma QueryTailSplit(w: string)
    ensures RStrip(w, IsSlash) != [] ==>
      Split(RStrip("api/v1/prompt/" + w, IsSlash), '/') == ["api", "v1", "prompt"] + Split(RStrip(w, IsSlash), '/')
    ensures RStrip(w, IsSlash) == [] ==> |Split(RStrip("api/v1/prompt/" + w, IsSlash), '/')| == 3
  {
    var r := RStrip(w, IsSlash);
    if r != [] {
      RStripBelowPrefix("api/v1/prompt/", w);
      FixedSegmentsSplit(r);
    } else {
      var tail := "/" + w;
      assert "api/v1/prompt/" + w == "api/v1/prompt" + tail;
      forall k | 0 <= k < |tail| ensures IsSlash(tail[k]) {
        if k > 0 {
          assert tail[k] == w[k - 1];
        }
      }
      RStripOfKeptEnd("api/v1/prompt", tail, IsSlash);
      FixedSegmentsAlone();
    }
  }

  /** Trailing slashes come off `w` alone when `w` keeps some character. */
  lemma RStripBelowPrefix(a: string, w: string)
    requires RStrip(w, IsSlash) != []
    ensures RStrip(a + w, IsSlash) == a + RStrip(w, IsSlash)
  {
    var r := RStrip(w, IsSlash);
    var tail := w[|r|..];
    assert w == r + tail;
    assert a + w == (a + r) + tail;
    forall k | 0 <= k < |tail| ensures IsSlash(tail[k]) {
      assert tail[k] == w[|r| + k];
    }
    RStripOfKeptEnd(a + r, tail, IsSlash);
  }

  /** The path a client builds for `action` on job `id`. */
  function QueryPath(id: string, action: string): string {
    QueryPrefix + id + "/" + action
  }

  /** Where the part of a query path after the prefix leads. */
  function TailRoute(w: string): GetTarget {
    var r := RStrip(w, IsSlash);
    if r == [] then NoRoute
    else
      var parts := Split(r, '/');
      if |parts| != 2 then NoRoute
      else if parts[1] == "status" then Status(parts[0])
      else if parts[1] == "result" then Result(parts[0])
      else NoRoute
  }

  /** Stripping slashes from a query path removes only its leading slash at the front. */
  lemma StripQueryPath(w: string)
    ensures Strip("/" + ("api/v1/prompt/" + w), IsSlash) == RStrip("api/v1/prompt/" + w, IsSlash)
  {
    LStripOfKeptStart("/", "api/v1/prompt/" + w, IsSlash);
  }

  lemma SplitStrippedQuery(w: string, path: string)
    requires Strip(path, IsSlash) == RStrip("api/v1/prompt/" + w, IsSlash)
    requires RStrip(w, IsSlash) != []
    ensures Split(Strip(path, IsSlash), '/') == ["api", "v1", "prompt"] + Split(RStrip(w, IsSlash), '/')
  {
    QueryTailSplit(w);
  }

  lemma SegmentsAfterFixed(ps: seq<string>, parts: seq<string>)
    requires parts == ["api", "v1", "prompt"] + ps
    ensures |parts| == 5 <==> |ps| == 2
    ensures |ps| == 2 ==> parts[3] == ps[0] && parts[4] == ps[1]
  {
  }

  /** How `GetRoute` reads a path that starts with the query prefix. */
  lemma QueryRouteShape(path: string)
    requires StartsWith(path, QueryPrefix)
    ensures GetRoute(path) == TailRoute(path[|QueryPrefix|..])
  {
    var w := path[|QueryPrefix|..];
    assert path == "/" + ("api/v1/prompt/" + w);
    StripQueryPath(w);
    var r := RStrip(w, IsSlash);
    if r != [] {
      SplitStrippedQuery(w, path);
      SegmentsAfterFixed(Split(r, '/'), Split(Strip(path, IsSlash), '/'));
    } else {
      QueryTailSplit(w);
    }
  }

  /** Text after the prefix that leads to `action` on `id` is `id/action`, possibly padded with slashes. */
  lemma TailRouteOnlyFor(w: string, id: string, action: string)
    requires action == "status" || action == "result"
    requires TailRoute(w) == (if action == "status" then Status(id) else Result(id))
    ensures '/' !in id && SlashPadded(w, id + "/" + action)
  {
    var r := RStrip(w, IsSlash);
    var parts := Split(r, '/');
    assert parts == [id, action];
    assert r == Join(parts, '/') == id + "/" + action;
  }

  /** `id/action` padded with slashes keeps its two segments once the padding is stripped. */
  lemma PaddedTwoSegments(w: string, id: string, action: string)
    requires '/' !in id && '/' !in action && action != []
    requires SlashPadded(w, id + "/" + action)
    ensures RStrip(w, IsSlash) != [] && Split(RStrip(w, IsSlash), '/') == [id, action]
  {
    var core := id + "/" + action;
    var tail := w[|core|..];
    assert w == core + tail;
    assert core[|core| - 1] == action[|action| - 1];
    forall k | 0 <= k < |tail| ensures IsSlash(tail[k]) {
      assert tail[k] == w[|core| + k];
    }
    RStripOfKeptEnd(core, tail, IsSlash);
    assert core == id + ['/'] + action;
    SplitCons(id, action, '/');
  }

  /** `id/action`, padded with any slashes, leads to `action` on `id`. */
  lemma TailRouteReaches(w: string, id: string, action: string)
    requires action == "status" || action == "result"
    requires '/' !in id && SlashPadded(w, id + "/" + action)
    ensures TailRoute(w) == (if action == "status" then Status(id) else Result(id))
  {
    assert '/' !in action;
    PaddedTwoSegments(w, id, action);
  }

  /** A path that is `QueryPrefix` followed by `w` is slash-padded `QueryPath` exactly when `w` is padded `id/action`. */
  lemma PaddedAfterPrefix(path: string, id: string, action: string)
    requires StartsWith(path, QueryPrefix)
    ensures SlashPadded(path, QueryPath(id, action)) <==> SlashPadded(path[|QueryPrefix|..], id + "/" + action)
  {
    var w := path[|QueryPrefix|..];
    var core := id + "/" + action;
    assert path == QueryPrefix + w;
    assert QueryPath(id, action) == QueryPrefix + core;
    if SlashPadded(w, core) {
      assert path[..|QueryPrefix + core|] == QueryPrefix + w[..|core|];
      forall k | |QueryPrefix + core| <= k < |path| ensures path[k] == '/' {
        assert path[k] == w[k - |QueryPrefix|];
      }
    }
    if SlashPadded(path, QueryPath(id, action)) {
      assert w[..|core|] == path[|QueryPrefix|..|QueryPrefix| + |core|];
      forall k | |core| <= k < |w| ensures w[k] == '/' {
        assert w[k] == path[k + |QueryPrefix|];
      }
    }
  }

  /** A path routed to `action` on `id` is the client's query path, possibly padded with slashes. */
  lemma GetRouteOnlyFor(path: string, id: string, action: string)
    requires action == "status" || action == "result"
    requires GetRoute(path) == (if action == "status" then Status(id) else Result(id))
    ensures '/' !in id && SlashPadded(path, QueryPath(id, action))
  {
    assert StartsWith(path, QueryPrefix);
    QueryRouteShape(path);
    TailRouteOnlyFor(path[|QueryPrefix|..], id, action);
    PaddedAfterPrefix(path, id, action);
  }

  /** The client's query path, padded with any slashes, is routed to `action` on `id`. */
  lemma GetRouteReaches(path: string, id: string, action: string)
    requires action == "status" || action == "result"
    requires '/' !in id && SlashPadded(path, QueryPath(id, action))
    ensures GetRoute(path) == (if action == "status" then Status(id) else Result(id))
  {
    assert StartsWith(path, QueryPrefix) by {
      assert path[..|QueryPrefix|] == QueryPath(id, action)[..|QueryPrefix|];
    }
    PaddedAfterPrefix(path, id, action);
    TailRouteReaches(path[|QueryPrefix|..], id, action);
    QueryRouteShape(path);
  }

  /**
   * A GET reaches the status handler for `id` exactly when the path is
   * `/api/v1/prompt/<id>/status`, possibly followed by slashes, and `id`
   * holds no slash; likewise for `result`.
   */
  lemma GetRouteIff(path: string, id: string, action: string)
    requires action == "status" || action == "result"
    ensures GetRoute(path) == (if action == "status" then Status(id) else Result(id))
      <==> '/' !in id && SlashPadded(path, QueryPath(id, action))
  {
    if GetRoute(path) == (if action == "status" then Status(id) else Result(id)) {
      GetRouteOnlyFor(path, id, action);
    }
    if '/' !in id && SlashPadded(path, QueryPath(id, action)) {
      GetRouteReaches(path, id, action);
    }
  }

  // ---------------------------------------------------------------------
  // What queries answer as the job moves through its lifecycle

  /** In a consistent table a 200 result answer always carries a result. */
  lemma CompletedResultPresent(t: Table, id: string)
    requires Consistent(t)
    requires PromptResult(t, id).code == OK
    ensures PromptResult(t, id).payload.result.Some?
  {
  }

  /** Right after a successful submission the job reads as queued, with no result yet. */
  lemma QueuedAfterSubmit(t: Table, id: string, prompt: string, now: nat)
    requires id !in t
    ensures PromptStatus(Apply(t, Submit(id, prompt, now)), id) == Json(OK, IdStatus(id, "queued"))
    ensures PromptResult(Apply(t, Submit(id, prompt, now)), id) == Json(ACCEPTED, IdStatus(id, "queued"))
  {
  }

  /** A job left processing answers 202 `processing` to every result query until something completes it. */
  lemma StrandedResultPending(t: Table, ops: seq<Op>, id: string)
    requires id in t && t[id].status == Processing
    requires forall i :: 0 <= i < |ops| ==> !(ops[i].Complete? && ops[i].id == id)
    ensures PromptResult(Run(t, ops), id) == Json(ACCEPTED, IdStatus(id, "processing"))
  {
    StrandedStaysProcessing(t, ops, id);
  }

  /** Once completed with `r`, the result query answers 200 with `r`. */
  lemma ResultAfterComplete(t: Table, id: string, r: string, now: nat)
    requires id in t
    ensures PromptResult(Apply(t, Complete(id, r, now)), id) == Json(OK, IdStatusResult(id, "completed", Some(r)))
  {
  }

  /** An id that was never submitted is not found by either query, whatever ran before. */
  lemma NeverIssuedNotFound(t: Table, ops: seq<Op>, id: string)
    requires id !in t
    requires forall i :: 0 <= i < |ops| ==> !(ops[i].Submit? && ops[i].id == id)
    ensures PromptStatus(Run(t, ops), id) == Json(NOT_FOUND, ErrorMessage("Prompt not found"))
    ensures PromptResult(Run(t, ops), id) == Json(NOT_FOUND, ErrorMessage("Prompt not found"))
  {
    UnissuedIdAbsent(t, ops, id);
  }
}

// The dashboard API of the worker (src/api.ts): bearer authorisation and
// the dispatch of the review-task and prompt-template routes over the store.
//
// Request bodies reach the handler as text; the JSON decoding of each
// route's body is a parameter that may fail, and a failed decode is an
// exception out of the handler. The listing queries are recorded by the
// filter they run with; their rows are not modelled.

module Api {
  import opened Common
  import opened Types
  import opened Store

  datatype Request = Request(
    verb: string,
    path: string,
    query: map<string, string>,
    authorization: Option<string>,
    body: string)

  datatype StatusUpdate = StatusUpdate(status: TaskStatus, assignee: Option<string>)
  datatype NewPrompt = NewPrompt(name: string, version: string, content: string)
  datatype Activation = Activation(name: string, version: string)

  /** `request.json()` for each route's body shape. */
  datatype Decoders = Decoders(
    statusUpdate: string -> Option<StatusUpdate>,
    newPrompt: string -> Option<NewPrompt>,
    activation: string -> Option<Activation>)

  datatype Body =
    | PlainText(text: string)
    | ErrorJson(error: string)
    | OkJson
    | TaskList(statusFilter: Option<string>, limit: nat)
    | PromptList(nameFilter: Option<string>)

  datatype Response = Response(status: int, body: Body)

  /** The handler answers, or an exception escapes it. */
  datatype Outcome = Replied(response: Response) | Threw

  const BearerPrefix := "Bearer "
  const ReviewListLimit: nat := 200

  /** The token of an Authorization header: the trimmed text after
      "Bearer ", or empty for any other header. */
  function BearerToken(authorization: Option<string>): (token: string)
    ensures authorization.None? ==> token == ""
    ensures authorization.Some? && StartsWith(authorization.value, BearerPrefix) ==>
      token == Trim(authorization.value[|BearerPrefix|..])
    ensures authorization.Some? && !StartsWith(authorization.value, BearerPrefix) ==> token == ""
  {
    match authorization
    case None => ""
    case Some(auth) => if StartsWith(auth, BearerPrefix) then Trim(auth[|BearerPrefix|..]) else ""
  }

  /** isAuthorized: open when the trimmed secret is empty or unset,
      otherwise the bearer token must equal the trimmed secret. */
  function IsAuthorized(secret: Option<string>, authorization: Option<string>): (r: bool)
    ensures secret.None? || Trim(secret.value) == "" ==> r
    ensures secret.Some? && Trim(secret.value) != "" ==> (r <==> BearerToken(authorization) == Trim(secret.value))
  {
    match secret
    case None => true
    case Some(s) => Trim(s) == "" || BearerToken(authorization) == Trim(s)
  }

  /** With a secret set, a request without an Authorization header, or
      with a header of another scheme, is refused. */
  lemma SecretRequiresBearer(secret: string, authorization: Option<string>)
    requires Trim(secret) != ""
    requires authorization.None? || !StartsWith(authorization.value, BearerPrefix)
    ensures !IsAuthorized(Some(secret), authorization)
  {
  }

  /** The header "Bearer <secret>" is accepted for a secret without
      surrounding white space. */
  lemma BearerSecretAccepted(secret: string)
    requires secret == [] || (!IsSpace(secret[0]) && !IsSpace(secret[|secret| - 1]))
    ensures IsAuthorized(Some(secret), Some(BearerPrefix + secret))
  {
    TrimUnchanged(secret);
    assert (BearerPrefix + secret)[|BearerPrefix|..] == secret;
    assert StartsWith(BearerPrefix + secret, BearerPrefix);
  }

  /** The id of PATCH /api/manual-reviews/{id}: the last "/"-separated
      segment of the path, which is empty when the path ends with "/". */
  function ReviewIdOf(path: string): (id: string)
    ensures match LastIndexOf(path, '/')
      case None => id == path
      case Some(i) => id == path[i + 1..]
    ensures '/' !in id
  {
    SplitLastPart(path, '/');
    SplitPartsFree(path, '/');
    var parts := Split(path, '/');
    parts[|parts| - 1]
  }

  /** The email of the first task row with this id, as the SELECT ... first() reads it. */
  function TaskEmailOf(tasks: seq<ReviewTask>, id: string): (r: Option<string>)
    ensures r.Some? <==> exists i :: 0 <= i < |tasks| && tasks[i].id == id
    ensures r.Some? ==> exists i :: (0 <= i < |tasks| && tasks[i].id == id && tasks[i].emailId == r.value
                                     && forall j :: 0 <= j < i ==> tasks[j].id != id)
  {
    if |tasks| == 0 then None
    else if tasks[0].id == id then Some(tasks[0].emailId)
    else
      var r := TaskEmailOf(tasks[1..], id);
      assert forall i :: 0 < i < |tasks| ==> tasks[i] == tasks[1..][i - 1];
      if r.Some? then
        var k :| 0 <= k < |tasks[1..]| && tasks[1..][k].id == id && tasks[1..][k].emailId == r.value
                  && forall j :: 0 <= j < k ==> tasks[1..][j].id != id;
        assert tasks[k + 1].id == id && tasks[k + 1].emailId == r.value;
        r
      else r
  }

  /** Updating task statuses keeps every task's id and email. */
  lemma UpdateKeepsTaskEmail(tasks: seq<ReviewTask>, id: string, status: TaskStatus, assignee: Option<string>, now: string)
    ensures TaskEmailOf(UpdateTasks(tasks, id, status, assignee, now), id) == TaskEmailOf(tasks, id)
  {
    var u := UpdateTasks(tasks, id, status, assignee, now);
    assert forall i :: 0 <= i < |tasks| ==> u[i].id == tasks[i].id && u[i].emailId == tasks[i].emailId;
    TaskEmailOfSame(tasks, u, id);
  }

  lemma {:induction false} TaskEmailOfSame(a: seq<ReviewTask>, b: seq<ReviewTask>, id: string)
    requires |a| == |b|
    requires forall i :: 0 <= i < |a| ==> a[i].id == b[i].id && a[i].emailId == b[i].emailId
    ensures TaskEmailOf(a, id) == TaskEmailOf(b, id)
    decreases |a|
  {
    if |a| > 0 && a[0].id != id {
      TaskEmailOfSame(a[1..], b[1..], id);
    }
  }

  /** The route a request selects once it is past the prefix and
      authorisation checks, in the order the handler tests them. */
  datatype Route = ListReviews | UpdateReview | ListPrompts | CreatePrompt | ActivatePrompt | NoRoute

  function RouteOf(verb: string, path: string): Route
  {
    if verb == "GET" && path == "/api/manual-reviews" then ListReviews
    else if verb == "PATCH" && StartsWith(path, "/api/manual-reviews/") then UpdateReview
    else if verb == "GET" && path == "/api/prompts" then ListPrompts
    else if verb == "POST" && path == "/api/prompts" then CreatePrompt
    else if verb == "POST" && path == "/api/prompts/activate" then ActivatePrompt
    else NoRoute
  }

  function QueryParam(query: map<string, string>, key: string): Option<string>
  {
    if key in query then Some(query[key]) else None
  }

  /** The PATCH branch: the status update, then the best-effort
      manual_review event for the task's email; `eventFails` is whether the
      lookup or the event insert throws, which is logged and swallowed. */
  function ReviewUpdateEffect(t: Tables, id: string, u: StatusUpdate, eventFails: bool, now: string): (r: Tables)
    ensures r.reviewTasks == UpdateTasks(t.reviewTasks, id, u.status, u.assignee, now)
    ensures var email := TaskEmailOf(t.reviewTasks, id);
      r.processingEvents == t.processingEvents
        + (if !eventFails && Truthy(email) then [ProcessingEvent(email.value, StageManualReview, EventOk)] else [])
    ensures r == t.(reviewTasks := r.reviewTasks, processingEvents := r.processingEvents)
  {
    var t1 := t.(reviewTasks := UpdateTasks(t.reviewTasks, id, u.status, u.assignee, now));
    UpdateKeepsTaskEmail(t.reviewTasks, id, u.status, u.assignee, now);
    var email := TaskEmailOf(t1.reviewTasks, id);
    if !eventFails && Truthy(email) then
      t1.(processingEvents := t1.processingEvents + [ProcessingEvent(email.value, StageManualReview, EventOk)])
    else t1
  }

  /** handleApiRequest as an outcome and the tables after it. `promptId` is
      the fresh id a created template gets. */
  function ApiEffect(t: Tables, secret: Option<string>, req: Request, dec: Decoders, eventFails: bool,
                     promptId: string, now: string): (r: (Outcome, Tables))
    ensures !StartsWith(req.path, "/api/") ==> r == (Replied(Response(404, PlainText("Not found"))), t)
    ensures StartsWith(req.path, "/api/") && !IsAuthorized(secret, req.authorization) ==>
      r == (Replied(Response(401, ErrorJson("Unauthorized"))), t)
    ensures r.0.Threw? || r.0.response.status != 200 ==>
      r.1 == t || (r.0 == Replied(Response(201, OkJson)) && RouteOf(req.verb, req.path) == CreatePrompt)
    ensures r.1 == t.(reviewTasks := r.1.reviewTasks, processingEvents := r.1.processingEvents,
                      promptTemplates := r.1.promptTemplates)
    ensures r.1.reviewTasks != t.reviewTasks || r.1.processingEvents != t.processingEvents ==>
      RouteOf(req.verb, req.path) == UpdateReview && r.0 == Replied(Response(200, OkJson))
    ensures r.1.promptTemplates != t.promptTemplates ==>
      RouteOf(req.verb, req.path) in {CreatePrompt, ActivatePrompt} && r.0.Replied?
  {
    if !StartsWith(req.path, "/api/") then (Replied(Response(404, PlainText("Not found"))), t)
    else if !IsAuthorized(secret, req.authorization) then (Replied(Response(401, ErrorJson("Unauthorized"))), t)
    else match RouteOf(req.verb, req.path)
      case ListReviews =>
        (Replied(Response(200, TaskList(QueryParam(req.query, "status"), ReviewListLimit))), t)
      case UpdateReview =>
        var id := ReviewIdOf(req.path);
        if id == "" then (Replied(Response(400, ErrorJson("missing id"))), t)
        else (
          match dec.statusUpdate(req.body)
          case None => (Threw, t)
          case Some(u) => (Replied(Response(200, OkJson)), ReviewUpdateEffect(t, id, u, eventFails, now)))
      case ListPrompts =>
        (Replied(Response(200, PromptList(QueryParam(req.query, "name")))), t)
      case CreatePrompt => (
        match dec.newPrompt(req.body)
        case None => (Threw, t)
        case Some(n) =>
          (Replied(Response(201, OkJson)),
           t.(promptTemplates := t.promptTemplates + [PromptTemplate(promptId, n.name, n.version, n.content, false)])))
      case ActivatePrompt => (
        match dec.activation(req.body)
        case None => (Threw, t)
        case Some(a) =>
          (Replied(Response(200, OkJson)), t.(promptTemplates := Activate(t.promptTemplates, a.name, a.version))))
      case NoRoute => (Replied(Response(404, ErrorJson("Not found"))), t)
  }

  /** A PATCH whose path ends with "/" is refused with 400 and changes nothing. */
  lemma PatchWithoutIdRefused(t: Tables, secret: Option<string>, req: Request, dec: Decoders, eventFails: bool,
                              promptId: string, now: string)
    requires req.verb == "PATCH" && StartsWith(req.path, "/api/manual-reviews/")
    requires IsAuthorized(secret, req.authorization)
    requires req.path[|req.path| - 1] == '/'
    ensures ApiEffect(t, secret, req, dec, eventFails, promptId, now) == (Replied(Response(400, ErrorJson("missing id"))), t)
  {
    assert StartsWith(req.path, "/api/") by {
      assert req.path[..5] == "/api/manual-reviews/"[..5];
    }
    assert LastIndexOf(req.path, '/') == Some(|req.path| - 1);
  }

  /** An authorised PATCH with a body answers {ok: true} whether or not
      the event insert fails; the task update happens either way. */
  lemma PatchIgnoresEventFailure(t: Tables, secret: Option<string>, req: Request, dec: Decoders,
                                 promptId: string, now: string)
    requires RouteOf(req.verb, req.path) == UpdateReview
    requires IsAuthorized(secret, req.authorization)
    requires ReviewIdOf(req.path) != "" && dec.statusUpdate(req.body).Some?
    ensures var u := dec.statusUpdate(req.body).value;
      && ApiEffect(t, secret, req, dec, true, promptId, now)
           == (Replied(Response(200, OkJson)), t.(reviewTasks := UpdateTasks(t.reviewTasks, ReviewIdOf(req.path), u.status, u.assignee, now)))
      && ApiEffect(t, secret, req, dec, false, promptId, now).0 == Replied(Response(200, OkJson))
  {
    assert StartsWith(req.path, "/api/") by {
      assert req.path[..5] == "/api/manual-reviews/"[..5];
    }
  }

  /** The two writes of the PATCH branch, the second one best effort. */
  method UpdateReviewTask(db: Database, id: string, u: StatusUpdate, eventFails: bool, now: string)
    requires db.Valid()
    modifies db
    ensures db.Valid()
    ensures db.State() == ReviewUpdateEffect(old(db.State()), id, u, eventFails, now)
  {
    UpdateKeepsTaskEmail(db.reviewTasks, id, u.status, u.assignee, now);
    db.UpdateManualReviewTaskStatus(id, u.status, u.assignee, now);
    var email := TaskEmailOf(db.reviewTasks, id);
    if !eventFails && Truthy(email) {
      db.InsertProcessingEvent(email.value, StageManualReview, EventOk);
    }
  }

  method HandleApiRequest(db: Database, secret: Option<string>, req: Request, dec: Decoders, eventFails: bool,
                          promptId: string, now: string) returns (o: Outcome)
    requires db.Valid()
    modifies db
    ensures db.Valid()
    ensures (o, db.State()) == ApiEffect(old(db.State()), secret, req, dec, eventFails, promptId, now)
  {
    if !StartsWith(req.path, "/api/") {
      return Replied(Response(404, PlainText("Not found")));
    }
    if !IsAuthorized(secret, req.authorization) {
      return Replied(Response(401, ErrorJson("Unauthorized")));
    }
    match RouteOf(req.verb, req.path)
    case ListReviews =>
      o := Replied(Response(200, TaskList(QueryParam(req.query, "status"), ReviewListLimit)));
    case UpdateReview =>
      var id := ReviewIdOf(req.path);
      if id == "" {
        return Replied(Response(400, ErrorJson("missing id")));
      }
      var u := dec.statusUpdate(req.body);
      if u.None? {
        return Threw;
      }
      UpdateReviewTask(db, id, u.value, eventFails, now);
      o := Replied(Response(200, OkJson));
    case ListPrompts =>
      o := Replied(Response(200, PromptList(QueryParam(req.query, "name"))));
    case CreatePrompt =>
      var n := dec.newPrompt(req.body);
      if n.None? {
        return Threw;
      }
      db.CreatePromptTemplate(promptId, n.value.name, n.value.version, n.value.content);
      o := Replied(Response(201, OkJson));
    case ActivatePrompt =>
      var a := dec.activation(req.body);
      if a.None? {
        return Threw;
      }
      db.ActivatePromptTemplate(a.value.name, a.value.version);
      o := Replied(Response(200, OkJson));
    case NoRoute =>
      o := Replied(Response(404, ErrorJson("Not found")));
  }
}

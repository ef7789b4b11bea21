/**
 * `queryFn` of app/exercise/index.tsx: build the POST body from the stored
 * profile and hand back `response.data.data`. The profile store read and the
 * request itself are outside the model: the profile is a parameter and the
 * outcome of the POST is an input.
 */
module ExerciseQuery {
  import opened Wrappers
  import opened PlanData

  /** The user's profile as the store holds it. */
  datatype Profile = Profile(
    name: string,
    age: JsNumber,
    gender: string,
    height: JsNumber,
    weight: JsNumber,
    objective: string,
    level: string)

  /** The JSON body of the POST. */
  datatype RequestBody = RequestBody(
    name: string,
    age: JsNumber,
    gender: string,
    height: JsNumber,
    weight: JsNumber,
    objective: string,
    level: string)

  /** One POST request: the path and the body. */
  datatype Request = Request(path: string, body: RequestBody)

  /** The parsed response body `{ data: ... }`; untyped JSON at run time. */
  datatype ResponseBody = ResponseBody(data: ScreenData)

  /** How the POST settles: it rejects, or it resolves with a body. */
  datatype PostOutcome = Rejected | Resolved(body: ResponseBody)

  /** One run of the query function: the request it issued, if any, and what it returned. */
  datatype QueryRun = QueryRun(request: Option<Request>, result: ScreenData)

  const ExercisePath: string := "/exercise"

  /** The request `queryFn` sends; `None` when the missing profile makes it throw first. */
  function RequestFor(user: Option<Profile>): (r: Option<Request>)
    ensures r.None? <==> user.None?
    ensures r.Some? ==> r.value.path == ExercisePath
    ensures r.Some? ==>
      var u, b := user.value, r.value.body;
      && b.name == u.name && b.age == u.age && b.gender == u.gender
      && b.height == u.height && b.weight == u.weight
      && b.objective == u.objective && b.level == u.level
  {
    match user
    case None => None
    case Some(u) =>
      Some(Request(ExercisePath,
        RequestBody(u.name, u.age, u.gender, u.height, u.weight, u.objective, u.level)))
  }

  /**
   * The query function: without a profile it throws before any request; a
   * rejected POST throws too; both are caught and the function returns
   * `undefined`. Otherwise it returns `response.data.data` as it came.
   * `outcome` is how the POST would settle; it is not used when no POST is made.
   */
  function QueryFn(user: Option<Profile>, outcome: PostOutcome): (run: QueryRun)
    ensures run.request.None? <==> user.None?
    ensures run.request.Some? ==> run.request == RequestFor(user)
    ensures user.None? || outcome.Rejected? ==> run.result.Undefined?
    ensures user.Some? && outcome.Resolved? ==> run.result == outcome.body.data
  {
    var request := RequestFor(user);
    match request
    case None => QueryRun(None, Undefined)
    case Some(req) =>
      match outcome
      case Rejected => QueryRun(request, Undefined)
      case Resolved(body) => QueryRun(request, body.data)
  }

  /** The profile a request body was built from. */
  function ProfileOf(b: RequestBody): (p: Profile)
  {
    Profile(b.name, b.age, b.gender, b.height, b.weight, b.objective, b.level)
  }

  /**
   * The body carries the profile unchanged: the profile can be read back
   * from it, so two different profiles never produce the same request.
   */
  lemma RequestCarriesProfile(u: Profile, v: Profile)
    ensures ProfileOf(RequestFor(Some(u)).value.body) == u
    ensures RequestFor(Some(u)) == RequestFor(Some(v)) ==> u == v
  {
  }

  /** Whatever the POST would do, a missing profile yields no request and `undefined`. */
  lemma MissingProfileIssuesNoRequest(outcome: PostOutcome, outcome': PostOutcome)
    ensures QueryFn(None, outcome) == QueryFn(None, outcome') == QueryRun(None, Undefined)
  {
  }
}

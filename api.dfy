/** The REST gateway (src/lib/api.ts): the request each operation sends, the
    optional `location` query, the `response.data.data` unwrapping and the
    interceptor that attaches the stored bearer token. Sending is left out:
    callers receive the outcome of a request as a value. */
module Api {
  import opened Wrappers
  import opened Domain
  import Js

  /** The localStorage key holding the raw token. */
  const AuthTokenKey: string := "authToken"

  datatype Method = Get | Post | Put | Delete

  datatype Body =
    | NoBody
    | CourseBody(course: CoursePayload)
    | PackageBody(pkg: PackagePayload)
    | LoginBody(login: LoginValues)
    | RegisterBody(registration: RegisterValues)

  /** A request as axios is asked to send it: verb, path under the base URL, query, body. */
  datatype Request = Request(verb: Method, path: string, params: map<string, string>, body: Body)

  /** Every call the front end makes through `apiClient`. */
  datatype Endpoint =
    | ListCourses(location: Option<string>)
    | GetCourse(courseId: string, location: Option<string>)
    | ListMyCourses(location: Option<string>)
    | CreateCourse(coursePayload: CoursePayload)
    | UpdateCourse(courseId: string, coursePayload: CoursePayload)
    | DeleteCourse(courseId: string)
    | ListPackages(location: Option<string>)
    | GetPackage(packageId: string, location: Option<string>)
    | ListMyPackages(location: Option<string>)
    | CreatePackage(packagePayload: PackagePayload)
    | UpdatePackage(packageId: string, packagePayload: PackagePayload)
    | DeletePackage(packageId: string)
    | AuthLogin(credentials: LoginValues)
    | AuthRegister(registration: RegisterValues)
    | AuthMe

  /** `location ? { location } : {}`. */
  function LocationQuery(location: Option<string>): (q: map<string, string>)
    ensures q.Keys <= {"location"}
    ensures "location" in q <==> Js.Truthy(location)
    ensures "location" in q ==> q["location"] == location.value
  {
    if Js.Truthy(location) then map["location" := location.value] else map[]
  }

  function CoursePath(courseId: string): string { "/courses/" + courseId }

  function PackagePath(packageId: string): string { "/packages/" + packageId }

  /** The reads that take an optional `location`. */
  predicate TakesLocation(e: Endpoint) {
    e.ListCourses? || e.GetCourse? || e.ListMyCourses? || e.ListPackages? || e.GetPackage? || e.ListMyPackages?
  }

  predicate OnCourses(e: Endpoint) {
    e.ListCourses? || e.GetCourse? || e.ListMyCourses? || e.CreateCourse? || e.UpdateCourse? || e.DeleteCourse?
  }

  predicate OnPackages(e: Endpoint) {
    e.ListPackages? || e.GetPackage? || e.ListMyPackages? || e.CreatePackage? || e.UpdatePackage? || e.DeletePackage?
  }

  /** The request each exported operation (and the auth calls of the auth context) sends:
      reads are GETs, creations and sign-ins POSTs, updates PUTs and removals DELETEs;
      each path lies under its resource; only the located reads carry a query; a body is
      sent exactly by POST and PUT, and it is the operation's own payload. */
  function RequestOf(e: Endpoint): (r: Request)
    ensures r.verb == Get <==> TakesLocation(e) || e.AuthMe?
    ensures r.verb == Put <==> e.UpdateCourse? || e.UpdatePackage?
    ensures r.verb == Delete <==> e.DeleteCourse? || e.DeletePackage?
    ensures OnCourses(e) ==> "/courses" <= r.path
    ensures OnPackages(e) ==> "/packages" <= r.path
    ensures !OnCourses(e) && !OnPackages(e) ==> "/auth/" <= r.path
    ensures r.params == (if TakesLocation(e) then LocationQuery(e.location) else map[])
    ensures r.body.NoBody? <==> r.verb == Get || r.verb == Delete
    ensures e.CreateCourse? || e.UpdateCourse? ==> r.body == CourseBody(e.coursePayload)
    ensures e.CreatePackage? || e.UpdatePackage? ==> r.body == PackageBody(e.packagePayload)
    ensures e.AuthLogin? ==> r.body == LoginBody(e.credentials)
    ensures e.AuthRegister? ==> r.body == RegisterBody(e.registration)
  {
    match e
    case ListCourses(loc) => Request(Get, "/courses", LocationQuery(loc), NoBody)
    case GetCourse(id, loc) => Request(Get, CoursePath(id), LocationQuery(loc), NoBody)
    case ListMyCourses(loc) => Request(Get, "/courses/my-courses", LocationQuery(loc), NoBody)
    case CreateCourse(p) => Request(Post, "/courses", map[], CourseBody(p))
    case UpdateCourse(id, p) => Request(Put, CoursePath(id), map[], CourseBody(p))
    case DeleteCourse(id) => Request(Delete, CoursePath(id), map[], NoBody)
    case ListPackages(loc) => Request(Get, "/packages", LocationQuery(loc), NoBody)
    case GetPackage(id, loc) => Request(Get, PackagePath(id), LocationQuery(loc), NoBody)
    case ListMyPackages(loc) => Request(Get, "/packages/my-packages", LocationQuery(loc), NoBody)
    case CreatePackage(p) => Request(Post, "/packages/create", map[], PackageBody(p))
    case UpdatePackage(id, p) => Request(Put, PackagePath(id), map[], PackageBody(p))
    case DeletePackage(id) => Request(Delete, PackagePath(id), map[], NoBody)
    case AuthLogin(c) => Request(Post, "/auth/login", map[], LoginBody(c))
    case AuthRegister(r) => Request(Post, "/auth/register", map[], RegisterBody(r))
    case AuthMe => Request(Get, "/auth/me", map[], NoBody)
  }

  /** The operations that resolve to `response.data.data`; the two deletes resolve to nothing. */
  predicate ReturnsData(e: Endpoint) {
    !(e.DeleteCourse? || e.DeletePackage?)
  }

  /** The envelope `{ status, data }` every successful response carries. */
  datatype Envelope<T> = Envelope(status: string, data: T)

  /** What an operation's promise resolves or rejects with, given the HTTP outcome. */
  function Unwrap<T>(e: Endpoint, reply: Result<Envelope<T>, ApiError>): (r: Result<Option<T>, ApiError>)
    ensures r.Failure? <==> reply.Failure?
    ensures r.Failure? ==> r.error == reply.error
    ensures r.Success? ==> (r.value.Some? <==> ReturnsData(e))
    ensures r.Success? && r.value.Some? ==> r.value.value == reply.value.data
  {
    match reply
    case Failure(err) => Failure(err)
    case Success(env) => Success(if ReturnsData(e) then Some(env.data) else None)
  }

  /** The id a by-id path names, if the path has the given prefix. */
  function IdAfter(prefix: string, path: string): Option<string> {
    if prefix <= path then Some(path[|prefix|..]) else None
  }

  /** The only operations that send a query are the reads with a location, and they send
      exactly `location` when it is truthy: an empty string sends no parameters. */
  lemma QueryOnlyForLocatedReads(e: Endpoint)
    ensures RequestOf(e).params != map[] ==>
      (e.ListCourses? || e.GetCourse? || e.ListMyCourses? || e.ListPackages? || e.GetPackage? || e.ListMyPackages?)
      && Js.Truthy(e.location) && RequestOf(e).params == map["location" := e.location.value]
  {
  }

  lemma {:induction false} PrefixRoundTrip(prefix: string, id: string)
    ensures IdAfter(prefix, prefix + id) == Some(id)
  {
    assert (prefix + id)[|prefix|..] == id;
  }

  /** By-id operations put the id verbatim after "/courses/" or "/packages/". */
  lemma {:induction false} ByIdPathsCarryTheId(e: Endpoint)
    ensures e.GetCourse? || e.UpdateCourse? || e.DeleteCourse? ==>
      IdAfter("/courses/", RequestOf(e).path) == Some(e.courseId)
    ensures e.GetPackage? || e.UpdatePackage? || e.DeletePackage? ==>
      IdAfter("/packages/", RequestOf(e).path) == Some(e.packageId)
  {
    match e
    case GetCourse(id, _) => PrefixRoundTrip("/courses/", id);
    case UpdateCourse(id, _) => PrefixRoundTrip("/courses/", id);
    case DeleteCourse(id) => PrefixRoundTrip("/courses/", id);
    case GetPackage(id, _) => PrefixRoundTrip("/packages/", id);
    case UpdatePackage(id, _) => PrefixRoundTrip("/packages/", id);
    case DeletePackage(id) => PrefixRoundTrip("/packages/", id);
    case _ =>
  }

  /** The fixed routes: the two lists are GETs of the bare resource paths; course creation
      posts to "/courses" but package creation to "/packages/create"; the owner lists are
      GETs of "/courses/my-courses" and "/packages/my-packages". */
  lemma CreationAndOwnerRoutes(cp: CoursePayload, pp: PackagePayload, loc: Option<string>)
    ensures RequestOf(ListCourses(loc)).verb == Get && RequestOf(ListCourses(loc)).path == "/courses"
    ensures RequestOf(ListPackages(loc)).verb == Get && RequestOf(ListPackages(loc)).path == "/packages"
    ensures RequestOf(CreateCourse(cp)).verb == Post && RequestOf(CreateCourse(cp)).path == "/courses"
    ensures RequestOf(CreatePackage(pp)).verb == Post && RequestOf(CreatePackage(pp)).path == "/packages/create"
    ensures RequestOf(ListMyCourses(loc)).verb == Get && RequestOf(ListMyCourses(loc)).path == "/courses/my-courses"
    ensures RequestOf(ListMyPackages(loc)).verb == Get && RequestOf(ListMyPackages(loc)).path == "/packages/my-packages"
  {
  }

  /** The auth context posts sign-in and sign-up to "/auth/login" and "/auth/register"
      and reads the current user from "/auth/me". */
  lemma AuthRoutes(c: LoginValues, g: RegisterValues)
    ensures RequestOf(AuthLogin(c)).verb == Post && RequestOf(AuthLogin(c)).path == "/auth/login"
    ensures RequestOf(AuthRegister(g)).verb == Post && RequestOf(AuthRegister(g)).path == "/auth/register"
    ensures RequestOf(AuthMe).verb == Get && RequestOf(AuthMe).path == "/auth/me"
  {
  }

  /** Fetching the course whose id is "my-courses" sends the very request of the owner
      list, and no other id does. */
  lemma {:induction false} MyCoursesPathCollision(id: string, loc: Option<string>)
    ensures RequestOf(GetCourse(id, loc)) == RequestOf(ListMyCourses(loc)) <==> id == "my-courses"
  {
    if CoursePath(id) == "/courses/my-courses" {
      PrefixRoundTrip("/courses/", id);
      PrefixRoundTrip("/courses/", "my-courses");
    }
  }

  /** Likewise for the package with id "my-packages". */
  lemma {:induction false} MyPackagesPathCollision(id: string, loc: Option<string>)
    ensures RequestOf(GetPackage(id, loc)) == RequestOf(ListMyPackages(loc)) <==> id == "my-packages"
  {
    if PackagePath(id) == "/packages/my-packages" {
      PrefixRoundTrip("/packages/", id);
      PrefixRoundTrip("/packages/", "my-packages");
    }
  }

  /** The header value for a token. */
  function Bearer(token: string): string { "Bearer " + token }

  /** The headers the interceptor leaves on a request: `Authorization` is set to the
      bearer form of the stored token when that token is truthy; otherwise nothing changes. */
  function InterceptedHeaders(headers: map<string, string>, storage: map<string, string>): (h: map<string, string>)
    ensures var token := Js.GetItem(storage, AuthTokenKey);
      if Js.Truthy(token) then h == headers["Authorization" := Bearer(token.value)] else h == headers
  {
    var token := Js.GetItem(storage, AuthTokenKey);
    if Js.Truthy(token) then headers["Authorization" := Bearer(token.value)] else headers
  }

  /** The stored token is recoverable from the header it produces. */
  lemma {:induction false} BearerNamesTheStoredToken(headers: map<string, string>, storage: map<string, string>)
    requires Js.Truthy(Js.GetItem(storage, AuthTokenKey))
    ensures var h := InterceptedHeaders(headers, storage);
      "Authorization" in h && IdAfter("Bearer ", h["Authorization"]) == Some(storage[AuthTokenKey])
  {
    PrefixRoundTrip("Bearer ", storage[AuthTokenKey]);
  }

  /** The mutable config object an axios request interceptor receives. */
  class RequestConfig {
    var headers: map<string, string>

    constructor (headers: map<string, string>)
      ensures this.headers == headers
    {
      this.headers := headers;
    }
  }

  /** The request interceptor: updates `config.headers` in place and returns the same config. */
  method Intercept(config: RequestConfig, storage: map<string, string>) returns (out: RequestConfig)
    modifies config
    ensures out == config
    ensures config.headers == InterceptedHeaders(old(config.headers), storage)
  {
    var token := Js.GetItem(storage, AuthTokenKey);
    if Js.Truthy(token) {
      config.headers := config.headers["Authorization" := Bearer(token.value)];
    }
    out := config;
  }
}

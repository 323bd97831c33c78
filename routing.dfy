/**
 * Route tables as the framework reads them: an ordered list of (verb, path pattern,
 * guard chain, handler); a request goes to the first entry whose verb and pattern
 * match, its guards run in order and the first refusal ends the request.
 */
module Routing {
  import opened Wrappers
  import opened Primitives
  import opened Errors
  import opened Tokens
  import opened UserModel
  import opened InvitationModel
  import opened AuthController

  datatype Verb = Get | Post | Patch | Delete

  /** A path pattern segment: a literal, or a `:name` parameter matching any non-empty segment. */
  datatype Segment = Lit(text: string) | Param

  datatype Guard = Authenticated | Admin | Invited

  datatype Handler =
    | ForgotPasswordHandler | ResetPasswordHandler | CreateUserInviteHandler | UserLoginHandler
    | UserLogoutHandler | CreateUserHandler | UpdateMeHandler | GetMeHandler
    | GetAllTasksHandler | GetTaskByIdHandler | CreateTaskHandler | GetUserTasksHandler
    | UpdateTaskByIdHandler | DeleteTaskByIdHandler

  datatype Route = Route(verb: Verb, pattern: seq<Segment>, guards: seq<Guard>, handler: Handler)

  /**
   * A request below the router's mount point: its verb, its path segments (each a word,
   * so a segment may be a token) and its Authorization header split on spaces.
   */
  datatype Request = Request(verb: Verb, path: seq<Word>, authorization: Option<seq<Word>>)

  predicate SegmentMatches(s: Segment, w: Word) {
    match s
    case Lit(text) => w == Text(text)
    case Param => w != Text("")
  }

  /** Segment by segment, with as many segments as the pattern. */
  predicate PatternMatches(pattern: seq<Segment>, path: seq<Word>) {
    if pattern == [] then path == []
    else path != [] && SegmentMatches(pattern[0], path[0]) && PatternMatches(pattern[1..], path[1..])
  }

  predicate Matches(route: Route, req: Request) {
    route.verb == req.verb && PatternMatches(route.pattern, req.path)
  }

  /** The first route that matches. */
  function Lookup(routes: seq<Route>, req: Request): Option<nat> {
    FirstIndex(routes, (route: Route) => Matches(route, req))
  }

  /** The route at `k` is the one taken when it matches and no earlier one does. */
  lemma LookupAt(routes: seq<Route>, req: Request, k: nat)
    requires k < |routes| && Matches(routes[k], req)
    requires forall j :: 0 <= j < k ==> !Matches(routes[j], req)
    ensures Lookup(routes, req) == Some(k)
  {
    var r := Lookup(routes, req);
    assert r.Some?;
    assert !(r.value < k);
    assert !(k < r.value);
  }

  /** The request's first path parameter under a route (what the guards read as the token). */
  function ParamOf(route: Route, req: Request): Word {
    match FirstIndex(route.pattern, (s: Segment) => s.Param?)
    case Some(i) => if i < |req.path| then req.path[i] else Text("")
    case None => Text("")
  }

  /** What the guards have attached to the request: the authenticated account, the invited email. */
  datatype Attached = Attached(user: Option<User>, email: Option<string>)

  /** The state a guard chain runs against. */
  datatype World = World(users: seq<User>, invitations: seq<Invitation>, key: Key, nowMs: int)

  /** One guard: pass (possibly attaching something) or refuse. */
  function RunGuard(g: Guard, req: Request, param: Word, w: World, acc: Attached): Result<Attached, Fault> {
    match g
    case Authenticated =>
      (match IsAuthenticated(req.authorization, w.users, w.key, w.nowMs)
       case Ok(u) => Ok(acc.(user := Some(u)))
       case Err(e) => Err(e))
    case Admin =>
      if acc.user.Some? && IsAdmin(acc.user.value).None? then Ok(acc)
      else Err(AppError("This endpoint requires Admin rights", 401))
    case Invited =>
      (match IsInvited(param, w.invitations, w.key, w.nowMs)
       case Ok(email) => Ok(acc.(email := email))
       case Err(e) => Err(e))
  }

  /** A guard chain, in order; the first refusal ends it. */
  function RunGuards(guards: seq<Guard>, req: Request, param: Word, w: World, acc: Attached): Result<Attached, Fault>
    decreases |guards|
  {
    if guards == [] then Ok(acc)
    else
      match RunGuard(guards[0], req, param, w, acc)
      case Err(e) => Err(e)
      case Ok(next) => RunGuards(guards[1..], req, param, w, next)
  }

  /** Whatever account is attached is the one the session check yields for this request. */
  predicate AttachedBySession(acc: Attached, req: Request, w: World) {
    acc.user.Some? ==>
      var s := IsAuthenticated(req.authorization, w.users, w.key, w.nowMs);
      s.Ok? && acc.user.value == s.value
  }

  /**
   * What a chain that passes has established: the session check passed (when it is in
   * the chain) and the attached account is the one it yields; the admin check
   * passed on that account; the invite check passed and bound its email.
   */
  lemma {:induction false} GuardsEstablish(guards: seq<Guard>, req: Request, param: Word, w: World, acc: Attached)
    requires AttachedBySession(acc, req, w)
    requires RunGuards(guards, req, param, w, acc).Ok?
    ensures var a := RunGuards(guards, req, param, w, acc).value;
      && AttachedBySession(a, req, w)
      && (acc.user.Some? ==> a.user == acc.user)
      && (Authenticated in guards ==> a.user.Some?)
      && (Admin in guards ==> a.user.Some? && a.user.value.isAdmin)
      && (Invited in guards ==> IsInvited(param, w.invitations, w.key, w.nowMs) == Ok(a.email))
    decreases |guards|
  {
    if guards != [] {
      var next := RunGuard(guards[0], req, param, w, acc).value;
      GuardsEstablish(guards[1..], req, param, w, next);
      var a := RunGuards(guards[1..], req, param, w, next).value;
      assert forall g :: g in guards ==> g == guards[0] || g in guards[1..];
      if guards[0] == Admin {
        assert next.user.Some? && next.user.value.isAdmin;
      }
      if guards[0] == Invited && Invited !in guards[1..] {
        assert next.email == IsInvited(param, w.invitations, w.key, w.nowMs).value;
        InvitedEmailKept(guards[1..], req, param, w, next);
      }
    }
  }

  /** Guards other than the invite check leave the bound email alone. */
  lemma {:induction false} InvitedEmailKept(guards: seq<Guard>, req: Request, param: Word, w: World, acc: Attached)
    requires Invited !in guards
    requires RunGuards(guards, req, param, w, acc).Ok?
    ensures RunGuards(guards, req, param, w, acc).value.email == acc.email
    decreases |guards|
  {
    if guards != [] {
      assert guards[0] in guards;
      assert forall g :: g in guards[1..] ==> g in guards;
      InvitedEmailKept(guards[1..], req, param, w, RunGuard(guards[0], req, param, w, acc).value);
    }
  }

  /**
   * The router: no matching route is left to the framework (None); otherwise the
   * route's guards run from an empty request state, and a pass reaches its handler.
   */
  function Dispatch(routes: seq<Route>, req: Request, w: World): (r: Option<Result<(Handler, Attached), Fault>>)
    ensures r.None? <==> Lookup(routes, req).None?
    ensures r.Some? && r.value.Ok? ==>
      var k := Lookup(routes, req).value;
      && r.value.value.0 == routes[k].handler
      && RunGuards(routes[k].guards, req, ParamOf(routes[k], req), w, Attached(None, None)) == Ok(r.value.value.1)
  {
    match Lookup(routes, req)
    case None => None
    case Some(k) =>
      match RunGuards(routes[k].guards, req, ParamOf(routes[k], req), w, Attached(None, None))
      case Err(e) => Some(Err(e))
      case Ok(a) => Some(Ok((routes[k].handler, a)))
  }

  /** A handler reached through a route has every guard of that route behind it. */
  lemma {:induction false} DispatchEstablishes(routes: seq<Route>, req: Request, w: World)
    requires Dispatch(routes, req, w).Some? && Dispatch(routes, req, w).value.Ok?
    ensures var k := Lookup(routes, req).value;
      var a := Dispatch(routes, req, w).value.value.1;
      && (Authenticated in routes[k].guards ==>
            a.user.Some? && IsAuthenticated(req.authorization, w.users, w.key, w.nowMs) == Ok(a.user.value))
      && (Admin in routes[k].guards ==> a.user.Some? && a.user.value.isAdmin)
      && (Invited in routes[k].guards ==>
            IsInvited(ParamOf(routes[k], req), w.invitations, w.key, w.nowMs) == Ok(a.email))
  {
    var k := Lookup(routes, req).value;
    GuardsEstablish(routes[k].guards, req, ParamOf(routes[k], req), w, Attached(None, None));
  }

  /**
   * A handler that every route leading to it guards with `g` is reached only with what
   * `g` establishes.
   */
  lemma {:induction false} ReachedOnlyThrough(routes: seq<Route>, req: Request, w: World, h: Handler, g: Guard)
    requires forall k :: 0 <= k < |routes| && routes[k].handler == h ==> g in routes[k].guards
    requires Dispatch(routes, req, w).Some? && Dispatch(routes, req, w).value.Ok?
    requires Dispatch(routes, req, w).value.value.0 == h
    ensures var a := Dispatch(routes, req, w).value.value.1;
      && (g == Authenticated ==>
            a.user.Some? && IsAuthenticated(req.authorization, w.users, w.key, w.nowMs) == Ok(a.user.value))
      && (g == Admin ==> a.user.Some? && a.user.value.isAdmin)
  {
    DispatchEstablishes(routes, req, w);
  }

  /**
   * A handler whose every route is a single `:token` segment behind the invite check is
   * reached only with a one-segment path whose segment passed that check, binding its email.
   */
  lemma {:induction false} ReachedOnlyWithToken(routes: seq<Route>, req: Request, w: World, h: Handler)
    requires forall k :: 0 <= k < |routes| && routes[k].handler == h ==> routes[k].pattern == [Param] && Invited in routes[k].guards
    requires Dispatch(routes, req, w).Some? && Dispatch(routes, req, w).value.Ok?
    requires Dispatch(routes, req, w).value.value.0 == h
    ensures |req.path| == 1
    ensures IsInvited(req.path[0], w.invitations, w.key, w.nowMs) == Ok(Dispatch(routes, req, w).value.value.1.email)
  {
    DispatchEstablishes(routes, req, w);
    var k := Lookup(routes, req).value;
    assert routes[k].pattern[1..] == [];
    assert PatternMatches([], req.path[1..]);
    assert ParamOf(routes[k], req) == req.path[0];
  }
}

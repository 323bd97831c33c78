/** The `/tasks` route table and the access policy it encodes. */
module TaskRouter {
  import opened Wrappers
  import opened Tokens
  import opened Routing
  import opened AuthController

  /** The routes in registration order. */
  const TaskRoutes: seq<Route> := [
    Route(Get, [Lit("all")], [Authenticated, Admin], GetAllTasksHandler),
    Route(Get, [Param], [Authenticated], GetTaskByIdHandler),
    Route(Post, [], [Authenticated], CreateTaskHandler),
    Route(Get, [], [Authenticated], GetUserTasksHandler),
    Route(Patch, [Param], [Authenticated], UpdateTaskByIdHandler),
    Route(Delete, [Param], [Authenticated], DeleteTaskByIdHandler)
  ]

  /** Every task route runs the session check before anything else. */
  lemma {:induction false} EveryTaskRouteAuthenticates(req: Request, w: World)
    requires Dispatch(TaskRoutes, req, w).Some? && Dispatch(TaskRoutes, req, w).value.Ok?
    ensures var a := Dispatch(TaskRoutes, req, w).value.value.1;
      a.user.Some? && IsAuthenticated(req.authorization, w.users, w.key, w.nowMs) == Ok(a.user.value)
  {
    DispatchEstablishes(TaskRoutes, req, w);
    var k := Lookup(TaskRoutes, req).value;
    assert TaskRoutes[k].guards[0] == Authenticated;
  }

  /** The listing of everyone's tasks is reached by administrators only. */
  lemma {:induction false} AllTasksRequiresAdmin(req: Request, w: World)
    requires Dispatch(TaskRoutes, req, w).Some? && Dispatch(TaskRoutes, req, w).value.Ok?
    requires Dispatch(TaskRoutes, req, w).value.value.0 == GetAllTasksHandler
    ensures var a := Dispatch(TaskRoutes, req, w).value.value.1;
      a.user.Some? && a.user.value.isAdmin
  {
    DispatchEstablishes(TaskRoutes, req, w);
    var k := Lookup(TaskRoutes, req).value;
    assert k == 0;
  }

  /** `GET /all` is the listing, registered before `GET /:id`, so "all" is never read as a task id. */
  lemma AllIsNeverATaskId(authorization: Option<seq<Word>>)
    ensures Lookup(TaskRoutes, Request(Get, [Text("all")], authorization)) == Some(0)
  {
  }

  /** The per-task routes need a session only: ownership is left to the handlers. */
  lemma PerTaskRoutesNeedOnlyASession()
    ensures forall k :: 0 <= k < |TaskRoutes| && TaskRoutes[k].pattern == [Param] ==> TaskRoutes[k].guards == [Authenticated]
  {
  }
}

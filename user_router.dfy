/** The `/users` route table and the access policy it encodes. */
module UserRouter {
  import opened Wrappers
  import opened Tokens
  import opened Routing
  import opened AuthController

  /** The routes in registration order. */
  const UserRoutes: seq<Route> := [
    Route(Post, [Lit("forgotPassword")], [], ForgotPasswordHandler),
    Route(Patch, [Lit("resetPassword"), Param], [], ResetPasswordHandler),
    Route(Post, [Lit("invite")], [Authenticated, Admin], CreateUserInviteHandler),
    Route(Post, [Lit("login")], [], UserLoginHandler),
    Route(Post, [Lit("logout")], [Authenticated], UserLogoutHandler),
    Route(Post, [Param], [Invited], CreateUserHandler),
    Route(Patch, [], [Authenticated], UpdateMeHandler),
    Route(Get, [Lit("me")], [Authenticated], GetMeHandler)
  ]

  /** Password recovery is open to anyone: its route comes first and carries no guard. */
  lemma ForgotPasswordOpen(authorization: Option<seq<Word>>)
    ensures var k := Lookup(UserRoutes, Request(Post, [Text("forgotPassword")], authorization));
      k == Some(0) && UserRoutes[0].handler == ForgotPasswordHandler && UserRoutes[0].guards == []
  {
    LookupAt(UserRoutes, Request(Post, [Text("forgotPassword")], authorization), 0);
  }

  /** So is redeeming a reset secret. */
  lemma ResetPasswordOpen(authorization: Option<seq<Word>>, secret: Word)
    requires secret != Text("")
    ensures var k := Lookup(UserRoutes, Request(Patch, [Text("resetPassword"), secret], authorization));
      k == Some(1) && UserRoutes[1].handler == ResetPasswordHandler && UserRoutes[1].guards == []
  {
    var req := Request(Patch, [Text("resetPassword"), secret], authorization);
    assert !Matches(UserRoutes[0], req);
    LookupAt(UserRoutes, req, 1);
  }

  /** And so is logging in. */
  lemma LoginOpen(authorization: Option<seq<Word>>)
    ensures var k := Lookup(UserRoutes, Request(Post, [Text("login")], authorization));
      k == Some(3) && UserRoutes[3].handler == UserLoginHandler && UserRoutes[3].guards == []
  {
    var req := Request(Post, [Text("login")], authorization);
    assert !Matches(UserRoutes[0], req) && !Matches(UserRoutes[1], req) && !Matches(UserRoutes[2], req);
    LookupAt(UserRoutes, req, 3);
  }

  /** Which handlers every route to them guards with which check. */
  lemma GuardedBy(h: Handler, g: Guard)
    requires (h == CreateUserInviteHandler && g in {Authenticated, Admin})
          || (h in {UserLogoutHandler, UpdateMeHandler, GetMeHandler} && g == Authenticated)
          || (h == CreateUserHandler && g == Invited)
    ensures forall k :: 0 <= k < |UserRoutes| && UserRoutes[k].handler == h ==> g in UserRoutes[k].guards
  {
  }

  /** Only an authenticated administrator reaches the invitation handler. */
  lemma {:induction false} InviteRequiresAdmin(req: Request, w: World)
    requires Dispatch(UserRoutes, req, w).Some? && Dispatch(UserRoutes, req, w).value.Ok?
    requires Dispatch(UserRoutes, req, w).value.value.0 == CreateUserInviteHandler
    ensures var a := Dispatch(UserRoutes, req, w).value.value.1;
      && a.user.Some? && a.user.value.isAdmin
      && IsAuthenticated(req.authorization, w.users, w.key, w.nowMs) == Ok(a.user.value)
  {
    GuardedBy(CreateUserInviteHandler, Authenticated);
    GuardedBy(CreateUserInviteHandler, Admin);
    ReachedOnlyThrough(UserRoutes, req, w, CreateUserInviteHandler, Authenticated);
    ReachedOnlyThrough(UserRoutes, req, w, CreateUserInviteHandler, Admin);
  }

  /** Logout, profile update and profile read each act only for an authenticated account. */
  lemma {:induction false} AccountRoutesAuthenticate(req: Request, w: World)
    requires Dispatch(UserRoutes, req, w).Some? && Dispatch(UserRoutes, req, w).value.Ok?
    requires Dispatch(UserRoutes, req, w).value.value.0 in {UserLogoutHandler, UpdateMeHandler, GetMeHandler}
    ensures var a := Dispatch(UserRoutes, req, w).value.value.1;
      a.user.Some? && IsAuthenticated(req.authorization, w.users, w.key, w.nowMs) == Ok(a.user.value)
  {
    var h := Dispatch(UserRoutes, req, w).value.value.0;
    GuardedBy(h, Authenticated);
    ReachedOnlyThrough(UserRoutes, req, w, h, Authenticated);
  }

  /** The only route to registration is `POST /:token`, behind the invite check. */
  lemma RegistrationRoute()
    ensures forall k :: 0 <= k < |UserRoutes| && UserRoutes[k].handler == CreateUserHandler ==>
      UserRoutes[k].pattern == [Param] && Invited in UserRoutes[k].guards
  {
  }

  /** Registration only proceeds for a token that passed the invite check, with the email it bound. */
  lemma {:induction false} RegistrationRequiresInvite(req: Request, w: World)
    requires Dispatch(UserRoutes, req, w).Some? && Dispatch(UserRoutes, req, w).value.Ok?
    requires Dispatch(UserRoutes, req, w).value.value.0 == CreateUserHandler
    ensures |req.path| == 1
    ensures IsInvited(req.path[0], w.invitations, w.key, w.nowMs) == Ok(Dispatch(UserRoutes, req, w).value.value.1.email)
  {
    RegistrationRoute();
    ReachedOnlyWithToken(UserRoutes, req, w, CreateUserHandler);
  }

  /** A POST to one of the literal paths goes to its own route, never to registration, because those routes come first. */
  lemma {:induction false} LiteralPostsWin(segment: Word, authorization: Option<seq<Word>>)
    requires segment in {Text("forgotPassword"), Text("invite"), Text("login"), Text("logout")}
    ensures var k := Lookup(UserRoutes, Request(Post, [segment], authorization));
      k.Some? && k.value < 5 && UserRoutes[k.value].handler != CreateUserHandler
  {
    var req := Request(Post, [segment], authorization);
    if segment == Text("forgotPassword") {
      LookupAt(UserRoutes, req, 0);
    } else if segment == Text("invite") {
      assert !Matches(UserRoutes[0], req) && !Matches(UserRoutes[1], req);
      LookupAt(UserRoutes, req, 2);
    } else if segment == Text("login") {
      assert !Matches(UserRoutes[0], req) && !Matches(UserRoutes[1], req) && !Matches(UserRoutes[2], req);
      LookupAt(UserRoutes, req, 3);
    } else {
      assert !Matches(UserRoutes[0], req) && !Matches(UserRoutes[1], req) && !Matches(UserRoutes[2], req);
      assert !Matches(UserRoutes[3], req);
      LookupAt(UserRoutes, req, 4);
    }
  }

  /** Any other single non-empty segment in a POST is read as an invite token and goes to registration. */
  lemma {:induction false} OtherPostsRegister(segment: Word, authorization: Option<seq<Word>>)
    requires segment != Text("")
    requires segment !in {Text("forgotPassword"), Text("invite"), Text("login"), Text("logout")}
    ensures var k := Lookup(UserRoutes, Request(Post, [segment], authorization));
      k == Some(5) && UserRoutes[5].handler == CreateUserHandler
  {
    var req := Request(Post, [segment], authorization);
    assert !Matches(UserRoutes[0], req) && !Matches(UserRoutes[1], req) && !Matches(UserRoutes[2], req);
    assert !Matches(UserRoutes[3], req) && !Matches(UserRoutes[4], req);
    LookupAt(UserRoutes, req, 5);
  }
}

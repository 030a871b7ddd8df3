/** `authorizeAdmin`: the role gate that runs after `authenticateToken` on
    the administrator routes. */
module AuthorizeAdmin {
  import opened Wrappers
  import AuthRoutes
  import AuthMiddleware

  const ADMIN_ROLE := "admin"
  const ADMIN_REQUIRED := "Acesso negado. Permissão de administrador necessária."

  datatype Decision = Forbidden(code: int, message: string) | Next

  /** The gate reads `req.user.role` and nothing else; it returns a decision
      and never writes `req.user`. */
  function Gate(user: AuthRoutes.Claims): (d: Decision)
    ensures d.Next? <==> user.role == ADMIN_ROLE
    ensures d.Forbidden? ==> d == Forbidden(403, ADMIN_REQUIRED)
  {
    if user.role != ADMIN_ROLE then Forbidden(403, ADMIN_REQUIRED) else Next
  }

  /** The comparison is exact: a capitalised role is refused. */
  lemma CapitalisedAdminRefused(id: int)
    ensures Gate(AuthRoutes.Claims(id, "Admin")) == Forbidden(403, ADMIN_REQUIRED)
  {
    assert "Admin"[0] != ADMIN_ROLE[0];
  }

  /** The two middlewares in sequence: a request reaches an administrator
      route exactly when its header is "Bearer " followed by a token the
      verifier accepts and whose claims carry the role "admin". */
  lemma AdminRouteReached(header: Option<string>, verify: string -> Option<AuthRoutes.Claims>)
    ensures (AuthMiddleware.Authenticate(header, verify).Proceed? &&
             Gate(AuthMiddleware.Authenticate(header, verify).user).Next?) <==>
      header.Some? && AuthMiddleware.StartsWith(header.value, AuthMiddleware.BEARER) &&
      var token := AuthMiddleware.SplitOnSpace(header.value[|AuthMiddleware.BEARER|..])[0];
      verify(token).Some? && verify(token).value.role == ADMIN_ROLE
  {
  }
}

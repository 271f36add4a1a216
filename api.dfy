/** The API gateway client: the table of remote operations (method, path,
    body), the request interceptor that attaches the bearer credential, and
    the pass-through that returns `response.data` unchanged. */
module Api {
  import opened JsValues
  import opened Browser

  datatype HttpMethod = Get | Post | Delete

  /** A JSON request body: an object with string fields, or no body at all. */
  datatype Body = NoBody | Json(fields: map<string, string>)

  /** A request as it leaves the client. */
  datatype Request = Request(verb: HttpMethod, url: string, body: Body, headers: map<string, string>)

  /** Every remote operation the console calls, with its arguments: the
      exported functions of the service module and the four calls the user
      management page makes on the client directly. */
  datatype Operation =
    | RegisterUser(name: string, email: string, password: string)
    | LoginUser(email: string, password: string)
    | GetCurrentUser
    | GetAllUsers
    | GetAllTeams
    | CreateTeam(name: string)
    | GetAllRoles
    | CreateRole(name: string)
    | GetAllPermissions
    | AddPermissionToRole(roleId: string, permissionKey: string)
    | RemovePermissionFromRole(roleId: string, permissionKey: string)
    | GetAuditLogs
    | CreateUser(name: string, email: string, password: string)
    | AssignRole(userId: string, roleId: string, validFrom: string)
    | AssignTeam(userId: string, teamId: string)
    | DeleteUser(userId: string)

  /** The client instance's default headers. */
  const DefaultHeaders: map<string, string> := map["Content-Type" := "application/json"]

  /** A path built from its segments, each after a '/', with no encoding:
      what the template literals of the operations produce. */
  function Path(segs: seq<string>): string
  {
    if |segs| == 0 then "" else "/" + segs[0] + Path(segs[1..])
  }

  /** The request each operation makes before the interceptor runs; path
      parameters are interpolated verbatim, without any encoding. */
  function Endpoint(op: Operation): (r: Request)
    ensures r.headers == DefaultHeaders
    ensures r.body.Json? <==> r.verb == Post
  {
    match op
    case RegisterUser(name, email, password) =>
      Request(Post, Path(["auth", "register"]), Json(map["name" := name, "email" := email, "password" := password]), DefaultHeaders)
    case LoginUser(email, password) =>
      Request(Post, Path(["auth", "login"]), Json(map["email" := email, "password" := password]), DefaultHeaders)
    case GetCurrentUser => Request(Get, Path(["users", "me"]), NoBody, DefaultHeaders)
    case GetAllUsers => Request(Get, Path(["users"]), NoBody, DefaultHeaders)
    case GetAllTeams => Request(Get, Path(["teams"]), NoBody, DefaultHeaders)
    case CreateTeam(name) => Request(Post, Path(["teams"]), Json(map["name" := name]), DefaultHeaders)
    case GetAllRoles => Request(Get, Path(["roles"]), NoBody, DefaultHeaders)
    case CreateRole(name) => Request(Post, Path(["roles"]), Json(map["name" := name]), DefaultHeaders)
    case GetAllPermissions => Request(Get, Path(["roles", "permissions"]), NoBody, DefaultHeaders)
    case AddPermissionToRole(roleId, permissionKey) =>
      Request(Post, Path(["roles", roleId, "permissions"]), Json(map["permissionKey" := permissionKey]), DefaultHeaders)
    case RemovePermissionFromRole(roleId, permissionKey) =>
      Request(Delete, Path(["roles", roleId, "permissions", permissionKey]), NoBody, DefaultHeaders)
    case GetAuditLogs => Request(Get, Path(["audit-logs"]), NoBody, DefaultHeaders)
    case CreateUser(name, email, password) =>
      Request(Post, Path(["users"]), Json(map["name" := name, "email" := email, "password" := password]), DefaultHeaders)
    case AssignRole(userId, roleId, validFrom) =>
      Request(Post, Path(["users", userId, "role"]), Json(map["roleId" := roleId, "validFrom" := validFrom]), DefaultHeaders)
    case AssignTeam(userId, teamId) =>
      Request(Post, Path(["users", userId, "team"]), Json(map["teamId" := teamId]), DefaultHeaders)
    case DeleteUser(userId) => Request(Delete, Path(["users", userId]), NoBody, DefaultHeaders)
  }

  // ---------------------------------------------------------------------
  // The server's reading of a request: split the path on '/' and match the
  // segments against the routes. It is the partner of Endpoint: an
  // operation whose path parameters hold no '/' is read back exactly.

  /** The segments of a path between '/' characters ("/a/b" is ["", "a", "b"]). */
  function Split(path: string): (segs: seq<string>)
    ensures |segs| >= 1
  {
    if |path| == 0 then [""]
    else
      var rest := Split(path[1..]);
      if path[0] == '/' then [""] + rest
      else [[path[0]] + rest[0]] + rest[1..]
  }

  predicate SlashFree(s: string) { '/' !in s }

  lemma {:induction false} SplitOfSlashFree(a: string)
    requires SlashFree(a)
    ensures Split(a) == [a]
  {
    if |a| > 0 {
      SplitOfSlashFree(a[1..]);
      assert [a[0]] + a[1..] == a;
    }
  }

  lemma {:induction false} SplitAtSlash(a: string, b: string)
    requires SlashFree(a)
    ensures Split(a + "/" + b) == [a] + Split(b)
  {
    if |a| == 0 {
      assert a + "/" + b == "/" + b;
      assert ("/" + b)[1..] == b;
    } else {
      SplitAtSlash(a[1..], b);
      assert (a + "/" + b)[1..] == a[1..] + "/" + b;
      assert [a[0]] + a[1..] == a;
    }
  }

  /** The fields of a JSON body (none for a request without one). */
  function Fields(b: Body): map<string, string>
  {
    if b.Json? then b.fields else map[]
  }

  /** The server's route table: which operation, with which arguments, a
      request names. */
  function Decode(r: Request): (op: Option<Operation>)
  {
    var s := Split(r.url);
    if |s| < 2 || s[0] != "" then None
    else DecodeRoute(r.verb, s[1..], Fields(r.body))
  }

  function DecodeRoute(verb: HttpMethod, p: seq<string>, f: map<string, string>): Option<Operation>
  {
    match verb
    case Get => DecodeGet(p)
    case Post => DecodePost(p, f)
    case Delete => DecodeDelete(p)
  }

  lemma DecodeBySegments(r: Request, p: seq<string>)
    requires Split(r.url) == [""] + p && |p| >= 1
    ensures Decode(r) == DecodeRoute(r.verb, p, Fields(r.body))
  {
    assert Split(r.url)[1..] == p;
  }

  function DecodeGet(p: seq<string>): Option<Operation>
  {
    if |p| == 1 then
      if p[0] == "users" then Some(GetAllUsers)
      else if p[0] == "teams" then Some(GetAllTeams)
      else if p[0] == "roles" then Some(GetAllRoles)
      else if p[0] == "audit-logs" then Some(GetAuditLogs)
      else None
    else if |p| == 2 then
      if p[0] == "users" && p[1] == "me" then Some(GetCurrentUser)
      else if p[0] == "roles" && p[1] == "permissions" then Some(GetAllPermissions)
      else None
    else None
  }

  function DecodePost(p: seq<string>, f: map<string, string>): Option<Operation>
  {
    if |p| == 1 then
      if p[0] == "teams" && "name" in f then Some(CreateTeam(f["name"]))
      else if p[0] == "roles" && "name" in f then Some(CreateRole(f["name"]))
      else if p[0] == "users" && "name" in f && "email" in f && "password" in f then
        Some(CreateUser(f["name"], f["email"], f["password"]))
      else None
    else if |p| == 2 then
      if p[0] == "auth" && p[1] == "register" && "name" in f && "email" in f && "password" in f then
        Some(RegisterUser(f["name"], f["email"], f["password"]))
      else if p[0] == "auth" && p[1] == "login" && "email" in f && "password" in f then
        Some(LoginUser(f["email"], f["password"]))
      else None
    else if |p| == 3 then
      if p[0] == "roles" && p[2] == "permissions" && "permissionKey" in f then
        Some(AddPermissionToRole(p[1], f["permissionKey"]))
      else if p[0] == "users" && p[2] == "role" && "roleId" in f && "validFrom" in f then
        Some(AssignRole(p[1], f["roleId"], f["validFrom"]))
      else if p[0] == "users" && p[2] == "team" && "teamId" in f then
        Some(AssignTeam(p[1], f["teamId"]))
      else None
    else None
  }

  function DecodeDelete(p: seq<string>): Option<Operation>
  {
    if |p| == 4 && p[0] == "roles" && p[2] == "permissions" then
      Some(RemovePermissionFromRole(p[1], p[3]))
    else if |p| == 2 && p[0] == "users" then Some(DeleteUser(p[1]))
    else None
  }

  /** The arguments interpolated into a path hold no '/'. */
  predicate PathSafe(op: Operation)
  {
    match op
    case AddPermissionToRole(roleId, _) => SlashFree(roleId)
    case RemovePermissionFromRole(roleId, permissionKey) => SlashFree(roleId) && SlashFree(permissionKey)
    case AssignRole(userId, _, _) => SlashFree(userId)
    case AssignTeam(userId, _) => SlashFree(userId)
    case DeleteUser(userId) => SlashFree(userId)
    case _ => true
  }

  /** The segments of `Path(segs)` when no segment holds a '/'. */
  lemma {:induction false} SplitJoined(segs: seq<string>)
    requires |segs| >= 1 && forall i :: 0 <= i < |segs| ==> SlashFree(segs[i])
    ensures Split(segs[0] + Path(segs[1..])) == segs
  {
    if |segs| == 1 {
      assert segs[0] + Path(segs[1..]) == segs[0];
      SplitOfSlashFree(segs[0]);
    } else {
      var rest := segs[1..];
      assert segs[0] + Path(rest) == segs[0] + "/" + (rest[0] + Path(rest[1..]));
      SplitAtSlash(segs[0], rest[0] + Path(rest[1..]));
      SplitJoined(rest);
      assert [segs[0]] + rest == segs;
    }
  }

  lemma SplitPath(segs: seq<string>)
    requires |segs| >= 1 && forall i :: 0 <= i < |segs| ==> SlashFree(segs[i])
    ensures Split(Path(segs)) == [""] + segs
  {
    assert Path(segs) == "" + "/" + (segs[0] + Path(segs[1..]));
    SplitAtSlash("", segs[0] + Path(segs[1..]));
    SplitJoined(segs);
  }

  lemma DecodeGetAt(r: Request, p: seq<string>)
    requires r.verb == Get && Split(r.url) == [""] + p && |p| >= 1
    ensures Decode(r) == DecodeGet(p)
  {
    DecodeBySegments(r, p);
  }

  lemma DecodePostAt(r: Request, p: seq<string>)
    requires r.verb == Post && Split(r.url) == [""] + p && |p| >= 1
    ensures Decode(r) == DecodePost(p, Fields(r.body))
  {
    DecodeBySegments(r, p);
  }

  lemma DecodeDeleteAt(r: Request, p: seq<string>)
    requires r.verb == Delete && Split(r.url) == [""] + p && |p| >= 1
    ensures Decode(r) == DecodeDelete(p)
  {
    DecodeBySegments(r, p);
  }

  lemma SegmentsRegisterUser(op: Operation)
    requires op.RegisterUser?
    ensures Split(Endpoint(op).url) == [""] + ["auth", "register"]
  {
    SplitPath(["auth", "register"]);
  }


  lemma RoundTripRegisterUser(op: Operation)
    requires op.RegisterUser? && PathSafe(op)
    ensures Decode(Endpoint(op)) == Some(op)
  {
    SegmentsRegisterUser(op);
    FieldsRegisterUser(op);
    DecodePostAt(Endpoint(op), ["auth", "register"]);
    ReadRegister(op.name, op.email, op.password);
  }

  lemma FieldsRegisterUser(op: Operation)
    requires op.RegisterUser?
    ensures Endpoint(op).verb == Post
    ensures Fields(Endpoint(op).body) == map["name" := op.name, "email" := op.email, "password" := op.password]
  {
  }

  lemma ReadRegister(name: string, email: string, password: string)
    ensures DecodePost(["auth", "register"], map["name" := name, "email" := email, "password" := password]) ==
            Some(RegisterUser(name, email, password))
  {
  }

  lemma SegmentsLoginUser(op: Operation)
    requires op.LoginUser? && PathSafe(op)
    ensures Split(Endpoint(op).url) == [""] + ["auth", "login"]
  {
    SplitPath(["auth", "login"]);
  }

  lemma RoundTripLoginUser(op: Operation)
    requires op.LoginUser? && PathSafe(op)
    ensures Decode(Endpoint(op)) == Some(op)
  {
    SegmentsLoginUser(op);
    DecodePostAt(Endpoint(op), ["auth", "login"]);
  }

  lemma SegmentsGetCurrentUser(op: Operation)
    requires op.GetCurrentUser? && PathSafe(op)
    ensures Split(Endpoint(op).url) == [""] + ["users", "me"]
  {
    SplitPath(["users", "me"]);
  }

  lemma RoundTripGetCurrentUser(op: Operation)
    requires op.GetCurrentUser? && PathSafe(op)
    ensures Decode(Endpoint(op)) == Some(op)
  {
    SegmentsGetCurrentUser(op);
    DecodeGetAt(Endpoint(op), ["users", "me"]);
  }

  lemma SegmentsGetAllUsers(op: Operation)
    requires op.GetAllUsers? && PathSafe(op)
    ensures Split(Endpoint(op).url) == [""] + ["users"]
  {
    SplitPath(["users"]);
  }

  lemma RoundTripGetAllUsers(op: Operation)
    requires op.GetAllUsers? && PathSafe(op)
    ensures Decode(Endpoint(op)) == Some(op)
  {
    SegmentsGetAllUsers(op);
    DecodeGetAt(Endpoint(op), ["users"]);
  }

  lemma SegmentsGetAllTeams(op: Operation)
    requires op.GetAllTeams? && PathSafe(op)
    ensures Split(Endpoint(op).url) == [""] + ["teams"]
  {
    SplitPath(["teams"]);
  }

  lemma RoundTripGetAllTeams(op: Operation)
    requires op.GetAllTeams? && PathSafe(op)
    ensures Decode(Endpoint(op)) == Some(op)
  {
    SegmentsGetAllTeams(op);
    DecodeGetAt(Endpoint(op), ["teams"]);
  }

  lemma SegmentsCreateTeam(op: Operation)
    requires op.CreateTeam? && PathSafe(op)
    ensures Split(Endpoint(op).url) == [""] + ["teams"]
  {
    SplitPath(["teams"]);
  }

  lemma RoundTripCreateTeam(op: Operation)
    requires op.CreateTeam? && PathSafe(op)
    ensures Decode(Endpoint(op)) == Some(op)
  {
    SegmentsCreateTeam(op);
    DecodePostAt(Endpoint(op), ["teams"]);
  }

  lemma SegmentsGetAllRoles(op: Operation)
    requires op.GetAllRoles? && PathSafe(op)
    ensures Split(Endpoint(op).url) == [""] + ["roles"]
  {
    SplitPath(["roles"]);
  }

  lemma RoundTripGetAllRoles(op: Operation)
    requires op.GetAllRoles? && PathSafe(op)
    ensures Decode(Endpoint(op)) == Some(op)
  {
    SegmentsGetAllRoles(op);
    DecodeGetAt(Endpoint(op), ["roles"]);
  }

  lemma SegmentsCreateRole(op: Operation)
    requires op.CreateRole? && PathSafe(op)
    ensures Split(Endpoint(op).url) == [""] + ["roles"]
  {
    SplitPath(["roles"]);
  }

  lemma RoundTripCreateRole(op: Operation)
    requires op.CreateRole? && PathSafe(op)
    ensures Decode(Endpoint(op)) == Some(op)
  {
    SegmentsCreateRole(op);
    DecodePostAt(Endpoint(op), ["roles"]);
  }

  lemma SegmentsGetAllPermissions(op: Operation)
    requires op.GetAllPermissions?
    ensures Split(Endpoint(op).url) == [""] + ["roles", "permissions"]
  {
    SplitPath(["roles", "permissions"]);
  }

  lemma RoundTripGetAllPermissions(op: Operation)
    requires op.GetAllPermissions? && PathSafe(op)
    ensures Decode(Endpoint(op)) == Some(op)
  {
    SegmentsGetAllPermissions(op);
    DecodeGetAt(Endpoint(op), ["roles", "permissions"]);
  }

  lemma SegmentsAddPermissionToRole(op: Operation)
    requires op.AddPermissionToRole? && PathSafe(op)
    ensures Split(Endpoint(op).url) == [""] + ["roles", op.roleId, "permissions"]
  {
    SplitPath(["roles", op.roleId, "permissions"]);
  }

  lemma RoundTripAddPermissionToRole(op: Operation)
    requires op.AddPermissionToRole? && PathSafe(op)
    ensures Decode(Endpoint(op)) == Some(op)
  {
    SegmentsAddPermissionToRole(op);
    DecodePostAt(Endpoint(op), ["roles", op.roleId, "permissions"]);
  }

  lemma SegmentsRemovePermissionFromRole(op: Operation)
    requires op.RemovePermissionFromRole? && PathSafe(op)
    ensures Split(Endpoint(op).url) == [""] + ["roles", op.roleId, "permissions", op.permissionKey]
  {
    SplitPath(["roles", op.roleId, "permissions", op.permissionKey]);
  }

  lemma RoundTripRemovePermissionFromRole(op: Operation)
    requires op.RemovePermissionFromRole? && PathSafe(op)
    ensures Decode(Endpoint(op)) == Some(op)
  {
    SegmentsRemovePermissionFromRole(op);
    DecodeDeleteAt(Endpoint(op), ["roles", op.roleId, "permissions", op.permissionKey]);
  }

  lemma SegmentsGetAuditLogs(op: Operation)
    requires op.GetAuditLogs? && PathSafe(op)
    ensures Split(Endpoint(op).url) == [""] + ["audit-logs"]
  {
    SplitPath(["audit-logs"]);
  }

  lemma RoundTripGetAuditLogs(op: Operation)
    requires op.GetAuditLogs? && PathSafe(op)
    ensures Decode(Endpoint(op)) == Some(op)
  {
    SegmentsGetAuditLogs(op);
    DecodeGetAt(Endpoint(op), ["audit-logs"]);
    ReadAuditLogs();
  }

  lemma ReadAuditLogs()
    ensures DecodeGet(["audit-logs"]) == Some(GetAuditLogs)
  {
  }

  lemma SegmentsCreateUser(op: Operation)
    requires op.CreateUser? && PathSafe(op)
    ensures Split(Endpoint(op).url) == [""] + ["users"]
  {
    SplitPath(["users"]);
  }

  lemma RoundTripCreateUser(op: Operation)
    requires op.CreateUser? && PathSafe(op)
    ensures Decode(Endpoint(op)) == Some(op)
  {
    SegmentsCreateUser(op);
    DecodePostAt(Endpoint(op), ["users"]);
  }

  lemma SegmentsAssignRole(op: Operation)
    requires op.AssignRole? && PathSafe(op)
    ensures Split(Endpoint(op).url) == [""] + ["users", op.userId, "role"]
  {
    SplitPath(["users", op.userId, "role"]);
  }

  lemma RoundTripAssignRole(op: Operation)
    requires op.AssignRole? && PathSafe(op)
    ensures Decode(Endpoint(op)) == Some(op)
  {
    SegmentsAssignRole(op);
    DecodePostAt(Endpoint(op), ["users", op.userId, "role"]);
  }

  lemma SegmentsAssignTeam(op: Operation)
    requires op.AssignTeam? && PathSafe(op)
    ensures Split(Endpoint(op).url) == [""] + ["users", op.userId, "team"]
  {
    SplitPath(["users", op.userId, "team"]);
  }

  lemma RoundTripAssignTeam(op: Operation)
    requires op.AssignTeam? && PathSafe(op)
    ensures Decode(Endpoint(op)) == Some(op)
  {
    SegmentsAssignTeam(op);
    DecodePostAt(Endpoint(op), ["users", op.userId, "team"]);
  }

  lemma SegmentsDeleteUser(op: Operation)
    requires op.DeleteUser? && PathSafe(op)
    ensures Split(Endpoint(op).url) == [""] + ["users", op.userId]
  {
    SplitPath(["users", op.userId]);
  }

  lemma RoundTripDeleteUser(op: Operation)
    requires op.DeleteUser? && PathSafe(op)
    ensures Decode(Endpoint(op)) == Some(op)
  {
    SegmentsDeleteUser(op);
    DecodeDeleteAt(Endpoint(op), ["users", op.userId]);
  }

  /** Round trip: the server reads back exactly the operation the client
      meant, whenever no path parameter contains a '/'. */
  lemma DecodeEndpoint(op: Operation)
    requires PathSafe(op)
    ensures Decode(Endpoint(op)) == Some(op)
  {
    match op {
      case RegisterUser(_, _, _) => RoundTripRegisterUser(op);
      case LoginUser(_, _) => RoundTripLoginUser(op);
      case GetCurrentUser => RoundTripGetCurrentUser(op);
      case GetAllUsers => RoundTripGetAllUsers(op);
      case GetAllTeams => RoundTripGetAllTeams(op);
      case CreateTeam(_) => RoundTripCreateTeam(op);
      case GetAllRoles => RoundTripGetAllRoles(op);
      case CreateRole(_) => RoundTripCreateRole(op);
      case GetAllPermissions => RoundTripGetAllPermissions(op);
      case AddPermissionToRole(_, _) => RoundTripAddPermissionToRole(op);
      case RemovePermissionFromRole(_, _) => RoundTripRemovePermissionFromRole(op);
      case GetAuditLogs => RoundTripGetAuditLogs(op);
      case CreateUser(_, _, _) => RoundTripCreateUser(op);
      case AssignRole(_, _, _) => RoundTripAssignRole(op);
      case AssignTeam(_, _) => RoundTripAssignTeam(op);
      case DeleteUser(_) => RoundTripDeleteUser(op);
    }
  }

  /** A four-segment path is the segments joined by '/', after a leading '/'. */
  lemma PathOfFour(a: string, b: string, c: string, d: string)
    ensures Path([a, b, c, d]) == "/" + a + "/" + b + "/" + c + "/" + d
  {
    assert Path([d]) == "/" + d by {
      assert [d][1..] == [];
    }
    assert Path([c, d]) == "/" + c + "/" + d by {
      assert [c, d][1..] == [d];
    }
    assert Path([b, c, d]) == "/" + b + "/" + c + "/" + d by {
      assert [b, c, d][1..] == [c, d];
    }
    assert [a, b, c, d][1..] == [b, c, d];
  }

  lemma PathOfOne(a: string)
    ensures Path([a]) == "/" + a
  {
    assert [a][1..] == [];
  }

  lemma PathOfTwo(a: string, b: string)
    ensures Path([a, b]) == "/" + a + "/" + b
  {
    assert [a, b][1..] == [b];
    PathOfOne(b);
  }

  lemma PathOfThree(a: string, b: string, c: string)
    ensures Path([a, b, c]) == "/" + a + "/" + b + "/" + c
  {
    assert [a, b, c][1..] == [b, c];
    PathOfTwo(b, c);
  }

  // The table as the source writes it: each call's verb, its path with
  // the parameters spliced in verbatim, and its exact body.

  /** The two authentication calls post their arguments, and only those. */
  lemma AuthRequestsAsWritten(name: string, email: string, password: string)
    ensures Endpoint(RegisterUser(name, email, password)) ==
            Request(Post, "/auth/register", Json(map["name" := name, "email" := email, "password" := password]), DefaultHeaders)
    ensures Endpoint(LoginUser(email, password)) ==
            Request(Post, "/auth/login", Json(map["email" := email, "password" := password]), DefaultHeaders)
  {
    PathOfTwo("auth", "register");
    PathOfTwo("auth", "login");
  }

  lemma UserReadsAsWritten()
    ensures Endpoint(GetCurrentUser) == Request(Get, "/users/me", NoBody, DefaultHeaders)
    ensures Endpoint(GetAllUsers) == Request(Get, "/users", NoBody, DefaultHeaders)
  {
    PathOfTwo("users", "me");
    PathOfOne("users");
  }

  lemma TeamRequestsAsWritten(name: string)
    ensures Endpoint(GetAllTeams) == Request(Get, "/teams", NoBody, DefaultHeaders)
    ensures Endpoint(CreateTeam(name)) == Request(Post, "/teams", Json(map["name" := name]), DefaultHeaders)
  {
    PathOfOne("teams");
  }

  lemma RoleRequestsAsWritten(name: string)
    ensures Endpoint(GetAllRoles) == Request(Get, "/roles", NoBody, DefaultHeaders)
    ensures Endpoint(CreateRole(name)) == Request(Post, "/roles", Json(map["name" := name]), DefaultHeaders)
  {
    PathOfOne("roles");
  }

  lemma PermissionRequestsAsWritten(roleId: string, permissionKey: string)
    ensures Endpoint(AddPermissionToRole(roleId, permissionKey)) ==
            Request(Post, "/roles/" + roleId + "/permissions", Json(map["permissionKey" := permissionKey]), DefaultHeaders)
    ensures Endpoint(RemovePermissionFromRole(roleId, permissionKey)) ==
            Request(Delete, "/roles/" + roleId + "/permissions/" + permissionKey, NoBody, DefaultHeaders)
  {
    PathOfThree("roles", roleId, "permissions");
    PathOfFour("roles", roleId, "permissions", permissionKey);
  }

  /** The permission catalogue is read from under the roles path. */
  lemma CatalogueReadAsWritten()
    ensures Endpoint(GetAllPermissions) == Request(Get, "/roles/permissions", NoBody, DefaultHeaders)
  {
    PathOfTwo("roles", "permissions");
  }

  lemma AuditLogsAsWritten()
    ensures Endpoint(GetAuditLogs) == Request(Get, "/audit-logs", NoBody, DefaultHeaders)
  {
    PathOfOne("audit-logs");
  }

  /** The user management page's own calls: creation posts the form, and
      deletion addresses the user by identifier. */
  lemma UserWritesAsWritten(userId: string, name: string, email: string, password: string)
    ensures Endpoint(CreateUser(name, email, password)) ==
            Request(Post, "/users", Json(map["name" := name, "email" := email, "password" := password]), DefaultHeaders)
    ensures Endpoint(DeleteUser(userId)) == Request(Delete, "/users/" + userId, NoBody, DefaultHeaders)
  {
    PathOfOne("users");
    PathOfTwo("users", userId);
  }

  lemma AssignmentsAsWritten(userId: string, roleId: string, validFrom: string, teamId: string)
    ensures Endpoint(AssignRole(userId, roleId, validFrom)) ==
            Request(Post, "/users/" + userId + "/role", Json(map["roleId" := roleId, "validFrom" := validFrom]), DefaultHeaders)
    ensures Endpoint(AssignTeam(userId, teamId)) ==
            Request(Post, "/users/" + userId + "/team", Json(map["teamId" := teamId]), DefaultHeaders)
  {
    PathOfThree("users", userId, "role");
    PathOfThree("users", userId, "team");
  }

  /** Without encoding, a '/' inside a path parameter moves segment
      boundaries: two different removals put the same request on the wire. */
  lemma RemovePermissionPathsCollide(roleId: string, a: string, permissionKey: string)
    ensures RemovePermissionFromRole(roleId + "/permissions/" + a, permissionKey) !=
            RemovePermissionFromRole(roleId, a + "/permissions/" + permissionKey)
    ensures Endpoint(RemovePermissionFromRole(roleId + "/permissions/" + a, permissionKey)) ==
            Endpoint(RemovePermissionFromRole(roleId, a + "/permissions/" + permissionKey))
  {
    PathOfFour("roles", roleId + "/permissions/" + a, "permissions", permissionKey);
    PathOfFour("roles", roleId, "permissions", a + "/permissions/" + permissionKey);
    assert |roleId + "/permissions/" + a| > |roleId|;
  }

  // ---------------------------------------------------------------------
  // Credential attachment.

  /** The headers after the interceptor: `Authorization: Bearer <token>` is
      set exactly when the stored token is truthy; nothing else changes. */
  function WithBearer(headers: map<string, string>, stored: Option<string>): (r: map<string, string>)
    ensures Truthy(stored) ==> "Authorization" in r && r["Authorization"] == "Bearer " + stored.value
    ensures !Truthy(stored) ==> r == headers
    ensures r.Keys == headers.Keys + (if Truthy(stored) then {"Authorization"} else {})
    ensures forall k :: k in headers && k != "Authorization" ==> r[k] == headers[k]
  {
    if Truthy(stored) then headers["Authorization" := "Bearer " + stored.value] else headers
  }

  /** The request that reaches the wire for `op` when the storage slot holds `stored`. */
  function Outgoing(op: Operation, stored: Option<string>): (r: Request)
    ensures r.headers == WithBearer(DefaultHeaders, stored)
  {
    var r := Endpoint(op);
    r.(headers := WithBearer(r.headers, stored))
  }

  /** Every request carries the header exactly when a token is stored, with
      that exact token, and never an empty or null credential. */
  lemma BearerIffToken(op: Operation, stored: Option<string>)
    ensures "Authorization" in Outgoing(op, stored).headers <==> Truthy(stored)
    ensures Truthy(stored) ==> Outgoing(op, stored).headers["Authorization"] == "Bearer " + stored.value
    ensures Outgoing(op, stored).headers["Content-Type"] == "application/json"
    ensures Outgoing(op, stored).(headers := DefaultHeaders) == Endpoint(op)
  {
  }

  /** The configuration object axios hands to the interceptor; only its
      headers are mutable. */
  class RequestConfig {
    const verb: HttpMethod
    const url: string
    const data: Body
    var headers: map<string, string>

    constructor (r: Request)
      ensures Snapshot() == r
    {
      verb, url, data, headers := r.verb, r.url, r.body, r.headers;
    }

    function Snapshot(): Request
      reads this
    {
      Request(verb, url, data, headers)
    }
  }

  /** The request interceptor: reads the slot and, when the token is truthy,
      sets the header in place; returns the very same configuration object. */
  method RequestInterceptor(config: RequestConfig, store: CredentialStore) returns (out: RequestConfig)
    modifies config
    ensures out == config
    ensures config.headers == WithBearer(old(config.headers), store.slot)
  {
    var token := store.GetItem();
    if Truthy(token) {
      config.headers := config.headers["Authorization" := "Bearer " + token.value];
    }
    out := config;
  }

  datatype Rejection<+E> = Rejection(reason: E)

  /** The interceptor's error handler: the request fails with the very error
      it was given. */
  function OnRequestError<E>(error: E): (r: Rejection<E>)
    ensures r.reason == error
  {
    Rejection(error)
  }

  /** The client instance. `sent` is the model's record of the requests put
      on the wire, in order; the network's answer to each call is given to
      `Send` as `reply`. */
  class ApiClient {
    const store: CredentialStore
    var sent: seq<Request>

    constructor (store: CredentialStore)
      ensures this.store == store && sent == []
    {
      this.store := store;
      sent := [];
    }

    /** One exported operation: build the request, run the interceptor, send,
        and hand back `response.data` (or the rejection) unchanged. */
    method Send<T>(op: Operation, reply: Reply<T>) returns (r: Reply<T>)
      modifies this
      ensures r == reply
      ensures sent == old(sent) + [Outgoing(op, store.slot)]
    {
      var config := new RequestConfig(Endpoint(op));
      config := RequestInterceptor(config, store);
      sent := sent + [config.Snapshot()];
      r := reply;
    }
  }
}

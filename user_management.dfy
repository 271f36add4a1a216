/** The user management page: four independent loads that each degrade to
    an empty value, the create/assign/delete handlers that refetch after a
    change, and the per-row values the table derives from a user. */
module UserManagement {
  import opened JsValues
  import opened Records
  import opened Api

  const CreateFailed := "Failed to create user"
  const AssignRoleFailed := "Failed to assign role"
  const AssignTeamFailed := "Failed to assign team"
  const DeleteFailed := "Failed to delete user"

  /** The create-user form. */
  datatype UserForm = UserForm(name: string, email: string, password: string)
  const EmptyForm := UserForm("", "", "")

  /** The outcomes of one load's four calls. */
  datatype LoadReplies = LoadReplies(users: Reply<seq<User>>, roles: Reply<seq<Role>>,
                                     teams: Reply<seq<Team>>, me: Reply<User>)

  /** The four requests one load sends, in the order it issues them. */
  function LoadRequests(stored: Option<string>): seq<Request>
  {
    [Outgoing(GetAllUsers, stored), Outgoing(GetAllRoles, stored),
     Outgoing(GetAllTeams, stored), Outgoing(GetCurrentUser, stored)]
  }

  /** A load only reads: four bodiless GETs, each carrying the credential
      the slot holds at the time, or none. */
  lemma LoadRequestsOnlyRead(stored: Option<string>)
    ensures |LoadRequests(stored)| == 4
    ensures forall i :: 0 <= i < 4 ==> LoadRequests(stored)[i].verb == Get && LoadRequests(stored)[i].body == NoBody
    ensures forall i :: 0 <= i < 4 ==> LoadRequests(stored)[i].headers == WithBearer(DefaultHeaders, stored)
  {
  }

  /** `getCurrentUser().catch(() => null)` */
  function CurrentOr(reply: Reply<User>): (r: Option<User>)
    ensures reply.Ok? <==> r.Some?
    ensures reply.Ok? ==> r.value == reply.data
  {
    match reply
    case Ok(u) => Some(u)
    case Fail(_) => None
  }

  /** The role dropdown's value for a row: `user.roles?.[0]?.roleId?._id || ''`.
      A bare identifier has no `_id` property, so it selects nothing. */
  function RoleSelectValue(u: User): (r: string)
    ensures r != "" <==> u.roles.Some? && |u.roles.value| > 0 && u.roles.value[0].roleId.Some? &&
                         u.roles.value[0].roleId.value.RolePopulated?
    ensures r != "" ==> r == u.roles.value[0].roleId.value.id
  {
    if u.roles.Some? && |u.roles.value| > 0 then
      match u.roles.value[0].roleId
      case Some(RolePopulated(id, _)) => id
      case _ => ""
    else ""
  }

  /** The team dropdown's value for a row: `user.teamId?._id || user.teamId || ''`.
      A populated team gives its `_id`, a bare identifier itself. */
  function TeamSelectValue(u: User): (r: string)
    ensures r == "" <==> u.teamId.NoTeam?
    ensures u.teamId.TeamIdOnly? ==> r == u.teamId.rawId
    ensures u.teamId.TeamPopulated? ==> r == u.teamId.id
  {
    match u.teamId
    case TeamPopulated(id, _) => id
    case TeamIdOnly(raw) => raw
    case NoTeam => ""
  }

  /** A user's team dropdown shows the same team whether the server sent the
      team populated or as a bare identifier. */
  lemma TeamSelectIgnoresPopulation(u: User, t: Team)
    ensures TeamSelectValue(u.(teamId := TeamPopulated(t.id, t.name))) ==
            TeamSelectValue(u.(teamId := TeamIdOnly(t.id)))
    ensures TeamSelectValue(u.(teamId := TeamIdOnly(t.id))) == t.id
  {
  }

  /** The Delete button's `disabled`: `currentUser?._id === user._id`. */
  function DeleteDisabled(current: Option<User>, row: User): (r: bool)
    ensures r ==> current.Some?
  {
    current.Some? && current.value.id == row.id
  }

  /** No one can delete their own row, and every other row stays enabled;
      while the current user is unknown, nothing is disabled. */
  lemma OnlyOwnRowDisabled(current: Option<User>, rows: seq<User>)
    ensures current.None? ==> forall i :: 0 <= i < |rows| ==> !DeleteDisabled(current, rows[i])
    ensures current.Some? ==>
              forall i :: 0 <= i < |rows| ==> (DeleteDisabled(current, rows[i]) <==> rows[i].id == current.value.id)
  {
  }

  class UserManagementPage {
    var users: seq<User>
    var roles: seq<Role>
    var teams: seq<Team>
    var loading: bool
    var error: string
    var showCreateModal: bool
    var currentUser: Option<User>
    var form: UserForm
    const api: ApiClient

    constructor (api: ApiClient)
      ensures this.api == api
      ensures users == [] && roles == [] && teams == [] && loading && error == ""
      ensures !showCreateModal && currentUser == None && form == EmptyForm
    {
      this.api := api;
      users, roles, teams, loading, error := [], [], [], true, "";
      showCreateModal, currentUser, form := false, None, EmptyForm;
    }

    /** The state a finished `fetchData` leaves: each list from its own call
        or empty, the current user or null, no error, and loading over. */
    predicate Loaded(reload: LoadReplies)
      reads this
    {
      users == DataOr(reload.users, []) && roles == DataOr(reload.roles, []) &&
      teams == DataOr(reload.teams, []) && currentUser == CurrentOr(reload.me) &&
      error == "" && !loading
    }

    /** `fetchData`: the error is cleared, then each call falls back on its
        own (lists to empty, the current user to null), so the load as a
        whole never fails. */
    method FetchData(replies: LoadReplies)
      modifies this, api
      ensures api.sent == old(api.sent) + LoadRequests(api.store.slot)
      ensures Loaded(replies)
      ensures showCreateModal == old(showCreateModal) && form == old(form)
    {
      loading := true;
      error := "";
      var u := api.Send(GetAllUsers, replies.users);
      var r := api.Send(GetAllRoles, replies.roles);
      var t := api.Send(GetAllTeams, replies.teams);
      var me := api.Send(GetCurrentUser, replies.me);
      users := DataOr(u, []);
      roles := DataOr(r, []);
      teams := DataOr(t, []);
      currentUser := CurrentOr(me);
      loading := false;
    }

    /** `handleCreateUser`: posts the form; on success closes the dialog,
        empties the form and reloads. Returns the alert shown, if any; after
        an alert the page is exactly as it was. */
    method HandleCreateUser(reply: Reply<User>, reload: LoadReplies) returns (alert: Option<string>)
      modifies this, api
      ensures reply.Fail? ==>
                alert == Some(ErrorText(reply.message, CreateFailed)) &&
                api.sent == old(api.sent) + [Outgoing(CreateUser(old(form).name, old(form).email, old(form).password), api.store.slot)] &&
                unchanged(this)
      ensures reply.Ok? ==>
                alert == None && form == EmptyForm && !showCreateModal && Loaded(reload) &&
                api.sent == old(api.sent) + [Outgoing(CreateUser(old(form).name, old(form).email, old(form).password), api.store.slot)]
                  + LoadRequests(api.store.slot)
    {
      var c := api.Send(CreateUser(form.name, form.email, form.password), reply);
      if c.Fail? {
        alert := Some(ErrorText(c.message, CreateFailed));
        return;
      }
      alert := None;
      showCreateModal := false;
      form := EmptyForm;
      FetchData(reload);
    }

    /** The create dialog's Cancel button: only the dialog and the form
        change. */
    method CancelCreate()
      modifies this
      ensures !showCreateModal && form == EmptyForm
      ensures users == old(users) && roles == old(roles) && teams == old(teams) && error == old(error)
      ensures loading == old(loading) && currentUser == old(currentUser)
    {
      showCreateModal := false;
      form := EmptyForm;
    }

    /** `handleAssignRole`; `validFrom` is the moment of the call as sent. */
    method HandleAssignRole(userId: string, roleId: string, validFrom: string, reply: Reply<User>, reload: LoadReplies)
      returns (alert: Option<string>)
      modifies this, api
      ensures reply.Fail? ==>
                alert == Some(ErrorText(reply.message, AssignRoleFailed)) &&
                api.sent == old(api.sent) + [Outgoing(AssignRole(userId, roleId, validFrom), api.store.slot)] &&
                unchanged(this)
      ensures reply.Ok? ==>
                alert == None && Loaded(reload) &&
                api.sent == old(api.sent) + [Outgoing(AssignRole(userId, roleId, validFrom), api.store.slot)]
                  + LoadRequests(api.store.slot)
      ensures form == old(form) && showCreateModal == old(showCreateModal)
    {
      var a := api.Send(AssignRole(userId, roleId, validFrom), reply);
      if a.Fail? {
        alert := Some(ErrorText(a.message, AssignRoleFailed));
        return;
      }
      alert := None;
      FetchData(reload);
    }

    /** `handleAssignTeam` */
    method HandleAssignTeam(userId: string, teamId: string, reply: Reply<User>, reload: LoadReplies)
      returns (alert: Option<string>)
      modifies this, api
      ensures reply.Fail? ==>
                alert == Some(ErrorText(reply.message, AssignTeamFailed)) &&
                api.sent == old(api.sent) + [Outgoing(AssignTeam(userId, teamId), api.store.slot)] &&
                unchanged(this)
      ensures reply.Ok? ==>
                alert == None && Loaded(reload) &&
                api.sent == old(api.sent) + [Outgoing(AssignTeam(userId, teamId), api.store.slot)]
                  + LoadRequests(api.store.slot)
      ensures form == old(form) && showCreateModal == old(showCreateModal)
    {
      var a := api.Send(AssignTeam(userId, teamId), reply);
      if a.Fail? {
        alert := Some(ErrorText(a.message, AssignTeamFailed));
        return;
      }
      alert := None;
      FetchData(reload);
    }

    /** `handleDeleteUser`; `confirmed` is the answer to the confirmation
        prompt, and a refusal sends nothing and changes nothing. */
    method HandleDeleteUser(userId: string, confirmed: bool, reply: Reply<User>, reload: LoadReplies)
      returns (alert: Option<string>)
      modifies this, api
      ensures !confirmed ==> alert == None && api.sent == old(api.sent) && unchanged(this)
      ensures confirmed && reply.Fail? ==>
                alert == Some(ErrorText(reply.message, DeleteFailed)) &&
                api.sent == old(api.sent) + [Outgoing(DeleteUser(userId), api.store.slot)] &&
                unchanged(this)
      ensures confirmed && reply.Ok? ==>
                alert == None && Loaded(reload) &&
                api.sent == old(api.sent) + [Outgoing(DeleteUser(userId), api.store.slot)]
                  + LoadRequests(api.store.slot)
      ensures form == old(form) && showCreateModal == old(showCreateModal)
    {
      alert := None;
      if !confirmed {
        return;
      }
      var d := api.Send(DeleteUser(userId), reply);
      if d.Fail? {
        alert := Some(ErrorText(d.message, DeleteFailed));
        return;
      }
      FetchData(reload);
    }
  }

  /** When every call of a load fails, the page still loads: empty lists, no
      current user, and no error message. */
  method AllCallsFailingStillLoads() returns (users: seq<User>, me: Option<User>, error: string, loading: bool)
    ensures users == [] && me == None && error == "" && !loading
  {
    var store := new Browser.CredentialStore(Some("t"));
    var api := new ApiClient(store);
    var page := new UserManagementPage(api);
    page.error := "stale";
    page.FetchData(LoadReplies(Fail(None), Fail(Some("forbidden")), Fail(None), Fail(Some("expired"))));
    users, me, error, loading := page.users, page.currentUser, page.error, page.loading;
  }

  /** Declining the confirmation sends no request. */
  method DeclinedDeleteSendsNothing(userId: string) returns (sent: seq<Request>)
    ensures sent == []
  {
    var store := new Browser.CredentialStore(Some("t"));
    var api := new ApiClient(store);
    var page := new UserManagementPage(api);
    var alert := page.HandleDeleteUser(userId, false, Ok(User("u1", "Ada", "ada@example.com", None, NoTeam)),
                                       LoadReplies(Ok([]), Ok([]), Ok([]), Fail(None)));
    sent := api.sent;
  }
}

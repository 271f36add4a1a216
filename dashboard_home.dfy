/** The dashboard's home page: it loads the current user, then, when the
    user has a team, the team list to look that team up, and derives the
    role badge from the user. */
module DashboardHome {
  import opened JsValues
  import opened Records
  import opened Api
  import UserManagement

  const UserLoadFailed := "Failed to load user data"
  const NoRoleAssigned := "No Role Assigned"

  /** `teams.find(t => t._id === userData.teamId)`: a strict comparison, so
      only a bare identifier can equal a team's `_id`; a populated team is an
      object and never does. */
  function TeamOf(teams: seq<Team>, ref: TeamRef): (r: Option<Team>)
    ensures !ref.TeamIdOnly? ==> r == None
    ensures r.Some? ==> r.value in teams && r.value.id == ref.rawId
  {
    match ref
    case TeamIdOnly(raw) => FindTeam(teams, raw)
    case _ => None
  }

  /** For a bare identifier the page shows the first listed team with that
      `_id`, or none when the list lacks it. */
  lemma BareIdShowsListedTeam(teams: seq<Team>, raw: Id)
    ensures TeamOf(teams, TeamIdOnly(raw)).Some? ==>
              TeamOf(teams, TeamIdOnly(raw)).value in teams && TeamOf(teams, TeamIdOnly(raw)).value.id == raw
    ensures TeamOf(teams, TeamIdOnly(raw)).None? <==> forall t :: t in teams ==> t.id != raw
    ensures forall k :: 0 <= k < |teams| && teams[k].id == raw && (forall j :: 0 <= j < k ==> teams[j].id != raw) ==>
              TeamOf(teams, TeamIdOnly(raw)) == Some(teams[k])
  {
    var r := FindTeam(teams, raw);
    if r.Some? {
      var i :| 0 <= i < |teams| && teams[i] == r.value && TeamKey(teams[i]) == raw &&
               forall j :: 0 <= j < i ==> TeamKey(teams[j]) != raw;
      forall k | 0 <= k < |teams| && teams[k].id == raw && (forall j :: 0 <= j < k ==> teams[j].id != raw)
        ensures r == Some(teams[k])
      {
        assert i == k;
      }
    } else {
      forall t | t in teams ensures t.id != raw {
        var k :| 0 <= k < |teams| && teams[k] == t;
        assert TeamKey(teams[k]) != raw;
      }
    }
    if forall t :: t in teams ==> t.id != raw {
      assert forall i :: 0 <= i < |teams| ==> TeamKey(teams[i]) != raw by {
        forall i | 0 <= i < |teams| ensures TeamKey(teams[i]) != raw {
          assert teams[i] in teams;
        }
      }
    }
  }

  /** A user whose team the server populated sees no team on the home page,
      even though the team is listed and the user table selects it. */
  lemma PopulatedTeamIsNeverShown(u: User, teams: seq<Team>)
    requires u.teamId.TeamPopulated?
    ensures TeamOf(teams, u.teamId) == None
    ensures UserManagement.TeamSelectValue(u) == u.teamId.id
  {
  }

  /** The role badge: the first role's `name` when `roles` is non-empty and
      its `roleId` is set, otherwise "No Role Assigned". A bare identifier has
      no `name`, so its badge is empty. */
  function RoleLabel(user: Option<User>): (badge: string)
    ensures (user.None? || user.value.roles.None? || |user.value.roles.value| == 0 ||
             user.value.roles.value[0].roleId.None?) ==> badge == NoRoleAssigned
    ensures user.Some? && user.value.roles.Some? && |user.value.roles.value| > 0 ==>
              (match user.value.roles.value[0].roleId
               case Some(RolePopulated(_, name)) => badge == name
               case Some(RoleIdOnly(_)) => badge == ""
               case None => badge == NoRoleAssigned)
  {
    if user.Some? && user.value.roles.Some? && |user.value.roles.value| > 0 then
      match user.value.roles.value[0].roleId
      case Some(RolePopulated(_, name)) => name
      case Some(RoleIdOnly(_)) => ""
      case None => NoRoleAssigned
    else NoRoleAssigned
  }

  /** The badge and the user table read the same entry: whenever the table's
      role dropdown selects a role, the badge shows that role's name, and
      when the badge says no role is assigned the dropdown selects nothing
      (unless a role is actually named "No Role Assigned"). */
  lemma BadgeAgreesWithRoleSelect(u: User)
    ensures UserManagement.RoleSelectValue(u) != "" ==>
              RoleLabel(Some(u)) == u.roles.value[0].roleId.value.name
    ensures RoleLabel(Some(u)) == NoRoleAssigned ==>
              UserManagement.RoleSelectValue(u) == "" ||
              u.roles.value[0].roleId.value.name == NoRoleAssigned
  {
  }

  class DashboardHomePage {
    var user: Option<User>
    var team: Option<Team>
    var loading: bool
    var error: string
    const api: ApiClient

    constructor (api: ApiClient)
      ensures this.api == api
      ensures user == None && team == None && loading && error == ""
    {
      this.api := api;
      user, team, loading, error := None, None, true, "";
    }

    /** The load sequence: the user first; the team list only when the user
        has a team, and a failure there is swallowed; a failure loading the
        user sets the error. Loading ends in every case. */
    method Load(meReply: Reply<User>, teamsReply: Reply<seq<Team>>)
      modifies this, api
      ensures !loading
      ensures meReply.Fail? ==>
                error == ErrorText(meReply.message, UserLoadFailed) &&
                user == old(user) && team == old(team) &&
                api.sent == old(api.sent) + [Outgoing(GetCurrentUser, api.store.slot)]
      ensures meReply.Ok? ==> user == Some(meReply.data) && error == old(error)
      ensures meReply.Ok? && meReply.data.teamId.NoTeam? ==>
                team == old(team) && api.sent == old(api.sent) + [Outgoing(GetCurrentUser, api.store.slot)]
      ensures meReply.Ok? && !meReply.data.teamId.NoTeam? ==>
                api.sent == old(api.sent) + [Outgoing(GetCurrentUser, api.store.slot), Outgoing(GetAllTeams, api.store.slot)]
      ensures meReply.Ok? && !meReply.data.teamId.NoTeam? && teamsReply.Fail? ==> team == old(team)
      ensures meReply.Ok? && !meReply.data.teamId.NoTeam? && teamsReply.Ok? ==>
                team == TeamOf(teamsReply.data, meReply.data.teamId)
    {
      loading := true;
      var me := api.Send(GetCurrentUser, meReply);
      if me.Fail? {
        error := ErrorText(me.message, UserLoadFailed);
      } else {
        user := Some(me.data);
        if !me.data.teamId.NoTeam? {
          var teams := api.Send(GetAllTeams, teamsReply);
          if teams.Ok? {
            team := TeamOf(teams.data, me.data.teamId);
          }
        }
      }
      loading := false;
    }
  }

  /** A user without a team never triggers the team request. */
  method NoTeamMeansNoTeamRequest(me: User) returns (sent: nat, team: Option<Team>)
    requires me.teamId.NoTeam?
    ensures sent == 1 && team == None
  {
    var store := new Browser.CredentialStore(Some("t"));
    var api := new ApiClient(store);
    var page := new DashboardHomePage(api);
    page.Load(Ok(me), Ok([Team("t1", "Core", "")]));
    sent, team := |api.sent|, page.team;
  }

  /** A team-list failure leaves the page without a team and without an
      error: the user's profile still shows. */
  method TeamFailureIsSwallowed() returns (error: string, team: Option<Team>, shown: Option<User>)
    ensures error == "" && team == None
    ensures shown == Some(User("u1", "Ada", "ada@example.com", None, TeamIdOnly("t1")))
  {
    var store := new Browser.CredentialStore(Some("t"));
    var api := new ApiClient(store);
    var page := new DashboardHomePage(api);
    page.Load(Ok(User("u1", "Ada", "ada@example.com", None, TeamIdOnly("t1"))), Fail(Some("forbidden")));
    error, team, shown := page.error, page.team, page.user;
  }
}

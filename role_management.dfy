/** The role management page: it loads roles and the permission catalogue,
    creates roles, and adds or removes a permission on a role. After each
    change it replaces its list with the server's and re-selects the role
    shown in the permission dialog by `_id`. */
module RoleManagement {
  import opened JsValues
  import opened Records
  import opened Api

  const LoadFailed := "Failed to load roles and permissions"
  const CreateFailed := "Failed to create role"
  const SelectPermission := "Please select a permission"
  const AddFailed := "Failed to add permission"
  const RemoveFailed := "Failed to remove permission"

  /** The dialog's role after a removal from role `roleId`: re-found in the
      refreshed list when it is that role, otherwise left as it was. */
  function SelectionAfterRemove(selected: Option<Role>, roleId: string, refreshed: seq<Role>): (r: Option<Role>)
    ensures selected.None? || selected.value.id != roleId ==> r == selected
    ensures r != selected ==> r.None? || (r.value in refreshed && r.value.id == roleId)
  {
    if selected.Some? && selected.value.id == roleId then FindRole(refreshed, roleId) else selected
  }

  /** Only the dialog showing the changed role is updated; when it is, it
      shows that role's row of the refreshed list, or nothing when the role
      is gone. */
  lemma RemoveSyncsOnlyMatching(selected: Option<Role>, roleId: string, refreshed: seq<Role>)
    ensures selected.None? || selected.value.id != roleId ==>
              SelectionAfterRemove(selected, roleId, refreshed) == selected
    ensures selected.Some? && selected.value.id == roleId ==>
              var s := SelectionAfterRemove(selected, roleId, refreshed);
              (s.Some? ==> s.value in refreshed && s.value.id == roleId) &&
              (s.None? ==> forall r :: r in refreshed ==> r.id != roleId)
  {
    FindRoleIsFirstRow(refreshed, roleId);
  }

  /** After an add, the dialog shows the selected role's row of the
      refreshed list, or nothing when the role is gone. */
  lemma AddSyncsFromRefreshedList(selected: Role, refreshed: seq<Role>)
    ensures FindRole(refreshed, selected.id).Some? ==>
              FindRole(refreshed, selected.id).value in refreshed &&
              FindRole(refreshed, selected.id).value.id == selected.id
    ensures FindRole(refreshed, selected.id).None? ==> forall r :: r in refreshed ==> r.id != selected.id
  {
    FindRoleIsFirstRow(refreshed, selected.id);
  }

  class RoleManagementPage {
    var roles: seq<Role>
    var permissions: seq<Permission>
    var loading: bool
    var error: string
    var showCreateModal: bool
    var showPermissionModal: bool
    var selectedRole: Option<Role>
    var roleName: string
    var permissionKey: string
    const api: ApiClient

    constructor (api: ApiClient)
      ensures this.api == api
      ensures roles == [] && permissions == [] && loading && error == ""
      ensures !showCreateModal && !showPermissionModal && selectedRole == None
      ensures roleName == "" && permissionKey == ""
    {
      this.api := api;
      roles, permissions, loading, error := [], [], true, "";
      showCreateModal, showPermissionModal, selectedRole := false, false, None;
      roleName, permissionKey := "", "";
    }

    /** `fetchData`: both lists are requested together; they are stored
        only when both calls succeed. A failure sets the error (the roles
        call's message when both fail) and keeps both lists. A success does
        not clear an earlier error. */
    method FetchData(rolesReply: Reply<seq<Role>>, permsReply: Reply<seq<Permission>>)
      modifies this, api
      ensures api.sent == old(api.sent) + [Outgoing(GetAllRoles, api.store.slot), Outgoing(GetAllPermissions, api.store.slot)]
      ensures !loading
      ensures rolesReply.Ok? && permsReply.Ok? ==>
                roles == rolesReply.data && permissions == permsReply.data && error == old(error)
      ensures rolesReply.Fail? ==>
                roles == old(roles) && permissions == old(permissions) &&
                error == ErrorText(rolesReply.message, LoadFailed)
      ensures rolesReply.Ok? && permsReply.Fail? ==>
                roles == old(roles) && permissions == old(permissions) &&
                error == ErrorText(permsReply.message, LoadFailed)
      ensures showCreateModal == old(showCreateModal) && showPermissionModal == old(showPermissionModal)
      ensures selectedRole == old(selectedRole) && roleName == old(roleName) && permissionKey == old(permissionKey)
    {
      loading := true;
      var r := api.Send(GetAllRoles, rolesReply);
      var p := api.Send(GetAllPermissions, permsReply);
      if r.Fail? {
        error := ErrorText(r.message, LoadFailed);
      } else if p.Fail? {
        error := ErrorText(p.message, LoadFailed);
      } else {
        roles := r.data;
        permissions := p.data;
      }
      loading := false;
    }

    /** `handleCreateRole`; returns the alert shown, if any. On success the
        name is cleared, the dialog closes and the lists are fetched again. */
    method HandleCreateRole(createReply: Reply<Role>, rolesReply: Reply<seq<Role>>, permsReply: Reply<seq<Permission>>)
      returns (alert: Option<string>)
      modifies this, api
      ensures createReply.Fail? ==>
                alert == Some(ErrorText(createReply.message, CreateFailed)) &&
                api.sent == old(api.sent) + [Outgoing(CreateRole(old(roleName)), api.store.slot)] &&
                roleName == old(roleName) && showCreateModal == old(showCreateModal) &&
                roles == old(roles) && permissions == old(permissions) && loading == old(loading) && error == old(error)
      ensures createReply.Ok? ==>
                alert == None && roleName == "" && !showCreateModal && !loading &&
                api.sent == old(api.sent) + [Outgoing(CreateRole(old(roleName)), api.store.slot),
                                             Outgoing(GetAllRoles, api.store.slot),
                                             Outgoing(GetAllPermissions, api.store.slot)]
      ensures createReply.Ok? && rolesReply.Ok? && permsReply.Ok? ==>
                roles == rolesReply.data && permissions == permsReply.data && error == old(error)
      ensures createReply.Ok? && rolesReply.Fail? ==>
                roles == old(roles) && permissions == old(permissions) &&
                error == ErrorText(rolesReply.message, LoadFailed)
      ensures createReply.Ok? && rolesReply.Ok? && permsReply.Fail? ==>
                roles == old(roles) && permissions == old(permissions) &&
                error == ErrorText(permsReply.message, LoadFailed)
      ensures selectedRole == old(selectedRole) && permissionKey == old(permissionKey)
      ensures showPermissionModal == old(showPermissionModal)
    {
      var c := api.Send(CreateRole(roleName), createReply);
      if c.Fail? {
        alert := Some(ErrorText(c.message, CreateFailed));
        return;
      }
      alert := None;
      roleName := "";
      showCreateModal := false;
      FetchData(rolesReply, permsReply);
    }

    /** Opening the permission dialog for a row. */
    method OpenPermissionModal(role: Role)
      modifies this
      ensures selectedRole == Some(role) && showPermissionModal
      ensures roles == old(roles) && permissions == old(permissions) && permissionKey == old(permissionKey)
      ensures loading == old(loading) && error == old(error)
      ensures showCreateModal == old(showCreateModal) && roleName == old(roleName)
    {
      selectedRole := Some(role);
      showPermissionModal := true;
    }

    /** `handleAddPermission`; returns the alert shown, if any. An empty key
        stops before any call; so does a missing selection, whose property
        access throws inside the `try` and is reported with the fallback. */
    method HandleAddPermission(addReply: Reply<Role>, rolesReply: Reply<seq<Role>>) returns (alert: Option<string>)
      modifies this, api
      ensures old(permissionKey) == "" ==>
                alert == Some(SelectPermission) && api.sent == old(api.sent) &&
                roles == old(roles) && selectedRole == old(selectedRole) && permissionKey == old(permissionKey)
      ensures old(permissionKey) != "" && old(selectedRole).None? ==>
                alert == Some(AddFailed) && api.sent == old(api.sent) &&
                roles == old(roles) && selectedRole == old(selectedRole) && permissionKey == old(permissionKey)
      ensures old(permissionKey) != "" && old(selectedRole).Some? && addReply.Fail? ==>
                alert == Some(ErrorText(addReply.message, AddFailed)) &&
                api.sent == old(api.sent) + [Outgoing(AddPermissionToRole(old(selectedRole).value.id, old(permissionKey)), api.store.slot)] &&
                roles == old(roles) && selectedRole == old(selectedRole) && permissionKey == old(permissionKey)
      ensures old(permissionKey) != "" && old(selectedRole).Some? && addReply.Ok? ==>
                permissionKey == "" &&
                api.sent == old(api.sent) + [Outgoing(AddPermissionToRole(old(selectedRole).value.id, old(permissionKey)), api.store.slot),
                                             Outgoing(GetAllRoles, api.store.slot)]
      ensures old(permissionKey) != "" && old(selectedRole).Some? && addReply.Ok? && rolesReply.Fail? ==>
                alert == Some(ErrorText(rolesReply.message, AddFailed)) &&
                roles == old(roles) && selectedRole == old(selectedRole)
      ensures old(permissionKey) != "" && old(selectedRole).Some? && addReply.Ok? && rolesReply.Ok? ==>
                alert == None && roles == rolesReply.data &&
                selectedRole == FindRole(rolesReply.data, old(selectedRole).value.id)
      ensures permissions == old(permissions) && error == old(error) && loading == old(loading)
      ensures showPermissionModal == old(showPermissionModal) && roleName == old(roleName)
      ensures showCreateModal == old(showCreateModal)
    {
      if permissionKey == "" {
        alert := Some(SelectPermission);
        return;
      }
      if selectedRole.None? {
        alert := Some(AddFailed);
        return;
      }
      var id := selectedRole.value.id;
      var a := api.Send(AddPermissionToRole(id, permissionKey), addReply);
      if a.Fail? {
        alert := Some(ErrorText(a.message, AddFailed));
        return;
      }
      permissionKey := "";
      var updated := api.Send(GetAllRoles, rolesReply);
      if updated.Fail? {
        alert := Some(ErrorText(updated.message, AddFailed));
        return;
      }
      alert := None;
      roles := updated.data;
      selectedRole := FindRole(updated.data, id);
    }

    /** `handleRemovePermission`; `confirmed` is the user's answer to the
        confirmation prompt. Returns the alert shown, if any. */
    method HandleRemovePermission(roleId: string, key: string, confirmed: bool,
                                  removeReply: Reply<Role>, rolesReply: Reply<seq<Role>>)
      returns (alert: Option<string>)
      modifies this, api
      ensures !confirmed ==>
                alert == None && api.sent == old(api.sent) && roles == old(roles) && selectedRole == old(selectedRole)
      ensures confirmed && removeReply.Fail? ==>
                alert == Some(ErrorText(removeReply.message, RemoveFailed)) &&
                api.sent == old(api.sent) + [Outgoing(RemovePermissionFromRole(roleId, key), api.store.slot)] &&
                roles == old(roles) && selectedRole == old(selectedRole)
      ensures confirmed && removeReply.Ok? ==>
                api.sent == old(api.sent) + [Outgoing(RemovePermissionFromRole(roleId, key), api.store.slot),
                                             Outgoing(GetAllRoles, api.store.slot)]
      ensures confirmed && removeReply.Ok? && rolesReply.Fail? ==>
                alert == Some(ErrorText(rolesReply.message, RemoveFailed)) &&
                roles == old(roles) && selectedRole == old(selectedRole)
      ensures confirmed && removeReply.Ok? && rolesReply.Ok? ==>
                alert == None && roles == rolesReply.data &&
                selectedRole == SelectionAfterRemove(old(selectedRole), roleId, rolesReply.data)
      ensures permissions == old(permissions) && permissionKey == old(permissionKey) && error == old(error)
      ensures loading == old(loading) && showPermissionModal == old(showPermissionModal) && roleName == old(roleName)
      ensures showCreateModal == old(showCreateModal)
    {
      alert := None;
      if !confirmed {
        return;
      }
      var d := api.Send(RemovePermissionFromRole(roleId, key), removeReply);
      if d.Fail? {
        alert := Some(ErrorText(d.message, RemoveFailed));
        return;
      }
      var updated := api.Send(GetAllRoles, rolesReply);
      if updated.Fail? {
        alert := Some(ErrorText(updated.message, RemoveFailed));
        return;
      }
      roles := updated.data;
      if selectedRole.Some? && selectedRole.value.id == roleId {
        selectedRole := FindRole(updated.data, roleId);
      }
    }
  }

  /** With the dialog open on one role, removing a permission from another
      role refreshes the list but leaves the dialog's role as it was, even
      where the refreshed list holds a newer version of it. */
  method RemoveOnOtherRoleKeepsDialog() returns (shown: Option<Role>, listed: seq<Role>)
    ensures shown == Some(Role("b", "viewer", [RolePermission("read")]))
    ensures listed == [Role("a", "admin", []), Role("b", "viewer", [])]
  {
    var store := new Browser.CredentialStore(Some("t"));
    var api := new ApiClient(store);
    var page := new RoleManagementPage(api);
    page.FetchData(Ok([Role("a", "admin", [RolePermission("write")]), Role("b", "viewer", [RolePermission("read")])]), Ok([]));
    page.OpenPermissionModal(Role("b", "viewer", [RolePermission("read")]));
    var alert := page.HandleRemovePermission("a", "write", true, Ok(Role("a", "admin", [])),
                                             Ok([Role("a", "admin", []), Role("b", "viewer", [])]));
    shown, listed := page.selectedRole, page.roles;
  }

  /** Adding a permission re-selects the dialog's role from the refreshed
      list, so the dialog shows the new permission. */
  method AddShowsNewPermission() returns (shown: Option<Role>, key: string)
    ensures shown == Some(Role("b", "viewer", [RolePermission("read"), RolePermission("write")]))
    ensures key == ""
  {
    var store := new Browser.CredentialStore(Some("t"));
    var api := new ApiClient(store);
    var page := new RoleManagementPage(api);
    page.OpenPermissionModal(Role("b", "viewer", [RolePermission("read")]));
    page.permissionKey := "write";
    var alert := page.HandleAddPermission(Ok(Role("b", "viewer", [RolePermission("read"), RolePermission("write")])),
                                          Ok([Role("a", "admin", []),
                                              Role("b", "viewer", [RolePermission("read"), RolePermission("write")])]));
    shown, key := page.selectedRole, page.permissionKey;
  }
}

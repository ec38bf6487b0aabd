/** The role-to-action table and the permission lookup. */
module Permissions {

  datatype Role = Admin | Public

  /** `ROLES[role]`. */
  function Actions(role: Role): seq<string>
  {
    match role
    case Admin => [
      "CREATE_PROPERTY", "UPDATE_PROPERTY", "DELETE_PROPERTY", "PUBLISH_PROPERTY", "UNPUBLISH_PROPERTY",
      "MANAGE_BLOG", "VIEW_LEADS", "MANAGE_SETTINGS", "ADMIN_ANALYTICS"]
    case Public => [
      "VIEW_PROPERTY", "SEARCH_PROPERTY", "COMPARE_PROPERTY", "SUBMIT_LEAD", "VIEW_BLOG", "CONTACT_FORM"]
  }

  /** `canPerform(role, action)`: the action is listed for the role. */
  function CanPerform(role: Role, action: string): (r: bool)
    ensures r <==> exists i :: 0 <= i < |Actions(role)| && Actions(role)[i] == action
  {
    action in Actions(role)
  }

  /** Each action string names one permission: no action is granted to both roles. */
  lemma RolesDisjoint(action: string)
    ensures !(CanPerform(Admin, action) && CanPerform(Public, action))
  {
    if CanPerform(Admin, action) {
      var i :| 0 <= i < |Actions(Admin)| && Actions(Admin)[i] == action;
      forall j | 0 <= j < |Actions(Public)| ensures Actions(Public)[j] != action {
        assert Actions(Admin)[i][0] != Actions(Public)[j][0] || Actions(Admin)[i][1] != Actions(Public)[j][1]
          || Actions(Admin)[i][5] != Actions(Public)[j][5];
      }
    }
  }

  /** No inheritance: the admin role does not get the public actions. */
  lemma AdminCannotViewProperty()
    ensures CanPerform(Public, "VIEW_PROPERTY")
    ensures !CanPerform(Admin, "VIEW_PROPERTY")
  {
    RolesDisjoint("VIEW_PROPERTY");
    assert Actions(Public)[0] == "VIEW_PROPERTY";
  }

  /** An action in neither list is refused to every role. */
  lemma UnknownActionRefused(role: Role, action: string)
    requires action !in Actions(Admin) && action !in Actions(Public)
    ensures !CanPerform(role, action)
  {
  }
}

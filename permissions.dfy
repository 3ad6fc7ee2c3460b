/**
 * The API's permission classes: the short-circuit rules each class adds in
 * front of its parent's decision, the permission map of the view-aware
 * object permissions, the model-permission check of the object-permission
 * mixins and the `view.model` each object check installs.
 *
 * A parent class's own decision (the framework's model or object
 * permission check, `IsAuthenticated`, the anonymous read-only rule) is an
 * input, so only the rules written in these classes are specified here.
 */
module Permissions {
  import opened Wrappers

  // ---------------------------------------------------------------------
  // Requests, users and models

  /** The requesting user: name, whether it is the anonymous user, and the permissions it holds. */
  datatype RequestUser = RequestUser(username: string, anonymous: bool, granted: set<string>)

  /**
   * A request: its HTTP method, its user (`None` when no user is attached),
   * its decoded body and its query parameters.
   */
  datatype Request = Request(httpMethod: string, user: Option<RequestUser>, data: map<string, string>, query: map<string, string>)

  /** `request.data.get(name)` or `request.GET.get(name)` is truthy: present and not empty. */
  predicate FieldTruthy(params: map<string, string>, name: string) {
    name in params && params[name] != ""
  }

  /** A model class, by its app label and model name. */
  datatype ModelClass = ModelClass(appLabel: string, modelName: string)

  const XFormModel := ModelClass("logger", "xform")
  const ProjectModel := ModelClass("logger", "project")
  const DataViewModel := ModelClass("logger", "dataview")

  /** The errors the permission classes raise. */
  datatype PermissionError =
    | MethodNotAllowed(httpMethod: string)  // the method has no entry in the permission map
    | NotAuthenticated                  // the anonymous user searched the user list

  // ---------------------------------------------------------------------
  // ViewDjangoObjectPermissions.perms_map

  /** The permission `<app_label>.<action>_<model_name>`. */
  function Codename(model: ModelClass, action: string): string {
    model.appLabel + "." + action + "_" + model.modelName
  }

  /**
   * The permission map of `ViewDjangoObjectPermissions`, each entry listing
   * the actions whose permissions a method requires: reading needs `view`,
   * `POST` needs `add`, `PUT` and `PATCH` need `change`, `DELETE` needs
   * `delete`, and `OPTIONS` and `HEAD` need nothing.
   */
  const ViewPermsMap: map<string, seq<string>> := map[
    "GET" := ["view"],
    "OPTIONS" := [],
    "HEAD" := [],
    "POST" := ["add"],
    "PUT" := ["change"],
    "PATCH" := ["change"],
    "DELETE" := ["delete"]]

  /**
   * `get_required_permissions(method, model)`: the map's entry for the
   * method, each action made into a permission of the model; a method
   * without an entry is not allowed.
   */
  function RequiredPermissions(permsMap: map<string, seq<string>>, httpMethod: string, model: ModelClass)
    : (r: Result<seq<string>, PermissionError>)
    ensures httpMethod !in permsMap <==> r == Err(MethodNotAllowed(httpMethod))
    ensures r.Ok? ==> (|r.value| == |permsMap[httpMethod]|
      && forall i :: 0 <= i < |r.value| ==> r.value[i] == Codename(model, permsMap[httpMethod][i]))
  {
    if httpMethod !in permsMap then Err(MethodNotAllowed(httpMethod))
    else Ok(seq(|permsMap[httpMethod]|, i requires 0 <= i < |permsMap[httpMethod]| => Codename(model, permsMap[httpMethod][i])))
  }

  /** What each method requires of a model under the view-aware permission map. */
  lemma ViewPermsMapRequires(model: ModelClass, httpMethod: string)
    ensures httpMethod in ViewPermsMap <==> httpMethod in {"GET", "OPTIONS", "HEAD", "POST", "PUT", "PATCH", "DELETE"}
    ensures httpMethod == "GET" ==> RequiredPermissions(ViewPermsMap, httpMethod, model) == Ok([Codename(model, "view")])
    ensures httpMethod == "POST" ==> RequiredPermissions(ViewPermsMap, httpMethod, model) == Ok([Codename(model, "add")])
    ensures httpMethod in {"PUT", "PATCH"} ==>
      RequiredPermissions(ViewPermsMap, httpMethod, model) == Ok([Codename(model, "change")])
    ensures httpMethod == "DELETE" ==> RequiredPermissions(ViewPermsMap, httpMethod, model) == Ok([Codename(model, "delete")])
    ensures httpMethod in {"OPTIONS", "HEAD"} ==> RequiredPermissions(ViewPermsMap, httpMethod, model) == Ok([])
  {
    var r := RequiredPermissions(ViewPermsMap, httpMethod, model);
    if httpMethod in ViewPermsMap {
      var actions := ViewPermsMap[httpMethod];
      assert |r.value| == |actions|;
      if |actions| == 1 {
        assert r.value == [Codename(model, actions[0])];
      }
    }
  }

  // ---------------------------------------------------------------------
  // AbstractHasObjectPermissionMixin.has_permission

  /** The permissions required over `models`, concatenated in order; the first model's missing method is the error. */
  function RequiredAll(permsMap: map<string, seq<string>>, httpMethod: string, models: seq<ModelClass>)
    : (r: Result<seq<string>, PermissionError>)
  {
    if models == [] then Ok([])
    else
      match RequiredAll(permsMap, httpMethod, models[..|models| - 1])
      case Err(e) => Err(e)
      case Ok(front) =>
        match RequiredPermissions(permsMap, httpMethod, models[|models| - 1])
        case Err(e) => Err(e)
        case Ok(last) => Ok(front + last)
  }

  /** The required list fails exactly when there is a model and the method has no entry. */
  lemma {:induction false} RequiredAllFails(permsMap: map<string, seq<string>>, httpMethod: string, models: seq<ModelClass>)
    ensures RequiredAll(permsMap, httpMethod, models).Err? <==> models != [] && httpMethod !in permsMap
    ensures RequiredAll(permsMap, httpMethod, models).Err? ==>
      RequiredAll(permsMap, httpMethod, models).error == MethodNotAllowed(httpMethod)
  {
    if models != [] {
      RequiredAllFails(permsMap, httpMethod, models[..|models| - 1]);
    }
  }

  /** `p` is the permission of one of `models` for one of `actions`. */
  predicate Covers(models: seq<ModelClass>, actions: seq<string>, p: string) {
    exists m, a :: m in models && a in actions && p == Codename(m, a)
  }

  /** The permissions over several models are exactly each model's permission for each action of the method. */
  lemma {:induction false} RequiredAllMembers(permsMap: map<string, seq<string>>, httpMethod: string, models: seq<ModelClass>)
    requires httpMethod in permsMap
    ensures RequiredAll(permsMap, httpMethod, models).Ok?
    ensures forall p :: p in RequiredAll(permsMap, httpMethod, models).value <==> Covers(models, permsMap[httpMethod], p)
  {
    if models != [] {
      var actions := permsMap[httpMethod];
      var front := models[..|models| - 1];
      var model := models[|models| - 1];
      RequiredAllMembers(permsMap, httpMethod, front);
      var ps := RequiredAll(permsMap, httpMethod, front).value;
      var qs := RequiredPermissions(permsMap, httpMethod, model).value;
      assert RequiredAll(permsMap, httpMethod, models).value == ps + qs;
      forall p ensures p in ps + qs <==> Covers(models, actions, p) {
        CoversStep(models, actions, p);
        assert p in qs <==> exists a :: a in actions && p == Codename(model, a) by {
          if p in qs {
            var i :| 0 <= i < |qs| && qs[i] == p;
            assert actions[i] in actions;
          }
          if exists a :: a in actions && p == Codename(model, a) {
            var a :| a in actions && p == Codename(model, a);
            var i :| 0 <= i < |actions| && actions[i] == a;
            assert qs[i] == p;
          }
        }
      }
    }
  }

  /** Covering by a list of models is covering by its front or by its last model. */
  lemma CoversStep(models: seq<ModelClass>, actions: seq<string>, p: string)
    requires models != []
    ensures Covers(models, actions, p) <==>
      Covers(models[..|models| - 1], actions, p) || exists a :: a in actions && p == Codename(models[|models| - 1], a)
  {
    var front := models[..|models| - 1];
    if Covers(models, actions, p) {
      var m, a :| m in models && a in actions && p == Codename(m, a);
      if m != models[|models| - 1] {
        var j :| 0 <= j < |models| && models[j] == m;
        assert front[j] == m;
      }
    }
    if Covers(front, actions, p) {
      var m, a :| m in front && a in actions && p == Codename(m, a);
      assert m in models;
    }
  }

  /** The user is present, may act (authenticated, or anonymous access allowed), and holds every permission. */
  predicate UserHolds(user: Option<RequestUser>, authenticatedUsersOnly: bool, perms: seq<string>) {
    && user.Some?
    && (!user.value.anonymous || !authenticatedUsersOnly)
    && forall p :: p in perms ==> p in user.value.granted
  }

  /**
   * The decision of `AbstractHasObjectPermissionMixin.has_permission`: a
   * view that ignores model permissions is allowed; otherwise the user must
   * be present, be authenticated unless anonymous users are admitted, and
   * hold every permission the method requires over every model class.
   */
  function ModelPermission(permsMap: map<string, seq<string>>, ignoreModelPermissions: bool, models: seq<ModelClass>,
                           httpMethod: string, user: Option<RequestUser>, authenticatedUsersOnly: bool)
    : (r: Result<bool, PermissionError>)
    ensures ignoreModelPermissions ==> r == Ok(true)
  {
    if ignoreModelPermissions then Ok(true)
    else
      match RequiredAll(permsMap, httpMethod, models)
      case Err(e) => Err(e)
      case Ok(perms) => Ok(UserHolds(user, authenticatedUsersOnly, perms))
  }

  /** The model-permission decision, stated without the accumulated list. */
  lemma ModelPermissionIff(permsMap: map<string, seq<string>>, ignoreModelPermissions: bool, models: seq<ModelClass>,
                           httpMethod: string, user: Option<RequestUser>, authenticatedUsersOnly: bool)
    ensures var r := ModelPermission(permsMap, ignoreModelPermissions, models, httpMethod, user, authenticatedUsersOnly);
      && (r.Err? <==> !ignoreModelPermissions && models != [] && httpMethod !in permsMap)
      && (r == Ok(true) <==>
          || ignoreModelPermissions
          || ((models == [] || httpMethod in permsMap)
              && user.Some?
              && (!user.value.anonymous || !authenticatedUsersOnly)
              && forall m, a :: m in models && httpMethod in permsMap && a in permsMap[httpMethod] ==> Codename(m, a) in user.value.granted))
  {
    RequiredAllFails(permsMap, httpMethod, models);
    var all := RequiredAll(permsMap, httpMethod, models);
    if !ignoreModelPermissions && all.Ok? && user.Some? && models != [] {
      RequiredAllMembers(permsMap, httpMethod, models);
      var actions := permsMap[httpMethod];
      var holds := forall p :: p in all.value ==> p in user.value.granted;
      var each := forall m, a :: m in models && a in actions ==> Codename(m, a) in user.value.granted;
      if holds {
        forall m, a | m in models && a in actions ensures Codename(m, a) in user.value.granted {
          assert Covers(models, actions, Codename(m, a));
        }
      }
      if each {
        forall p | p in all.value ensures p in user.value.granted {
          assert Covers(models, actions, p);
        }
      }
    }
  }

  /** The loop of `has_permission`: extend the list with each model's required permissions, in order. */
  method CollectRequired(permsMap: map<string, seq<string>>, httpMethod: string, models: seq<ModelClass>)
    returns (r: Result<seq<string>, PermissionError>)
    ensures r == RequiredAll(permsMap, httpMethod, models)
  {
    var perms := [];
    for i := 0 to |models|
      invariant RequiredAll(permsMap, httpMethod, models[..i]) == Ok(perms)
    {
      assert models[..i + 1][..i] == models[..i];
      var required := RequiredPermissions(permsMap, httpMethod, models[i]);
      if required.Err? {
        RequiredAllFails(permsMap, httpMethod, models);
        return Err(required.error);
      }
      perms := perms + required.value;
    }
    assert models[..|models|] == models;
    return Ok(perms);
  }

  /** `AbstractHasObjectPermissionMixin.has_permission`. */
  method CheckModelPermission(permsMap: map<string, seq<string>>, ignoreModelPermissions: bool, models: seq<ModelClass>,
                              request: Request, authenticatedUsersOnly: bool)
    returns (r: Result<bool, PermissionError>)
    ensures r == ModelPermission(permsMap, ignoreModelPermissions, models, request.httpMethod, request.user, authenticatedUsersOnly)
  {
    if ignoreModelPermissions {
      return Ok(true);
    }
    var perms := CollectRequired(permsMap, request.httpMethod, models);
    if perms.Err? {
      return Err(perms.error);
    }
    return Ok(UserHolds(request.user, authenticatedUsersOnly, perms.value));
  }

  // ---------------------------------------------------------------------
  // HasObjectPermissionMixin

  /** The model classes whose permissions apply: the form's when an `xform` is given, else the project's, else both. */
  function ChosenModels(data: map<string, string>): (models: seq<ModelClass>)
    ensures FieldTruthy(data, "xform") ==> models == [XFormModel]
    ensures !FieldTruthy(data, "xform") && FieldTruthy(data, "project") ==> models == [ProjectModel]
    ensures !FieldTruthy(data, "xform") && !FieldTruthy(data, "project") ==> models == [ProjectModel, XFormModel]
  {
    if FieldTruthy(data, "xform") then [XFormModel]
    else if FieldTruthy(data, "project") then [ProjectModel]
    else [ProjectModel, XFormModel]
  }

  /** Whatever the request names, the check covers at least one of the form and project models and nothing else. */
  lemma ChosenModelsAreFormOrProject(data: map<string, string>)
    ensures 1 <= |ChosenModels(data)| <= 2
    ensures forall m :: m in ChosenModels(data) ==> m == XFormModel || m == ProjectModel
    ensures XFormModel in ChosenModels(data) <==> FieldTruthy(data, "xform") || !FieldTruthy(data, "project")
  {
  }

  /**
   * `HasObjectPermissionMixin`: its `has_permission` first chooses the
   * model classes from the request body, stores them, and then applies the
   * mixin's model-permission check with them.
   */
  class HasObjectPermissionMixin {
    var modelClasses: seq<ModelClass>
    const permsMap: map<string, seq<string>>
    const authenticatedUsersOnly: bool

    constructor (permsMap: map<string, seq<string>>, authenticatedUsersOnly: bool)
      ensures this.permsMap == permsMap && this.authenticatedUsersOnly == authenticatedUsersOnly
      ensures modelClasses == []
    {
      this.permsMap := permsMap;
      this.authenticatedUsersOnly := authenticatedUsersOnly;
      modelClasses := [];
    }

    method HasPermission(request: Request, ignoreModelPermissions: bool) returns (r: Result<bool, PermissionError>)
      modifies this
      ensures modelClasses == ChosenModels(request.data)
      ensures r == ModelPermission(permsMap, ignoreModelPermissions, modelClasses, request.httpMethod, request.user, authenticatedUsersOnly)
    {
      if FieldTruthy(request.data, "xform") {
        modelClasses := [XFormModel];
      } else if FieldTruthy(request.data, "project") {
        modelClasses := [ProjectModel];
      } else {
        modelClasses := [ProjectModel, XFormModel];
      }
      r := CheckModelPermission(permsMap, ignoreModelPermissions, modelClasses, request, authenticatedUsersOnly);
    }
  }

  // ---------------------------------------------------------------------
  // Rules in front of a parent decision

  /** The object permissions `XFormPermissions` checks itself. */
  datatype ObjectPermission = CanAddXFormToProfile | CanChangeXForm | CanDeleteSubmission

  /**
   * `XFormPermissions.has_permission`: an authenticated user creating a form
   * needs the add-form permission on the owner's profile (the `owner` URL
   * argument when given, else the user itself); anything else is the
   * parent's decision. `canAddTo(name)` says whether the user holds that
   * permission on the profile of `name`.
   */
  function XFormHasPermission(request: Request, action: string, owner: Option<string>,
                              canAddTo: string -> bool, parent: bool): (r: bool)
    ensures var authenticated := request.user.Some? && !request.user.value.anonymous;
      && (authenticated && action == "create" ==>
            r == canAddTo(if owner.Some? && owner.value != "" then owner.value else request.user.value.username))
      && (!(authenticated && action == "create") ==> r == parent)
  {
    if request.user.Some? && !request.user.value.anonymous && action == "create" then
      canAddTo(if owner.Some? && owner.value != "" then owner.value else request.user.value.username)
    else parent
  }

  /**
   * `XFormPermissions.has_object_permission`: cloning a shared form is
   * allowed; deleting labels needs the change-form permission on the
   * object; deleting the form needs the delete-submission permission; any
   * other request is the parent's decision. `shared` is `None` for an
   * object without that attribute; `holds` tells the user's object
   * permissions.
   */
  function XFormHasObjectPermission(request: Request, action: string, shared: Option<bool>,
                                    holds: ObjectPermission -> bool, parent: bool): (r: bool)
    ensures shared == Some(true) && action == "clone" ==> r
    ensures !(shared == Some(true) && action == "clone") && request.httpMethod == "DELETE" && action == "labels" ==>
      r == holds(CanChangeXForm)
    ensures !(shared == Some(true) && action == "clone") && request.httpMethod == "DELETE" && action == "destroy" ==>
      r == holds(CanDeleteSubmission)
    ensures !(shared == Some(true) && action == "clone") && !(request.httpMethod == "DELETE" && action in {"labels", "destroy"}) ==>
      r == parent
  {
    if shared == Some(true) && action == "clone" then true
    else if request.httpMethod == "DELETE" && action == "labels" then holds(CanChangeXForm)
    else if request.httpMethod == "DELETE" && action == "destroy" then holds(CanDeleteSubmission)
    else parent
  }

  /** `UserProfilePermissions.has_permission`: anyone anonymous may create a profile; else the parent decides. */
  function UserProfileHasPermission(user: RequestUser, action: string, parent: bool): (r: bool)
    ensures user.anonymous && action == "create" ==> r
    ensures !(user.anonymous && action == "create") ==> r == parent
  {
    if user.anonymous && action == "create" then true else parent
  }

  /**
   * `ProjectPermissions.has_permission`: the anonymous user may list
   * projects and any signed-in user may star one; else the parent decides.
   */
  function ProjectHasPermission(user: RequestUser, action: string, parent: bool): (r: bool)
    ensures user.anonymous && action == "list" ==> r
    ensures !user.anonymous && action == "star" ==> r
    ensures !(user.anonymous && action == "list") && !(!user.anonymous && action == "star") ==> r == parent
  {
    if user.anonymous && action == "list" then true
    else if !user.anonymous && action == "star" then true
    else parent
  }

  /** A `PUT` to `share` asking to `remove` the user named in the body, who is the requesting user. */
  predicate RemovesSelf(request: Request, user: RequestUser, action: string) {
    && action == "share"
    && request.httpMethod == "PUT"
    && FieldTruthy(request.data, "remove")
    && "username" in request.data
    && request.data["username"] == user.username
  }

  /**
   * `ProjectPermissions.has_object_permission`: a user removing itself
   * from a project's shares is allowed; else the parent decides.
   */
  function ProjectHasObjectPermission(request: Request, user: RequestUser, action: string, parent: bool): (r: bool)
    ensures RemovesSelf(request, user, action) ==> r
    ensures !RemovesSelf(request, user, action) ==> r == parent
  {
    if action == "share" && request.httpMethod == "PUT" then
      if FieldTruthy(request.data, "remove") then
        if "username" in request.data && request.data["username"] == user.username then true
        else parent
      else parent
    else parent
  }

  /** The rules above only ever widen their parent's decision. */
  lemma RulesOnlyWiden(request: Request, user: RequestUser, action: string, parent: bool)
    ensures parent ==> UserProfileHasPermission(user, action, parent)
    ensures parent ==> ProjectHasPermission(user, action, parent)
    ensures parent ==> ProjectHasObjectPermission(request, user, action, parent)
    ensures parent ==> ConnectHasPermission(action, parent)
    ensures !parent && ProjectHasObjectPermission(request, user, action, parent) ==> "username" in request.data && request.data["username"] == user.username
  {
  }

  /** `ConnectViewsetPermissions.has_permission`: a password reset is always allowed; else the parent decides. */
  function ConnectHasPermission(action: string, parent: bool): (r: bool)
    ensures action == "reset" ==> r
    ensures action != "reset" ==> r == parent
  {
    if action == "reset" then true else parent
  }

  /**
   * `UserViewSetPermissions.has_permission`: the anonymous user listing
   * users with a non-empty `search` is refused as not authenticated; else
   * the parent decides.
   */
  function UserViewSetHasPermission(request: Request, user: RequestUser, action: string, parent: bool)
    : (r: Result<bool, PermissionError>)
    ensures r.Err? <==> user.anonymous && action == "list" && FieldTruthy(request.query, "search")
    ensures r.Err? ==> r.error == NotAuthenticated
    ensures r.Ok? ==> r.value == parent
  {
    if user.anonymous && action == "list" && FieldTruthy(request.query, "search") then Err(NotAuthenticated)
    else Ok(parent)
  }

  /**
   * `WidgetViewSetPermissions.has_permission`: a `key` query parameter,
   * even an empty one, or a listing is allowed; otherwise the mixin's
   * model-permission check with the project model, the view-aware
   * permission map and anonymous users admitted.
   */
  function WidgetHasPermission(request: Request, action: string, ignoreModelPermissions: bool)
    : (r: Result<bool, PermissionError>)
    ensures "key" in request.query || action == "list" ==> r == Ok(true)
    ensures !("key" in request.query || action == "list") ==>
      r == ModelPermission(ViewPermsMap, ignoreModelPermissions, [ProjectModel], request.httpMethod, request.user, false)
  {
    if "key" in request.query || action == "list" then Ok(true)
    else ModelPermission(ViewPermsMap, ignoreModelPermissions, [ProjectModel], request.httpMethod, request.user, false)
  }

  /** Without a key or a listing, a present user reading widgets needs exactly the project's view permission. */
  lemma WidgetReadNeedsProjectView(request: Request, action: string)
    requires !("key" in request.query || action == "list")
    requires request.httpMethod == "GET" && request.user.Some?
    ensures WidgetHasPermission(request, action, false) == Ok(Codename(ProjectModel, "view") in request.user.value.granted)
  {
    ViewPermsMapRequires(ProjectModel, "GET");
    assert RequiredAll(ViewPermsMap, "GET", [ProjectModel]) == Ok([] + [Codename(ProjectModel, "view")]) by {
      assert [ProjectModel][..0] == [];
    }
  }

  // ---------------------------------------------------------------------
  // Object checks that install `view.model`

  /** The view under check: only the model class the framework's object check uses is modelled. */
  class View {
    var model: Option<ModelClass>

    constructor ()
      ensures model == None
    {
      model := None;
    }
  }

  /**
   * `WidgetViewSetPermissions.has_object_permission`: the view is set to
   * the project model; a widget over anything that is not an instance of
   * the form or the data view class is refused; otherwise the parent decides
   * on the widget's project. `isForm` and `isDataView` are the two
   * `isinstance` tests on the widget's content, which also hold for
   * instances of subclasses.
   */
  method WidgetHasObjectPermission(view: View, isForm: bool, isDataView: bool, parent: bool) returns (r: bool)
    modifies view
    ensures view.model == Some(ProjectModel)
    ensures r <==> (isForm || isDataView) && parent
  {
    view.model := Some(ProjectModel);
    if !(isForm || isDataView) {
      return false;
    }
    return parent;
  }

  /**
   * The object checks that fix the view's model and defer to the parent on
   * a related object: the model of the metadata's object for
   * `MetaDataObjectPermissions`, the project for
   * `MetaDataProjectObjectPermissions` and `DataViewViewsetPermissions`,
   * the form for `AttachmentObjectPermissions`.
   */
  method RelatedObjectPermission(view: View, related: ModelClass, parent: bool) returns (r: bool)
    modifies view
    ensures view.model == Some(related) && r == parent
  {
    view.model := Some(related);
    return parent;
  }
}

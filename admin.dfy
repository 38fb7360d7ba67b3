/**
  The administration policy (app/admin.py): soft deletion shared by every
  registered model admin, the removal of the hard-delete bulk action, the
  DJ-profile form and admin, and the privileged fields of the user form.

  The six registered models (CustomUser, DjProfile, Location, Event, Song,
  SongRequest) are treated alike: a row is an `is_active` flag plus columns
  this policy never touches.
*/
module Admin {
  import opened Wrappers

  type Id = nat

  /** A stored row: its `is_active` flag and its other columns. */
  datatype Row = Row(isActive: bool, columns: map<string, string>)

  /** The exceptions these admin hooks raise. */
  datatype AdminError =
    | KeyError(key: string)
    | FormValidationError(message: string)

  /** An entry of an admin's action dictionary. */
  datatype Action = Action(name: string, description: string)

  const DeleteSelected: string := "delete_selected"
  const UserRequired: string := "User is required"
  const DisplayImage: string := "display_image"

  /** The database table of one model. */
  class Table {
    var rows: map<Id, Row>

    constructor (rows: map<Id, Row>)
      ensures this.rows == rows
    {
      this.rows := rows;
    }
  }

  /** A model instance loaded in memory; `Save` writes all of it back. */
  class Instance {
    const pk: Id
    var isActive: bool
    var columns: map<string, string>

    constructor (pk: Id, row: Row)
      ensures this.pk == pk && isActive == row.isActive && columns == row.columns
    {
      this.pk := pk;
      isActive := row.isActive;
      columns := row.columns;
    }

    function AsRow(): Row
      reads this
    {
      Row(isActive, columns)
    }

    /** `obj.save()`: the row under `pk` becomes the instance's current state,
        inserted when the table had no such row. */
    method Save(table: Table)
      modifies table
      ensures table.rows == old(table.rows)[pk := AsRow()]
    {
      table.rows := table.rows[pk := AsRow()];
    }
  }

  /** The table after `queryset.update(is_active=False)`: every row the queryset
      selects is inactive, nothing else changes and no row is removed. */
  function SoftDeleted(rows: map<Id, Row>, queryset: set<Id>): (r: map<Id, Row>)
    ensures r.Keys == rows.Keys
    ensures forall id :: id in r ==> r[id].columns == rows[id].columns
    ensures forall id :: id in r && id in queryset ==> !r[id].isActive
    ensures forall id :: id in r && id !in queryset ==> r[id] == rows[id]
  {
    map id | id in rows :: if id in queryset then rows[id].(isActive := false) else rows[id]
  }

  /** Soft-deleting a queryset twice is the same as doing it once. */
  lemma SoftDeleteIdempotent(rows: map<Id, Row>, queryset: set<Id>)
    ensures SoftDeleted(SoftDeleted(rows, queryset), queryset) == SoftDeleted(rows, queryset)
  {
  }

  /** Deleting one freshly loaded object has the effect of soft-deleting the
      queryset that holds only it. */
  lemma DeleteModelIsSingletonSoftDelete(rows: map<Id, Row>, pk: Id)
    requires pk in rows
    ensures rows[pk := rows[pk].(isActive := false)] == SoftDeleted(rows, {pk})
  {
  }

  /** SoftDeletionModelAdmin, the base of every admin in app/admin.py. */
  class SoftDeletionModelAdmin {
    const table: Table

    constructor (table: Table)
      ensures this.table == table
    {
      this.table := table;
    }

    /** delete_model: marks the object inactive and saves it; the row stays. */
    method DeleteModel(obj: Instance)
      modifies obj, table
      ensures !obj.isActive && obj.columns == old(obj.columns)
      ensures table.rows == old(table.rows)[obj.pk := Row(false, old(obj.columns))]
      ensures table.rows.Keys == old(table.rows.Keys) + {obj.pk}
    {
      obj.isActive := false;
      obj.Save(table);
    }

    /** delete_queryset: one bulk update that marks the queryset inactive. */
    method DeleteQueryset(queryset: set<Id>)
      modifies table
      ensures table.rows == SoftDeleted(old(table.rows), queryset)
    {
      table.rows := SoftDeleted(table.rows, queryset);
    }

    /** soft_delete_selected: the admin action with the same bulk update. */
    method SoftDeleteSelected(queryset: set<Id>)
      modifies table
      ensures table.rows == SoftDeleted(old(table.rows), queryset)
    {
      table.rows := SoftDeleted(table.rows, queryset);
    }

    /** get_actions: the inherited actions without 'delete_selected'; a KeyError
        when there is no such entry to delete. */
    method GetActions(inherited: map<string, Action>) returns (r: Result<map<string, Action>, AdminError>)
      ensures r.Ok? <==> DeleteSelected in inherited
      ensures r.Err? ==> r.error == KeyError(DeleteSelected)
      ensures r.Ok? ==> r.value.Keys == inherited.Keys - {DeleteSelected}
      ensures r.Ok? ==> forall name :: name in r.value ==> r.value[name] == inherited[name]
    {
      var actions := inherited;
      if DeleteSelected !in actions {
        return Err(KeyError(DeleteSelected));
      }
      actions := actions - {DeleteSelected};
      r := Ok(actions);
    }
  }

  /** A calling client: deleting an object twice leaves it deleted and the
      table as after the first deletion. */
  method DeleteModelTwice(admin: SoftDeletionModelAdmin, obj: Instance)
    modifies obj, admin.table
    ensures !obj.isActive
    ensures admin.table.rows == old(admin.table.rows)[obj.pk := Row(false, old(obj.columns))]
  {
    admin.DeleteModel(obj);
    ghost var once := admin.table.rows;
    admin.DeleteModel(obj);
    assert admin.table.rows == once;
  }

  /** DjProfileForm.clean_user: the cleaned user, or "User is required" when
      the form has none (absent, or cleaned to None). */
  function CleanUser<U>(cleanedData: map<string, Option<U>>): (r: Result<U, AdminError>)
    ensures r.Ok? <==> "user" in cleanedData && cleanedData["user"].Some?
    ensures r.Ok? ==> r.value == cleanedData["user"].value
    ensures r.Err? ==> r.error == FormValidationError(UserRequired)
  {
    var user := if "user" in cleanedData then cleanedData["user"] else None;
    if user.None? then Err(FormValidationError(UserRequired)) else Ok(user.value)
  }

  /** DjProfileAdmin.get_readonly_fields: the image preview is read-only on the
      change page of an existing object and there is none on the add page. */
  function GetReadonlyFields<O>(obj: Option<O>): (r: seq<string>)
    ensures |r| <= 1
    ensures DisplayImage in r <==> obj.Some?
    ensures forall name :: name in r ==> name == DisplayImage
  {
    if obj.Some? then [DisplayImage] else []
  }

  /** The fields CustomUserAdmin.get_form disables for the requesting user. */
  function PrivilegedFields(requestUserIsSuperuser: bool): (s: set<string>)
    ensures requestUserIsSuperuser <==> s == {}
    ensures !requestUserIsSuperuser ==> s == {"is_superuser", "user_permissions"}
  {
    if requestUserIsSuperuser then {} else {"is_superuser", "user_permissions"}
  }

  /** `base_fields` after disabling the fields in `names` that it holds: no
      field is added or removed, and only those fields change. */
  function WithDisabled(baseFields: map<string, bool>, names: set<string>): (r: map<string, bool>)
    ensures r.Keys == baseFields.Keys
    ensures forall f :: f in r && f in names ==> r[f]
    ensures forall f :: f in r && f !in names ==> r[f] == baseFields[f]
  {
    map f | f in baseFields :: baseFields[f] || f in names
  }

  /** A superuser's form is left exactly as it was built. */
  lemma SuperuserFormUntouched(baseFields: map<string, bool>)
    ensures WithDisabled(baseFields, PrivilegedFields(true)) == baseFields
  {
  }

  /** A non-superuser's form keeps its fields; `is_superuser` and
      `user_permissions` become disabled where present, and every other
      field keeps its flag. */
  lemma NonSuperuserFormDisablesPrivileged(baseFields: map<string, bool>)
    ensures WithDisabled(baseFields, PrivilegedFields(false)).Keys == baseFields.Keys
    ensures "is_superuser" in baseFields ==> WithDisabled(baseFields, PrivilegedFields(false))["is_superuser"]
    ensures "user_permissions" in baseFields ==> WithDisabled(baseFields, PrivilegedFields(false))["user_permissions"]
    ensures forall f :: f in baseFields && f != "is_superuser" && f != "user_permissions" ==>
              WithDisabled(baseFields, PrivilegedFields(false))[f] == baseFields[f]
  {
  }

  /** The form whose `base_fields` maps each field name to its `disabled` flag. */
  class ModelForm {
    var baseFields: map<string, bool>

    constructor (baseFields: map<string, bool>)
      ensures this.baseFields == baseFields
    {
      this.baseFields := baseFields;
    }
  }

  /** CustomUserAdmin.get_form: for a requester who is not a superuser, disables
      `is_superuser` and `user_permissions` where the form has them. */
  method GetForm(form: ModelForm, requestUserIsSuperuser: bool) returns (r: ModelForm)
    modifies form
    ensures r == form
    ensures form.baseFields == WithDisabled(old(form.baseFields), PrivilegedFields(requestUserIsSuperuser))
  {
    var disabledFields: set<string> := {};
    if !requestUserIsSuperuser {
      disabledFields := disabledFields + {"is_superuser", "user_permissions"};
    }
    var todo := disabledFields;
    while todo != {}
      invariant todo <= disabledFields
      invariant form.baseFields == WithDisabled(old(form.baseFields), disabledFields - todo)
      decreases todo
    {
      var f :| f in todo;
      if f in form.baseFields {
        form.baseFields := form.baseFields[f := true];
      }
      todo := todo - {f};
    }
    r := form;
  }
}

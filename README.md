# be-the-dj: a Dafny model of the admin, user-manager and model-creation logic

The be-the-dj backend is a Django application in which DJs publish events and
attendees request songs. This project models the parts of its code that hold
sequential logic, one Dafny module per Python file:

- `Utils` (app/utils.py): `sanitize_fields` walks a model's field list and
  builds a new dictionary. It keeps supplied values of fields that are neither
  many-to-many nor one-to-many, fills absent fields that have a default or are
  null or blank with that default, and drops everything else. The two
  generic creation helpers sanitise the input, call the ORM, and turn any
  exception it raises into a `ValidationError` keyed `"error"`. The loop is the
  method `SanitizeFields`, proved equal to the fold `Sanitized`. The lemmas
  about `Sanitized` state the filter's properties.
- `Admin` (app/admin.py): soft deletion shared by every registered admin.
  Deleting one object or a queryset flips `is_active` to false and never
  removes a row. The module also covers the removal of the `delete_selected`
  action, the DJ-profile form's user check and read-only fields, and the
  user form that disables privileged fields for non-superusers. Tables,
  loaded objects and forms are classes whose methods change them in place.
- `Models` (app/models.py): the email and password checks of
  `create_user` and `create_superuser`, the `setdefault` of `is_staff` and
  `is_superuser`, and the field defaults of a new `CustomUser`.
- `Wrappers`: `Option` for Python's `None`, and `Result` for a value
  returned or an exception raised.

`create_superuser` is modelled as written. Line 22 passes
`password **extra_fields`, which Python parses as the exponentiation
`password ** extra_fields`. A string raised to a dictionary raises
`TypeError`, so every call that passes both checks fails before
`create_user` is reached. `CreateSuperuser` states exactly that.

No modelled file implements a song-request status workflow, an event/DJ
eligibility check, `is_live`, or default queries that hide inactive rows:
app/models.py defines only the user manager and the user model, and no
manager filters on `is_active`. None of these is modelled.

Django internals appear as parameters. These are the ORM's `create` and
`update_or_create`, and the manager's `normalize_email` and password hashing. A model's field
list is a value: either the fields, or `None` when enumerating them raises
`ImproperlyConfigured`. The `request` arguments of the admin hooks are
dropped. Only `request.user.is_superuser`, which `get_form` reads, is kept.

## Model

| member | source | states |
|---|---|---|
| `Utils.SanitizeFields` | app/utils.py:4-16 | The result is the dictionary built by visiting the fields in order. A failing field enumeration gives the "Missing required field for <Model>" ValidationError. Every key is a kept field, and every supplied key keeps `data`'s value. |
| `Utils.SanitizedKeys` | app/utils.py:7-12 | A key is in the result iff some field of that name is not a relation and is either supplied or defaultable. |
| `Utils.KeysAreConcreteFields` | app/utils.py:7-8 | Every key of the result names a field that is neither many-to-many nor one-to-many. |
| `Utils.SuppliedValueKept` | app/utils.py:9-10 | A key present both in `data` and in the result maps to exactly `data`'s value, even when the field also has a default. |
| `Utils.DefaultFilled` | app/utils.py:11-12 | An absent non-relation field that has a default, is null or is blank appears with its `get_default()` value. |
| `Utils.UnkeptFieldOmitted` | app/utils.py:8-12 | Many-to-many and one-to-many fields never appear, even when supplied. An absent field with no default that is neither null nor blank is omitted. |
| `Utils.ExtraInputIgnored` | app/utils.py:7-10 | Keys of `data` that name no field are dropped. Adding them to `data` leaves the result unchanged. |
| `Utils.SanitizeIdempotent` | app/utils.py:4-16 | Sanitising a sanitised dictionary returns it unchanged. |
| `Utils.MissingFieldError` | app/utils.py:13-14 | The error for an `ImproperlyConfigured` enumeration has the single key `"error"`. |
| `Utils.Translated` | app/utils.py:26-32 | A created instance is returned. A raised ValidationError resurfaces keyed `"error"` with its text. Any other exception resurfaces keyed `"error"`, prefixed "An error occurred during instance creation: ". |
| `Utils.CreateModelInstance` | app/utils.py:19-32 | Calls `create` on the sanitised data and translates the outcome. Every failure is a ValidationError whose only key is `"error"`. |
| `Utils.UpdateOrCreateModelInstance` | app/utils.py:35-48 | The same for `update_or_create`. |
| `Admin.Instance.Save` | app/admin.py:22 | `obj.save()` writes the object's current state under its key and leaves every other row as it was. |
| `Admin.SoftDeletionModelAdmin.DeleteModel` | app/admin.py:20-22 | The object becomes inactive with its other columns unchanged and is saved. The row stays in the table, and no other row changes. |
| `Admin.DeleteModelTwice` | app/admin.py:20-22 | Deleting an already deleted object succeeds and leaves the same table as one deletion. |
| `Admin.SoftDeleted` | app/admin.py:24-25 | After the bulk update every queried row is inactive with its other columns unchanged. Rows outside the queryset are unchanged, and no row is added or removed. |
| `Admin.SoftDeleteIdempotent` | app/admin.py:24-25 | Soft-deleting the same queryset twice equals doing it once. |
| `Admin.DeleteModelIsSingletonSoftDelete` | app/admin.py:20-25 | Deleting one freshly loaded object has the same effect as soft-deleting the queryset holding only it. |
| `Admin.SoftDeletionModelAdmin.DeleteQueryset` | app/admin.py:24-25 | The table becomes `SoftDeleted` of its old rows and the queryset. |
| `Admin.SoftDeletionModelAdmin.SoftDeleteSelected` | app/admin.py:34-35 | The same effect on the table as `DeleteQueryset`. |
| `Admin.SoftDeletionModelAdmin.GetActions` | app/admin.py:27-30 | Succeeds iff `'delete_selected'` is inherited, and then returns the inherited actions without it, every other entry unchanged. Otherwise a KeyError. |
| `Admin.CleanUser` | app/admin.py:46-50 | Returns the cleaned user unchanged when there is one. Otherwise raises "User is required". |
| `Admin.GetReadonlyFields` | app/admin.py:98-102 | `display_image` is the only read-only field on the change page of an existing object. The add page has none. |
| `Admin.PrivilegedFields` | app/admin.py:131-138 | The set to disable is empty iff the requester is a superuser, and is exactly `{is_superuser, user_permissions}` otherwise. |
| `Admin.WithDisabled` | app/admin.py:140-142 | No form field is added or removed. Named fields present in the form become disabled, and all others keep their flag. |
| `Admin.SuperuserFormUntouched` | app/admin.py:134-142 | A superuser's form is returned exactly as built. |
| `Admin.NonSuperuserFormDisablesPrivileged` | app/admin.py:134-142 | For a non-superuser no field is added or removed, `is_superuser` and `user_permissions` are disabled where present, and every other field keeps its flag. |
| `Admin.GetForm` | app/admin.py:129-144 | The same form comes back with `is_superuser` and `user_permissions` disabled where present, only for a non-superuser. Other fields are untouched. |
| `Models.SetDefault` | app/models.py:20-21 | `setdefault` keeps every supplied entry and adds the key with the given value only when it was absent. |
| `Models.SuperuserDefaults` | app/models.py:20-21 | `is_staff` and `is_superuser` are True unless the caller supplied them, and supplied values are kept. |
| `Models.CustomUser.constructor` | app/models.py:25-30 | A new user has the given email, and `is_dj` as given or False by default. Keywords set `name`, the flags, `id` (or `pk`) and `last_login`. Flags not passed take their defaults: `is_active` True, `is_staff` False, `is_superuser` False. `name` defaults to the empty string. |
| `Models.CustomUser.SetPassword` | app/models.py:11 | Only the stored password changes, to the hash of the raw password. |
| `Models.CustomUserManager.CreateUser` | app/models.py:6-13 | A missing or empty email raises "The Email field must be set" and nothing is saved. A keyword that names no settable field raises a TypeError and nothing is saved. Otherwise a fresh user is appended to the saved rows. It has the normalised email, `is_dj` (False by default), the keyword or default `name` and flags, and the hashed password. |
| `Models.CreateUserDefaults` | app/models.py:6-13 | A user created from an email alone is saved with `is_dj` False, `is_active` True, `is_staff` False, `is_superuser` False and an empty `name`. A `name` passed by keyword is stored. |
| `Models.CustomUserManager.CreateSuperuser` | app/models.py:15-22 | The email is checked first, then the password, each with its ValueError. Past both checks the call always raises the TypeError of `str ** dict`, and no user is created. |

## Left out

- Image handling and previews (`clean_upload`, `display_image`, `encode_image`, `format_html`): they concern HTML and base64 payloads, not policy. Line 60 of app/admin.py, which reads a nonexistent `self.image`, is therefore not modelled.
- Admin display configuration (`list_display`, `search_fields`, `fieldsets`, `add_fieldsets`, `autocomplete_fields`, `ordering`, `inlines`, `readonly_fields`, `short_description`): declarative, with no behaviour.
- app/views.py, bethedj/urls.py, app/management/commands/createsu.py and the migrations: HTTP handlers, routing, environment reads and schema. Database-enforced uniqueness (such as the unique email) is not modelled, so `save` never fails here.
- The song-request status workflow, event/DJ eligibility, `is_live` and default active-only reads: no modelled file implements them.
- Django internals: `normalize_email` and password hashing are function parameters. `objects.create` and `update_or_create` are function parameters that report an outcome. `get_fields()` is either a field list or an `ImproperlyConfigured`. A `get_default()` that raises is not modelled.
- Which actions Django's base `get_actions` supplies is a parameter of `GetActions`.
- `Models.CustomUserManager.CreateUser`: a keyword value is either a boolean or text. A flag given text, or `name` given a boolean, is refused with a TypeError. Django behaves differently: at `save` a BooleanField converts "t", "True", "1", "f", "False" and "0" and raises a ValidationError for any other text, and `name=True` is saved as "True". Keywords naming model properties other than `pk` are refused as well. The TypeError's message is one fixed text, where Python words the duplicate-keyword and many-to-many cases differently.
- `Models.CustomUser.constructor`: it requires keywords that `CreateUser` accepts. `CreateUser` raises the TypeError for the rest before building a user.
- `Models.CustomUserManager.CreateSuperuser`: the defaulted keyword arguments are computed and then discarded, exactly as the code does when line 22 raises.

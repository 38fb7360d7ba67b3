/**
  The user model and its manager (app/models.py): the presence checks of
  `create_user` and `create_superuser`, the `setdefault` of the superuser
  flags, and the field defaults of a new CustomUser.

  Email normalisation and password hashing are Django's; the manager is
  given them. Extra keyword arguments are a dictionary of `Kwarg` values.
*/
module Models {
  import opened Wrappers

  /** The exceptions the manager raises. */
  datatype UserError = ValueError(message: string) | TypeError(message: string)

  /** A keyword-argument value: a boolean, or text (a string, or the written
      form of any other value). */
  datatype Kwarg = Flag(flag: bool) | Text(text: string)

  const EmailRequired: string := "The Email field must be set"
  const PasswordRequired: string := "Password field must be set"
  /** What Python raises for `str ** dict`. */
  const PowUnsupported: string := "unsupported operand type(s) for ** or pow(): 'str' and 'dict'"
  /** What the call raises for a keyword it cannot bind to a field. */
  const UnexpectedKeyword: string := "CustomUser() got unexpected keyword arguments"

  /** The boolean fields of CustomUser that extra keyword arguments may set,
      each with its declared default (is_superuser comes from PermissionsMixin). */
  const FlagDefaults: map<string, bool> := map["is_active" := true, "is_staff" := false, "is_superuser" := false]

  /** Columns inherited from Django's base classes that a keyword sets as given:
      the primary key (by its field name `id` or its property `pk`) and `last_login`. */
  const PassThroughFields: set<string> := {"id", "pk", "last_login"}

  /** Python truthiness of an optional string: neither None nor empty. */
  predicate Truthy(s: Option<string>) {
    s.Some? && s.value != ""
  }

  /** `CustomUser(**extra_fields)` stores this keyword: a flag given a boolean,
      `name` given text, or a pass-through column given any value. Every other
      key (a relation, a name no field or property has, or `email`, `password`
      or `is_dj`, which would be passed twice) raises a TypeError. */
  predicate Accepted(key: string, value: Kwarg) {
    || (key in FlagDefaults && value.Flag?)
    || (key == "name" && value.Text?)
    || key in PassThroughFields
  }

  predicate AcceptedKwargs(extraFields: map<string, Kwarg>) {
    forall k :: k in extraFields ==> Accepted(k, extraFields[k])
  }

  /** A flag's value in a new user: the keyword argument when given, else the field default. */
  function InitialFlag(extraFields: map<string, Kwarg>, field: string): bool
    requires field in FlagDefaults
  {
    if field in extraFields && extraFields[field].Flag? then extraFields[field].flag else FlagDefaults[field]
  }

  /** `name` in a new user: the keyword argument when given, else the empty
      string a CharField without a default takes. */
  function InitialName(extraFields: map<string, Kwarg>): string {
    if "name" in extraFields && extraFields["name"].Text? then extraFields["name"].text else ""
  }

  /** The pass-through columns the keyword arguments set. */
  function PassedThrough(extraFields: map<string, Kwarg>): (r: map<string, Kwarg>)
    ensures r.Keys == extraFields.Keys * PassThroughFields
    ensures forall k :: k in r ==> r[k] == extraFields[k]
  {
    map k | k in extraFields && k in PassThroughFields :: extraFields[k]
  }

  /** `dict.setdefault(key, value)` on the keyword-argument dictionary. */
  function SetDefault<K, V>(kwargs: map<K, V>, key: K, value: V): (r: map<K, V>)
    ensures r.Keys == kwargs.Keys + {key}
    ensures forall k :: k in kwargs ==> r[k] == kwargs[k]
    ensures key !in kwargs ==> r[key] == value
  {
    if key in kwargs then kwargs else kwargs[key := value]
  }

  /** The extra keyword arguments create_superuser prepares: is_staff and
      is_superuser are True unless the caller supplied them, and supplied
      values are kept. */
  function SuperuserDefaults(extraFields: map<string, Kwarg>): (r: map<string, Kwarg>)
    ensures r.Keys == extraFields.Keys + {"is_staff", "is_superuser"}
    ensures forall k :: k in extraFields ==> r[k] == extraFields[k]
    ensures "is_staff" !in extraFields ==> r["is_staff"] == Flag(true)
    ensures "is_superuser" !in extraFields ==> r["is_superuser"] == Flag(true)
  {
    SetDefault(SetDefault(extraFields, "is_staff", Flag(true)), "is_superuser", Flag(true))
  }

  /** A saved user row. */
  datatype UserRow = UserRow(
    email: string,
    name: string,
    isDj: bool,
    isActive: bool,
    isStaff: bool,
    isSuperuser: bool,
    password: string,
    otherColumns: map<string, Kwarg>)

  class CustomUser {
    var email: string
    var name: string
    var isDj: bool
    var isActive: bool
    var isStaff: bool
    var isSuperuser: bool
    /** The stored password hash. */
    var password: string
    /** The pass-through columns set by keyword. */
    var otherColumns: map<string, Kwarg>

    /** `CustomUser(email=..., is_dj=..., **extra_fields)`: every field not given
        takes its default (`is_dj` False, `is_active` True, `is_staff` False). */
    constructor (email: string, isDj: bool := false, extraFields: map<string, Kwarg> := map[])
      requires AcceptedKwargs(extraFields)
      ensures this.email == email && this.isDj == isDj && password == ""
      ensures name == InitialName(extraFields)
      ensures isActive == InitialFlag(extraFields, "is_active")
      ensures isStaff == InitialFlag(extraFields, "is_staff")
      ensures isSuperuser == InitialFlag(extraFields, "is_superuser")
      ensures otherColumns == PassedThrough(extraFields)
      ensures extraFields == map[] ==> name == "" && isActive && !isStaff && !isSuperuser && otherColumns == map[]
    {
      this.email := email;
      name := InitialName(extraFields);
      this.isDj := isDj;
      isActive := InitialFlag(extraFields, "is_active");
      isStaff := InitialFlag(extraFields, "is_staff");
      isSuperuser := InitialFlag(extraFields, "is_superuser");
      password := "";
      otherColumns := PassedThrough(extraFields);
    }

    function AsRow(): UserRow
      reads this
    {
      UserRow(email, name, isDj, isActive, isStaff, isSuperuser, password, otherColumns)
    }

    /** `set_password`: stores the hash of the raw password (None: an unusable one). */
    method SetPassword(raw: Option<string>, makePassword: Option<string> -> string)
      modifies this
      ensures AsRow() == old(AsRow()).(password := makePassword(raw))
    {
      password := makePassword(raw);
    }
  }

  /** CustomUserManager, with Django's email normalisation and password
      hashing, and the rows its `save` calls have written. */
  class CustomUserManager {
    const normalizeEmail: string -> string
    const makePassword: Option<string> -> string
    var saved: seq<UserRow>

    constructor (normalizeEmail: string -> string, makePassword: Option<string> -> string)
      ensures this.normalizeEmail == normalizeEmail && this.makePassword == makePassword
      ensures saved == []
    {
      this.normalizeEmail := normalizeEmail;
      this.makePassword := makePassword;
      saved := [];
    }

    /** create_user: refuses a missing or empty email before building anything,
        then builds the user with `is_dj` as given (False by default), sets its
        password and saves it. */
    method CreateUser(email: Option<string>, password: Option<string> := None, isDj: bool := false,
                      extraFields: map<string, Kwarg> := map[])
      returns (r: Result<CustomUser, UserError>)
      modifies this
      ensures !Truthy(email) ==> r == Err(ValueError(EmailRequired))
      ensures Truthy(email) && !AcceptedKwargs(extraFields) ==> r == Err(TypeError(UnexpectedKeyword))
      ensures r.Ok? <==> Truthy(email) && AcceptedKwargs(extraFields)
      ensures r.Err? ==> saved == old(saved)
      ensures r.Ok? ==> fresh(r.value) && saved == old(saved) + [r.value.AsRow()]
      ensures r.Ok? ==> r.value.AsRow() == UserRow(
                          normalizeEmail(email.value), InitialName(extraFields), isDj,
                          InitialFlag(extraFields, "is_active"),
                          InitialFlag(extraFields, "is_staff"),
                          InitialFlag(extraFields, "is_superuser"),
                          makePassword(password),
                          PassedThrough(extraFields))
    {
      if !Truthy(email) {
        return Err(ValueError(EmailRequired));
      }
      var normalized := normalizeEmail(email.value);
      if !AcceptedKwargs(extraFields) {
        return Err(TypeError(UnexpectedKeyword));
      }
      var user := new CustomUser(normalized, isDj, extraFields);
      user.SetPassword(password, makePassword);
      saved := saved + [user.AsRow()];
      r := Ok(user);
    }

    /** create_superuser as written: the email is checked first, then the
        password; past both checks the flags are defaulted and then
        `password **extra_fields`, which Python reads as `password ** extra_fields`,
        raises a TypeError, so no user is built or saved. */
    method CreateSuperuser(email: Option<string>, password: Option<string> := None,
                           extraFields: map<string, Kwarg> := map[])
      returns (r: Result<CustomUser, UserError>)
      ensures !Truthy(email) ==> r == Err(ValueError(EmailRequired))
      ensures Truthy(email) && !Truthy(password) ==> r == Err(ValueError(PasswordRequired))
      ensures Truthy(email) && Truthy(password) ==> r == Err(TypeError(PowUnsupported))
    {
      if !Truthy(email) {
        return Err(ValueError(EmailRequired));
      }
      if !Truthy(password) {
        return Err(ValueError(PasswordRequired));
      }
      // The defaulted keyword arguments are computed and then discarded: the
      // next line raises before anything reads them.
      var kwargs := extraFields;
      kwargs := SetDefault(kwargs, "is_staff", Flag(true));
      kwargs := SetDefault(kwargs, "is_superuser", Flag(true));
      assert kwargs == SuperuserDefaults(extraFields);
      // The keyword argument `password **extra_fields` is evaluated before the
      // call: exponentiation of a string by a dictionary.
      r := Err(TypeError(PowUnsupported));
    }
  }

  /** A calling client: a user created with only an email gets the declared
      defaults, and `name` passed by keyword is stored. */
  method CreateUserDefaults(manager: CustomUserManager)
    modifies manager
    ensures |manager.saved| == |old(manager.saved)| + 2
    ensures manager.saved[..|old(manager.saved)|] == old(manager.saved)
    ensures manager.saved[|old(manager.saved)|].isActive && !manager.saved[|old(manager.saved)|].isDj
    ensures !manager.saved[|old(manager.saved)|].isStaff && !manager.saved[|old(manager.saved)|].isSuperuser
    ensures manager.saved[|old(manager.saved)|].name == ""
    ensures manager.saved[|old(manager.saved)| + 1].name == "Host"
  {
    var r := manager.CreateUser(Some("dj@example.com"));
    assert r.Ok?;
    var user := r.value;
    assert !user.isDj && user.isActive && !user.isStaff && !user.isSuperuser && user.name == "";
    var named := manager.CreateUser(Some("host@example.com"), extraFields := map["name" := Text("Host")]);
    assert named.Ok? && named.value.name == "Host";
  }
}

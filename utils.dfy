/**
  Generic creation of a model instance from a dictionary (app/utils.py).

  A model's field list is what `model._meta.get_fields()` enumerates; the
  dictionaries are `map<string, V>` for an opaque column value type `V`.
  The ORM calls `objects.create` and `objects.update_or_create` are not part
  of this model: they are parameters that report what the call did.
*/
module Utils {
  import opened Wrappers

  /** One entry of `get_fields()`; `defaultValue` is what its `get_default()` returns. */
  datatype Field<V> = Field(
    name: string,
    manyToMany: bool,
    oneToMany: bool,
    hasDefault: bool,
    nullable: bool,
    blank: bool,
    defaultValue: V)

  /** A model class: its `__name__` and the outcome of enumerating its fields,
      `None` when that enumeration raises ImproperlyConfigured. */
  datatype ModelClass<V> = ModelClass(name: string, fields: Option<seq<Field<V>>>)

  /** Django's ValidationError raised with a dictionary of messages. */
  datatype ValidationError = ValidationError(messages: map<string, string>)

  /** What an ORM call did: returned an instance, raised a ValidationError,
      or raised any other exception; `text` is `str(e)`. */
  datatype OrmOutcome<I> =
    | Created(instance: I)
    | RaisedValidation(text: string)
    | RaisedOther(text: string)

  const CreationFailedPrefix: string := "An error occurred during instance creation: "

  /** Neither many-to-many nor one-to-many. */
  predicate Concrete<V>(f: Field<V>) {
    !f.manyToMany && !f.oneToMany
  }

  /** An absent field that still receives its default. */
  predicate Defaultable<V>(f: Field<V>) {
    f.hasDefault || f.nullable || f.blank
  }

  /** A field that ends up in the sanitised dictionary. */
  predicate Kept<V>(f: Field<V>, data: map<string, V>) {
    Concrete(f) && (f.name in data || Defaultable(f))
  }

  /** Some field of the list with name `k` is kept. */
  ghost predicate KeptName<V>(fields: seq<Field<V>>, data: map<string, V>, k: string) {
    exists i :: 0 <= i < |fields| && fields[i].name == k && Kept(fields[i], data)
  }

  /** Django gives each field of a model its own name. */
  ghost predicate UniqueNames<V>(fields: seq<Field<V>>) {
    forall i, j :: 0 <= i < j < |fields| ==> fields[i].name != fields[j].name
  }

  /** The dictionary after the loop of sanitize_fields has visited one more field. */
  function Visit<V>(acc: map<string, V>, f: Field<V>, data: map<string, V>): map<string, V> {
    if !Concrete(f) then acc
    else if f.name in data then acc[f.name := data[f.name]]
    else if Defaultable(f) then acc[f.name := f.defaultValue]
    else acc
  }

  /** The dictionary sanitize_fields builds after visiting `fields` in order. */
  function Sanitized<V>(fields: seq<Field<V>>, data: map<string, V>): map<string, V> {
    if |fields| == 0 then map[]
    else Visit(Sanitized(fields[..|fields| - 1], data), fields[|fields| - 1], data)
  }

  function MissingFieldError(modelName: string): (e: ValidationError)
    ensures e.messages.Keys == {"error"}
  {
    ValidationError(map["error" := "Missing required field for " + modelName])
  }

  /** The exception translation of both create wrappers: an instance is returned,
      and every exception resurfaces as a ValidationError keyed "error". */
  function Translated<I>(outcome: OrmOutcome<I>): (r: Result<I, ValidationError>)
    ensures r.Ok? <==> outcome.Created?
    ensures r.Ok? ==> r.value == outcome.instance
    ensures r.Err? ==> r.error.messages.Keys == {"error"}
    ensures outcome.RaisedValidation? ==> r.error.messages["error"] == outcome.text
    ensures outcome.RaisedOther? ==> r.error.messages["error"] == CreationFailedPrefix + outcome.text
  {
    match outcome
    case Created(instance) => Ok(instance)
    case RaisedValidation(text) => Err(ValidationError(map["error" := text]))
    case RaisedOther(text) => Err(ValidationError(map["error" := CreationFailedPrefix + text]))
  }

  /** A key is in the sanitised dictionary exactly when some field of that name is kept. */
  lemma {:induction false} SanitizedKeys<V>(fields: seq<Field<V>>, data: map<string, V>, k: string)
    ensures k in Sanitized(fields, data) <==> KeptName(fields, data, k)
  {
    if |fields| > 0 {
      var n := |fields| - 1;
      var prefix := fields[..n];
      SanitizedKeys(prefix, data, k);
      if fields[n].name == k && Kept(fields[n], data) {
        assert k in Sanitized(fields, data);
      } else {
        assert k in Sanitized(fields, data) <==> k in Sanitized(prefix, data);
        if KeptName(prefix, data, k) {
          var i :| 0 <= i < |prefix| && prefix[i].name == k && Kept(prefix[i], data);
          assert fields[i] == prefix[i];
        }
        if KeptName(fields, data, k) {
          var i :| 0 <= i < |fields| && fields[i].name == k && Kept(fields[i], data);
          assert i < n && prefix[i] == fields[i];
        }
      }
    }
  }

  /** A field supplied in `data` carries exactly `data`'s value, default or not. */
  lemma {:induction false} SuppliedValueKept<V>(fields: seq<Field<V>>, data: map<string, V>, k: string)
    requires k in Sanitized(fields, data) && k in data
    ensures Sanitized(fields, data)[k] == data[k]
  {
    var n := |fields| - 1;
    if !(Concrete(fields[n]) && fields[n].name == k) {
      SuppliedValueKept(fields[..n], data, k);
    }
  }

  /** An absent field that has a default, is null or is blank gets its default. */
  lemma {:induction false} DefaultFilled<V>(fields: seq<Field<V>>, data: map<string, V>, i: int)
    requires UniqueNames(fields) && 0 <= i < |fields|
    requires Concrete(fields[i]) && fields[i].name !in data && Defaultable(fields[i])
    ensures fields[i].name in Sanitized(fields, data)
    ensures Sanitized(fields, data)[fields[i].name] == fields[i].defaultValue
  {
    var n := |fields| - 1;
    if i < n {
      var prefix := fields[..n];
      assert prefix[i] == fields[i];
      DefaultFilled(prefix, data, i);
      assert fields[n].name != fields[i].name;
    }
  }

  /** A field that is not kept never appears: many-to-many and one-to-many fields
      even when supplied, and absent fields with no default that are neither null nor blank. */
  lemma UnkeptFieldOmitted<V>(fields: seq<Field<V>>, data: map<string, V>, i: int)
    requires UniqueNames(fields) && 0 <= i < |fields| && !Kept(fields[i], data)
    ensures fields[i].name !in Sanitized(fields, data)
  {
    SanitizedKeys(fields, data, fields[i].name);
  }

  /** Every key of the result names a field that is neither many-to-many nor one-to-many. */
  lemma KeysAreConcreteFields<V>(fields: seq<Field<V>>, data: map<string, V>, k: string)
    requires k in Sanitized(fields, data)
    ensures exists i :: 0 <= i < |fields| && fields[i].name == k && Concrete(fields[i])
  {
    SanitizedKeys(fields, data, k);
  }

  /** Keys of `data` that name no field are dropped, and adding such keys to
      `data` does not change the result at all. */
  lemma {:induction false} ExtraInputIgnored<V>(fields: seq<Field<V>>, data: map<string, V>, extra: map<string, V>)
    requires forall i :: 0 <= i < |fields| ==> fields[i].name !in extra
    ensures Sanitized(fields, data + extra) == Sanitized(fields, data)
    ensures forall k :: k in extra ==> k !in Sanitized(fields, data + extra)
  {
    if |fields| > 0 {
      var n := |fields| - 1;
      ExtraInputIgnored(fields[..n], data, extra);
    }
    forall k | k in extra
      ensures k !in Sanitized(fields, data + extra)
    {
      SanitizedKeys(fields, data + extra, k);
    }
  }

  /** Sanitising is idempotent: the sanitised dictionary passes through unchanged,
      so create_model_instance's data is already in the form the filter produces. */
  lemma SanitizeIdempotent<V>(fields: seq<Field<V>>, data: map<string, V>)
    ensures Sanitized(fields, Sanitized(fields, data)) == Sanitized(fields, data)
  {
    var once := Sanitized(fields, data);
    var twice := Sanitized(fields, once);
    forall k | k in twice
      ensures k in once && twice[k] == once[k]
    {
      SanitizedKeys(fields, once, k);
      var i :| 0 <= i < |fields| && fields[i].name == k && Kept(fields[i], once);
      if k !in once {
        SanitizedKeys(fields, data, k);
        assert Kept(fields[i], data);
      }
      SuppliedValueKept(fields, once, k);
    }
    forall k | k in once
      ensures k in twice
    {
      SanitizedKeys(fields, data, k);
      var i :| 0 <= i < |fields| && fields[i].name == k && Kept(fields[i], data);
      assert Kept(fields[i], once);
      SanitizedKeys(fields, once, k);
    }
  }

  /**
    sanitize_fields: walks the model's fields in order and builds a new
    dictionary; `data` is a value and is left as it was. An ImproperlyConfigured
    raised while enumerating the fields becomes a ValidationError.
  */
  method SanitizeFields<V>(data: map<string, V>, model: ModelClass<V>)
    returns (r: Result<map<string, V>, ValidationError>)
    ensures model.fields.None? ==> r == Err(MissingFieldError(model.name))
    ensures model.fields.Some? ==> r == Ok(Sanitized(model.fields.value, data))
    ensures r.Ok? ==> forall k :: k in r.value && k in data ==> r.value[k] == data[k]
    ensures r.Ok? ==> forall k :: k in r.value ==> KeptName(model.fields.value, data, k)
  {
    var sanitizedData: map<string, V> := map[];
    if model.fields.None? {
      return Err(MissingFieldError(model.name));
    }
    var fields := model.fields.value;
    var i := 0;
    while i < |fields|
      invariant 0 <= i <= |fields|
      invariant sanitizedData == Sanitized(fields[..i], data)
    {
      var field := fields[i];
      if !field.manyToMany && !field.oneToMany {
        if field.name in data {
          sanitizedData := sanitizedData[field.name := data[field.name]];
        } else if field.hasDefault || field.nullable || field.blank {
          sanitizedData := sanitizedData[field.name := field.defaultValue];
        }
      }
      assert fields[..i + 1][..i] == fields[..i];
      i := i + 1;
    }
    assert fields[..i] == fields;
    forall k | k in sanitizedData && k in data
      ensures sanitizedData[k] == data[k]
    {
      SuppliedValueKept(fields, data, k);
    }
    forall k | k in sanitizedData
      ensures KeptName(fields, data, k)
    {
      SanitizedKeys(fields, data, k);
    }
    r := Ok(sanitizedData);
  }

  /** create_model_instance: sanitises `data`, then calls `objects.create` on it. */
  method CreateModelInstance<V, I>(data: map<string, V>, model: ModelClass<V>, create: map<string, V> -> OrmOutcome<I>)
    returns (r: Result<I, ValidationError>)
    ensures r.Err? ==> r.error.messages.Keys == {"error"}
    ensures model.fields.None? ==> r == Err(MissingFieldError(model.name))
    ensures model.fields.Some? ==> r == Translated(create(Sanitized(model.fields.value, data)))
  {
    var sanitized := SanitizeFields(data, model);
    if sanitized.Err? {
      return Err(sanitized.error);
    }
    r := Translated(create(sanitized.value));
  }

  /** update_or_create_model_instance: sanitises `data`, then calls
      `objects.update_or_create` on it; `I` is the (object, created) pair it returns. */
  method UpdateOrCreateModelInstance<V, I>(data: map<string, V>, model: ModelClass<V>, updateOrCreate: map<string, V> -> OrmOutcome<I>)
    returns (r: Result<I, ValidationError>)
    ensures r.Err? ==> r.error.messages.Keys == {"error"}
    ensures model.fields.None? ==> r == Err(MissingFieldError(model.name))
    ensures model.fields.Some? ==> r == Translated(updateOrCreate(Sanitized(model.fields.value, data)))
  {
    var sanitized := SanitizeFields(data, model);
    if sanitized.Err? {
      return Err(sanitized.error);
    }
    r := Translated(updateOrCreate(sanitized.value));
  }
}

/** `DatabaseStorageProcessor` (Java generation): validates the methods of a
    storage interface whose first parameter is the `SQLiteDatabase`, resolves
    the entity each one works on, and produces the storage method objects
    the class writer renders: the getters of every column, the key
    predicate, the `CREATE TABLE` statement and the select signatures.

    Custom column types go through a serializer class: a `@SerializeType`
    method turns the field into a native value when writing, and the
    parameter of the `@DeserializeType` method that returns the field's type
    gives the column its SQL type.
 */
module DatabaseStorageProcessorJava {
  import opened Wrappers
  import opened Elements
  import opened ElementExtensions
  import Seqs
  import Results
  import ListUtils
  import Decimal
  import ElementUtils
  import PackageProvider
  import Kt = DatabaseStorageProcessorKt
  import Model = DatabaseEntityModelKt

  const QUALIFIED_NAME_SQLITE_DATABASE: string := "android.database.sqlite.SQLiteDatabase"

  // ------------------------------------------------------------- messages

  const NO_SQLITE_PARAMETER: string :=
    "method must have at least one parameter where the first is of type android.database.sqlite.SQLiteDatabase"
  const FIRST_NOT_SQLITE: string := "first parameter must be the type android.database.sqlite.SQLiteDatabase"
  const NO_ENTITY_PARAMETER: string :=
    "method must have at least two parameters where the first is of type android.database.sqlite.SQLiteDatabase and the second is a type annotated with @DatabaseEntity"
  const SECOND_NOT_DECLARED: string := "second parameter must be a declared type annotated with @DatabaseEntity"
  const SECOND_NOT_ENTITY: string := "second parameter must be annotated with @DatabaseEntity"
  const EXACTLY_TWO_PARAMETERS: string := "method must have exactly two parameters"
  const NO_PRIMARY_KEY: string :=
    "There must be a field annotated with PrimaryKey or the key specified in @DatabaseEntity is empty!"
  const KEY_NOT_IN_CLASS: string := "Field specified in DatabaseEntity annotation doesn't exist in entity class!"
  const NO_ENTITY_ANNOTATION: string := "getAnnotation(DatabaseEntity) returned null"
  const NOT_KNOWN_BY_SLINGER: string := " is not known by SlingerORM, solve this by creating a custom serializer method"
  const NOT_DECLARED: string := "cannot be cast to DeclaredType"
  const SHOULD_BE_DECLARED: string := "Element should be a declared type"
  const ONE_PARAMETER: string := "@DeserializeType/@SerializeType methods must have one parameter, got "
  const PARAMETERS_FOR_METHOD: string := " parameters for method "
  const NO_METHOD_FOUND: string := "No method found for field "
  const ONLY_ONE_SERIALIZE: string := "Only one @SerializeType method per parameter type supported, found "
  const SAME_PARAMETER_TYPE: string := " methods with same parameter type in "
  const SERIALIZER: string := "serializer."
  const ENTITY: string := "entity"
  const NOT_NATIVE: string := "this should only be called for native types and strings!"
  const IS_UNKNOWN: string := " is unknown"
  const TYPE_NOT_KNOWN: string := " have a type not known by SlingerORM, solve this by creating a custom serializer"
  const SHOULD_BE_DECLARED_BUT: string := "TypeKind should be declared but was "
  const STRING_NOT_PASSED: string := "String type should not be passed to this method"
  const ONE_NATIVE_PARAMETER: string :=
    "@DeserializeType/@SerializeType methods must have one parameter with a native type or String, got "
  const NO_DESERIALIZE_METHOD: string := "No @DeserializeType methods found with return type "
  const RETURN_NOT_UNIQUE: string := "Return value of @DeserializeType/@SerializeType methods must be unique, there are "
  const WITH_RETURN_TYPE: string := " with return type "
  const NO_FIELDS_FOUND: string := "no fields found in "
  const NO_KEY_FOUND: string := "Primary key not found when creating SQL for entity "
  const CREATE_TABLE: string := "CREATE TABLE IF NOT EXISTS "
  const PRIMARY_KEY_SUFFIX: string := " NOT NULL PRIMARY KEY"
  const COMMA: string := ", "
  const NOT_KNOWN_BUG: string := " is not known, bug?"
  const MUST_RETURN_ENTITY: string :=
    " must return a type annotated with @DatabaseEntity or a list of a type annotated with @DatabaseEntity"
  const INDEX_ZERO: string := "Index: 0, Size: 0"
  const NO_SELECT_ANNOTATION: string := "getAnnotation(Select) returned null"
  const NO_CREATE_TABLE_ANNOTATION: string := "createTable is null"
  const NULL_ENTITY: string := "databaseTypeElement is null"
  const NOT_AN_ENTITY: string := "element not annotated with @DatabaseEntity"
  const NOT_A_TYPE_ELEMENT: string := "cannot be cast to TypeElement"
  const NOT_A_STORAGE_METHOD: string :=
    " must be annotated with either @CreateTable, @Insert, @Replace, @Update, @Delete or @Select"

  // ------------------------------------------------------------ the fields

  /** `isDatabaseField`: neither static nor transient nor `@NotDatabaseField`. */
  predicate IsDatabaseField(e: Element) {
    Static !in e.modifiers && Transient !in e.modifiers && !HasAnnotation(e.annotations, NotDatabaseFieldClass)
  }

  predicate IsColumnField(e: Element) {
    e.kind == FieldKind && IsDatabaseField(e)
  }

  /** `getFieldsUsedInDatabase`: the fields among the class's members (its
      own first, then its superclasses'), in that order. */
  function GetFieldsUsedInDatabase(entity: TypeElement): seq<Element> {
    Seqs.Filter(ElementsOf(entity), IsColumnField)
  }

  /** The columns are exactly the listed fields that are stored, kept in
      member order, with no two sharing a simple name. */
  lemma FieldsUsedInDatabaseProperties(entity: TypeElement)
    ensures forall e :: e in GetFieldsUsedInDatabase(entity) <==> e in ElementsOf(entity) && IsColumnField(e)
    ensures Seqs.IsSubsequence(GetFieldsUsedInDatabase(entity), ElementsOf(entity))
    ensures Model.DistinctNames(GetFieldsUsedInDatabase(entity))
  {
    forall e ensures e in GetFieldsUsedInDatabase(entity) <==> e in ElementsOf(entity) && IsColumnField(e) {
      Seqs.FilterMembers(ElementsOf(entity), IsColumnField, e);
    }
    Seqs.FilterIsSubsequence(ElementsOf(entity), IsColumnField);
    ElementsOfProperties(entity);
    Model.FilterKeepsNamesDistinct(ElementsOf(entity), IsColumnField);
  }

  // ---------------------------------------------------------- primary key

  /** `getPrimaryKeyFieldUsingDatabaseEntity`: null for an empty
      `primaryKey`, otherwise the field of that name, which must exist. */
  function GetPrimaryKeyFieldUsingDatabaseEntity(entity: TypeElement, fields: seq<Element>): (r: Result<Option<Element>>)
    ensures Model.EntityAnnotation(entity).None? ==> r.Err?
    ensures Model.EntityAnnotation(entity).Some? ==>
              var key := Model.EntityAnnotation(entity).value.primaryKey;
              && (key == "" ==> r == Ok(None))
              && (key != "" ==> r.Ok? == FirstNamed(fields, key).Some?)
              && (key != "" && r.Ok? ==> r.value == FirstNamed(fields, key))
  {
    var annotation := Model.EntityAnnotation(entity);
    if annotation.None? then Err(NullPointer(NO_ENTITY_ANNOTATION))
    else
      var key := annotation.value.primaryKey;
      if key == "" then Ok(None)
      else
        var field := FirstNamed(fields, key);
        if field.None? then Err(InvalidElement(KEY_NOT_IN_CLASS)) else Ok(field)
  }

  /** `getPrimaryKeyField`: the first `@PrimaryKey` field, else the field
      named by the annotation's `primaryKey`, else failure. */
  function GetPrimaryKeyField(entity: TypeElement): (r: Result<Element>)
    ensures var marked := Seqs.Filter(GetFieldsUsedInDatabase(entity), Model.IsPrimaryKeyMarked);
            var named := GetPrimaryKeyFieldUsingDatabaseEntity(entity, GetFieldsUsedInDatabase(entity));
            && (|marked| > 0 ==> r == Ok(marked[0]))
            && (|marked| == 0 ==> (r.Ok? <==> named.Ok? && named.value.Some?) && (r.Ok? ==> named == Ok(Some(r.value))))
  {
    var fields := GetFieldsUsedInDatabase(entity);
    var field := ListUtils.FirstOrDefault(Seqs.Filter(fields, Model.IsPrimaryKeyMarked));
    if field.Some? then Ok(field.value)
    else
      var named :- GetPrimaryKeyFieldUsingDatabaseEntity(entity, fields);
      if named.None? then Err(InvalidElement(NO_PRIMARY_KEY)) else Ok(named.value)
  }

  /** The key is a stored field; a marked key is the first marked field,
      and without markers the key is the stored field named by the
      annotation's non-empty `primaryKey`. */
  lemma PrimaryKeyFieldProperties(entity: TypeElement)
    requires GetPrimaryKeyField(entity).Ok?
    ensures var key := GetPrimaryKeyField(entity).value;
            var fields := GetFieldsUsedInDatabase(entity);
            && key in fields
            && (Model.IsPrimaryKeyMarked(key) ==>
                  exists i :: 0 <= i < |fields| && fields[i] == key
                    && forall j :: 0 <= j < i ==> !Model.IsPrimaryKeyMarked(fields[j]))
            && (!Model.IsPrimaryKeyMarked(key) ==>
                  && (forall f :: f in fields ==> !Model.IsPrimaryKeyMarked(f))
                  && Model.EntityAnnotation(entity).Some?
                  && key.simpleName == Model.EntityAnnotation(entity).value.primaryKey != "")
  {
    var fields := GetFieldsUsedInDatabase(entity);
    var key := GetPrimaryKeyField(entity).value;
    var marked := Seqs.Filter(fields, Model.IsPrimaryKeyMarked);
    forall f ensures f in marked <==> f in fields && Model.IsPrimaryKeyMarked(f) {
      Seqs.FilterMembers(fields, Model.IsPrimaryKeyMarked, f);
    }
    if |marked| > 0 {
      FirstMarked(fields);
    } else {
      var name := Model.EntityAnnotation(entity).value.primaryKey;
      FirstNamedFound(fields, name);
    }
  }

  lemma {:induction false} FirstMarked(fields: seq<Element>)
    requires |Seqs.Filter(fields, Model.IsPrimaryKeyMarked)| > 0
    ensures exists i :: 0 <= i < |fields| && fields[i] == Seqs.Filter(fields, Model.IsPrimaryKeyMarked)[0]
              && Model.IsPrimaryKeyMarked(fields[i])
              && forall j :: 0 <= j < i ==> !Model.IsPrimaryKeyMarked(fields[j])
  {
    if !Model.IsPrimaryKeyMarked(fields[0]) {
      FirstMarked(fields[1..]);
      var i :| 0 <= i < |fields[1..]| && fields[1..][i] == Seqs.Filter(fields[1..], Model.IsPrimaryKeyMarked)[0]
               && Model.IsPrimaryKeyMarked(fields[1..][i])
               && forall j :: 0 <= j < i ==> !Model.IsPrimaryKeyMarked(fields[1..][j]);
      assert fields[i + 1] == fields[1..][i];
      assert forall j :: 1 <= j < i + 1 ==> fields[j] == fields[1..][j - 1];
    }
  }

  /** `getPrimaryKeyDbName`: the column name of the key field. */
  function GetPrimaryKeyDbName(entity: TypeElement): (r: Result<string>)
    ensures r.Ok? <==> GetPrimaryKeyField(entity).Ok? && Model.GetDatabaseFieldName(GetPrimaryKeyField(entity).value).Ok?
    ensures r.Ok? ==> r == Model.GetDatabaseFieldName(GetPrimaryKeyField(entity).value)
  {
    var field :- GetPrimaryKeyField(entity);
    Model.GetDatabaseFieldName(field)
  }

  // ---------------------------------------------------------- type kinds

  /** `getObjectTypeForElement(typeKind, element)`: the kind decides, but a
      declared kind reads the element's own type to tell String from a
      custom class. */
  function GetObjectTypeForElement(kind: TypeKind, element: Element): (r: Result<ObjectType>)
    ensures r == Ok(OtherObject) ==> kind == DeclaredKind && element.asType.DeclaredType? && !IsDeclaredString(element.asType)
    ensures r == Ok(StringObject) ==> kind == DeclaredKind && IsDeclaredString(element.asType)
    ensures r.Err? && kind != DeclaredKind ==> r == Err(InvalidElement(KindName(kind) + NOT_KNOWN_BY_SLINGER))
  {
    match kind
    case BooleanKind => Ok(BooleanObject)
    case ShortKind => Ok(ShortObject)
    case IntKind => Ok(IntObject)
    case LongKind => Ok(LongObject)
    case FloatKind => Ok(FloatObject)
    case DoubleKind => Ok(DoubleObject)
    case DeclaredKind =>
      if !element.asType.DeclaredType? then Err(ClassCast(NOT_DECLARED))
      else if element.asType.decl.qualifiedName == TYPE_STRING then Ok(StringObject)
      else Ok(OtherObject)
    case _ => Err(InvalidElement(KindName(kind) + NOT_KNOWN_BY_SLINGER))
  }

  /** Called on a field's own kind, the classification agrees with the
      Kotlin generation's; only the exception for an unknown kind differs. */
  lemma ObjectTypeAgreesWithKotlin(e: Element)
    ensures GetObjectTypeForElement(KindOf(e.asType), e).Ok? <==> Model.GetObjectTypeForElement(e).Ok?
    ensures GetObjectTypeForElement(KindOf(e.asType), e).Ok? ==>
              GetObjectTypeForElement(KindOf(e.asType), e) == Model.GetObjectTypeForElement(e)
  {
  }

  // -------------------------------------------------------------- getters

  /** `findDirectGetter`: the Kotlin accessor precedence read through the
      variable `entity`. */
  function FindDirectGetter(entity: TypeElement, field: Element): Result<string> {
    Model.FindDirectGetter(entity, field, ENTITY)
  }

  /** The read accessor precedence: a `@GetField` method naming the field,
      then `is`/`get` + capitalised name, then the field itself when it is
      accessible, otherwise failure. */
  lemma FindDirectGetterPrecedence(entity: TypeElement, field: Element)
    ensures var methods := MethodsOf(entity);
            var annotated := Model.AnnotatedAccessor(methods, field.simpleName, GetFieldClass);
            var prefix := if field.asType.BooleanType? then "is" else "get";
            var r := FindDirectGetter(entity, field);
            && (annotated.Err? ==> r.Err?)
            && (annotated.Ok? && annotated.value.Some? ==>
                  r == Ok(ENTITY + "." + annotated.value.value.simpleName + "()"))
            && (annotated == Ok(None) && field.simpleName != "" && |methods| > 0 ==>
                  var standard := FirstNamed(methods, AccessorName(prefix, field.simpleName).value);
                  && (standard.Some? ==> r == Ok(ENTITY + "." + standard.value.simpleName + "()"))
                  && (standard.None? ==> (r.Ok? <==> IsAccessible(field))))
            && (annotated == Ok(None) && |methods| == 0 ==>
                  (r.Ok? <==> IsAccessible(field)) && (r.Ok? ==> r.value == ENTITY + "." + field.simpleName))
  {
    Model.FindDirectGetterPrecedence(entity, field, ENTITY);
  }

  predicate IsSerializeMethod(e: Element) {
    HasAnnotation(e.annotations, SerializeTypeClass)
  }

  predicate IsDeserializeMethod(e: Element) {
    HasAnnotation(e.annotations, DeserializeTypeClass)
  }

  /** `getSerializeMethodsInSerializer`. */
  function GetSerializeMethodsInSerializer(serializer: TypeElement): seq<Element> {
    Seqs.Filter(MethodsOf(serializer), IsSerializeMethod)
  }

  /** `getDeserializeMethodsInSerializer`. */
  function GetDeserializeMethodsInSerializer(serializer: TypeElement): seq<Element> {
    Seqs.Filter(MethodsOf(serializer), IsDeserializeMethod)
  }

  /** The test applied to each serializer method: it must take exactly one
      parameter; it matches when that parameter has the element's kind and
      names the same class.  The source classifies the element a second
      time where it evidently meant the parameter, which changes nothing
      once the kinds agree. */
  function ParameterMatches(element: Element, typeName: string, item: Element): (r: Result<bool>)
    requires element.asType.DeclaredType? && !IsDeclaredString(element.asType)
    ensures r.Ok? <==> |item.parameters| == 1
    ensures r.Ok? ==> (r.value <==> item.parameters[0].asType.DeclaredType?
                                    && item.parameters[0].asType.decl.qualifiedName == typeName)
  {
    if |item.parameters| != 1 then
      Err(InvalidElement(ONE_PARAMETER + Decimal.NatToString(|item.parameters|) + PARAMETERS_FOR_METHOD + item.simpleName))
    else
      var parameterType := item.parameters[0].asType;
      if KindOf(element.asType) != KindOf(parameterType) then Ok(false)
      else
        var parameterObjectType := GetObjectTypeForElement(KindOf(parameterType), element);
        if parameterObjectType != Ok(OtherObject) then Ok(false)
        else Ok(parameterType.decl.qualifiedName == typeName)
  }

  /** `getMethodsInSerializerThatMatchesParameterElementOfDeclaredType`. */
  function MethodsMatchingParameter(methods: seq<Element>, element: Element): (r: Result<seq<Element>>)
    ensures r.Ok? ==> element.asType.DeclaredType? && !IsDeclaredString(element.asType)
  {
    var objectType :- GetObjectTypeForElement(KindOf(element.asType), element);
    if objectType != OtherObject then Err(InvalidElement(SHOULD_BE_DECLARED))
    else
      var typeName := element.asType.decl.qualifiedName;
      ListUtils.FilterOrFail(methods, item => ParameterMatches(element, typeName, item))
  }

  /** The matching succeeds iff the element is a custom class and every
      method takes exactly one parameter; it keeps, in order, the methods
      whose parameter is that class. */
  lemma MethodsMatchingParameterMeaning(methods: seq<Element>, element: Element)
    requires element.asType.DeclaredType? && !IsDeclaredString(element.asType)
    ensures MethodsMatchingParameter(methods, element).Ok? <==> forall m :: m in methods ==> |m.parameters| == 1
    ensures MethodsMatchingParameter(methods, element).Ok? ==>
              var matching := MethodsMatchingParameter(methods, element).value;
              && Seqs.IsSubsequence(matching, methods)
              && forall m :: m in matching <==>
                   m in methods && m.parameters[0].asType.DeclaredType?
                   && m.parameters[0].asType.decl.qualifiedName == element.asType.decl.qualifiedName
  {
    var typeName := element.asType.decl.qualifiedName;
    ListUtils.FilterOrFailOk(methods, item => ParameterMatches(element, typeName, item));
  }

  /** `findGetterInSerializer`: the single `@SerializeType` method taking
      the field's class, applied to the field's direct getter. */
  function FindGetterInSerializer(entity: TypeElement, serializer: TypeElement, field: Element): (r: Result<string>)
    ensures r.Ok? ==>
              && field.asType.DeclaredType? && !IsDeclaredString(field.asType)
              && MethodsMatchingParameter(GetSerializeMethodsInSerializer(serializer), field).Ok?
              && var matching := MethodsMatchingParameter(GetSerializeMethodsInSerializer(serializer), field).value;
                 && |matching| == 1
                 && FindDirectGetter(entity, field).Ok?
                 && r.value == SERIALIZER + matching[0].simpleName + "(" + FindDirectGetter(entity, field).value + ")"
  {
    var methods :- MethodsMatchingParameter(GetSerializeMethodsInSerializer(serializer), field);
    if |methods| == 0 then Err(InvalidElement(NO_METHOD_FOUND + TypeToString(field.asType)))
    else if |methods| > 1 then
      Err(InvalidElement(ONLY_ONE_SERIALIZE + Decimal.NatToString(|methods|) + SAME_PARAMETER_TYPE + TypeToString(field.asType)))
    else
      var directGetter :- FindDirectGetter(entity, field);
      Ok(SERIALIZER + methods[0].simpleName + "(" + directGetter + ")")
  }

  /** The serializer's method is a `@SerializeType` method of the serializer
      class whose one parameter is the field's class, and it is the only
      one. */
  lemma SerializeMethodUnique(entity: TypeElement, serializer: TypeElement, field: Element)
    requires FindGetterInSerializer(entity, serializer, field).Ok?
    ensures var methods := GetSerializeMethodsInSerializer(serializer);
            var matching := MethodsMatchingParameter(methods, field).value;
            && matching[0] in MethodsOf(serializer) && IsSerializeMethod(matching[0])
            && |matching[0].parameters| == 1
            && matching[0].parameters[0].asType.DeclaredType?
            && matching[0].parameters[0].asType.decl.qualifiedName == field.asType.decl.qualifiedName
            && forall m :: m in methods && |m.parameters| == 1 && m.parameters[0].asType.DeclaredType?
                           && m.parameters[0].asType.decl.qualifiedName == field.asType.decl.qualifiedName ==>
                             m == matching[0]
  {
    var methods := GetSerializeMethodsInSerializer(serializer);
    MethodsMatchingParameterMeaning(methods, field);
    var matching := MethodsMatchingParameter(methods, field).value;
    assert matching[0] in matching;
    Seqs.FilterMembers(MethodsOf(serializer), IsSerializeMethod, matching[0]);
    forall m | m in methods && |m.parameters| == 1 && m.parameters[0].asType.DeclaredType?
               && m.parameters[0].asType.decl.qualifiedName == field.asType.decl.qualifiedName
      ensures m == matching[0]
    {
      assert m in matching;
    }
  }

  /** `findGetter`: native values and strings are read directly, custom
      classes through the serializer. */
  function FindGetter(entity: TypeElement, serializer: TypeElement, field: Element): (r: Result<string>)
    ensures IsNativePrimitive(field.asType) || IsDeclaredString(field.asType) ==> r == FindDirectGetter(entity, field)
    ensures field.asType.DeclaredType? && !IsDeclaredString(field.asType) ==>
              r == FindGetterInSerializer(entity, serializer, field)
    ensures !IsNativePrimitive(field.asType) && !field.asType.DeclaredType? ==>
              r == Err(InvalidElement(KindName(KindOf(field.asType)) + NOT_KNOWN_BY_SLINGER))
  {
    var objectType :- GetObjectTypeForElement(KindOf(field.asType), field);
    if objectType == OtherObject then FindGetterInSerializer(entity, serializer, field)
    else FindDirectGetter(entity, field)
  }

  /** The `put` `getFieldMethodGetter` makes for one field: its column
      name, then its getter. */
  function GetterEntry(entity: TypeElement, serializer: TypeElement, field: Element): Result<(string, string)> {
    var name :- Model.GetDatabaseFieldName(field);
    var getter :- FindGetter(entity, serializer, field);
    Ok((name, getter))
  }

  lemma GetterEntryMeaning(entity: TypeElement, serializer: TypeElement, field: Element)
    ensures GetterEntryOf(entity, serializer)(field) == GetterEntry(entity, serializer, field)
    ensures GetterEntry(entity, serializer, field).Ok? <==>
              Model.GetDatabaseFieldName(field).Ok? && FindGetter(entity, serializer, field).Ok?
    ensures GetterEntry(entity, serializer, field).Ok? ==>
              GetterEntry(entity, serializer, field).value
              == (Model.GetDatabaseFieldName(field).value, FindGetter(entity, serializer, field).value)
  {
  }

  function GetterEntryOf(entity: TypeElement, serializer: TypeElement): Element -> Result<(string, string)> {
    field => GetterEntry(entity, serializer, field)
  }

  /** What `getFieldMethodGetter` builds: each field's getter put under its
      column name, field by field. */
  function GetterMapOf(entity: TypeElement, serializer: TypeElement, fields: seq<Element>): Result<map<string, string>> {
    var entries :- Results.MapOrFail(fields, GetterEntryOf(entity, serializer));
    Ok(Seqs.MapOfPairs(entries))
  }

  /** One pass of the loop of `getFieldMethodGetter`: the column name,
      then the getter. */
  method PutGetter(entity: TypeElement, serializer: TypeElement, field: Element) returns (r: Result<(string, string)>)
    ensures r == GetterEntry(entity, serializer, field)
  {
    var fieldName :- Model.GetDatabaseFieldName(field);
    var getter :- FindGetter(entity, serializer, field);
    return Ok((fieldName, getter));
  }

  /** `getFieldMethodGetter`. */
  method GetFieldMethodGetter(entity: TypeElement, serializer: TypeElement) returns (r: Result<map<string, string>>)
    ensures r == GetterMapOf(entity, serializer, GetFieldsUsedInDatabase(entity))
  {
    var fields := GetFieldsUsedInDatabase(entity);
    ghost var entry := GetterEntryOf(entity, serializer);
    ghost var entries: seq<(string, string)> := [];
    var fieldGetters: map<string, string> := map[];
    for i := 0 to |fields|
      invariant Results.MapOrFail(fields[..i], entry) == Ok(entries)
      invariant fieldGetters == Seqs.MapOfPairs(entries)
    {
      var field := fields[i];
      Results.MapOrFailStep(fields, i, entry);
      var put := PutGetter(entity, serializer, field);
      if put.Err? {
        Results.MapOrFailPrefixErr(fields, i + 1, entry);
        return Err(put.error);
      }
      Seqs.MapOfPairsSnoc(entries, put.value);
      fieldGetters := fieldGetters[put.value.0 := put.value.1];
      entries := entries + [put.value];
    }
    assert fields[..|fields|] == fields;
    return Ok(fieldGetters);
  }

  /** The getter map is built iff every field has a column name and a
      getter; its keys are exactly the column names, and under each name is
      the getter of the last field with that name. */
  lemma GetterMapProperties(entity: TypeElement, serializer: TypeElement, fields: seq<Element>)
    ensures GetterMapOf(entity, serializer, fields).Ok? <==>
              forall i :: 0 <= i < |fields| ==>
                Model.GetDatabaseFieldName(fields[i]).Ok? && FindGetter(entity, serializer, fields[i]).Ok?
    ensures GetterMapOf(entity, serializer, fields).Ok? ==>
              && (forall name :: name in GetterMapOf(entity, serializer, fields).value <==>
                    exists i :: 0 <= i < |fields| && Model.GetDatabaseFieldName(fields[i]) == Ok(name))
              && forall i :: 0 <= i < |fields|
                             && (forall j :: i < j < |fields| ==>
                                   Model.GetDatabaseFieldName(fields[j]) != Model.GetDatabaseFieldName(fields[i])) ==>
                   Model.GetDatabaseFieldName(fields[i]).value in GetterMapOf(entity, serializer, fields).value
                   && GetterMapOf(entity, serializer, fields).value[Model.GetDatabaseFieldName(fields[i]).value]
                      == FindGetter(entity, serializer, fields[i]).value
  {
    var entry := GetterEntryOf(entity, serializer);
    Results.MapOrFailOk(fields, entry);
    forall i | 0 <= i < |fields|
      ensures entry(fields[i]).Ok? <==>
                Model.GetDatabaseFieldName(fields[i]).Ok? && FindGetter(entity, serializer, fields[i]).Ok?
    {
      GetterEntryMeaning(entity, serializer, fields[i]);
    }
    if GetterMapOf(entity, serializer, fields).Ok? {
      var entries := Results.MapOrFail(fields, entry).value;
      forall name ensures name in Seqs.MapOfPairs(entries) <==>
                            exists i :: 0 <= i < |fields| && Model.GetDatabaseFieldName(fields[i]) == Ok(name)
      {
        Seqs.MapOfPairsKeys(entries, name);
        if exists i :: 0 <= i < |entries| && entries[i].0 == name {
          var i :| 0 <= i < |entries| && entries[i].0 == name;
          GetterEntryMeaning(entity, serializer, fields[i]);
        }
      }
      forall i | 0 <= i < |fields|
                 && (forall j :: i < j < |fields| ==>
                       Model.GetDatabaseFieldName(fields[j]) != Model.GetDatabaseFieldName(fields[i]))
        ensures Model.GetDatabaseFieldName(fields[i]).value in Seqs.MapOfPairs(entries)
        ensures Seqs.MapOfPairs(entries)[Model.GetDatabaseFieldName(fields[i]).value] == FindGetter(entity, serializer, fields[i]).value
      {
        GetterEntryMeaning(entity, serializer, fields[i]);
        forall j | i < j < |entries| ensures entries[j].0 != entries[i].0 {
          GetterEntryMeaning(entity, serializer, fields[j]);
        }
        Seqs.MapOfPairsLastWins(entries, i);
      }
    }
  }

  // ---------------------------------------------------------- SQL types

  /** `getNativeTypeForDatabase`: INTEGER for boolean, short, long and int,
      REAL for float and double, TEXT for String. */
  function GetNativeTypeForDatabase(field: Element): (r: Result<string>)
    ensures r.Ok? <==> IsNativePrimitive(field.asType) || IsDeclaredString(field.asType)
    ensures r.Ok? ==> && (r.value == "TEXT" <==> IsDeclaredString(field.asType))
                      && (r.value == "REAL" <==> field.asType.FloatType? || field.asType.DoubleType?)
                      && (r.value == "INTEGER" <==> field.asType.BooleanType? || field.asType.ShortType?
                                                    || field.asType.LongType? || field.asType.IntType?)
    ensures field.asType.DeclaredType? && !IsDeclaredString(field.asType) ==> r == Err(UnsupportedOperation(NOT_NATIVE))
    ensures !IsNativePrimitive(field.asType) && !field.asType.DeclaredType? ==> r == Err(InvalidElement(field.simpleName + IS_UNKNOWN))
  {
    match field.asType
    case BooleanType => Ok("INTEGER")
    case ShortType => Ok("INTEGER")
    case LongType => Ok("INTEGER")
    case IntType => Ok("INTEGER")
    case FloatType => Ok("REAL")
    case DoubleType => Ok("REAL")
    case DeclaredType(decl, _) =>
      if decl.qualifiedName == TYPE_STRING then Ok("TEXT") else Err(UnsupportedOperation(NOT_NATIVE))
    case _ => Err(InvalidElement(field.simpleName + IS_UNKNOWN))
  }

  /** The filter of `getMethodsWithReturnElement`: the same kind of return
      type, and for a declared type the same class. */
  predicate ReturnMatches(kind: TypeKind, typeName: string, item: Element) {
    KindOf(item.asType) == kind && (item.asType.DeclaredType? ==> item.asType.decl.qualifiedName == typeName)
  }

  /** `getMethodsWithReturnElement`: the methods returning the element's
      declared type, in order. */
  function GetMethodsWithReturnElement(methods: seq<Element>, element: Element): (r: Result<seq<Element>>)
    ensures r.Ok? <==> element.asType.DeclaredType?
    ensures r.Ok? ==> forall m :: m in r.value <==>
                        m in methods && m.asType.DeclaredType? && m.asType.decl.qualifiedName == element.asType.decl.qualifiedName
  {
    var typeName :- ElementUtils.GetDeclaredTypeName(element);
    var kind := KindOf(element.asType);
    var matching := Seqs.Filter(methods, item => ReturnMatches(kind, typeName, item));
    assert forall m :: m in matching <==> m in methods && ReturnMatches(kind, typeName, m) by {
      forall m ensures m in matching <==> m in methods && ReturnMatches(kind, typeName, m) {
        Seqs.FilterMembers(methods, item => ReturnMatches(kind, typeName, item), m);
      }
    }
    Ok(matching)
  }

  /** `getMethodInSerializerThatMatchesReturnTypeElement`: the single
      method returning the field's class. */
  function GetMethodMatchingReturnType(methods: seq<Element>, field: Element): (r: Result<Element>)
    ensures r.Ok? ==> && GetMethodsWithReturnElement(methods, field).Ok?
                      && GetMethodsWithReturnElement(methods, field).value == [r.value]
  {
    var matching :- GetMethodsWithReturnElement(methods, field);
    var typeName := field.asType.decl.qualifiedName;
    if |matching| < 1 then Err(InvalidElement(NO_DESERIALIZE_METHOD + typeName))
    else if |matching| > 1 then
      Err(InvalidElement(RETURN_NOT_UNIQUE + Decimal.NatToString(|matching|) + WITH_RETURN_TYPE + typeName))
    else Ok(matching[0])
  }

  /** `getDatabaseTypeFromMethodParameterInSerializer`: the native type of
      the one parameter of the method returning the field's class. */
  function GetDatabaseTypeFromMethodParameterInSerializer(methods: seq<Element>, field: Element): (r: Result<string>)
    ensures r.Ok? ==> && GetMethodMatchingReturnType(methods, field).Ok?
                      && var m := GetMethodMatchingReturnType(methods, field).value;
                         && |m.parameters| == 1 && r == GetNativeTypeForDatabase(m.parameters[0])
  {
    var serializerMethod :- GetMethodMatchingReturnType(methods, field);
    var returnType := serializerMethod.asType;
    if !returnType.DeclaredType? then Err(InvalidElement(SHOULD_BE_DECLARED_BUT + KindName(KindOf(returnType))))
    else if returnType.decl.qualifiedName == TYPE_STRING then Err(InvalidElement(STRING_NOT_PASSED))
    else if |serializerMethod.parameters| != 1 then
      Err(InvalidElement(ONE_NATIVE_PARAMETER + Decimal.NatToString(|serializerMethod.parameters|)
                         + PARAMETERS_FOR_METHOD + serializerMethod.simpleName))
    else GetNativeTypeForDatabase(serializerMethod.parameters[0])
  }

  /** `getDatabaseType`: the native type of a primitive or String field;
      a custom class takes the type of the `@DeserializeType` method
      that returns it. */
  function GetDatabaseType(serializer: TypeElement, field: Element): (r: Result<string>)
    ensures IsNativePrimitive(field.asType) || IsDeclaredString(field.asType) ==> r == GetNativeTypeForDatabase(field)
    ensures field.asType.DeclaredType? && !IsDeclaredString(field.asType) ==>
              r == GetDatabaseTypeFromMethodParameterInSerializer(GetDeserializeMethodsInSerializer(serializer), field)
    ensures !IsNativePrimitive(field.asType) && !field.asType.DeclaredType? ==>
              r == Err(InvalidElement(field.simpleName + TYPE_NOT_KNOWN))
  {
    match field.asType
    case BooleanType => GetNativeTypeForDatabase(field)
    case ShortType => GetNativeTypeForDatabase(field)
    case LongType => GetNativeTypeForDatabase(field)
    case IntType => GetNativeTypeForDatabase(field)
    case FloatType => GetNativeTypeForDatabase(field)
    case DoubleType => GetNativeTypeForDatabase(field)
    case DeclaredType(decl, _) =>
      if decl.qualifiedName == TYPE_STRING then GetNativeTypeForDatabase(field)
      else GetDatabaseTypeFromMethodParameterInSerializer(GetDeserializeMethodsInSerializer(serializer), field)
    case _ => Err(InvalidElement(field.simpleName + TYPE_NOT_KNOWN))
  }

  /** Every column type is INTEGER, REAL or TEXT; a custom class is stored
      as the native type taken by the one `@DeserializeType` method of the
      serializer that returns it. */
  lemma DatabaseTypeProperties(serializer: TypeElement, field: Element)
    requires GetDatabaseType(serializer, field).Ok?
    ensures GetDatabaseType(serializer, field).value in {"INTEGER", "REAL", "TEXT"}
    ensures field.asType.DeclaredType? && !IsDeclaredString(field.asType) ==>
              var methods := GetDeserializeMethodsInSerializer(serializer);
              var m := GetMethodMatchingReturnType(methods, field).value;
              && m in MethodsOf(serializer) && IsDeserializeMethod(m)
              && m.asType.DeclaredType? && m.asType.decl.qualifiedName == field.asType.decl.qualifiedName
              && (forall n :: (n in methods && n.asType.DeclaredType?
                               && n.asType.decl.qualifiedName == field.asType.decl.qualifiedName) ==> n == m)
              && GetDatabaseType(serializer, field) == GetNativeTypeForDatabase(m.parameters[0])
  {
    if field.asType.DeclaredType? && !IsDeclaredString(field.asType) {
      var methods := GetDeserializeMethodsInSerializer(serializer);
      var m := GetMethodMatchingReturnType(methods, field).value;
      assert m in GetMethodsWithReturnElement(methods, field).value;
      Seqs.FilterMembers(MethodsOf(serializer), IsDeserializeMethod, m);
      forall n | n in methods && n.asType.DeclaredType? && n.asType.decl.qualifiedName == field.asType.decl.qualifiedName
        ensures n == m
      {
        assert n in GetMethodsWithReturnElement(methods, field).value;
      }
    }
  }

  // --------------------------------------------------------- CREATE TABLE

  /** Whether `createTableSql` marks a field as the key: a `@PrimaryKey`
      marker, or the annotation's non-empty `primaryKey` naming it. */
  predicate IsKeyField(field: Element, primaryKey: string) {
    Model.IsPrimaryKeyMarked(field) || (primaryKey != "" && primaryKey == field.simpleName)
  }

  predicate HasKeyField(fields: seq<Element>, primaryKey: string) {
    exists i :: 0 <= i < |fields| && IsKeyField(fields[i], primaryKey)
  }

  lemma HasKeyFieldSnoc(fields: seq<Element>, i: nat, primaryKey: string)
    requires i < |fields|
    ensures HasKeyField(fields[..i + 1], primaryKey) <==> HasKeyField(fields[..i], primaryKey) || IsKeyField(fields[i], primaryKey)
  {
    assert forall k :: 0 <= k < i ==> fields[..i + 1][k] == fields[..i][k];
  }

  /** The text `createTableSql` appends for one field. */
  function ColumnDefinition(serializer: TypeElement, primaryKey: string, field: Element): (r: Result<string>)
    ensures r.Ok? <==> Model.GetDatabaseFieldName(field).Ok? && GetDatabaseType(serializer, field).Ok?
    ensures r.Ok? ==> r.value == Model.GetDatabaseFieldName(field).value + " " + GetDatabaseType(serializer, field).value
                                 + (if IsKeyField(field, primaryKey) then PRIMARY_KEY_SUFFIX else "")
  {
    var fieldName :- Model.GetDatabaseFieldName(field);
    var fieldType :- GetDatabaseType(serializer, field);
    Ok(fieldName + " " + fieldType + (if IsKeyField(field, primaryKey) then PRIMARY_KEY_SUFFIX else ""))
  }

  /** The `primaryKey` attribute of the entity annotation, or "" without
      one. */
  function AnnotationPrimaryKey(entity: TypeElement): string {
    var annotation := Model.EntityAnnotation(entity);
    if annotation.Some? then annotation.value.primaryKey else ""
  }

  function ColumnDefinitionOf(serializer: TypeElement, primaryKey: string): Element -> Result<string> {
    field => ColumnDefinition(serializer, primaryKey, field)
  }

  /** The definitions of `fields`, in order; the first failure wins. */
  function ColumnDefinitions(serializer: TypeElement, primaryKey: string, fields: seq<Element>): Result<seq<string>> {
    Results.MapOrFail(fields, ColumnDefinitionOf(serializer, primaryKey))
  }

  /** `getTableName`: the annotation's `name`, or the simple name when
      `name` is empty.  A class without `@DatabaseEntity` is rejected with
      a message that, unlike the Kotlin one, does not name the class. */
  function TableName(entity: TypeElement): (r: Result<string>)
    ensures r.Ok? <==> Model.EntityAnnotation(entity).Some?
    ensures r.Err? ==> r == Err(InvalidElement(NOT_AN_ENTITY))
    ensures r.Ok? ==> var name := Model.EntityAnnotation(entity).value.name;
                      (name != "" ==> r.value == name) && (name == "" ==> r.value == entity.simpleName)
  {
    var annotation := Model.EntityAnnotation(entity);
    if annotation.None? then Err(InvalidElement(NOT_AN_ENTITY))
    else if annotation.value.name == "" then Ok(entity.simpleName)
    else Ok(annotation.value.name)
  }

  /** Both generations find the same table name; only their rejection of a
      class without `@DatabaseEntity` is worded differently. */
  lemma TableNameAgreesWithKotlin(entity: TypeElement)
    ensures TableName(entity).Ok? <==> Model.TableName(entity).Ok?
    ensures TableName(entity).Ok? ==> TableName(entity) == Model.TableName(entity)
    ensures TableName(entity).Err? ==> Model.TableName(entity) != TableName(entity)
  {
  }

  /** What `createTableSql` returns. */
  function CreateTableSqlOf(entity: TypeElement, serializer: TypeElement): Result<string> {
    var fields := GetFieldsUsedInDatabase(entity);
    if |fields| == 0 then Err(InvalidElement(NO_FIELDS_FOUND + entity.simpleName))
    else
      var table :- TableName(entity);
      var primaryKey := AnnotationPrimaryKey(entity);
      var definitions :- ColumnDefinitions(serializer, primaryKey, fields);
      if !HasKeyField(fields, primaryKey) then Err(InvalidElement(NO_KEY_FOUND + entity.simpleName))
      else Ok(CREATE_TABLE + table + "(" + Seqs.Join(definitions, COMMA) + ")")
  }

  /** One pass of the loop of `createTableSql`: the column name, a space,
      the SQL type and, for a key field, the key suffix. */
  method AppendColumn(serializer: TypeElement, primaryKey: string, field: Element) returns (r: Result<(string, bool)>)
    ensures r.Err? ==> ColumnDefinition(serializer, primaryKey, field) == Err(r.error)
    ensures r.Ok? ==> && ColumnDefinition(serializer, primaryKey, field).Ok?
                      && r.value == (ColumnDefinition(serializer, primaryKey, field).value, IsKeyField(field, primaryKey))
  {
    var fieldName :- Model.GetDatabaseFieldName(field);
    var fieldType :- GetDatabaseType(serializer, field);
    var definition := fieldName + " " + fieldType;
    var isKey := false;
    if Model.IsPrimaryKeyMarked(field) || (primaryKey != "" && primaryKey == field.simpleName) {
      definition := definition + PRIMARY_KEY_SUFFIX;
      isKey := true;
    } else {
      assert definition + "" == definition;
    }
    return Ok((definition, isKey));
  }

  /** Appends one part, and ", " unless it is the last: the step of the
      loops that build a comma-separated list. */
  method AppendPart(builder: string, part: string, more: bool, ghost head: string, ghost parts: seq<string>)
    returns (r: string)
    requires builder == head + Seqs.Terminated(parts, COMMA)
    ensures more ==> r == head + Seqs.Terminated(parts + [part], COMMA)
    ensures !more ==> r == head + Seqs.Join(parts + [part], COMMA)
  {
    Seqs.TerminatedSnoc(parts, part, COMMA);
    r := builder + part;
    if more {
      r := r + COMMA;
    }
  }

  /** The loop of `createTableSql`: each field's definition after `head`,
      with ", " after all but the last, and whether a key field was seen. */
  method AppendColumns(head: string, serializer: TypeElement, primaryKey: string, fields: seq<Element>)
    returns (r: Result<(string, bool)>)
    requires |fields| > 0
    ensures var definitions := ColumnDefinitions(serializer, primaryKey, fields);
            && (r.Err? ==> definitions == Err(r.error))
            && (r.Ok? ==> definitions.Ok? && r.value == (head + Seqs.Join(definitions.value, COMMA), HasKeyField(fields, primaryKey)))
  {
    var builder := head;
    var primaryKeySet := false;
    ghost var definitions: seq<string> := [];
    ghost var define := ColumnDefinitionOf(serializer, primaryKey);
    for i := 0 to |fields|
      invariant Results.MapOrFail(fields[..i], define) == Ok(definitions)
      invariant i < |fields| ==> builder == head + Seqs.Terminated(definitions, COMMA)
      invariant i == |fields| ==> builder == head + Seqs.Join(definitions, COMMA)
      invariant primaryKeySet <==> HasKeyField(fields[..i], primaryKey)
    {
      var field := fields[i];
      Results.MapOrFailStep(fields, i, define);
      var column := AppendColumn(serializer, primaryKey, field);
      if column.Err? {
        Results.MapOrFailPrefixErr(fields, i + 1, define);
        return Err(column.error);
      }
      var definition := column.value.0;
      primaryKeySet := primaryKeySet || column.value.1;
      builder := AppendPart(builder, definition, i < |fields| - 1, head, definitions);
      definitions := definitions + [definition];
      HasKeyFieldSnoc(fields, i, primaryKey);
    }
    assert fields[..|fields|] == fields;
    return Ok((builder, primaryKeySet));
  }

  /** `createTableSql`. */
  method CreateTableSql(entity: TypeElement, serializer: TypeElement) returns (r: Result<string>)
    ensures r == CreateTableSqlOf(entity, serializer)
  {
    var fields := GetFieldsUsedInDatabase(entity);
    if |fields| == 0 {
      return Err(InvalidElement(NO_FIELDS_FOUND + entity.simpleName));
    }
    var table :- TableName(entity);
    var primaryKey := Model.EntityAnnotation(entity).value.primaryKey;
    var columns :- AppendColumns(CREATE_TABLE + table + "(", serializer, primaryKey, fields);
    var (builder, primaryKeySet) := columns;
    if !primaryKeySet {
      return Err(InvalidElement(NO_KEY_FOUND + entity.simpleName));
    }
    return Ok(builder + ")");
  }

  /** The statement opens with the table name, lists one definition per
      stored field in member order, separated by ", ", marks every key
      field ` NOT NULL PRIMARY KEY` inline, and needs at least one key. */
  lemma CreateTableSqlProperties(entity: TypeElement, serializer: TypeElement)
    ensures |GetFieldsUsedInDatabase(entity)| == 0 ==> CreateTableSqlOf(entity, serializer).Err?
    ensures CreateTableSqlOf(entity, serializer).Ok? ==>
              var fields := GetFieldsUsedInDatabase(entity);
              var primaryKey := AnnotationPrimaryKey(entity);
              var definitions := ColumnDefinitions(serializer, primaryKey, fields).value;
              && TableName(entity).Ok?
              && CreateTableSqlOf(entity, serializer).value
                 == CREATE_TABLE + TableName(entity).value + "(" + Seqs.Join(definitions, COMMA) + ")"
              && |definitions| == |fields| > 0
              && HasKeyField(fields, primaryKey)
              && forall i :: 0 <= i < |fields| ==>
                   && Model.GetDatabaseFieldName(fields[i]).Ok? && GetDatabaseType(serializer, fields[i]).Ok?
                   && definitions[i] == Model.GetDatabaseFieldName(fields[i]).value + " "
                                        + GetDatabaseType(serializer, fields[i]).value
                                        + (if IsKeyField(fields[i], primaryKey) then PRIMARY_KEY_SUFFIX else "")
  {
    var fields := GetFieldsUsedInDatabase(entity);
    var primaryKey := AnnotationPrimaryKey(entity);
    Results.MapOrFailOk(fields, ColumnDefinitionOf(serializer, primaryKey));
  }

  /** Without a `@PrimaryKey` marker and with an empty `primaryKey`, no
      statement is produced. */
  lemma CreateTableNeedsKey(entity: TypeElement, serializer: TypeElement)
    requires forall f :: f in GetFieldsUsedInDatabase(entity) ==> !Model.IsPrimaryKeyMarked(f)
    requires AnnotationPrimaryKey(entity) == ""
    ensures CreateTableSqlOf(entity, serializer).Err?
  {
  }

  /** `getCreateTableDatabaseEntity` and `asTypeElement`: the class named
      by `@CreateTable`.  A type variable names no class and fails the
      cast; any other non-declared type has no element, which the null
      check of `createTableSql` rejects. */
  function CreateTableEntity(m: Element): (r: Result<TypeElement>)
    ensures r.Ok? <==> var annotation := GetAnnotation(m.annotations, CreateTableClass);
                       annotation.Some? && annotation.value.CreateTable? && annotation.value.entity.DeclaredType?
    ensures r.Ok? ==> r.value == GetAnnotation(m.annotations, CreateTableClass).value.entity.decl
  {
    var annotation := GetAnnotation(m.annotations, CreateTableClass);
    if annotation.None? || !annotation.value.CreateTable? then Err(IllegalArgument(NO_CREATE_TABLE_ANNOTATION))
    else match annotation.value.entity
      case DeclaredType(decl, _) => Ok(decl)
      case TypeVariable(_) => Err(ClassCast(NOT_A_TYPE_ELEMENT))
      case _ => Err(IllegalArgument(NULL_ENTITY))
  }

  // ----------------------------------------------------------- parameters

  /** `getTypeName(typeKind, element)`: the Java name of a primitive type,
      the simple name of a class. */
  function GetTypeName(e: Element): (r: Result<string>)
    ensures r.Err? <==> ElementExtensions.GetTypeName(e).Err?
    ensures r.Ok? ==> r == ElementExtensions.GetTypeName(e)
    ensures r.Err? ==> r == Err(InvalidElement(KindName(KindOf(e.asType)) + NOT_KNOWN_BUG))
  {
    match e.asType
    case IntType => Ok("int")
    case ShortType => Ok("short")
    case LongType => Ok("long")
    case FloatType => Ok("float")
    case DoubleType => Ok("double")
    case CharType => Ok("char")
    case ByteType => Ok("byte")
    case BooleanType => Ok("boolean")
    case DeclaredType(decl, _) => Ok(decl.simpleName)
    case _ => Err(InvalidElement(KindName(KindOf(e.asType)) + NOT_KNOWN_BUG))
  }

  /** One parameter as `getParameterText` writes it: type, space, name. */
  function ParameterDeclaration(p: Element): (r: Result<string>)
    ensures r.Ok? <==> GetTypeName(p).Ok?
    ensures r.Ok? ==> r.value == GetTypeName(p).value + " " + p.simpleName
  {
    var typeName :- GetTypeName(p);
    Ok(typeName + " " + p.simpleName)
  }

  /** What `getParameterText` returns: the declarations, separated by ", ". */
  function ParameterTextOf(parameters: seq<Element>): Result<string> {
    var declarations :- Results.MapOrFail(parameters, ParameterDeclaration);
    Ok(Seqs.Join(declarations, COMMA))
  }

  /** `getParameterText`. */
  method GetParameterText(parameters: seq<Element>) returns (r: Result<string>)
    ensures r == ParameterTextOf(parameters)
  {
    var builder := "";
    ghost var declarations: seq<string> := [];
    for i := 0 to |parameters|
      invariant Results.MapOrFail(parameters[..i], ParameterDeclaration) == Ok(declarations)
      invariant i < |parameters| ==> builder == Seqs.Terminated(declarations, COMMA)
      invariant i == |parameters| ==> builder == Seqs.Join(declarations, COMMA)
    {
      var parameter := parameters[i];
      assert parameters[..i + 1] == parameters[..i] + [parameter];
      Results.MapOrFailSnoc(parameters[..i], parameter, ParameterDeclaration);
      var typeName := GetTypeName(parameter);
      if typeName.Err? {
        Results.MapOrFailPrefixErr(parameters, i + 1, ParameterDeclaration);
        return Err(typeName.error);
      }
      var declaration := typeName.value + " " + parameter.simpleName;
      builder := AppendPart(builder, declaration, i < |parameters| - 1, "", declarations);
      declarations := declarations + [declaration];
    }
    assert parameters[..|parameters|] == parameters;
    return Ok(builder);
  }

  /** The parameter list reads back as the declarations in order: one
      parameter gives its declaration alone, and no parameter gives "". */
  lemma ParameterTextProperties(parameters: seq<Element>)
    ensures ParameterTextOf(parameters).Ok? <==> forall i :: 0 <= i < |parameters| ==> GetTypeName(parameters[i]).Ok?
    ensures |parameters| == 0 ==> ParameterTextOf(parameters) == Ok("")
    ensures |parameters| == 1 && GetTypeName(parameters[0]).Ok? ==>
              ParameterTextOf(parameters) == Ok(GetTypeName(parameters[0]).value + " " + parameters[0].simpleName)
  {
    Results.MapOrFailOk(parameters, ParameterDeclaration);
    if |parameters| == 1 && GetTypeName(parameters[0]).Ok? {
      Seqs.JoinOne(GetTypeName(parameters[0]).value + " " + parameters[0].simpleName, COMMA);
    }
  }

  /** The names `getParameterNames` collects. */
  function ParameterNamesOf(parameters: seq<Element>): (r: seq<string>)
    ensures |r| == |parameters| && forall i :: 0 <= i < |parameters| ==> r[i] == parameters[i].simpleName
  {
    seq(|parameters|, i requires 0 <= i < |parameters| => parameters[i].simpleName)
  }

  /** `getParameterNames`. */
  method GetParameterNames(parameters: seq<Element>) returns (names: seq<string>)
    ensures names == ParameterNamesOf(parameters)
  {
    names := [];
    for i := 0 to |parameters|
      invariant names == ParameterNamesOf(parameters[..i])
    {
      names := names + [parameters[i].simpleName];
    }
    assert parameters[..|parameters|] == parameters;
  }

  // --------------------------------------------------------------- checks

  predicate IsSQLiteDatabase(t: TypeMirror) {
    t.DeclaredType? && t.decl.qualifiedName == QUALIFIED_NAME_SQLITE_DATABASE
  }

  /** `checkFirstParameterMustBeSQLiteDatabase`. */
  function CheckFirstParameterMustBeSQLiteDatabase(m: Element): (r: Result<()>)
    ensures r.Ok? <==> |m.parameters| >= 1 && IsSQLiteDatabase(m.parameters[0].asType)
    ensures r.Err? ==> r.error.InvalidElement?
  {
    if |m.parameters| < 1 then Err(InvalidElement(NO_SQLITE_PARAMETER))
    else if !m.parameters[0].asType.DeclaredType? then Err(InvalidElement(FIRST_NOT_SQLITE))
    else if m.parameters[0].asType.decl.qualifiedName != QUALIFIED_NAME_SQLITE_DATABASE then Err(InvalidElement(FIRST_NOT_SQLITE))
    else Ok(())
  }

  /** `checkSecondParameterMustBeDatabaseEntity`. */
  function CheckSecondParameterMustBeDatabaseEntity(m: Element): (r: Result<()>)
    ensures r.Ok? <==> |m.parameters| >= 2 && IsEntityType(m.parameters[1].asType)
    ensures r.Err? ==> r.error.InvalidElement?
  {
    if |m.parameters| < 2 then Err(InvalidElement(NO_ENTITY_PARAMETER))
    else if !m.parameters[1].asType.DeclaredType? then Err(InvalidElement(SECOND_NOT_DECLARED))
    else if !HasAnnotation(m.parameters[1].asType.decl.typeAnnotations, DatabaseEntityClass) then Err(InvalidElement(SECOND_NOT_ENTITY))
    else Ok(())
  }

  /** `checkHasTwoParameters`. */
  function CheckHasTwoParameters(m: Element): (r: Result<()>)
    ensures r.Ok? <==> |m.parameters| == 2
    ensures r.Err? ==> r == Err(InvalidElement(EXACTLY_TWO_PARAMETERS))
  {
    Need(|m.parameters| == 2, EXACTLY_TWO_PARAMETERS)
  }

  // ------------------------------------------------------ storage methods

  /** The storage methods the class writer renders, with the arguments the
      processor passes to their constructors. */
  datatype StorageMethod =
    | InsertMethod(methodName: string, entityName: string, entityQualifiedName: string,
                   tableName: string, fieldGetters: map<string, string>)
    | ReplaceMethod(methodName: string, entityName: string, entityQualifiedName: string,
                    tableName: string, fieldGetters: map<string, string>)
    | UpdateMethod(methodName: string, tableName: string, entityName: string, entityQualifiedName: string,
                   fieldGetters: map<string, string>, where: string, whereArgs: seq<string>)
    | DeleteMethod(methodName: string, tableName: string, entityName: string, entityQualifiedName: string,
                   where: string, whereArgs: seq<string>)
    | SelectSingleMethod(methodName: string, tableName: string, returnTypeName: string, parameterText: string,
                         where: string, parameterGetters: seq<string>)
    | SelectMultipleMethod(methodName: string, tableName: string, returnTypeName: string, parameterText: string,
                           where: string, parameterGetters: seq<string>, orderBy: Option<string>)
    | CreateTableMethod(methodName: string, createTableSql: string)

  /** The checks of an insert, replace, update or delete method, then the
      entity class of its second parameter; `twoParameters` adds
      `checkHasTwoParameters`. */
  function CheckedEntity(m: Element, c: AnnotationClass, twoParameters: bool): (r: Result<TypeElement>)
    ensures r.Ok? <==> && Kt.UniqueAmong(m, c, Kt.UNIQUE_CHECKED)
                       && |m.parameters| >= 2 && IsEntityType(m.parameters[1].asType)
                       && (twoParameters ==> |m.parameters| == 2)
    ensures r.Ok? ==> r.value == m.parameters[1].asType.decl
  {
    var unique :- Kt.CheckUniqueAnnotations(m, c);
    var second :- CheckSecondParameterMustBeDatabaseEntity(m);
    var count :- if twoParameters then CheckHasTwoParameters(m) else Ok(());
    Ok(m.parameters[1].asType.decl)
  }

  /** `createInsertMethod`. */
  function CreateInsertMethod(m: Element, serializer: TypeElement): (r: Result<StorageMethod>)
    ensures r.Ok? ==> r.value.InsertMethod? && r.value.methodName == m.simpleName
                      && Kt.UniqueAmong(m, InsertClass, Kt.UNIQUE_CHECKED)
  {
    var entity :- CheckedEntity(m, InsertClass, true);
    var table := TableName(entity).value;
    var getters :- GetterMapOf(entity, serializer, GetFieldsUsedInDatabase(entity));
    Ok(InsertMethod(m.simpleName, entity.simpleName, entity.qualifiedName, table, getters))
  }

  /** `createReplaceMethod`. */
  function CreateReplaceMethod(m: Element, serializer: TypeElement): (r: Result<StorageMethod>)
    ensures r.Ok? ==> r.value.ReplaceMethod? && r.value.methodName == m.simpleName
                      && Kt.UniqueAmong(m, ReplaceClass, Kt.UNIQUE_CHECKED)
  {
    var entity :- CheckedEntity(m, ReplaceClass, true);
    var table := TableName(entity).value;
    var getters :- GetterMapOf(entity, serializer, GetFieldsUsedInDatabase(entity));
    Ok(ReplaceMethod(m.simpleName, entity.simpleName, entity.qualifiedName, table, getters))
  }

  /** The key predicate of an update or delete and its one argument. */
  function KeyWhere(entity: TypeElement): (r: Result<(string, seq<string>)>)
    ensures r.Ok? <==> GetPrimaryKeyDbName(entity).Ok? && FindDirectGetter(entity, GetPrimaryKeyField(entity).value).Ok?
    ensures r.Ok? ==> r.value == (GetPrimaryKeyDbName(entity).value + "=?",
                                  [FindDirectGetter(entity, GetPrimaryKeyField(entity).value).value])
  {
    var keyName :- GetPrimaryKeyDbName(entity);
    var primaryKeyField := GetPrimaryKeyField(entity).value;
    var directGetter :- FindDirectGetter(entity, primaryKeyField);
    Ok((keyName + "=?", [directGetter]))
  }

  /** `createUpdateMethod`. */
  function CreateUpdateMethod(m: Element, serializer: TypeElement): (r: Result<StorageMethod>)
    ensures r.Ok? ==> r.value.UpdateMethod? && r.value.methodName == m.simpleName
                      && Kt.UniqueAmong(m, UpdateClass, Kt.UNIQUE_CHECKED)
  {
    var entity :- CheckedEntity(m, UpdateClass, false);
    var key :- KeyWhere(entity);
    var table := TableName(entity).value;
    var getters :- GetterMapOf(entity, serializer, GetFieldsUsedInDatabase(entity));
    Ok(UpdateMethod(m.simpleName, table, entity.simpleName, entity.qualifiedName, getters, key.0, key.1))
  }

  /** `createDeleteMethod`. */
  function CreateDeleteMethod(m: Element): (r: Result<StorageMethod>)
    ensures r.Ok? ==> r.value.DeleteMethod? && r.value.methodName == m.simpleName
                      && Kt.UniqueAmong(m, DeleteClass, Kt.UNIQUE_CHECKED)
  {
    var entity :- CheckedEntity(m, DeleteClass, false);
    var key :- KeyWhere(entity);
    var table := TableName(entity).value;
    Ok(DeleteMethod(m.simpleName, table, entity.simpleName, entity.qualifiedName, key.0, key.1))
  }

  /** `createSelectMethod`: a method returning an entity selects one row; a
      method returning a supported collection of an entity selects many. */
  function CreateSelectMethod(m: Element): (r: Result<StorageMethod>)
    ensures r.Ok? ==> (r.value.SelectSingleMethod? || r.value.SelectMultipleMethod?) && r.value.methodName == m.simpleName
                      && Kt.UniqueAmong(m, SelectClass, Kt.UNIQUE_CHECKED)
  {
    var unique :- Kt.CheckUniqueAnnotations(m, SelectClass);
    var annotation := GetAnnotation(m.annotations, SelectClass);
    if annotation.None? || !annotation.value.Select? then Err(NullPointer(NO_SELECT_ANNOTATION))
    else
      var where := annotation.value.selectWhere;
      var orderBy := if annotation.value.selectOrderBy == "" then None else Some(annotation.value.selectOrderBy);
      if !m.asType.DeclaredType? then Err(InvalidElement(Kt.METHOD + m.simpleName + MUST_RETURN_ENTITY))
      else
        var returnType := m.asType.decl;
        var parameterGetters := ParameterNamesOf(m.parameters);
        var parameterText :- ParameterTextOf(m.parameters);
        if Model.EntityAnnotation(returnType).Some? then
          Ok(SelectSingleMethod(m.simpleName, TableName(returnType).value, returnType.simpleName,
                                parameterText, where, parameterGetters))
        else if returnType.qualifiedName in Kt.SUPPORTED_RETURN_TYPES_FOR_SELECT then
          if |m.asType.typeArguments| == 0 then Err(IndexOutOfBounds(INDEX_ZERO))
          else if !m.asType.typeArguments[0].DeclaredType? then Err(ClassCast(NOT_DECLARED))
          else
            var entity := m.asType.typeArguments[0].decl;
            var table :- TableName(entity);
            Ok(SelectMultipleMethod(m.simpleName, table, returnType.simpleName + "<" + entity.simpleName + ">",
                                    parameterText, where, parameterGetters, orderBy))
        else Err(InvalidElement(Kt.METHOD + m.simpleName + MUST_RETURN_ENTITY))
  }

  /** `createCreateTableMethod`. */
  function CreateCreateTableMethod(m: Element, serializer: TypeElement): (r: Result<StorageMethod>)
    ensures r.Ok? ==> r.value.CreateTableMethod? && r.value.methodName == m.simpleName
                      && Kt.UniqueAmong(m, CreateTableClass, Kt.UNIQUE_CHECKED)
  {
    var unique :- Kt.CheckUniqueAnnotations(m, CreateTableClass);
    var void :- Kt.CheckHasVoidReturnType(m);
    var entity :- CreateTableEntity(m);
    var sql :- CreateTableSqlOf(entity, serializer);
    Ok(CreateTableMethod(m.simpleName, sql))
  }

  /** `@CreateTable` naming a class without `@DatabaseEntity` fails in
      `getTableName`, with its message. */
  lemma CreateTableOfNonEntity(m: Element, serializer: TypeElement)
    requires Kt.CheckUniqueAnnotations(m, CreateTableClass).Ok? && Kt.CheckHasVoidReturnType(m).Ok?
    requires CreateTableEntity(m).Ok?
    requires |GetFieldsUsedInDatabase(CreateTableEntity(m).value)| > 0
    requires Model.EntityAnnotation(CreateTableEntity(m).value).None?
    ensures CreateCreateTableMethod(m, serializer) == Err(InvalidElement(NOT_AN_ENTITY))
  {
  }

  /** A select returning a supported collection of a class without
      `@DatabaseEntity` fails in `getTableName`, with its message. */
  lemma SelectListOfNonEntity(m: Element)
    requires Kt.CheckUniqueAnnotations(m, SelectClass).Ok?
    requires GetAnnotation(m.annotations, SelectClass).Some? && GetAnnotation(m.annotations, SelectClass).value.Select?
    requires m.asType.DeclaredType? && Model.EntityAnnotation(m.asType.decl).None?
    requires m.asType.decl.qualifiedName in Kt.SUPPORTED_RETURN_TYPES_FOR_SELECT
    requires ParameterTextOf(m.parameters).Ok?
    requires |m.asType.typeArguments| > 0 && m.asType.typeArguments[0].DeclaredType?
    requires Model.EntityAnnotation(m.asType.typeArguments[0].decl).None?
    ensures CreateSelectMethod(m) == Err(InvalidElement(NOT_AN_ENTITY))
  {
  }

  /** `createStorageMethod`: the first parameter must be the database; the
      first of `@Insert`, `@Replace`, `@Update`, `@Delete`, `@Select`,
      `@CreateTable` present decides the kind. */
  function CreateStorageMethod(m: Element, serializer: TypeElement): Result<StorageMethod> {
    var database :- CheckFirstParameterMustBeSQLiteDatabase(m);
    if Kt.IsAnnotationPresent(m, InsertClass) then CreateInsertMethod(m, serializer)
    else if Kt.IsAnnotationPresent(m, ReplaceClass) then CreateReplaceMethod(m, serializer)
    else if Kt.IsAnnotationPresent(m, UpdateClass) then CreateUpdateMethod(m, serializer)
    else if Kt.IsAnnotationPresent(m, DeleteClass) then CreateDeleteMethod(m)
    else if Kt.IsAnnotationPresent(m, SelectClass) then CreateSelectMethod(m)
    else if Kt.IsAnnotationPresent(m, CreateTableClass) then CreateCreateTableMethod(m, serializer)
    else Err(InvalidElement(Kt.METHOD + m.simpleName + NOT_A_STORAGE_METHOD))
  }

  /** `StorageMethodClass`: the annotation a storage method was built for. */
  function StorageMethodClass(s: StorageMethod): AnnotationClass {
    match s
    case InsertMethod(_, _, _, _, _) => InsertClass
    case ReplaceMethod(_, _, _, _, _) => ReplaceClass
    case UpdateMethod(_, _, _, _, _, _, _) => UpdateClass
    case DeleteMethod(_, _, _, _, _, _) => DeleteClass
    case SelectSingleMethod(_, _, _, _, _, _) => SelectClass
    case SelectMultipleMethod(_, _, _, _, _, _, _) => SelectClass
    case CreateTableMethod(_, _) => CreateTableClass
  }

  /** The kind is decided by the first storage annotation present, in the
      order insert, replace, update, delete, select, create table, after
      the database parameter is checked. */
  lemma Dispatch(m: Element, serializer: TypeElement)
    ensures CheckFirstParameterMustBeSQLiteDatabase(m).Err? ==>
              CreateStorageMethod(m, serializer) == Err(CheckFirstParameterMustBeSQLiteDatabase(m).error)
    ensures CheckFirstParameterMustBeSQLiteDatabase(m).Ok? ==>
              && (Kt.IsAnnotationPresent(m, InsertClass) ==>
                    CreateStorageMethod(m, serializer) == CreateInsertMethod(m, serializer))
              && (!Kt.IsAnnotationPresent(m, InsertClass) && Kt.IsAnnotationPresent(m, ReplaceClass) ==>
                    CreateStorageMethod(m, serializer) == CreateReplaceMethod(m, serializer))
              && (!Kt.IsAnnotationPresent(m, InsertClass) && !Kt.IsAnnotationPresent(m, ReplaceClass)
                  && Kt.IsAnnotationPresent(m, UpdateClass) ==>
                    CreateStorageMethod(m, serializer) == CreateUpdateMethod(m, serializer))
              && (!Kt.IsAnnotationPresent(m, InsertClass) && !Kt.IsAnnotationPresent(m, ReplaceClass)
                  && !Kt.IsAnnotationPresent(m, UpdateClass) && Kt.IsAnnotationPresent(m, DeleteClass) ==>
                    CreateStorageMethod(m, serializer) == CreateDeleteMethod(m))
              && (!Kt.IsAnnotationPresent(m, InsertClass) && !Kt.IsAnnotationPresent(m, ReplaceClass)
                  && !Kt.IsAnnotationPresent(m, UpdateClass) && !Kt.IsAnnotationPresent(m, DeleteClass)
                  && Kt.IsAnnotationPresent(m, SelectClass) ==>
                    CreateStorageMethod(m, serializer) == CreateSelectMethod(m))
              && (!Kt.IsAnnotationPresent(m, InsertClass) && !Kt.IsAnnotationPresent(m, ReplaceClass)
                  && !Kt.IsAnnotationPresent(m, UpdateClass) && !Kt.IsAnnotationPresent(m, DeleteClass)
                  && !Kt.IsAnnotationPresent(m, SelectClass) ==>
                    CreateStorageMethod(m, serializer)
                    == if Kt.IsAnnotationPresent(m, CreateTableClass) then CreateCreateTableMethod(m, serializer)
                       else Err(InvalidElement(Kt.METHOD + m.simpleName + NOT_A_STORAGE_METHOD)))
  {
  }

  /** A built storage method comes from a method whose first parameter is
      the database, that carries the annotation of its kind and none of the
      kinds before it, and that passed the uniqueness check. */
  lemma StorageMethodAnnotations(m: Element, serializer: TypeElement)
    requires CreateStorageMethod(m, serializer).Ok?
    ensures var c := StorageMethodClass(CreateStorageMethod(m, serializer).value);
            && |m.parameters| >= 1 && IsSQLiteDatabase(m.parameters[0].asType)
            && Kt.IsAnnotationPresent(m, c)
            && Kt.UniqueAmong(m, c, Kt.UNIQUE_CHECKED)
            && (c != InsertClass ==> !Kt.IsAnnotationPresent(m, InsertClass))
            && CreateStorageMethod(m, serializer).value.methodName == m.simpleName
  {
    var r := CreateStorageMethod(m, serializer);
    var c := StorageMethodClass(r.value);
    if Kt.IsAnnotationPresent(m, InsertClass) {
      assert r == CreateInsertMethod(m, serializer);
      assert c == InsertClass;
    } else if Kt.IsAnnotationPresent(m, ReplaceClass) {
      assert r == CreateReplaceMethod(m, serializer);
      assert c == ReplaceClass;
    } else if Kt.IsAnnotationPresent(m, UpdateClass) {
      assert r == CreateUpdateMethod(m, serializer);
      assert c == UpdateClass;
    } else if Kt.IsAnnotationPresent(m, DeleteClass) {
      assert r == CreateDeleteMethod(m);
      assert c == DeleteClass;
    } else if Kt.IsAnnotationPresent(m, SelectClass) {
      assert r == CreateSelectMethod(m);
      assert c == SelectClass;
    } else {
      assert r == CreateCreateTableMethod(m, serializer);
      assert c == CreateTableClass;
    }
  }

  /** Insert and replace take exactly the database and an entity; their
      getters are the getter map of the entity, keyed by column name. */
  ghost predicate ChangeMethodFacts(m: Element, serializer: TypeElement, r: StorageMethod)
    requires r.InsertMethod? || r.ReplaceMethod?
  {
    && |m.parameters| == 2 && IsEntityType(m.parameters[1].asType)
    && var entity := m.parameters[1].asType.decl;
       && r.entityName == entity.simpleName && r.entityQualifiedName == entity.qualifiedName
       && TableName(entity) == Ok(r.tableName)
       && GetterMapOf(entity, serializer, GetFieldsUsedInDatabase(entity)) == Ok(r.fieldGetters)
       && forall name :: name in r.fieldGetters <==>
            exists f :: f in GetFieldsUsedInDatabase(entity) && Model.GetDatabaseFieldName(f) == Ok(name)
  }

  lemma GetterMapKeysAreColumnNames(entity: TypeElement, serializer: TypeElement)
    requires GetterMapOf(entity, serializer, GetFieldsUsedInDatabase(entity)).Ok?
    ensures forall name :: name in GetterMapOf(entity, serializer, GetFieldsUsedInDatabase(entity)).value <==>
              exists f :: f in GetFieldsUsedInDatabase(entity) && Model.GetDatabaseFieldName(f) == Ok(name)
  {
    var fields := GetFieldsUsedInDatabase(entity);
    GetterMapProperties(entity, serializer, fields);
    forall name ensures name in GetterMapOf(entity, serializer, fields).value <==>
                          exists f :: f in fields && Model.GetDatabaseFieldName(f) == Ok(name)
    {
      if exists f :: f in fields && Model.GetDatabaseFieldName(f) == Ok(name) {
        var f :| f in fields && Model.GetDatabaseFieldName(f) == Ok(name);
        var i :| 0 <= i < |fields| && fields[i] == f;
      }
    }
  }

  lemma InsertMethodProperties(m: Element, serializer: TypeElement)
    requires CreateInsertMethod(m, serializer).Ok?
    ensures ChangeMethodFacts(m, serializer, CreateInsertMethod(m, serializer).value)
  {
    GetterMapKeysAreColumnNames(m.parameters[1].asType.decl, serializer);
  }

  lemma ReplaceMethodProperties(m: Element, serializer: TypeElement)
    requires CreateReplaceMethod(m, serializer).Ok?
    ensures ChangeMethodFacts(m, serializer, CreateReplaceMethod(m, serializer).value)
  {
    GetterMapKeysAreColumnNames(m.parameters[1].asType.decl, serializer);
  }

  /** Update and delete identify the row by the key column alone: the
      predicate is `<key column>=?` and its one argument is the key field's
      direct getter. */
  ghost predicate KeyedMethodFacts(m: Element, serializer: TypeElement, r: StorageMethod)
    requires r.UpdateMethod? || r.DeleteMethod?
  {
    && |m.parameters| >= 2 && IsEntityType(m.parameters[1].asType)
    && var entity := m.parameters[1].asType.decl;
       && GetPrimaryKeyField(entity).Ok?
       && var key := GetPrimaryKeyField(entity).value;
          && key in GetFieldsUsedInDatabase(entity)
          && Model.GetDatabaseFieldName(key).Ok?
          && r.where == Model.GetDatabaseFieldName(key).value + "=?"
          && FindDirectGetter(entity, key).Ok?
          && r.whereArgs == [FindDirectGetter(entity, key).value]
          && r.entityName == entity.simpleName && r.entityQualifiedName == entity.qualifiedName
          && TableName(entity) == Ok(r.tableName)
          && (r.UpdateMethod? ==> GetterMapOf(entity, serializer, GetFieldsUsedInDatabase(entity)) == Ok(r.fieldGetters))
  }

  lemma UpdateMethodProperties(m: Element, serializer: TypeElement)
    requires CreateUpdateMethod(m, serializer).Ok?
    ensures KeyedMethodFacts(m, serializer, CreateUpdateMethod(m, serializer).value)
  {
    PrimaryKeyFieldProperties(m.parameters[1].asType.decl);
  }

  lemma DeleteMethodProperties(m: Element, serializer: TypeElement)
    requires CreateDeleteMethod(m).Ok?
    ensures KeyedMethodFacts(m, serializer, CreateDeleteMethod(m).value)
  {
    PrimaryKeyFieldProperties(m.parameters[1].asType.decl);
  }

  /** A select returns a declared type: an entity selects one row of its
      table; one of the supported collections of an entity selects many,
      written `Collection<Entity>`.  Every parameter, the database included,
      is listed in order, and an empty `orderBy` means no ordering. */
  lemma SelectMethodProperties(m: Element)
    requires CreateSelectMethod(m).Ok?
    ensures var r := CreateSelectMethod(m).value;
            var annotation := GetAnnotation(m.annotations, SelectClass);
            && m.asType.DeclaredType?
            && annotation.Some? && annotation.value.Select?
            && r.where == annotation.value.selectWhere
            && r.parameterGetters == ParameterNamesOf(m.parameters)
            && ParameterTextOf(m.parameters) == Ok(r.parameterText)
            && (r.SelectSingleMethod? <==> IsEntityType(m.asType))
            && (r.SelectSingleMethod? ==>
                  r.returnTypeName == m.asType.decl.simpleName && TableName(m.asType.decl) == Ok(r.tableName))
            && (r.SelectMultipleMethod? ==>
                  && m.asType.decl.qualifiedName in Kt.SUPPORTED_RETURN_TYPES_FOR_SELECT
                  && |m.asType.typeArguments| > 0 && m.asType.typeArguments[0].DeclaredType?
                  && var entity := m.asType.typeArguments[0].decl;
                     && r.returnTypeName == m.asType.decl.simpleName + "<" + entity.simpleName + ">"
                     && TableName(entity) == Ok(r.tableName)
                     && (r.orderBy.None? <==> annotation.value.selectOrderBy == "")
                     && (r.orderBy.Some? ==> r.orderBy.value == annotation.value.selectOrderBy))
  {
  }

  /** A create-table method is void and carries the statement built for
      the class named by its `@CreateTable`. */
  lemma CreateTableMethodProperties(m: Element, serializer: TypeElement)
    requires CreateCreateTableMethod(m, serializer).Ok?
    ensures m.asType.VoidType?
    ensures CreateTableEntity(m).Ok?
    ensures CreateTableSqlOf(CreateTableEntity(m).value, serializer) == Ok(CreateCreateTableMethod(m, serializer).value.createTableSql)
  {
  }

  /** A method with none of the six annotations is rejected. */
  lemma NotAStorageMethod(m: Element, serializer: TypeElement)
    requires forall c :: c in Kt.STORAGE_ANNOTATIONS ==> !Kt.IsAnnotationPresent(m, c)
    ensures CreateStorageMethod(m, serializer).Err?
    ensures CreateStorageMethod(m, serializer).error.InvalidElement?
  {
    assert Kt.STORAGE_ANNOTATIONS[0] == InsertClass && Kt.STORAGE_ANNOTATIONS[1] == ReplaceClass;
    assert Kt.STORAGE_ANNOTATIONS[2] == UpdateClass && Kt.STORAGE_ANNOTATIONS[3] == DeleteClass;
    assert Kt.STORAGE_ANNOTATIONS[4] == SelectClass && Kt.STORAGE_ANNOTATIONS[5] == CreateTableClass;
    Dispatch(m, serializer);
  }

  // ---------------------------------------------------------- the class

  predicate IsMethodElement(e: Element) {
    e.kind == MethodKind
  }

  function CreateStorageMethodOf(serializer: TypeElement): Element -> Result<StorageMethod> {
    m => CreateStorageMethod(m, serializer)
  }

  /** What `getStorageMethods` returns: one storage method per method the
      interface itself declares, in order. */
  function StorageMethodsOf(t: TypeElement, serializer: TypeElement): Result<seq<StorageMethod>> {
    Results.MapOrFail(Seqs.Filter(t.enclosedElements, IsMethodElement), CreateStorageMethodOf(serializer))
  }

  /** Once a method declared in a prefix of `elements` cannot be built, the
      whole class fails the same way. */
  lemma DeclaredPrefixErr<R>(elements: seq<Element>, n: nat, spec: Element -> Result<R>)
    requires n <= |elements| && Results.MapOrFail(Seqs.Filter(elements[..n], IsMethodElement), spec).Err?
    ensures Results.MapOrFail(Seqs.Filter(elements, IsMethodElement), spec)
         == Results.MapOrFail(Seqs.Filter(elements[..n], IsMethodElement), spec)
  {
    assert elements == elements[..n] + elements[n..];
    Seqs.FilterAppend(elements[..n], elements[n..], IsMethodElement);
    var all := Seqs.Filter(elements, IsMethodElement);
    var front := Seqs.Filter(elements[..n], IsMethodElement);
    assert all[..|front|] == front;
    Results.MapOrFailPrefixErr(all, |front|, spec);
  }

  /** The loop of `getStorageMethods`: builds one result per declared
      method with `create`, in order, and stops at the first failure. */
  method MapDeclaredMethods<R>(elements: seq<Element>, create: Element -> Result<R>) returns (r: Result<seq<R>>)
    ensures r == Results.MapOrFail(Seqs.Filter(elements, IsMethodElement), create)
  {
    var methods: seq<R> := [];
    for i := 0 to |elements|
      invariant Results.MapOrFail(Seqs.Filter(elements[..i], IsMethodElement), create) == Ok(methods)
    {
      var enclosedElement := elements[i];
      assert elements[..i + 1] == elements[..i] + [enclosedElement];
      Seqs.FilterSnoc(elements[..i], enclosedElement, IsMethodElement);
      if enclosedElement.kind != MethodKind {
        assert Seqs.Filter(elements[..i + 1], IsMethodElement) == Seqs.Filter(elements[..i], IsMethodElement);
      } else {
        var methodsBefore := Seqs.Filter(elements[..i], IsMethodElement);
        Results.MapOrFailSnoc(methodsBefore, enclosedElement, create);
        var created := create(enclosedElement);
        if created.Err? {
          DeclaredPrefixErr(elements, i + 1, create);
          return Err(created.error);
        }
        methods := methods + [created.value];
      }
    }
    assert elements[..|elements|] == elements;
    return Ok(methods);
  }

  /** `getStorageMethods`. */
  method GetStorageMethods(t: TypeElement, serializer: TypeElement) returns (r: Result<seq<StorageMethod>>)
    ensures r == StorageMethodsOf(t, serializer)
  {
    r := MapDeclaredMethods(t.enclosedElements, CreateStorageMethodOf(serializer));
  }

  /** The storage methods are one per declared method, each the method
      `createStorageMethod` builds for it; one that cannot be built fails
      the whole class. */
  lemma StorageMethodsProperties(t: TypeElement, serializer: TypeElement)
    ensures var declared := Seqs.Filter(t.enclosedElements, IsMethodElement);
            var create := CreateStorageMethodOf(serializer);
            && (StorageMethodsOf(t, serializer).Ok? <==> forall i :: 0 <= i < |declared| ==> create(declared[i]).Ok?)
            && (StorageMethodsOf(t, serializer).Ok? ==>
                  && |StorageMethodsOf(t, serializer).value| == |declared|
                  && forall i :: 0 <= i < |declared| ==> StorageMethodsOf(t, serializer).value[i] == create(declared[i]).value)
  {
    Results.MapOrFailOk(Seqs.Filter(t.enclosedElements, IsMethodElement), CreateStorageMethodOf(serializer));
  }

  /** Whether the class declares a constructor without parameters. */
  predicate HasEmptyConstructorOf(t: TypeElement) {
    exists i :: 0 <= i < |t.enclosedElements| && t.enclosedElements[i].kind == ConstructorKind
                && |t.enclosedElements[i].parameters| == 0
  }

  /** `hasEmptyConstructor`: stops at the first constructor without
      parameters. */
  method HasEmptyConstructor(t: TypeElement) returns (r: bool)
    ensures r <==> HasEmptyConstructorOf(t)
  {
    var elements := t.enclosedElements;
    for i := 0 to |elements|
      invariant forall j :: 0 <= j < i ==> !(elements[j].kind == ConstructorKind && |elements[j].parameters| == 0)
    {
      if elements[i].kind == ConstructorKind {
        if |elements[i].parameters| == 0 {
          return true;
        }
      }
    }
    return false;
  }

  /** What `createStorage` hands to the class writer. */
  datatype StorageClass = StorageClass(packageName: string, className: string, storageInterfaceName: string,
                                       serializerQualifiedName: string, serializerClassName: string,
                                       serializerHasEmptyConstructor: bool, methods: seq<StorageMethod>)

  const STORAGE_PREFIX: string := "Slinger_"
  const NO_DATABASE_STORAGE: string := "databaseStorage is null"
  const NULL_SERIALIZER: string := "serializerElement is null"

  /** `getSerializerElement`: the class named by `serializer` of
      `@DatabaseStorage`.  A type variable fails the cast; another
      non-declared type has no element, and reading its name throws. */
  function SerializerElement(t: TypeElement): (r: Result<TypeElement>)
    ensures r.Ok? <==> var annotation := GetAnnotation(t.typeAnnotations, DatabaseStorageClass);
                       annotation.Some? && annotation.value.DatabaseStorage?
                       && annotation.value.storageSerializer.DeclaredType?
    ensures r.Ok? ==> r.value == GetAnnotation(t.typeAnnotations, DatabaseStorageClass).value.storageSerializer.decl
  {
    var annotation := GetAnnotation(t.typeAnnotations, DatabaseStorageClass);
    if annotation.None? || !annotation.value.DatabaseStorage? then Err(IllegalArgument(NO_DATABASE_STORAGE))
    else match annotation.value.storageSerializer
      case DeclaredType(decl, _) => Ok(decl)
      case TypeVariable(_) => Err(ClassCast(NOT_A_TYPE_ELEMENT))
      case _ => Err(NullPointer(NULL_SERIALIZER))
  }

  /** What `createStorage` builds for a storage interface. */
  function StorageClassOf(t: TypeElement): Result<StorageClass> {
    var packageName :- PackageProvider.GetPackage(Some(t.qualifiedName));
    var serializer :- SerializerElement(t);
    var methods :- StorageMethodsOf(t, serializer);
    Ok(StorageClass(packageName, STORAGE_PREFIX + t.simpleName, t.simpleName, serializer.qualifiedName,
                    serializer.simpleName, HasEmptyConstructorOf(serializer), methods))
  }

  /** `createStorage`, without writing the file. */
  method CreateStorage(t: TypeElement) returns (r: Result<StorageClass>)
    ensures r == StorageClassOf(t)
  {
    var packageName :- PackageProvider.GetPackage(Some(t.qualifiedName));
    var storageImplName := STORAGE_PREFIX + t.simpleName;
    var serializer :- SerializerElement(t);
    var methods :- GetStorageMethods(t, serializer);
    var hasEmptyConstructor := HasEmptyConstructor(serializer);
    return Ok(StorageClass(packageName, storageImplName, t.simpleName, serializer.qualifiedName,
                           serializer.simpleName, hasEmptyConstructor, methods));
  }

  /** The generated class sits in the interface's package and is named
      `Slinger_` + the interface's name. */
  lemma StorageClassNaming(t: TypeElement, packageName: string)
    requires t.qualifiedName == packageName + "." + t.simpleName && '.' !in t.simpleName
    requires StorageClassOf(t).Ok?
    ensures var c := StorageClassOf(t).value;
            && c.packageName == packageName
            && c.className == STORAGE_PREFIX + t.simpleName
            && c.storageInterfaceName == t.simpleName
  {
    PackageProvider.GetPackageOfJoined(packageName, t.simpleName);
  }
}

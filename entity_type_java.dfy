/** `EntityType`: the first Java generation's view of one entity class.

    The Java class keeps the entity's type element and caches, in nullable
    fields, every list it derives: the members, the stored fields, the
    accessible methods, the serializer class and its method lists.  The
    model keeps that class with one `Option` field per cache and states
    every derived value as a function of the type element (and, for the
    serializer lists, of the serializer currently resolved), so that the
    properties are proved about the functions and each method is tied to
    them.

    The class copies much of the storage processor's logic but throws
    `IllegalStateException`, `IllegalArgumentException` or
    `UnsupportedOperationException` where the processor reports an
    invalid element; the functions below carry this class's own failures.
 */
module EntityTypeJava {
  import opened Wrappers
  import opened Elements
  import opened ElementExtensions
  import Seqs
  import Results
  import ListUtils
  import Decimal
  import ElementUtils
  import Model = DatabaseEntityModelKt
  import Proc = DatabaseStorageProcessorJava

  const STORAGE_SUFFIX: string := "Storage"
  const ITEM: string := "item"
  const SERIALIZER_FIELD: string := "mSerializer."
  const VALUES: string := "values."
  const NOT_KNOWN: string := " is not known by SlingerORM"
  const NOT_DECLARED: string := "cannot be cast to DeclaredType"
  const NOT_A_TYPE_ELEMENT: string := "cannot be cast to TypeElement"
  const KEY_NOT_IN_CLASS: string := "Field specified in DatabaseEntity doesn't exist in entity class!"
  const NATIVE_UNKNOWN: string := " is unknown (getNativeTypeForDatabase(Element))"
  const TYPE_NOT_KNOWN: string := " have a type not known by SlingerORM"
  const DESERIALIZE_ONE_PARAMETER: string := "@DeserializeType methods must have one parameter, got "
  const DESERIALIZE_NOT_NATIVE: string :=
    "declared type is not supported, only native and string types can be used as return value for a @DeserializeType method, method was "
  const NULL_SERIALIZER: string := "mSerializer is null"

  /** The Kotlin helpers this class shares report an invalid element where
      this class throws `IllegalStateException` with the same text. */
  function IllegalStateOf<T>(r: Result<T>): (r': Result<T>)
    ensures r'.Ok? <==> r.Ok?
    ensures r.Ok? ==> r' == r
    ensures r.Err? ==> r'.error.message == r.error.message
    ensures r.Err? && r.error.InvalidElement? ==> r'.error.IllegalState?
    ensures r.Err? && !r.error.InvalidElement? ==> r' == r
  {
    if r.Err? && r.error.InvalidElement? then Err(IllegalState(r.error.message)) else r
  }

  // ------------------------------------------------------------- naming

  /** `getMapperTypeName`: the simple name with `Storage` appended. */
  function MapperTypeName(t: TypeElement): (r: string)
    ensures |r| == |t.simpleName| + |STORAGE_SUFFIX|
    ensures r[..|t.simpleName|] == t.simpleName && r[|t.simpleName|..] == STORAGE_SUFFIX
  {
    t.simpleName + STORAGE_SUFFIX
  }

  /** `getTableName`: the annotation's `name`, or the simple name when it is
      empty.  The annotation is not checked for null, so a class without it
      fails with a null pointer where the Kotlin model reports an invalid
      element. */
  function TableName(t: TypeElement): (r: Result<string>)
    ensures r.Err? <==> Model.EntityAnnotation(t).None?
    ensures r.Err? ==> r.error.NullPointer?
    ensures r.Ok? ==> r == Model.TableName(t)
  {
    var annotation := Model.EntityAnnotation(t);
    if annotation.None? then Err(NullPointer(Proc.NO_ENTITY_ANNOTATION))
    else if annotation.value.name == "" then Ok(t.simpleName)
    else Ok(annotation.value.name)
  }

  // ------------------------------------------------------------- fields

  /** What `isDatabaseField` answers.  The checks sit inside the loop over
      the modifiers, so they run only when there is a modifier: a field
      with none is stored even when it is marked `@NotDatabaseField`. */
  predicate KeptAsColumn(field: Element) {
    field.modifiers == {}
    || (Static !in field.modifiers && Transient !in field.modifiers
        && !HasAnnotation(field.annotations, NotDatabaseFieldClass))
  }

  /** `isDatabaseField`: scans the modifier set, in whatever order the set
      yields it, and answers false at the first pass that meets a static
      or transient modifier or the `@NotDatabaseField` marker. */
  method IsDatabaseField(field: Element) returns (r: bool)
    ensures r == KeptAsColumn(field)
  {
    var remaining := field.modifiers;
    while remaining != {}
      invariant remaining <= field.modifiers
      invariant forall m :: m in field.modifiers && m !in remaining ==> m != Static && m != Transient
      invariant remaining != field.modifiers ==> !HasAnnotation(field.annotations, NotDatabaseFieldClass)
      decreases remaining
    {
      var modifier :| modifier in remaining;
      var name := ElementUtils.ModifierName(modifier);
      if name == "STATIC" || name == "TRANSIENT" || HasAnnotation(field.annotations, NotDatabaseFieldClass) {
        return false;
      }
      remaining := remaining - {modifier};
    }
    return true;
  }

  /** A field without modifiers is always stored; with at least one
      modifier the rule is the storage processor's. */
  lemma KeptAsColumnRule(field: Element)
    ensures field.modifiers == {} ==> KeptAsColumn(field)
    ensures field.modifiers == {} && HasAnnotation(field.annotations, NotDatabaseFieldClass) ==>
              KeptAsColumn(field) && !Proc.IsDatabaseField(field)
    ensures field.modifiers != {} ==> (KeptAsColumn(field) <==> Proc.IsDatabaseField(field))
  {
  }

  predicate IsColumnField(e: Element) {
    e.kind == FieldKind && KeptAsColumn(e)
  }

  /** `getFieldsUsedInDatabase`: the stored fields among the members, own
      first and then the superclasses', in member order. */
  function FieldsOf(t: TypeElement): seq<Element> {
    Seqs.Filter(ElementsOf(t), IsColumnField)
  }

  lemma {:induction false} FilterAgrees<T>(s: seq<T>, p: T -> bool, q: T -> bool)
    requires forall x :: x in s ==> p(x) == q(x)
    ensures Seqs.Filter(s, p) == Seqs.Filter(s, q)
  {
    if |s| > 0 {
      FilterAgrees(s[1..], p, q);
    }
  }

  /** The stored fields are exactly the members that are fields and kept,
      in member order, with distinct names; when every member carries a
      modifier they are the storage processor's fields. */
  lemma FieldsOfProperties(t: TypeElement)
    ensures forall e :: e in FieldsOf(t) <==> e in ElementsOf(t) && IsColumnField(e)
    ensures Seqs.IsSubsequence(FieldsOf(t), ElementsOf(t))
    ensures Model.DistinctNames(FieldsOf(t))
    ensures (forall e :: e in ElementsOf(t) ==> e.modifiers != {}) ==> FieldsOf(t) == Proc.GetFieldsUsedInDatabase(t)
  {
    forall e ensures e in FieldsOf(t) <==> e in ElementsOf(t) && IsColumnField(e) {
      Seqs.FilterMembers(ElementsOf(t), IsColumnField, e);
    }
    Seqs.FilterIsSubsequence(ElementsOf(t), IsColumnField);
    ElementsOfProperties(t);
    Model.FilterKeepsNamesDistinct(ElementsOf(t), IsColumnField);
    if forall e :: e in ElementsOf(t) ==> e.modifiers != {} {
      FilterAgrees(ElementsOf(t), IsColumnField, Proc.IsColumnField);
    }
  }

  /** The loop `filter` runs over the members with `isDatabaseField` as its
      test. */
  method FilterColumnFields(elements: seq<Element>) returns (fields: seq<Element>)
    ensures fields == Seqs.Filter(elements, IsColumnField)
  {
    fields := [];
    for i := 0 to |elements|
      invariant fields == Seqs.Filter(elements[..i], IsColumnField)
    {
      var item := elements[i];
      assert elements[..i + 1] == elements[..i] + [item];
      Seqs.FilterSnoc(elements[..i], item, IsColumnField);
      var kept := false;
      if item.kind == FieldKind {
        kept := IsDatabaseField(item);
      }
      if kept {
        fields := fields + [item];
      }
    }
    assert elements[..|elements|] == elements;
  }

  // --------------------------------------------------------- primary key

  /** `getPrimaryKeyFieldUsingDatabaseEntity`: null for an empty
      `primaryKey`, otherwise the field of that name, which must exist. */
  function PrimaryKeyFieldUsingDatabaseEntity(t: TypeElement, fields: seq<Element>): (r: Result<Option<Element>>)
    ensures Model.EntityAnnotation(t).None? ==> r.Err? && r.error.NullPointer?
    ensures Model.EntityAnnotation(t).Some? ==>
              var key := Model.EntityAnnotation(t).value.primaryKey;
              && (key == "" ==> r == Ok(None))
              && (key != "" ==> (r.Ok? <==> FirstNamed(fields, key).Some?))
              && (key != "" && r.Ok? ==> r.value == FirstNamed(fields, key))
              && (key != "" && r.Err? ==> r == Err(IllegalState(KEY_NOT_IN_CLASS)))
  {
    var annotation := Model.EntityAnnotation(t);
    if annotation.None? then Err(NullPointer(Proc.NO_ENTITY_ANNOTATION))
    else
      var key := annotation.value.primaryKey;
      if key == "" then Ok(None)
      else
        var field := FirstNamed(fields, key);
        if field.None? then Err(IllegalState(KEY_NOT_IN_CLASS)) else Ok(field)
  }

  /** `getPrimaryKeyField`: the first `@PrimaryKey` field, else the field
      named by the annotation's `primaryKey`, else failure. */
  function PrimaryKeyFieldOf(t: TypeElement): (r: Result<Element>)
    ensures var marked := Seqs.Filter(FieldsOf(t), Model.IsPrimaryKeyMarked);
            var named := PrimaryKeyFieldUsingDatabaseEntity(t, FieldsOf(t));
            && (|marked| > 0 ==> r == Ok(marked[0]))
            && (|marked| == 0 ==> (r.Ok? <==> named.Ok? && named.value.Some?) && (r.Ok? ==> named == Ok(Some(r.value))))
            && (|marked| == 0 && named == Ok(None) ==> r == Err(IllegalState(Proc.NO_PRIMARY_KEY)))
  {
    var fields := FieldsOf(t);
    var field := ListUtils.FirstOrDefault(Seqs.Filter(fields, Model.IsPrimaryKeyMarked));
    if field.Some? then Ok(field.value)
    else
      var named :- PrimaryKeyFieldUsingDatabaseEntity(t, fields);
      if named.None? then Err(IllegalState(Proc.NO_PRIMARY_KEY)) else Ok(named.value)
  }

  /** The key is a stored field; a marked key is the first marked field,
      and without markers the key is the stored field named by the
      annotation's non-empty `primaryKey`. */
  lemma PrimaryKeyFieldProperties(t: TypeElement)
    requires PrimaryKeyFieldOf(t).Ok?
    ensures var key := PrimaryKeyFieldOf(t).value;
            var fields := FieldsOf(t);
            && key in fields
            && (Model.IsPrimaryKeyMarked(key) ==>
                  exists i :: 0 <= i < |fields| && fields[i] == key
                    && forall j :: 0 <= j < i ==> !Model.IsPrimaryKeyMarked(fields[j]))
            && (!Model.IsPrimaryKeyMarked(key) ==>
                  && (forall f :: f in fields ==> !Model.IsPrimaryKeyMarked(f))
                  && Model.EntityAnnotation(t).Some?
                  && key.simpleName == Model.EntityAnnotation(t).value.primaryKey != "")
  {
    var fields := FieldsOf(t);
    var marked := Seqs.Filter(fields, Model.IsPrimaryKeyMarked);
    forall f ensures f in marked <==> f in fields && Model.IsPrimaryKeyMarked(f) {
      Seqs.FilterMembers(fields, Model.IsPrimaryKeyMarked, f);
    }
    if |marked| > 0 {
      Proc.FirstMarked(fields);
    } else {
      FirstNamedFound(fields, Model.EntityAnnotation(t).value.primaryKey);
    }
  }

  /** `getDatabaseFieldName`: the `@FieldName` value, or the simple name;
      an empty `@FieldName` is an illegal state. */
  function DatabaseFieldName(field: Element): (r: Result<string>)
    ensures r.Ok? <==> Model.GetDatabaseFieldName(field).Ok?
    ensures r.Ok? ==> r == Model.GetDatabaseFieldName(field)
    ensures r.Err? ==> r.error.IllegalState?
  {
    IllegalStateOf(Model.GetDatabaseFieldName(field))
  }

  /** `getPrimaryKeyDbName`: the column name of the key field. */
  function PrimaryKeyDbNameOf(t: TypeElement): (r: Result<string>)
    ensures r.Ok? <==> PrimaryKeyFieldOf(t).Ok? && DatabaseFieldName(PrimaryKeyFieldOf(t).value).Ok?
    ensures r.Ok? ==> r == Model.GetDatabaseFieldName(PrimaryKeyFieldOf(t).value)
  {
    var field :- PrimaryKeyFieldOf(t);
    DatabaseFieldName(field)
  }

  // ---------------------------------------------------------- type kinds

  /** `getObjectTypeForElement(typeKind, element)`; `declared` is the type the
      declared case reads from the element. */
  function ObjectTypeOf(kind: TypeKind, declared: TypeMirror): (r: Result<ObjectType>)
    ensures r == Ok(OtherObject) ==> kind == DeclaredKind && declared.DeclaredType? && !IsDeclaredString(declared)
    ensures r == Ok(StringObject) ==> kind == DeclaredKind && IsDeclaredString(declared)
    ensures kind != DeclaredKind ==>
              (r.Ok? <==> kind in {BooleanKind, ShortKind, IntKind, LongKind, FloatKind, DoubleKind})
    ensures r.Err? && kind != DeclaredKind ==> r == Err(IllegalState(KindName(kind) + NOT_KNOWN))
  {
    match kind
    case BooleanKind => Ok(BooleanObject)
    case ShortKind => Ok(ShortObject)
    case IntKind => Ok(IntObject)
    case LongKind => Ok(LongObject)
    case FloatKind => Ok(FloatObject)
    case DoubleKind => Ok(DoubleObject)
    case DeclaredKind =>
      if !declared.DeclaredType? then Err(ClassCast(NOT_DECLARED))
      else if declared.decl.qualifiedName == TYPE_STRING then Ok(StringObject)
      else Ok(OtherObject)
    case _ => Err(IllegalState(KindName(kind) + NOT_KNOWN))
  }

  /** On an element's own type the classification is the storage
      processor's; only the exception for an unknown kind differs. */
  lemma ObjectTypeAgreesWithProcessor(kind: TypeKind, e: Element)
    ensures ObjectTypeOf(kind, e.asType).Ok? <==> Proc.GetObjectTypeForElement(kind, e).Ok?
    ensures ObjectTypeOf(kind, e.asType).Ok? ==> ObjectTypeOf(kind, e.asType) == Proc.GetObjectTypeForElement(kind, e)
  {
  }

  // ----------------------------------------------------- serializer lists

  /** `getMethodsInSerializer`: reads the serializer field as it stands, so
      it throws while the serializer is unresolved. */
  function MethodsInSerializer(serializer: Option<TypeElement>): (r: Result<seq<Element>>)
    ensures r.Ok? <==> serializer.Some?
  {
    if serializer.None? then Err(NullPointer(NULL_SERIALIZER)) else Ok(MethodsOf(serializer.value))
  }

  /** `getSerializeMethodsInSerializer`. */
  function SerializeMethods(serializer: Option<TypeElement>): (r: Result<seq<Element>>)
    ensures r.Ok? <==> serializer.Some?
    ensures r.Ok? ==> r.value == Proc.GetSerializeMethodsInSerializer(serializer.value)
  {
    var methods :- MethodsInSerializer(serializer);
    Ok(Seqs.Filter(methods, Proc.IsSerializeMethod))
  }

  /** `getDeserializeMethodsInSerializer`. */
  function DeserializeMethods(serializer: Option<TypeElement>): (r: Result<seq<Element>>)
    ensures r.Ok? <==> serializer.Some?
    ensures r.Ok? ==> r.value == Proc.GetDeserializeMethodsInSerializer(serializer.value)
  {
    var methods :- MethodsInSerializer(serializer);
    Ok(Seqs.Filter(methods, Proc.IsDeserializeMethod))
  }

  // -------------------------------------------------------------- getters

  /** `findDirectGetter`: the Kotlin accessor precedence read through the
      variable `item`. */
  function DirectGetterOf(t: TypeElement, field: Element): Result<string> {
    IllegalStateOf(Model.FindDirectGetter(t, field, ITEM))
  }

  /** The read accessor precedence: a `@GetField` method naming the field,
      then `is`/`get` + capitalised name, then the field itself when it is
      accessible, otherwise an illegal state. */
  lemma FindDirectGetterPrecedence(t: TypeElement, field: Element)
    ensures var methods := MethodsOf(t);
            var annotated := Model.AnnotatedAccessor(methods, field.simpleName, GetFieldClass);
            var prefix := if field.asType.BooleanType? then "is" else "get";
            var r := DirectGetterOf(t, field);
            && (annotated.Err? ==> r.Err? && r.error.IllegalState?)
            && (annotated.Ok? && annotated.value.Some? ==>
                  r == Ok(ITEM + "." + annotated.value.value.simpleName + "()") && annotated.value.value in methods)
            && (annotated == Ok(None) && field.simpleName != "" && |methods| > 0 ==>
                  var standard := FirstNamed(methods, AccessorName(prefix, field.simpleName).value);
                  && (standard.Some? ==> r == Ok(ITEM + "." + standard.value.simpleName + "()"))
                  && (standard.None? ==> (r.Ok? <==> IsAccessible(field)))
                  && (standard.None? && r.Err? ==>
                        r == Err(IllegalState(Model.NO_ACCESS + field.simpleName + Model.IN + t.simpleName))))
            && (annotated == Ok(None) && |methods| == 0 ==>
                  (r.Ok? <==> IsAccessible(field)) && (r.Ok? ==> r.value == ITEM + "." + field.simpleName))
  {
    Model.FindDirectGetterPrecedence(t, field, ITEM);
    Model.AnnotatedAccessorMeaning(MethodsOf(t), field.simpleName, GetFieldClass);
  }

  /** The test applied to each `@SerializeType` method: exactly one
      parameter, which must name the element's class. */
  function ParameterMatches(element: Element, typeName: string, item: Element): (r: Result<bool>)
    requires element.asType.DeclaredType? && !IsDeclaredString(element.asType)
    ensures r.Ok? <==> |item.parameters| == 1
    ensures r.Ok? ==> (r.value <==> item.parameters[0].asType.DeclaredType?
                                    && item.parameters[0].asType.decl.qualifiedName == typeName)
    ensures r.Err? ==> r.error.IllegalState?
  {
    IllegalStateOf(Proc.ParameterMatches(element, typeName, item))
  }

  /** `getMethodsInSerializerThatMatchesParameterElementOfDeclaredType`. */
  function MethodsMatchingParameter(methods: seq<Element>, element: Element): (r: Result<seq<Element>>)
    ensures r.Ok? ==> element.asType.DeclaredType? && !IsDeclaredString(element.asType)
  {
    var objectType :- ObjectTypeOf(KindOf(element.asType), element.asType);
    if objectType != OtherObject then Err(IllegalArgument(Proc.SHOULD_BE_DECLARED))
    else
      var typeName := element.asType.decl.qualifiedName;
      ListUtils.FilterOrFail(methods, item => ParameterMatches(element, typeName, item))
  }

  /** The matching fails unless the element is a custom class; it then
      succeeds iff every method takes exactly one parameter, and keeps, in
      order, the methods whose parameter is that class. */
  lemma MethodsMatchingParameterMeaning(methods: seq<Element>, element: Element)
    ensures !element.asType.DeclaredType? || IsDeclaredString(element.asType) ==>
              MethodsMatchingParameter(methods, element).Err?
    ensures element.asType.DeclaredType? && !IsDeclaredString(element.asType) ==>
              && (MethodsMatchingParameter(methods, element).Ok? <==> forall m :: m in methods ==> |m.parameters| == 1)
              && (MethodsMatchingParameter(methods, element).Ok? ==>
                    var matching := MethodsMatchingParameter(methods, element).value;
                    && Seqs.IsSubsequence(matching, methods)
                    && forall m :: m in matching <==>
                         m in methods && m.parameters[0].asType.DeclaredType?
                         && m.parameters[0].asType.decl.qualifiedName == element.asType.decl.qualifiedName)
  {
    if element.asType.DeclaredType? && !IsDeclaredString(element.asType) {
      var typeName := element.asType.decl.qualifiedName;
      ListUtils.FilterOrFailOk(methods, item => ParameterMatches(element, typeName, item));
    }
  }

  /** `findGetterInSerializer`: the single `@SerializeType` method taking
      the field's class, applied to the field's direct getter. */
  function SerializerGetterOf(t: TypeElement, serializer: Option<TypeElement>, field: Element): (r: Result<string>)
    ensures r.Ok? ==>
              && serializer.Some?
              && field.asType.DeclaredType? && !IsDeclaredString(field.asType)
              && var methods := Proc.GetSerializeMethodsInSerializer(serializer.value);
                 && MethodsMatchingParameter(methods, field).Ok?
                 && var matching := MethodsMatchingParameter(methods, field).value;
                    && |matching| == 1
                    && DirectGetterOf(t, field).Ok?
                    && r.value == SERIALIZER_FIELD + matching[0].simpleName + "(" + DirectGetterOf(t, field).value + ")"
  {
    var serializeMethods :- SerializeMethods(serializer);
    var methods :- MethodsMatchingParameter(serializeMethods, field);
    if |methods| == 0 then Err(IllegalArgument(Proc.NO_METHOD_FOUND + TypeToString(field.asType)))
    else if |methods| > 1 then
      Err(IllegalArgument(Proc.ONLY_ONE_SERIALIZE + Decimal.NatToString(|methods|) + Proc.SAME_PARAMETER_TYPE
                          + TypeToString(field.asType)))
    else
      var directGetter :- DirectGetterOf(t, field);
      Ok(SERIALIZER_FIELD + methods[0].simpleName + "(" + directGetter + ")")
  }

  /** The serializer's method is a `@SerializeType` method of the resolved
      serializer class whose one parameter is the field's class, and it is
      the only one. */
  lemma SerializeMethodUnique(t: TypeElement, serializer: Option<TypeElement>, field: Element)
    requires SerializerGetterOf(t, serializer, field).Ok?
    ensures var methods := Proc.GetSerializeMethodsInSerializer(serializer.value);
            var matching := MethodsMatchingParameter(methods, field).value;
            && matching[0] in MethodsOf(serializer.value) && Proc.IsSerializeMethod(matching[0])
            && |matching[0].parameters| == 1
            && matching[0].parameters[0].asType.DeclaredType?
            && matching[0].parameters[0].asType.decl.qualifiedName == field.asType.decl.qualifiedName
            && forall m :: m in methods && |m.parameters| == 1 && m.parameters[0].asType.DeclaredType?
                           && m.parameters[0].asType.decl.qualifiedName == field.asType.decl.qualifiedName ==>
                             m == matching[0]
  {
    var methods := Proc.GetSerializeMethodsInSerializer(serializer.value);
    MethodsMatchingParameterMeaning(methods, field);
    var matching := MethodsMatchingParameter(methods, field).value;
    assert matching[0] in matching;
    Seqs.FilterMembers(MethodsOf(serializer.value), Proc.IsSerializeMethod, matching[0]);
    forall m | m in methods && |m.parameters| == 1 && m.parameters[0].asType.DeclaredType?
               && m.parameters[0].asType.decl.qualifiedName == field.asType.decl.qualifiedName
      ensures m == matching[0]
    {
      assert m in matching;
    }
  }

  /** `findGetter`: native values and strings are read directly, custom
      classes through the serializer; any other kind is an illegal state. */
  function GetterOf(t: TypeElement, serializer: Option<TypeElement>, field: Element): (r: Result<string>)
    ensures IsNativePrimitive(field.asType) || IsDeclaredString(field.asType) ==> r == DirectGetterOf(t, field)
    ensures field.asType.DeclaredType? && !IsDeclaredString(field.asType) ==>
              r == SerializerGetterOf(t, serializer, field)
    ensures !IsNativePrimitive(field.asType) && !field.asType.DeclaredType? ==>
              r == Err(IllegalState(KindName(KindOf(field.asType)) + NOT_KNOWN))
  {
    var objectType :- ObjectTypeOf(KindOf(field.asType), field.asType);
    if objectType == OtherObject then SerializerGetterOf(t, serializer, field)
    else DirectGetterOf(t, field)
  }

  // ---------------------------------------------------------- value parts

  /** The `ContentValues` getter `getValuePart` uses for a native type or
      String. */
  function ValueGetter(objectType: ObjectType): (r: string)
    requires objectType != OtherObject
  {
    match objectType
    case BooleanObject => "getBoolean"
    case ShortObject => "getShort"
    case IntObject => "getInt"
    case LongObject => "getLong"
    case FloatObject => "getFloat"
    case DoubleObject => "getDouble"
    case StringObject => "getString"
  }

  /** Each native type and String has its own getter. */
  lemma ValueGetterInjective(a: ObjectType, b: ObjectType)
    requires a != OtherObject && b != OtherObject
    ensures ValueGetter(a) == ValueGetter(b) <==> a == b
  {
  }

  /** `getValuePart` for a native type or String: the matching getter of
      `values` applied to the quoted column name. */
  function NativeValuePart(objectType: ObjectType, field: Element): (r: Result<string>)
    requires objectType != OtherObject
    ensures r.Ok? <==> DatabaseFieldName(field).Ok?
    ensures r.Err? ==> r == Err(DatabaseFieldName(field).error)
  {
    var column :- DatabaseFieldName(field);
    Ok(VALUES + ValueGetter(objectType) + "(\"" + column + "\")")
  }

  /** `getDeserializeMethodForFieldElement` once the `@DeserializeType`
      methods are listed: the one returning the field's class, applied to
      the value part its one native or String parameter calls for. */
  function DeserializeCall(methods: seq<Element>, field: Element): (r: Result<string>)
    ensures r.Ok? ==>
              && Proc.GetMethodMatchingReturnType(methods, field).Ok?
              && var m := Proc.GetMethodMatchingReturnType(methods, field).value;
                 && |m.parameters| == 1
                 && var p := m.parameters[0].asType;
                    && ObjectTypeOf(KindOf(p), p).Ok? && ObjectTypeOf(KindOf(p), p).value != OtherObject
                    && NativeValuePart(ObjectTypeOf(KindOf(p), p).value, field).Ok?
                    && r.value == SERIALIZER_FIELD + m.simpleName + "("
                                  + NativeValuePart(ObjectTypeOf(KindOf(p), p).value, field).value + ")"
  {
    var m :- IllegalStateOf(Proc.GetMethodMatchingReturnType(methods, field));
    if |m.parameters| != 1 then
      Err(IllegalState(DESERIALIZE_ONE_PARAMETER + Decimal.NatToString(|m.parameters|) + Proc.PARAMETERS_FOR_METHOD
                       + m.simpleName))
    else
      var parameterType := m.parameters[0].asType;
      var parameterObjectType :- ObjectTypeOf(KindOf(parameterType), parameterType);
      if parameterObjectType == OtherObject then Err(IllegalArgument(DESERIALIZE_NOT_NATIVE + m.simpleName))
      else
        var valuePart :- NativeValuePart(parameterObjectType, field);
        Ok(SERIALIZER_FIELD + m.simpleName + "(" + valuePart + ")")
  }

  /** `getDeserializeMethodForFieldElement`, reading the `@DeserializeType`
      methods of the serializer resolved so far. */
  function DeserializerCallOf(serializer: Option<TypeElement>, field: Element): (r: Result<string>)
    ensures r.Ok? ==> serializer.Some? && r == DeserializeCall(Proc.GetDeserializeMethodsInSerializer(serializer.value), field)
  {
    var methods :- DeserializeMethods(serializer);
    DeserializeCall(methods, field)
  }

  /** `getValuePart`. */
  function ValuePartOf(objectType: ObjectType, serializer: Option<TypeElement>, field: Element): Result<string> {
    if objectType == OtherObject then DeserializerCallOf(serializer, field)
    else NativeValuePart(objectType, field)
  }

  /** The method returning a custom class is a `@DeserializeType` method of
      the serializer, returns that class, and is the only one that does. */
  lemma DeserializerUnique(serializer: TypeElement, field: Element)
    requires Proc.GetMethodMatchingReturnType(Proc.GetDeserializeMethodsInSerializer(serializer), field).Ok?
    ensures var methods := Proc.GetDeserializeMethodsInSerializer(serializer);
            var m := Proc.GetMethodMatchingReturnType(methods, field).value;
            && m in MethodsOf(serializer) && Proc.IsDeserializeMethod(m)
            && m.asType.DeclaredType? && field.asType.DeclaredType?
            && m.asType.decl.qualifiedName == field.asType.decl.qualifiedName
            && (forall n :: (n in methods && n.asType.DeclaredType?
                             && n.asType.decl.qualifiedName == field.asType.decl.qualifiedName) ==> n == m)
  {
    var methods := Proc.GetDeserializeMethodsInSerializer(serializer);
    var m := Proc.GetMethodMatchingReturnType(methods, field).value;
    assert m in Proc.GetMethodsWithReturnElement(methods, field).value;
    Seqs.FilterMembers(MethodsOf(serializer), Proc.IsDeserializeMethod, m);
    forall n | n in methods && n.asType.DeclaredType? && n.asType.decl.qualifiedName == field.asType.decl.qualifiedName
      ensures n == m
    {
      assert n in Proc.GetMethodsWithReturnElement(methods, field).value;
    }
  }

  /** A native type or String is read from `values` by its own getter under
      the column name.  A custom class is rebuilt by the one
      `@DeserializeType` method of the serializer that returns it, whose one
      parameter is a native type or String, from the column read with the
      getter of that parameter's type. */
  lemma ValuePartProperties(objectType: ObjectType, serializer: Option<TypeElement>, field: Element)
    requires ValuePartOf(objectType, serializer, field).Ok?
    ensures var column := Model.GetDatabaseFieldName(field);
            var r := ValuePartOf(objectType, serializer, field).value;
            && column.Ok?
            && (objectType != OtherObject ==> r == VALUES + ValueGetter(objectType) + "(\"" + column.value + "\")")
            && (objectType == OtherObject ==>
                  && serializer.Some?
                  && var m := Proc.GetMethodMatchingReturnType(Proc.GetDeserializeMethodsInSerializer(serializer.value), field).value;
                     var p := m.parameters[0].asType;
                     && |m.parameters| == 1
                     && (IsNativePrimitive(p) || IsDeclaredString(p))
                     && r == SERIALIZER_FIELD + m.simpleName + "(" + VALUES + ValueGetter(ObjectTypeOf(KindOf(p), p).value)
                             + "(\"" + column.value + "\"))")
  {
    if objectType == OtherObject {
      var methods := Proc.GetDeserializeMethodsInSerializer(serializer.value);
      assert ValuePartOf(objectType, serializer, field) == DeserializeCall(methods, field);
      var m := Proc.GetMethodMatchingReturnType(methods, field).value;
      var p := m.parameters[0].asType;
      ParameterIsNative(p);
      var native := NativeValuePart(ObjectTypeOf(KindOf(p), p).value, field);
      assert native.value == VALUES + ValueGetter(ObjectTypeOf(KindOf(p), p).value)
                             + "(\"" + Model.GetDatabaseFieldName(field).value + "\")";
    } else {
      assert ValuePartOf(objectType, serializer, field) == NativeValuePart(objectType, field);
    }
  }

  /** A type classified as something other than a custom class is a native
      type or String. */
  lemma ParameterIsNative(p: TypeMirror)
    requires ObjectTypeOf(KindOf(p), p).Ok? && ObjectTypeOf(KindOf(p), p).value != OtherObject
    ensures IsNativePrimitive(p) || IsDeclaredString(p)
  {
  }

  // -------------------------------------------------------------- setters

  /** `getSetterWithParam`: the value part first, then a `@SetField` method
      naming the field, then `set` + capitalised name, then an assignment to
      the field itself when it is accessible.  The failure for an
      inaccessible field repeats the getter's text. */
  function SetterOf(t: TypeElement, serializer: Option<TypeElement>, field: Element): Result<string> {
    var objectType :- ObjectTypeOf(KindOf(field.asType), field.asType);
    var valuePart :- ValuePartOf(objectType, serializer, field);
    var methods := MethodsOf(t);
    var annotated :- IllegalStateOf(Model.AnnotatedAccessor(methods, field.simpleName, SetFieldClass));
    if annotated.Some? then Ok(annotated.value.simpleName + "(" + valuePart + ")")
    else
      var conventional :- Model.FirstByFieldName(methods, field.simpleName, "set");
      if conventional.Some? then Ok(conventional.value.simpleName + "(" + valuePart + ")")
      else if !IsAccessible(field) then Err(IllegalState(Model.NO_ACCESS + field.simpleName + Model.IN + t.simpleName))
      else Ok(field.simpleName + "=" + valuePart)
  }

  /** The write accessor precedence, applied to the value part: a
      `@SetField` method naming the field, then `set` + capitalised name,
      then the field itself when accessible; an empty `@SetField` met first
      fails. */
  lemma SetterPrecedence(t: TypeElement, serializer: Option<TypeElement>, field: Element)
    ensures var objectType := ObjectTypeOf(KindOf(field.asType), field.asType);
            var r := SetterOf(t, serializer, field);
            && (objectType.Err? ==> r == Err(objectType.error))
            && (objectType.Ok? && ValuePartOf(objectType.value, serializer, field).Err? ==>
                  r == Err(ValuePartOf(objectType.value, serializer, field).error))
            && (objectType.Ok? && ValuePartOf(objectType.value, serializer, field).Ok? ==>
                  var valuePart := ValuePartOf(objectType.value, serializer, field).value;
                  var methods := MethodsOf(t);
                  var annotated := Model.AnnotatedAccessor(methods, field.simpleName, SetFieldClass);
                  && (annotated.Err? ==>
                        r.Err? && r.error.IllegalState?
                        && exists i :: 0 <= i < |methods| && Model.AccessorReference(methods[i], SetFieldClass) == Some(""))
                  && (annotated.Ok? && annotated.value.Some? ==>
                        && annotated.value.value in methods
                        && Model.AccessorReference(annotated.value.value, SetFieldClass) == Some(field.simpleName)
                        && r == Ok(annotated.value.value.simpleName + "(" + valuePart + ")"))
                  && (annotated == Ok(None) && field.simpleName != "" && |methods| > 0 ==>
                        var standard := FirstNamed(methods, AccessorName("set", field.simpleName).value);
                        && (standard.Some? ==> r == Ok(standard.value.simpleName + "(" + valuePart + ")"))
                        && (standard.None? ==> (r.Ok? <==> IsAccessible(field))))
                  && (annotated == Ok(None) && |methods| == 0 ==>
                        (r.Ok? <==> IsAccessible(field)) && (r.Ok? ==> r.value == field.simpleName + "=" + valuePart)))
  {
    var methods := MethodsOf(t);
    Model.AnnotatedAccessorMeaning(methods, field.simpleName, SetFieldClass);
    var annotated := Model.AnnotatedAccessor(methods, field.simpleName, SetFieldClass);
    if annotated.Ok? && annotated.value.Some? {
      var i :| 0 <= i < |methods| && methods[i] == annotated.value.value
               && Model.AccessorReference(methods[i], SetFieldClass) == Some(field.simpleName) && field.simpleName != ""
               && forall j :: 0 <= j < i ==> Model.PassedOver(methods[j], field.simpleName, SetFieldClass);
    }
  }

  // ---------------------------------------------------------- SQL types

  /** `getNativeTypeForDatabase`: the storage processor's mapping to
      INTEGER, REAL and TEXT, with this class's exceptions. */
  function NativeTypeForDatabase(field: Element): (r: Result<string>)
    ensures r.Ok? <==> Proc.GetNativeTypeForDatabase(field).Ok?
    ensures r.Ok? ==> r == Proc.GetNativeTypeForDatabase(field)
    ensures field.asType.DeclaredType? && !IsDeclaredString(field.asType) ==>
              r == Err(UnsupportedOperation(Proc.NOT_NATIVE))
    ensures !IsNativePrimitive(field.asType) && !field.asType.DeclaredType? ==>
              r == Err(IllegalState(field.simpleName + NATIVE_UNKNOWN))
  {
    match field.asType
    case BooleanType => Ok("INTEGER")
    case ShortType => Ok("INTEGER")
    case LongType => Ok("INTEGER")
    case IntType => Ok("INTEGER")
    case FloatType => Ok("REAL")
    case DoubleType => Ok("REAL")
    case DeclaredType(decl, _) =>
      if decl.qualifiedName == TYPE_STRING then Ok("TEXT") else Err(UnsupportedOperation(Proc.NOT_NATIVE))
    case _ => Err(IllegalState(field.simpleName + NATIVE_UNKNOWN))
  }

  /** `getDatabaseTypeFromMethodParameterInSerializer`: the native type of
      the one parameter of the method returning the field's class. */
  function DatabaseTypeFromSerializer(methods: seq<Element>, field: Element): (r: Result<string>)
    ensures r.Ok? <==> Proc.GetDatabaseTypeFromMethodParameterInSerializer(methods, field).Ok?
    ensures r.Ok? ==> r == Proc.GetDatabaseTypeFromMethodParameterInSerializer(methods, field)
  {
    var serializerMethod :- IllegalStateOf(Proc.GetMethodMatchingReturnType(methods, field));
    var returnType := serializerMethod.asType;
    if !returnType.DeclaredType? then Err(IllegalState(Proc.SHOULD_BE_DECLARED_BUT + KindName(KindOf(returnType))))
    else if returnType.decl.qualifiedName == TYPE_STRING then Err(UnsupportedOperation(Proc.STRING_NOT_PASSED))
    else if |serializerMethod.parameters| != 1 then
      Err(IllegalState(Proc.ONE_NATIVE_PARAMETER + Decimal.NatToString(|serializerMethod.parameters|)
                       + Proc.PARAMETERS_FOR_METHOD + serializerMethod.simpleName))
    else NativeTypeForDatabase(serializerMethod.parameters[0])
  }

  /** `getDatabaseType`: the native type of a primitive or String field; a
      custom class takes the type of the `@DeserializeType` method that
      returns it, read from the serializer resolved so far. */
  function DatabaseTypeOf(serializer: Option<TypeElement>, field: Element): (r: Result<string>)
    ensures serializer.Some? ==> (r.Ok? <==> Proc.GetDatabaseType(serializer.value, field).Ok?)
    ensures serializer.Some? && r.Ok? ==> r == Proc.GetDatabaseType(serializer.value, field)
    ensures serializer.None? ==> (r.Ok? <==> Proc.GetNativeTypeForDatabase(field).Ok?)
    ensures !IsNativePrimitive(field.asType) && !field.asType.DeclaredType? ==>
              r == Err(UnsupportedOperation(field.simpleName + TYPE_NOT_KNOWN))
  {
    match field.asType
    case BooleanType => NativeTypeForDatabase(field)
    case ShortType => NativeTypeForDatabase(field)
    case LongType => NativeTypeForDatabase(field)
    case IntType => NativeTypeForDatabase(field)
    case FloatType => NativeTypeForDatabase(field)
    case DoubleType => NativeTypeForDatabase(field)
    case DeclaredType(decl, _) =>
      if decl.qualifiedName == TYPE_STRING then NativeTypeForDatabase(field)
      else
        var methods :- DeserializeMethods(serializer);
        DatabaseTypeFromSerializer(methods, field)
    case _ => Err(UnsupportedOperation(field.simpleName + TYPE_NOT_KNOWN))
  }

  // --------------------------------------------------------- CREATE TABLE

  /** The text `createTableSql` appends for one field: the column name, a
      space, the SQL type and, for a key field, the key suffix. */
  function ColumnDefinition(serializer: Option<TypeElement>, primaryKey: string, field: Element): Result<string> {
    var fieldName :- DatabaseFieldName(field);
    var fieldType :- DatabaseTypeOf(serializer, field);
    Ok(fieldName + " " + fieldType + (if Proc.IsKeyField(field, primaryKey) then Proc.PRIMARY_KEY_SUFFIX else ""))
  }

  function ColumnDefinitionOf(serializer: Option<TypeElement>, primaryKey: string): Element -> Result<string> {
    field => ColumnDefinition(serializer, primaryKey, field)
  }

  /** The definitions of `fields`, in order; the first failure wins. */
  function ColumnDefinitions(serializer: Option<TypeElement>, primaryKey: string, fields: seq<Element>): Result<seq<string>> {
    Results.MapOrFail(fields, ColumnDefinitionOf(serializer, primaryKey))
  }

  /** What `createTableSql` returns: no fields is an illegal argument, a
      class without the annotation fails on the table name, and a table
      without a key field is an illegal state. */
  function CreateTableSqlOf(t: TypeElement, serializer: Option<TypeElement>): (r: Result<string>)
    ensures |FieldsOf(t)| == 0 ==> r == Err(IllegalArgument(Proc.NO_FIELDS_FOUND + t.simpleName))
    ensures |FieldsOf(t)| > 0 && Model.EntityAnnotation(t).None? ==> r.Err? && r.error.NullPointer?
  {
    var fields := FieldsOf(t);
    if |fields| == 0 then Err(IllegalArgument(Proc.NO_FIELDS_FOUND + t.simpleName))
    else
      var table :- TableName(t);
      var primaryKey := Proc.AnnotationPrimaryKey(t);
      var definitions :- ColumnDefinitions(serializer, primaryKey, fields);
      if !Proc.HasKeyField(fields, primaryKey) then Err(IllegalState(Proc.NO_KEY_FOUND + t.simpleName))
      else Ok(Proc.CREATE_TABLE + table + "(" + Seqs.Join(definitions, Proc.COMMA) + ")")
  }

  /** The statement opens with the table name, lists one definition per
      stored field in member order, separated by ", ", marks every key
      field ` NOT NULL PRIMARY KEY` inline by the storage processor's rule,
      and needs at least one key. */
  lemma CreateTableSqlProperties(t: TypeElement, serializer: Option<TypeElement>)
    requires CreateTableSqlOf(t, serializer).Ok?
    ensures var fields := FieldsOf(t);
              var primaryKey := Proc.AnnotationPrimaryKey(t);
              var definitions := ColumnDefinitions(serializer, primaryKey, fields).value;
              && Model.TableName(t).Ok?
              && CreateTableSqlOf(t, serializer).value
                 == Proc.CREATE_TABLE + Model.TableName(t).value + "(" + Seqs.Join(definitions, Proc.COMMA) + ")"
              && |definitions| == |fields| > 0
              && Proc.HasKeyField(fields, primaryKey)
              && forall i :: 0 <= i < |fields| ==>
                   && Model.GetDatabaseFieldName(fields[i]).Ok? && DatabaseTypeOf(serializer, fields[i]).Ok?
                   && definitions[i] == Model.GetDatabaseFieldName(fields[i]).value + " "
                                        + DatabaseTypeOf(serializer, fields[i]).value
                                        + (if Proc.IsKeyField(fields[i], primaryKey) then Proc.PRIMARY_KEY_SUFFIX else "")
  {
    var fields := FieldsOf(t);
    var primaryKey := Proc.AnnotationPrimaryKey(t);
    assert |fields| > 0 && ColumnDefinitions(serializer, primaryKey, fields).Ok?;
    Results.MapOrFailOk(fields, ColumnDefinitionOf(serializer, primaryKey));
  }

  /** Without a `@PrimaryKey` marker and with an empty `primaryKey`, no
      statement is produced: once the columns are built the failure is the
      missing key. */
  lemma CreateTableNeedsKey(t: TypeElement, serializer: Option<TypeElement>)
    requires forall f :: f in FieldsOf(t) ==> !Model.IsPrimaryKeyMarked(f)
    requires Proc.AnnotationPrimaryKey(t) == ""
    ensures CreateTableSqlOf(t, serializer).Err?
    ensures |FieldsOf(t)| > 0 && Model.EntityAnnotation(t).Some?
            && ColumnDefinitions(serializer, "", FieldsOf(t)).Ok? ==>
              CreateTableSqlOf(t, serializer) == Err(IllegalState(Proc.NO_KEY_FOUND + t.simpleName))
  {
  }

  lemma {:induction false} MapOrFailAgrees<T, U>(items: seq<T>, f: T -> Result<U>, g: T -> Result<U>)
    requires forall x :: x in items ==> (f(x).Ok? <==> g(x).Ok?) && (f(x).Ok? ==> f(x) == g(x))
    ensures Results.MapOrFail(items, f).Ok? <==> Results.MapOrFail(items, g).Ok?
    ensures Results.MapOrFail(items, f).Ok? ==> Results.MapOrFail(items, f) == Results.MapOrFail(items, g)
  {
    if |items| > 0 {
      MapOrFailAgrees(items[1..], f, g);
    }
  }

  /** When every member carries a modifier and the serializer is resolved,
      the statement is exactly the storage processor's, and the two fail on
      the same classes. */
  lemma CreateTableAgreesWithProcessor(t: TypeElement, serializer: TypeElement)
    requires forall e :: e in ElementsOf(t) ==> e.modifiers != {}
    ensures CreateTableSqlOf(t, Some(serializer)).Ok? <==> Proc.CreateTableSqlOf(t, serializer).Ok?
    ensures CreateTableSqlOf(t, Some(serializer)).Ok? ==>
              CreateTableSqlOf(t, Some(serializer)) == Proc.CreateTableSqlOf(t, serializer)
  {
    FieldsOfProperties(t);
    var fields := FieldsOf(t);
    var primaryKey := Proc.AnnotationPrimaryKey(t);
    forall x | x in fields
      ensures (ColumnDefinitionOf(Some(serializer), primaryKey)(x).Ok? <==> Proc.ColumnDefinitionOf(serializer, primaryKey)(x).Ok?)
              && (ColumnDefinitionOf(Some(serializer), primaryKey)(x).Ok? ==>
                    ColumnDefinitionOf(Some(serializer), primaryKey)(x) == Proc.ColumnDefinitionOf(serializer, primaryKey)(x))
    {
      ColumnDefinitionAgrees(serializer, primaryKey, x);
    }
    MapOrFailAgrees(fields, ColumnDefinitionOf(Some(serializer), primaryKey), Proc.ColumnDefinitionOf(serializer, primaryKey));
    assert ColumnDefinitions(Some(serializer), primaryKey, fields) == Results.MapOrFail(fields, ColumnDefinitionOf(Some(serializer), primaryKey));
    assert Proc.ColumnDefinitions(serializer, primaryKey, fields) == Results.MapOrFail(fields, Proc.ColumnDefinitionOf(serializer, primaryKey));
  }

  /** One column's definition is the storage processor's, once the
      serializer is resolved. */
  lemma ColumnDefinitionAgrees(serializer: TypeElement, primaryKey: string, field: Element)
    ensures ColumnDefinition(Some(serializer), primaryKey, field).Ok? <==> Proc.ColumnDefinition(serializer, primaryKey, field).Ok?
    ensures ColumnDefinition(Some(serializer), primaryKey, field).Ok? ==>
              ColumnDefinition(Some(serializer), primaryKey, field) == Proc.ColumnDefinition(serializer, primaryKey, field)
  {
  }

  // ------------------------------------------------------------ the class

  /** `asTypeElement`: the class of a mirror.  A type variable's element is
      not a class and fails the cast; other non-declared types have none. */
  function AsTypeElement(mirror: TypeMirror): Result<Option<TypeElement>> {
    match mirror
    case DeclaredType(decl, _) => Ok(Some(decl))
    case TypeVariable(_) => Err(ClassCast(NOT_A_TYPE_ELEMENT))
    case _ => Ok(None)
  }

  /** What `getSerializerType` resolves: the class named by the annotation's
      `serializer`, or null when the mirror names no class. */
  function ResolvedSerializer(t: TypeElement): (r: Result<Option<TypeElement>>)
    ensures r.Err? <==> Model.EntityAnnotation(t).None? || Model.EntityAnnotation(t).value.serializer.TypeVariable?
    ensures r.Ok? ==> (r.value.Some? <==> Model.EntityAnnotation(t).value.serializer.DeclaredType?)
    ensures r.Ok? && r.value.Some? ==> r.value.value == Model.EntityAnnotation(t).value.serializer.decl
  {
    var annotation := Model.EntityAnnotation(t);
    if annotation.None? then Err(NullPointer(Proc.NO_ENTITY_ANNOTATION))
    else AsTypeElement(annotation.value.serializer)
  }

  /** The nullable fields of an `EntityType`; `None` stands for null. */
  datatype Caches = Caches(
    elementsInType: Option<seq<Element>>, fields: Option<seq<Element>>, methods: Option<seq<Element>>,
    serializer: Option<TypeElement>, methodsInSerializer: Option<seq<Element>>,
    serializeMethods: Option<seq<Element>>, deserializeMethods: Option<seq<Element>>)

  /** What the caches of the class for `t` may hold: each list, once
      computed, is the one its getter computes, and the serializer lists
      are those of the resolved serializer. */
  predicate Cached(t: TypeElement, c: Caches) {
    && (c.elementsInType.Some? ==> c.elementsInType.value == ElementsOf(t))
    && (c.fields.Some? ==> c.fields.value == FieldsOf(t))
    && (c.methods.Some? ==> c.methods.value == MethodsOf(t))
    && (c.serializer.Some? ==> ResolvedSerializer(t) == Ok(c.serializer))
    && (c.methodsInSerializer.Some? ==> MethodsInSerializer(c.serializer) == Ok(c.methodsInSerializer.value))
    && (c.serializeMethods.Some? ==> SerializeMethods(c.serializer) == Ok(c.serializeMethods.value))
    && (c.deserializeMethods.Some? ==> DeserializeMethods(c.serializer) == Ok(c.deserializeMethods.value))
  }

  /** A cache, once filled, keeps its value. */
  predicate Extends(before: Caches, after: Caches) {
    && (before.elementsInType.Some? ==> after.elementsInType == before.elementsInType)
    && (before.fields.Some? ==> after.fields == before.fields)
    && (before.methods.Some? ==> after.methods == before.methods)
    && (before.serializer.Some? ==> after.serializer == before.serializer)
    && (before.methodsInSerializer.Some? ==> after.methodsInSerializer == before.methodsInSerializer)
    && (before.serializeMethods.Some? ==> after.serializeMethods == before.serializeMethods)
    && (before.deserializeMethods.Some? ==> after.deserializeMethods == before.deserializeMethods)
  }

  /** The read accessor of every stored field, by column name. */
  function GetterEntry(t: TypeElement, serializer: Option<TypeElement>, field: Element): Result<(string, string)> {
    var name :- DatabaseFieldName(field);
    var getter :- GetterOf(t, serializer, field);
    Ok((name, getter))
  }

  function GetterEntryOf(t: TypeElement, serializer: Option<TypeElement>): Element -> Result<(string, string)> {
    field => GetterEntry(t, serializer, field)
  }

  /** What `getFieldMethodGetter` builds: each field's getter put under its
      column name, field by field. */
  function GetterMapOf(t: TypeElement, serializer: Option<TypeElement>, fields: seq<Element>): Result<map<string, string>> {
    var entries :- Results.MapOrFail(fields, GetterEntryOf(t, serializer));
    Ok(Seqs.MapOfPairs(entries))
  }

  function SetterOfField(t: TypeElement, serializer: Option<TypeElement>): Element -> Result<string> {
    field => SetterOf(t, serializer, field)
  }

  /** What `getSetterMethodParts` returns: the setter of every stored field,
      in field order. */
  function SetterPartsOf(t: TypeElement, serializer: Option<TypeElement>, fields: seq<Element>): Result<seq<string>> {
    Results.MapOrFail(fields, SetterOfField(t, serializer))
  }

  class EntityType {
    const typeElement: TypeElement
    var elementsInType: Option<seq<Element>>
    var fields: Option<seq<Element>>
    var methods: Option<seq<Element>>
    var serializer: Option<TypeElement>
    var methodsInSerializer: Option<seq<Element>>
    var serializeMethods: Option<seq<Element>>
    var deserializeMethods: Option<seq<Element>>

    ghost function State(): Caches
      reads this
    {
      Caches(elementsInType, fields, methods, serializer, methodsInSerializer, serializeMethods, deserializeMethods)
    }

    ghost predicate Valid()
      reads this
    {
      Cached(typeElement, State())
    }

    /** Still valid, with every cache filled in `before` unchanged and the
        same serializer. */
    ghost predicate Kept(before: Caches)
      reads this
    {
      Valid() && Extends(before, State()) && serializer == before.serializer
    }

    constructor (typeElement: TypeElement)
      ensures this.typeElement == typeElement
      ensures State() == Caches(None, None, None, None, None, None, None)
      ensures Valid()
    {
      this.typeElement := typeElement;
      elementsInType := None;
      fields := None;
      methods := None;
      serializer := None;
      methodsInSerializer := None;
      serializeMethods := None;
      deserializeMethods := None;
    }

    /** `getElementsInType`. */
    method GetElementsInType() returns (r: seq<Element>)
      requires Valid()
      modifies this
      ensures Valid() && Extends(old(State()), State())
      ensures r == ElementsOf(typeElement)
      ensures State() == old(State()).(elementsInType := Some(r))
    {
      if elementsInType.None? {
        var found := ElementUtils.GetElementsInTypeElement(typeElement);
        elementsInType := Some(found);
      }
      r := elementsInType.value;
    }

    /** `getFieldsUsedInDatabase`. */
    method GetFieldsUsedInDatabase() returns (r: seq<Element>)
      requires Valid()
      modifies this
      ensures Valid() && Extends(old(State()), State())
      ensures r == FieldsOf(typeElement)
      ensures State() == old(State()).(elementsInType := elementsInType, fields := Some(r))
    {
      if fields.None? {
        var elements := GetElementsInType();
        var found := FilterColumnFields(elements);
        fields := Some(found);
      }
      r := fields.value;
    }

    /** `getMethods`. */
    method GetMethods() returns (r: seq<Element>)
      requires Valid()
      modifies this
      ensures Valid() && Extends(old(State()), State())
      ensures r == MethodsOf(typeElement)
      ensures State() == old(State()).(methods := Some(r))
    {
      if methods.None? {
        var found := ElementUtils.GetMethodsInTypeElement(typeElement);
        methods := Some(found);
      }
      r := methods.value;
    }

    /** `getSerializerType`: resolves the serializer on every call until a
        class is found. */
    method GetSerializerType() returns (r: Result<Option<TypeElement>>)
      requires Valid()
      modifies this
      ensures Valid() && Extends(old(State()), State())
      ensures r == ResolvedSerializer(typeElement)
      ensures r.Ok? ==> State() == old(State()).(serializer := r.value)
      ensures r.Err? ==> State() == old(State())
    {
      if serializer.None? {
        var annotation := Model.EntityAnnotation(typeElement);
        if annotation.None? {
          return Err(NullPointer(Proc.NO_ENTITY_ANNOTATION));
        }
        var resolved :- AsTypeElement(annotation.value.serializer);
        serializer := resolved;
      }
      return Ok(serializer);
    }

    /** `getSerializerTypeName`: the simple name of the resolved class. */
    method GetSerializerTypeName() returns (r: Result<string>)
      requires Valid()
      modifies this
      ensures Valid() && Extends(old(State()), State())
      ensures r.Ok? <==> ResolvedSerializer(typeElement).Ok? && ResolvedSerializer(typeElement).value.Some?
      ensures r.Ok? ==> r.value == ResolvedSerializer(typeElement).value.value.simpleName
    {
      var resolved :- GetSerializerType();
      if resolved.None? {
        return Err(NullPointer(NULL_SERIALIZER));
      }
      return Ok(resolved.value.simpleName);
    }

    /** `getSerializerQualifiedName`: the qualified name of the resolved
        class. */
    method GetSerializerQualifiedName() returns (r: Result<string>)
      requires Valid()
      modifies this
      ensures Valid() && Extends(old(State()), State())
      ensures r.Ok? <==> ResolvedSerializer(typeElement).Ok? && ResolvedSerializer(typeElement).value.Some?
      ensures r.Ok? ==> r.value == ResolvedSerializer(typeElement).value.value.qualifiedName
    {
      var resolved :- GetSerializerType();
      if resolved.None? {
        return Err(NullPointer(NULL_SERIALIZER));
      }
      return Ok(resolved.value.qualifiedName);
    }

    /** `getMethodsInSerializer`: reads the serializer field without
        resolving it, so it throws until `getSerializerType` has found a
        class. */
    method GetMethodsInSerializer() returns (r: Result<seq<Element>>)
      requires Valid()
      modifies this
      ensures Valid() && Extends(old(State()), State())
      ensures r == MethodsInSerializer(serializer)
      ensures r.Ok? ==> State() == old(State()).(methodsInSerializer := Some(r.value))
      ensures r.Err? ==> State() == old(State())
    {
      if methodsInSerializer.None? {
        if serializer.None? {
          return Err(NullPointer(NULL_SERIALIZER));
        }
        var found := ElementUtils.GetMethodsInTypeElement(serializer.value);
        methodsInSerializer := Some(found);
      }
      return Ok(methodsInSerializer.value);
    }

    /** `getSerializeMethodsInSerializer`. */
    method GetSerializeMethodsInSerializer() returns (r: Result<seq<Element>>)
      requires Valid()
      modifies this
      ensures Valid() && Extends(old(State()), State())
      ensures r == SerializeMethods(serializer)
      ensures r.Ok? ==> State() == old(State()).(methodsInSerializer := methodsInSerializer, serializeMethods := Some(r.value))
      ensures r.Err? ==> State() == old(State())
    {
      if serializeMethods.None? {
        var all :- GetMethodsInSerializer();
        var test := (item: Element) => Ok(Proc.IsSerializeMethod(item));
        var filtered := ListUtils.Filter(all, test);
        ListUtils.FilterOrFailTotal(all, test, Proc.IsSerializeMethod);
        serializeMethods := Some(filtered.value);
      }
      return Ok(serializeMethods.value);
    }

    /** `getDeserializeMethodsInSerializer`. */
    method GetDeserializeMethodsInSerializer() returns (r: Result<seq<Element>>)
      requires Valid()
      modifies this
      ensures Valid() && Extends(old(State()), State())
      ensures r == DeserializeMethods(serializer)
      ensures r.Ok? ==> State() == old(State()).(methodsInSerializer := methodsInSerializer, deserializeMethods := Some(r.value))
      ensures r.Err? ==> State() == old(State())
    {
      if deserializeMethods.None? {
        var all :- GetMethodsInSerializer();
        var test := (item: Element) => Ok(Proc.IsDeserializeMethod(item));
        var filtered := ListUtils.Filter(all, test);
        ListUtils.FilterOrFailTotal(all, test, Proc.IsDeserializeMethod);
        deserializeMethods := Some(filtered.value);
      }
      return Ok(deserializeMethods.value);
    }

    /** `getPrimaryKeyField`. */
    method GetPrimaryKeyField() returns (r: Result<Element>)
      requires Valid()
      modifies this
      ensures Valid() && Extends(old(State()), State()) && serializer == old(serializer)
      ensures r == PrimaryKeyFieldOf(typeElement)
    {
      var stored := GetFieldsUsedInDatabase();
      var field := ListUtils.FirstOrDefault(Seqs.Filter(stored, Model.IsPrimaryKeyMarked));
      if field.Some? {
        return Ok(field.value);
      }
      var named :- PrimaryKeyFieldUsingDatabaseEntity(typeElement, stored);
      if named.None? {
        return Err(IllegalState(Proc.NO_PRIMARY_KEY));
      }
      return Ok(named.value);
    }

    /** `getPrimaryKeyDbName`. */
    method GetPrimaryKeyDbName() returns (r: Result<string>)
      requires Valid()
      modifies this
      ensures Valid() && Extends(old(State()), State()) && serializer == old(serializer)
      ensures r == PrimaryKeyDbNameOf(typeElement)
    {
      var field :- GetPrimaryKeyField();
      r := DatabaseFieldName(field);
    }

    /** `findDirectGetter`. */
    method FindDirectGetter(field: Element) returns (r: Result<string>)
      requires Valid()
      modifies this
      ensures Valid() && Extends(old(State()), State()) && serializer == old(serializer)
      ensures r == DirectGetterOf(typeElement, field)
    {
      var all := GetMethods();
      var annotated := Model.FindMethodByFieldNameAndGetFieldAnnotation(all, field.simpleName);
      var method_ :- IllegalStateOf(annotated);
      if method_.Some? {
        return Ok(ITEM + "." + method_.value.simpleName + "()");
      }
      var conventional :- Model.FirstByFieldName(all, field.simpleName, if field.asType.BooleanType? then "is" else "get");
      if conventional.Some? {
        return Ok(ITEM + "." + conventional.value.simpleName + "()");
      }
      var accessible := ElementUtils.IsAccessable(field);
      if !accessible {
        return Err(IllegalState(Model.NO_ACCESS + field.simpleName + Model.IN + typeElement.simpleName));
      }
      return Ok(ITEM + "." + field.simpleName);
    }

    /** `getIdGetter`: the direct getter of the key field. */
    method GetIdGetter() returns (r: Result<string>)
      requires Valid()
      modifies this
      ensures Valid() && Extends(old(State()), State()) && serializer == old(serializer)
      ensures r.Ok? <==> PrimaryKeyFieldOf(typeElement).Ok? && DirectGetterOf(typeElement, PrimaryKeyFieldOf(typeElement).value).Ok?
      ensures r.Ok? ==> r == DirectGetterOf(typeElement, PrimaryKeyFieldOf(typeElement).value)
    {
      var key :- GetPrimaryKeyField();
      r := FindDirectGetter(key);
    }

    /** `findGetterInSerializer`. */
    method FindGetterInSerializer(field: Element) returns (r: Result<string>)
      requires Valid()
      modifies this
      ensures Valid() && Extends(old(State()), State()) && serializer == old(serializer)
      ensures r == SerializerGetterOf(typeElement, serializer, field)
    {
      var all :- GetSerializeMethodsInSerializer();
      var matching :- MethodsMatchingParameter(all, field);
      if |matching| == 0 {
        return Err(IllegalArgument(Proc.NO_METHOD_FOUND + TypeToString(field.asType)));
      }
      if |matching| > 1 {
        return Err(IllegalArgument(Proc.ONLY_ONE_SERIALIZE + Decimal.NatToString(|matching|) + Proc.SAME_PARAMETER_TYPE
                                   + TypeToString(field.asType)));
      }
      var directGetter :- FindDirectGetter(field);
      return Ok(SERIALIZER_FIELD + matching[0].simpleName + "(" + directGetter + ")");
    }

    /** `findGetter`. */
    method FindGetter(field: Element) returns (r: Result<string>)
      requires Valid()
      modifies this
      ensures Valid() && Extends(old(State()), State()) && serializer == old(serializer)
      ensures r == GetterOf(typeElement, serializer, field)
    {
      var objectType :- ObjectTypeOf(KindOf(field.asType), field.asType);
      if objectType == OtherObject {
        r := FindGetterInSerializer(field);
      } else {
        r := FindDirectGetter(field);
      }
    }

    /** `getDeserializeMethodForFieldElement`. */
    method GetDeserializeMethodForFieldElement(field: Element) returns (r: Result<string>)
      requires Valid()
      modifies this
      ensures Valid() && Extends(old(State()), State()) && serializer == old(serializer)
      ensures r == DeserializerCallOf(serializer, field)
    {
      var all :- GetDeserializeMethodsInSerializer();
      var m :- IllegalStateOf(Proc.GetMethodMatchingReturnType(all, field));
      if |m.parameters| != 1 {
        return Err(IllegalState(DESERIALIZE_ONE_PARAMETER + Decimal.NatToString(|m.parameters|)
                                + Proc.PARAMETERS_FOR_METHOD + m.simpleName));
      }
      var parameterType := m.parameters[0].asType;
      var parameterObjectType :- ObjectTypeOf(KindOf(parameterType), parameterType);
      if parameterObjectType == OtherObject {
        return Err(IllegalArgument(DESERIALIZE_NOT_NATIVE + m.simpleName));
      }
      var valuePart :- NativeValuePart(parameterObjectType, field);
      return Ok(SERIALIZER_FIELD + m.simpleName + "(" + valuePart + ")");
    }

    /** `getValuePart`. */
    method GetValuePart(objectType: ObjectType, field: Element) returns (r: Result<string>)
      requires Valid()
      modifies this
      ensures Valid() && Extends(old(State()), State()) && serializer == old(serializer)
      ensures r == ValuePartOf(objectType, serializer, field)
    {
      if objectType == OtherObject {
        r := GetDeserializeMethodForFieldElement(field);
      } else {
        r := NativeValuePart(objectType, field);
      }
    }

    /** `getSetterWithParam`. */
    method GetSetterWithParam(field: Element) returns (r: Result<string>)
      requires Valid()
      modifies this
      ensures Valid() && Extends(old(State()), State()) && serializer == old(serializer)
      ensures r == SetterOf(typeElement, serializer, field)
    {
      var objectType :- ObjectTypeOf(KindOf(field.asType), field.asType);
      var valuePart :- GetValuePart(objectType, field);
      var all := GetMethods();
      var annotated := Model.FirstByFieldNameAndSetFieldAnnotation(all, field.simpleName);
      var method_ :- IllegalStateOf(annotated);
      if method_.Some? {
        return Ok(method_.value.simpleName + "(" + valuePart + ")");
      }
      var conventional :- Model.FirstByFieldName(all, field.simpleName, "set");
      if conventional.Some? {
        return Ok(conventional.value.simpleName + "(" + valuePart + ")");
      }
      var accessible := ElementUtils.IsAccessable(field);
      if !accessible {
        return Err(IllegalState(Model.NO_ACCESS + field.simpleName + Model.IN + typeElement.simpleName));
      }
      return Ok(field.simpleName + "=" + valuePart);
    }

    /** `getDatabaseType`. */
    method GetDatabaseType(field: Element) returns (r: Result<string>)
      requires Valid()
      modifies this
      ensures Valid() && Extends(old(State()), State()) && serializer == old(serializer)
      ensures r == DatabaseTypeOf(serializer, field)
    {
      if IsNativePrimitive(field.asType) || IsDeclaredString(field.asType) {
        return NativeTypeForDatabase(field);
      }
      if !field.asType.DeclaredType? {
        return Err(UnsupportedOperation(field.simpleName + TYPE_NOT_KNOWN));
      }
      var all :- GetDeserializeMethodsInSerializer();
      return DatabaseTypeFromSerializer(all, field);
    }

    /** One pass of the loop of `createTableSql`. */
    method AppendColumn(primaryKey: string, field: Element) returns (r: Result<(string, bool)>)
      requires Valid()
      modifies this
      ensures Valid() && Extends(old(State()), State()) && serializer == old(serializer)
      ensures r.Err? ==> ColumnDefinition(serializer, primaryKey, field) == Err(r.error)
      ensures r.Ok? ==> && ColumnDefinition(serializer, primaryKey, field).Ok?
                        && r.value == (ColumnDefinition(serializer, primaryKey, field).value, Proc.IsKeyField(field, primaryKey))
    {
      var fieldName :- DatabaseFieldName(field);
      var fieldType :- GetDatabaseType(field);
      var definition := fieldName + " " + fieldType;
      var isKey := false;
      if Model.IsPrimaryKeyMarked(field) || (primaryKey != "" && primaryKey == field.simpleName) {
        definition := definition + Proc.PRIMARY_KEY_SUFFIX;
        isKey := true;
      } else {
        assert definition + "" == definition;
      }
      return Ok((definition, isKey));
    }

    /** The loop of `createTableSql`. */
    method AppendColumns(head: string, primaryKey: string, stored: seq<Element>) returns (r: Result<(string, bool)>)
      requires Valid()
      requires |stored| > 0
      modifies this
      ensures Valid() && Extends(old(State()), State()) && serializer == old(serializer)
      ensures var definitions := ColumnDefinitions(serializer, primaryKey, stored);
              && (r.Err? ==> definitions == Err(r.error))
              && (r.Ok? ==> definitions.Ok? && r.value == (head + Seqs.Join(definitions.value, Proc.COMMA),
                                                           Proc.HasKeyField(stored, primaryKey)))
    {
      var builder := head;
      var primaryKeySet := false;
      ghost var definitions: seq<string> := [];
      ghost var column := ColumnDefinitionOf(serializer, primaryKey);
      ghost var before := State();
      for i := 0 to |stored|
        invariant Kept(before)
        invariant Results.MapOrFail(stored[..i], column) == Ok(definitions)
        invariant i < |stored| ==> builder == head + Seqs.Terminated(definitions, Proc.COMMA)
        invariant i == |stored| ==> builder == head + Seqs.Join(definitions, Proc.COMMA)
        invariant primaryKeySet <==> Proc.HasKeyField(stored[..i], primaryKey)
      {
        var field := stored[i];
        Results.MapOrFailStep(stored, i, column);
        var appended := AppendColumn(primaryKey, field);
        if appended.Err? {
          Results.MapOrFailPrefixErr(stored, i + 1, column);
          return Err(appended.error);
        }
        var definition := appended.value.0;
        primaryKeySet := primaryKeySet || appended.value.1;
        builder := Proc.AppendPart(builder, definition, i < |stored| - 1, head, definitions);
        definitions := definitions + [definition];
        Proc.HasKeyFieldSnoc(stored, i, primaryKey);
      }
      assert stored[..|stored|] == stored;
      return Ok((builder, primaryKeySet));
    }

    /** `createTableSql`. */
    method CreateTableSql() returns (r: Result<string>)
      requires Valid()
      modifies this
      ensures Valid() && Extends(old(State()), State()) && serializer == old(serializer)
      ensures r == CreateTableSqlOf(typeElement, serializer)
    {
      var stored := GetFieldsUsedInDatabase();
      if |stored| == 0 {
        return Err(IllegalArgument(Proc.NO_FIELDS_FOUND + typeElement.simpleName));
      }
      var table :- TableName(typeElement);
      var primaryKey := Model.EntityAnnotation(typeElement).value.primaryKey;
      var columns :- AppendColumns(Proc.CREATE_TABLE + table + "(", primaryKey, stored);
      if !columns.1 {
        return Err(IllegalState(Proc.NO_KEY_FOUND + typeElement.simpleName));
      }
      return Ok(columns.0 + ")");
    }

    /** `getSetterMethodParts`: `mapItems` over the stored fields. */
    method GetSetterMethodParts() returns (r: Result<seq<string>>)
      requires Valid()
      modifies this
      ensures Valid() && Extends(old(State()), State()) && serializer == old(serializer)
      ensures r == SetterPartsOf(typeElement, serializer, FieldsOf(typeElement))
    {
      var stored := GetFieldsUsedInDatabase();
      ghost var setter := SetterOfField(typeElement, serializer);
      ghost var before := State();
      var parts: seq<string> := [];
      for i := 0 to |stored|
        invariant Kept(before)
        invariant Results.MapOrFail(stored[..i], setter) == Ok(parts)
      {
        var field := stored[i];
        Results.MapOrFailStep(stored, i, setter);
        var part := GetSetterWithParam(field);
        if part.Err? {
          Results.MapOrFailPrefixErr(stored, i + 1, setter);
          return Err(part.error);
        }
        parts := parts + [part.value];
      }
      assert stored[..|stored|] == stored;
      return Ok(parts);
    }

    /** One pass of the loop of `getFieldMethodGetter`. */
    method GetterEntryFor(field: Element) returns (r: Result<(string, string)>)
      requires Valid()
      modifies this
      ensures Valid() && Extends(old(State()), State()) && serializer == old(serializer)
      ensures r == GetterEntry(typeElement, serializer, field)
    {
      var fieldName :- DatabaseFieldName(field);
      var getter :- FindGetter(field);
      return Ok((fieldName, getter));
    }

    /** `getFieldMethodGetter`: puts each field's getter under its column
        name. */
    method GetFieldMethodGetter() returns (r: Result<map<string, string>>)
      requires Valid()
      modifies this
      ensures Valid() && Extends(old(State()), State()) && serializer == old(serializer)
      ensures r == GetterMapOf(typeElement, serializer, FieldsOf(typeElement))
    {
      var stored := GetFieldsUsedInDatabase();
      ghost var entry := GetterEntryOf(typeElement, serializer);
      ghost var before := State();
      ghost var entries: seq<(string, string)> := [];
      var fieldGetters: map<string, string> := map[];
      for i := 0 to |stored|
        invariant Kept(before)
        invariant Results.MapOrFail(stored[..i], entry) == Ok(entries)
        invariant fieldGetters == Seqs.MapOfPairs(entries)
      {
        var field := stored[i];
        Results.MapOrFailStep(stored, i, entry);
        var pair := GetterEntryFor(field);
        if pair.Err? {
          Results.MapOrFailPrefixErr(stored, i + 1, entry);
          return Err(pair.error);
        }
        Seqs.MapOfPairsSnoc(entries, pair.value);
        fieldGetters := fieldGetters[pair.value.0 := pair.value.1];
        entries := entries + [pair.value];
      }
      assert stored[..|stored|] == stored;
      return Ok(fieldGetters);
    }
  }
}

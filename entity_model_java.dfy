/** `DatabaseEntityModel` of the Java generation: the object that resolves
    one `@DatabaseEntity` class for the generated mapper.  `initialize`
    runs a fixed pipeline of steps, each filling `HashMap`/`HashSet` fields
    of the object: the fields in use, the primary keys, the foreign-key
    actions, the sub-models (fields whose type is itself an entity), the
    column names, the get and set accessors, the serializers, the SQL types
    and cursor types, the `CREATE TABLE` statement, the serializer field
    names and the single-item `WHERE` clause.

    Each step is stated as a function of the fields it reads, and the
    properties are proved about those functions.  The class
    `DatabaseEntityModel` holds the fields and runs the steps with loops
    proved to compute the functions.  The iteration order of every hash
    collection is a parameter (`Environment`), so each property is proved
    for every order.
 */
module DatabaseEntityModelJava {
  import opened Wrappers
  import opened Elements
  import Seqs
  import Results
  import HashMaps
  import ElementExtensions
  import TypeUtils
  import StringUtils
  import Decimal
  import StringExtensions
  import EntityTypeJava

  const DEFAULT_DATE_SERIALIZER: string := "net.daverix.slingerorm.serialization.DateSerializer"

  /** The boxed and library types the type mapping recognises by name. */
  const TYPE_LONG: string := "java.lang.Long"
  const TYPE_INTEGER: string := "java.lang.Integer"
  const TYPE_SHORT: string := "java.lang.Short"
  const TYPE_DOUBLE: string := "java.lang.Double"
  const TYPE_FLOAT: string := "java.lang.Float"
  const TYPE_BOOLEAN: string := "java.lang.Boolean"
  const TYPE_DATE: string := "java.util.Date"

  const NO_ENTITY_ANNOTATION: string := "the class has no DatabaseEntity annotation"
  const NO_FIELDS: string := "Database Entity must have fields in order to be stored"
  const NO_PRIMARY_KEYS: string := "No primary keys found in entity! Annotate fields with @PrimaryKey or set the primary keys in the annotation"
  const EMPTY_COLUMN_NAME: string := "columnName must not be null or empty!"
  const SET_FIELD_INVALID: string := "@SetField does not point to a valid field"
  const SET_FIELD_ONE_PARAMETER: string := "@SetField method must have exactly one parameter"
  const SET_FIELD_TYPE: string := "@SetField method parameter doesn't have the same type as the field it points to"
  const SET_ONE_PARAMETER: string := "set method must have one parameter"
  const SET_TYPE: string := "set method parameter doesn't have the same type as the field it points to"
  const NO_SET_ACCESS: string := "No way to access field in class, consider adding a set method or make the field public. The set method might need a @SetField annotation"
  const GET_TYPE: string := "get method does not return the same type as the field it points to"
  const IS_FIELD_NOT_BOOLEAN: string := "is method must return boolean"
  const IS_RETURN_NOT_BOOLEAN: string := "is method must point to a boolean field"
  const GET_FIELD_INVALID: string := "GetField does not point to a valid field"
  const GET_FIELD_TYPE: string := "GetField method does not return the same type as the field it points to"
  const NO_GET_ACCESS: string := "No way to access field in class, consider adding a get method or make the field public. The get method might need a @GetField annotation"
  const DESERIALIZE_NOT_FOUND: string := "deserialize method not found, how?"
  const SERIALIZE_NOT_FOUND: string := "serialize method not found, how?"
  const SERIALIZE_NOT_DECLARED: string := "the serialize method does not return a declared type"
  const SERIALIZER_MISMATCH: string := "Serializer doesn't match the type of the field. Expected "
  const ONLY_ONE_KEY: string := "Only one primary key is supported when adding DatabaseEntity types"
  const NOT_KNOWN: string := "Type not known by SlingerORM, solve this by creating a custom serializer"
  const ELEMENT_IS_NULL: string := "element is null"
  const NO_DATABASE_TYPE: string := "the field has no database type"
  const FOREIGN_NO_KEY: string := "The field points to a database entity that doesn't have a primary key"
  const FOREIGN_MANY_KEYS: string := "The field points to a database entity which has more than one primary key which currently not supported."
  const NULL_SERIALIZER: string := "a field's serializer is null"
  const CREATE_TABLE_PREFIX: string := "CREATE TABLE IF NOT EXISTS "
  const BUT_GOT: string := " but got "
  const NO_KEY_IN_LIST: string := "Index: 0, Size: 0"
  const NO_SUB_MODEL: string := "the field has no sub-model"
  const FOREIGN_KEY_OPEN: string := ", FOREIGN KEY("
  const REFERENCES: string := ") REFERENCES "
  const ON_UPDATE: string := " ON UPDATE "
  const ON_DELETE: string := " ON DELETE "
  const PRIMARY_KEY_OPEN: string := ", PRIMARY KEY("

  const ARRAY_PREFIX: string := "Array of type "
  const TYPE_PREFIX: string := "Type "
  const UNKNOWN_SUFFIX: string := " is unknown, use a data type supported by SQLite or create a custom serializer"
  const CURSOR_SUFFIX: string := " can't be provided by an android cursor, use a custom serializer to solve this"
  const KEY_PREFIX: string := "Field \""
  const KEY_SUFFIX: string := "\"specified in DatabaseEntity as a primary key can't be found in the class or it's super class"

  function ArrayUnknown(component: TypeMirror): string {
    ARRAY_PREFIX + ElementExtensions.TypeToString(component) + UNKNOWN_SUFFIX
  }

  function TypeUnknown(t: TypeElement): string {
    TYPE_PREFIX + t.qualifiedName + UNKNOWN_SUFFIX
  }

  function CursorArrayUnknown(component: TypeMirror): string {
    ARRAY_PREFIX + ElementExtensions.TypeToString(component) + CURSOR_SUFFIX
  }

  function CursorTypeUnknown(t: TypeElement): string {
    TYPE_PREFIX + t.qualifiedName + CURSOR_SUFFIX
  }

  function KeyNotFound(field: string): string {
    KEY_PREFIX + field + KEY_SUFFIX
  }

  // ------------------------------------------------------------ enums

  /** How generated code reads or writes a field. */
  datatype FieldAccess = AnnotatedMethod | StandardMethod | DirectField

  /** The SQLite storage class of a column. */
  datatype ColumnDataType = INTEGER | REAL | TEXT | BLOB

  /** `ColumnDataType.name()`. */
  function ColumnDataTypeName(t: ColumnDataType): string {
    match t
    case INTEGER => "INTEGER"
    case REAL => "REAL"
    case TEXT => "TEXT"
    case BLOB => "BLOB"
  }

  /** The `Cursor` getter a column is read with. */
  datatype CursorType = BOOLEAN | SHORT | LONG | INT | FLOAT | DOUBLE | BYTE_ARRAY | STRING

  // ------------------------------------------------------------ environment

  /** What the object takes from the running compiler: the iteration order
      of hash collections keyed by field names and of the set of serializer
      classes (which may hold null), `Elements.getPackageOf`, and
      `Elements.getTypeElement` of the default date serializer (`None` when
      that class is not found). */
  datatype Environment = Environment(
    keyOrder: set<string> -> seq<string>,
    serializerOrder: set<Option<TypeElement>> -> seq<Option<TypeElement>>,
    packageOf: TypeElement -> string,
    dateSerializer: Option<TypeElement>)

  /** Every order lists each member of its set exactly once. */
  ghost predicate ValidEnvironment(env: Environment) {
    (forall keys :: HashMaps.Enumerates(env.keyOrder(keys), keys))
    && (forall types :: HashMaps.Enumerates(env.serializerOrder(types), types))
  }

  // ------------------------------------------------------------ size of a class

  /** A measure that shrinks from a class to the class of any of its
      members' or ancestors' members' types: the recursion into sub-models
      terminates on it. */
  function TypeSize(t: TypeElement): nat
    decreases t, 1
  {
    1 + MembersSize(t.enclosedElements) + MirrorSize(t.superclass)
  }

  function MembersSize(s: seq<Element>): nat
    decreases s, 0
  {
    if |s| == 0 then 0 else 1 + MirrorSize(s[0].asType) + MembersSize(s[1..])
  }

  function MirrorSize(m: TypeMirror): nat
    decreases m, 0
  {
    match m
    case ArrayType(c) => 1 + MirrorSize(c)
    case DeclaredType(d, _) => 1 + TypeSize(d)
    case _ => 1
  }

  lemma {:induction false} MemberSmaller(s: seq<Element>, e: Element)
    requires e in s
    ensures MirrorSize(e.asType) < MembersSize(s)
    decreases |s|
  {
    if s[0] != e { MemberSmaller(s[1..], e); }
  }

  /** A member of the class or an ancestor has a smaller type. */
  lemma {:induction false} ChainSmaller(t: TypeElement, e: Element)
    requires e in ElementExtensions.Chain(t)
    ensures MirrorSize(e.asType) < TypeSize(t)
    decreases t
  {
    if e in t.enclosedElements {
      MemberSmaller(t.enclosedElements, e);
    } else {
      ChainSmaller(t.superclass.decl, e);
    }
  }

  lemma {:induction false} UnseenIn(s: seq<Element>, seen: set<string>, e: Element)
    requires e in ElementExtensions.Unseen(s, seen)
    ensures e in s
    decreases |s|
  {
    if s[0] != e {
      UnseenIn(s[1..], if s[0].simpleName in seen then seen else seen + {s[0].simpleName}, e);
    }
  }

  // ------------------------------------------------------------ the resolved model

  /** The fields of a `DatabaseEntityModel` once `initialize` has returned;
      a sub-model is the model of the field's entity class.  `None` in
      `fieldSerializer` is a null value put under the field. */
  datatype Model = Model(
    typeElement: TypeElement,
    mapperPackageName: string,
    mapperClassName: string,
    databaseEntityClassName: string,
    tableName: string,
    fieldsInUse: map<string, Element>,
    primaryKeyFields: set<string>,
    foreignKeyOnUpdate: map<string, ForeignKeyAction>,
    foreignKeyOnDelete: map<string, ForeignKeyAction>,
    subModels: map<string, Model>,
    columnNames: map<string, string>,
    annotatedGetMethods: map<string, string>,
    getMethods: map<string, string>,
    fieldGetAccess: map<string, FieldAccess>,
    annotatedSetMethods: map<string, string>,
    setMethods: map<string, string>,
    fieldSetAccess: map<string, FieldAccess>,
    fieldSerializer: map<string, Option<TypeElement>>,
    fieldDatabaseTypes: map<string, ColumnDataType>,
    cursorTypes: map<string, CursorType>,
    createTableSql: string,
    fieldNameOccurrences: map<string, nat>,
    serializerFieldClassNames: map<string, string>,
    serializerQualifiedNames: set<string>,
    fieldSerializerNames: map<string, string>,
    itemSql: string,
    itemSqlArgFields: seq<string>)

  /** `columnNames.get(field)` in string concatenation: a missing entry
      prints as `null`. */
  function ColumnOrNull(columnNames: map<string, string>, field: string): string {
    if field in columnNames then columnNames[field] else "null"
  }

  // ------------------------------------------------------------ names

  /** The mapper class is named after the entity. */
  function MapperClassName(t: TypeElement): (r: string)
    ensures |r| == |t.simpleName| + 6 && r[..|t.simpleName|] == t.simpleName && r[|t.simpleName|..] == "Mapper"
  {
    t.simpleName + "Mapper"
  }

  /** The table is named by the annotation's `name` when it is non-empty,
      otherwise after the class; a class without the annotation fails. */
  function TableName(t: TypeElement): (r: Result<string>)
    ensures r.Ok? <==> HasAnnotation(t.typeAnnotations, DatabaseEntityClass)
    ensures r.Err? ==> r.error.NullPointer?
    ensures r.Ok? ==>
              var name := GetAnnotation(t.typeAnnotations, DatabaseEntityClass).value.name;
              (name != "" ==> r.value == name) && (name == "" ==> r.value == t.simpleName)
  {
    var annotation := GetAnnotation(t.typeAnnotations, DatabaseEntityClass);
    if annotation.None? then Err(NullPointer(NO_ENTITY_ANNOTATION))
    else
      var name := annotation.value.name;
      Ok(if name == "" then t.simpleName else name)
  }

  // ------------------------------------------------------------ fields

  /** `isDatabaseField`: neither static, nor transient, nor `NotDatabaseField`. */
  predicate IsDatabaseField(field: Element) {
    Static !in field.modifiers && Transient !in field.modifiers
    && !HasAnnotation(field.annotations, NotDatabaseFieldClass)
  }

  predicate IsColumnField(e: Element) {
    e.kind == FieldKind && IsDatabaseField(e)
  }

  /** The members of the class and its superclasses that are stored. */
  function ColumnFields(t: TypeElement): seq<Element> {
    Seqs.Filter(ElementExtensions.ElementsOf(t), IsColumnField)
  }

  /** The map the `put(simpleName, field)` loop builds. */
  function FieldsByName(fields: seq<Element>): map<string, Element> {
    if |fields| == 0 then map[]
    else FieldsByName(fields[..|fields| - 1])[fields[|fields| - 1].simpleName := fields[|fields| - 1]]
  }

  /** `findFieldsInUse`: the stored fields by simple name; none fails. */
  function FieldsInUse(t: TypeElement): Result<map<string, Element>> {
    var fields := ColumnFields(t);
    if |fields| == 0 then Err(InvalidElement(NO_FIELDS))
    else Ok(FieldsByName(fields))
  }

  /** Each field is stored under its own simple name. */
  lemma {:induction false} FieldsByNameValues(fields: seq<Element>)
    ensures forall name :: name in FieldsByName(fields) ==>
              FieldsByName(fields)[name] in fields && FieldsByName(fields)[name].simpleName == name
  {
    if |fields| > 0 {
      FieldsByNameValues(fields[..|fields| - 1]);
    }
  }

  lemma {:induction false} FieldsByNameKeys(fields: seq<Element>)
    ensures forall e :: e in fields ==> e.simpleName in FieldsByName(fields)
  {
    if |fields| > 0 {
      FieldsByNameKeys(fields[..|fields| - 1]);
      assert fields == fields[..|fields| - 1] + [fields[|fields| - 1]];
    }
  }

  lemma ColumnFieldsMembers(t: TypeElement)
    ensures forall e :: e in ColumnFields(t) <==> e in ElementExtensions.ElementsOf(t) && IsColumnField(e)
  {
    forall e ensures e in ColumnFields(t) <==> e in ElementExtensions.ElementsOf(t) && IsColumnField(e) {
      Seqs.FilterMembers(ElementExtensions.ElementsOf(t), IsColumnField, e);
    }
  }

  /** A class without stored fields fails. */
  lemma FieldsInUseErr(t: TypeElement)
    ensures FieldsInUse(t).Err? <==> forall e :: e in ElementExtensions.ElementsOf(t) ==> !IsColumnField(e)
    ensures FieldsInUse(t).Err? ==> FieldsInUse(t).error == InvalidElement(NO_FIELDS)
  {
    ColumnFieldsMembers(t);
    if |ColumnFields(t)| > 0 {
      assert ColumnFields(t)[0] in ColumnFields(t);
    }
  }

  /** Every field in use is a stored member of the class or of a
      superclass, under its own simple name. */
  lemma FieldsInUseValues(t: TypeElement)
    requires FieldsInUse(t).Ok?
    ensures forall name :: name in FieldsInUse(t).value ==>
              var e := FieldsInUse(t).value[name];
              e.simpleName == name && IsColumnField(e) && e in ElementExtensions.ElementsOf(t)
  {
    ColumnFieldsMembers(t);
    FieldsByNameValues(ColumnFields(t));
  }

  /** A member of the class (or of a superclass, unless hidden by a nearer
      member of the same name) is in use iff it is a field that is neither
      static, nor transient, nor `NotDatabaseField`. */
  lemma FieldsInUseMembers(t: TypeElement)
    requires FieldsInUse(t).Ok?
    ensures forall e :: e in ElementExtensions.ElementsOf(t) ==>
              (IsColumnField(e) <==> e.simpleName in FieldsInUse(t).value && FieldsInUse(t).value[e.simpleName] == e)
  {
    var elements := ElementExtensions.ElementsOf(t);
    var fields := ColumnFields(t);
    var inUse := FieldsByName(fields);
    ColumnFieldsMembers(t);
    FieldsByNameValues(fields);
    FieldsByNameKeys(fields);
    ElementExtensions.UnseenDistinctNames(ElementExtensions.Chain(t), {});
    forall e | e in elements && IsColumnField(e) ensures inUse[e.simpleName] == e {
      var other := inUse[e.simpleName];
      var i :| 0 <= i < |elements| && elements[i] == e;
      var j :| 0 <= j < |elements| && elements[j] == other;
      assert i == j;
    }
  }

  /** The type of every field in use is smaller than the class. */
  lemma FieldsInUseSmaller(t: TypeElement)
    requires FieldsInUse(t).Ok?
    ensures forall name :: name in FieldsInUse(t).value ==> MirrorSize(FieldsInUse(t).value[name].asType) < TypeSize(t)
  {
    FieldsInUseValues(t);
    forall name | name in FieldsInUse(t).value ensures MirrorSize(FieldsInUse(t).value[name].asType) < TypeSize(t) {
      UnseenIn(ElementExtensions.Chain(t), {}, FieldsInUse(t).value[name]);
      ChainSmaller(t, FieldsInUse(t).value[name]);
    }
  }

  // ------------------------------------------------------------ primary keys

  /** The keys the annotation's `primaryKeyFields` lists, read in order:
      empty entries are skipped, and an entry that is not a field in use
      fails. */
  function AnnotationKeys(names: seq<string>, fieldsInUse: map<string, Element>): Result<set<string>> {
    if |names| == 0 then Ok({})
    else
      var keys :- AnnotationKeys(names[..|names| - 1], fieldsInUse);
      var field := names[|names| - 1];
      if field == "" then Ok(keys)
      else if field !in fieldsInUse then Err(InvalidElement(KeyNotFound(field)))
      else Ok(keys + {field})
  }

  /** The non-empty entries of a list of names. */
  function NonEmpty(names: seq<string>): set<string> {
    set f | f in names && f != ""
  }

  lemma NonEmptySnoc(names: seq<string>)
    requires |names| > 0
    ensures NonEmpty(names) == NonEmpty(names[..|names| - 1])
                               + (if names[|names| - 1] == "" then {} else {names[|names| - 1]})
  {
    assert names == names[..|names| - 1] + [names[|names| - 1]];
  }

  /** The listed keys are accepted iff every non-empty one is a field in use. */
  lemma {:induction false} AnnotationKeysOk(names: seq<string>, fieldsInUse: map<string, Element>)
    ensures AnnotationKeys(names, fieldsInUse).Ok? <==> NonEmpty(names) <= fieldsInUse.Keys
  {
    if |names| > 0 {
      AnnotationKeysOk(names[..|names| - 1], fieldsInUse);
      NonEmptySnoc(names);
    }
  }

  /** Accepted keys are exactly the non-empty entries. */
  lemma {:induction false} AnnotationKeysValue(names: seq<string>, fieldsInUse: map<string, Element>)
    ensures AnnotationKeys(names, fieldsInUse).Ok? ==> AnnotationKeys(names, fieldsInUse).value == NonEmpty(names)
  {
    if |names| > 0 {
      AnnotationKeysValue(names[..|names| - 1], fieldsInUse);
      NonEmptySnoc(names);
    }
  }

  /** Entry `i` is the first non-empty entry that is not a field in use. */
  predicate FirstMissingKey(names: seq<string>, fieldsInUse: map<string, Element>, i: int) {
    0 <= i < |names| && names[i] != "" && names[i] !in fieldsInUse
    && forall j :: 0 <= j < i ==> names[j] == "" || names[j] in fieldsInUse
  }

  /** A rejected list reports its first non-empty entry that is not a field
      in use. */
  lemma {:induction false} AnnotationKeysErr(names: seq<string>, fieldsInUse: map<string, Element>)
    requires AnnotationKeys(names, fieldsInUse).Err?
    ensures exists i :: FirstMissingKey(names, fieldsInUse, i)
                        && AnnotationKeys(names, fieldsInUse) == Err(InvalidElement(KeyNotFound(names[i])))
  {
    var n := |names| - 1;
    var init := names[..n];
    if AnnotationKeys(init, fieldsInUse).Err? {
      AnnotationKeysErr(init, fieldsInUse);
      var i :| FirstMissingKey(init, fieldsInUse, i)
               && AnnotationKeys(init, fieldsInUse) == Err(InvalidElement(KeyNotFound(init[i])));
      assert FirstMissingKey(names, fieldsInUse, i) by {
        assert forall j :: 0 <= j <= i ==> names[j] == init[j];
      }
    } else {
      AnnotationKeysOk(init, fieldsInUse);
      assert FirstMissingKey(names, fieldsInUse, n) by {
        forall j | 0 <= j < n ensures names[j] == "" || names[j] in fieldsInUse {
          assert names[j] == init[j] && init[j] in init;
        }
      }
    }
  }

  /** The fields marked `@PrimaryKey`. */
  function MarkedKeys(fieldsInUse: map<string, Element>): set<string> {
    set f | f in fieldsInUse && HasAnnotation(fieldsInUse[f].annotations, PrimaryKeyClass)
  }

  /** `findPrimaryKeyFields`: the keys listed in the annotation; only when
      there are none, the marked fields; an empty result fails.  The
      annotation is read without a null check. */
  function PrimaryKeys(t: TypeElement, fieldsInUse: map<string, Element>): Result<set<string>> {
    var annotation := GetAnnotation(t.typeAnnotations, DatabaseEntityClass);
    if annotation.None? then Err(NullPointer(NO_ENTITY_ANNOTATION))
    else
      var named :- AnnotationKeys(annotation.value.primaryKeyFields, fieldsInUse);
      if |named| > 0 then Ok(named)
      else
        var marked := MarkedKeys(fieldsInUse);
        if |marked| == 0 then Err(InvalidElement(NO_PRIMARY_KEYS))
        else Ok(marked)
  }

  /** The annotation's list, non-empty entries only. */
  function ListedKeys(t: TypeElement): set<string> {
    var annotation := GetAnnotation(t.typeAnnotations, DatabaseEntityClass);
    if annotation.None? then {} else NonEmpty(annotation.value.primaryKeyFields)
  }

  /** On an annotated class, the keys resolve iff every listed key is a
      field in use and some key is listed or marked. */
  lemma PrimaryKeysOk(t: TypeElement, fieldsInUse: map<string, Element>)
    requires HasAnnotation(t.typeAnnotations, DatabaseEntityClass)
    ensures PrimaryKeys(t, fieldsInUse).Ok?
        <==> ListedKeys(t) <= fieldsInUse.Keys && (ListedKeys(t) != {} || MarkedKeys(fieldsInUse) != {})
  {
    var annotation := GetAnnotation(t.typeAnnotations, DatabaseEntityClass);
    AnnotationKeysOk(annotation.value.primaryKeyFields, fieldsInUse);
    AnnotationKeysValue(annotation.value.primaryKeyFields, fieldsInUse);
  }

  /** The listed keys win; without them the marked fields are the keys. */
  lemma PrimaryKeysValue(t: TypeElement, fieldsInUse: map<string, Element>)
    requires PrimaryKeys(t, fieldsInUse).Ok?
    ensures PrimaryKeys(t, fieldsInUse).value == if ListedKeys(t) != {} then ListedKeys(t) else MarkedKeys(fieldsInUse)
  {
    var annotation := GetAnnotation(t.typeAnnotations, DatabaseEntityClass);
    AnnotationKeysValue(annotation.value.primaryKeyFields, fieldsInUse);
  }

  /** The keys are never empty and are always fields in use. */
  lemma PrimaryKeysInUse(t: TypeElement, fieldsInUse: map<string, Element>)
    requires PrimaryKeys(t, fieldsInUse).Ok?
    ensures PrimaryKeys(t, fieldsInUse).value != {} && PrimaryKeys(t, fieldsInUse).value <= fieldsInUse.Keys
  {
    var annotation := GetAnnotation(t.typeAnnotations, DatabaseEntityClass);
    AnnotationKeysOk(annotation.value.primaryKeyFields, fieldsInUse);
    AnnotationKeysValue(annotation.value.primaryKeyFields, fieldsInUse);
  }

  // ------------------------------------------------------------ foreign keys and sub-models

  /** The `OnUpdate` action of every field in use that has one. */
  function OnUpdateActions(fieldsInUse: map<string, Element>): map<string, ForeignKeyAction> {
    map f | f in fieldsInUse && HasAnnotation(fieldsInUse[f].annotations, OnUpdateClass)
          :: GetAnnotation(fieldsInUse[f].annotations, OnUpdateClass).value.updateAction
  }

  /** The `OnDelete` action of every field in use that has one. */
  function OnDeleteActions(fieldsInUse: map<string, Element>): map<string, ForeignKeyAction> {
    map f | f in fieldsInUse && HasAnnotation(fieldsInUse[f].annotations, OnDeleteClass)
          :: GetAnnotation(fieldsInUse[f].annotations, OnDeleteClass).value.deleteAction
  }

  /** `findSubModels`: the entity class of every field whose type is a
      declared class carrying the `DatabaseEntity` annotation. */
  function SubModelTypes(fieldsInUse: map<string, Element>): map<string, TypeElement> {
    map f | f in fieldsInUse && IsEntityType(fieldsInUse[f].asType) :: fieldsInUse[f].asType.decl
  }

  // ------------------------------------------------------------ column names

  /** The column of a field: its `ColumnName` value, or its simple name. */
  function ColumnNameOf(field: Element): string {
    var annotation := GetAnnotation(field.annotations, ColumnNameClass);
    if annotation.None? then field.simpleName else annotation.value.value
  }

  /** One turn of the `findColumnNames` loop. */
  function ColumnEntry(fieldsInUse: map<string, Element>, field: string): Result<Option<(string, string)>> {
    if field !in fieldsInUse then Ok(None)
    else
      var columnName := ColumnNameOf(fieldsInUse[field]);
      if columnName == "" then Err(InvalidElement(EMPTY_COLUMN_NAME))
      else Ok(Some((field, columnName)))
  }

  function ColumnEntries(fieldsInUse: map<string, Element>): string -> Result<Option<(string, string)>> {
    f => ColumnEntry(fieldsInUse, f)
  }

  /** `findColumnNames` over the key order `order`. */
  function ColumnNames(fieldsInUse: map<string, Element>, order: seq<string>): Result<map<string, string>> {
    HashMaps.PutEach(order, ColumnEntries(fieldsInUse))
  }

  /** Every field in use gets its column name, in any iteration order; an
      empty name fails. */
  lemma ColumnNamesOk(fieldsInUse: map<string, Element>, order: seq<string>)
    requires HashMaps.Enumerates(order, fieldsInUse.Keys)
    ensures ColumnNames(fieldsInUse, order).Ok? <==> forall f :: f in fieldsInUse ==> ColumnNameOf(fieldsInUse[f]) != ""
  {
    HashMaps.PutEachOk(order, ColumnEntries(fieldsInUse));
    if !ColumnNames(fieldsInUse, order).Ok? {
      var i :| 0 <= i < |order| && ColumnEntries(fieldsInUse)(order[i]).Err?;
      assert ColumnNameOf(fieldsInUse[order[i]]) == "";
    }
  }

  lemma ColumnNamesErr(fieldsInUse: map<string, Element>, order: seq<string>)
    requires ColumnNames(fieldsInUse, order).Err?
    ensures ColumnNames(fieldsInUse, order).error == InvalidElement(EMPTY_COLUMN_NAME)
  {
    HashMaps.PutEachErr(order, ColumnEntries(fieldsInUse));
  }

  lemma ColumnNamesValue(fieldsInUse: map<string, Element>, order: seq<string>)
    requires HashMaps.Enumerates(order, fieldsInUse.Keys)
    requires ColumnNames(fieldsInUse, order).Ok?
    ensures ColumnNames(fieldsInUse, order).value == map f | f in fieldsInUse :: ColumnNameOf(fieldsInUse[f])
  {
    HashMaps.PutEachByKey(order, ColumnEntries(fieldsInUse));
  }

  // ------------------------------------------------------------ get and set methods

  /** `name` is `prefix` followed by at least one character. */
  predicate HasPrefix(name: string, prefix: string) {
    |name| > |prefix| && name[..|prefix|] == prefix
  }

  /** The field a conventional accessor name points to: the rest of the
      name after the prefix, with its first character lower-cased. */
  function FieldOfAccessor(name: string, prefix: string): (r: string)
    requires HasPrefix(name, prefix)
    ensures |r| == |name| - |prefix| && r[0] == ToLower(name[|prefix|]) && r[1..] == name[|prefix| + 1..]
  {
    [ToLower(name[|prefix|])] + name[|prefix| + 1..]
  }

  /** `m` is named like an accessor of `field`: `prefix` + the field name
      with its first letter capitalised (or already lower-case). */
  predicate NamedAccessor(m: Element, prefix: string, field: string) {
    HasPrefix(m.simpleName, prefix) && field == FieldOfAccessor(m.simpleName, prefix)
  }

  /** One turn of the `findGetFieldMethods` loop. */
  function GetFieldEntry(fieldsInUse: map<string, Element>, m: Element): Result<Option<(string, string)>> {
    var annotation := GetAnnotation(m.annotations, GetFieldClass);
    if annotation.None? then Ok(None)
    else
      var fieldName := annotation.value.value;
      if fieldName !in fieldsInUse then Err(InvalidElement(GET_FIELD_INVALID))
      else if fieldsInUse[fieldName].asType != m.asType then Err(InvalidElement(GET_FIELD_TYPE))
      else Ok(Some((fieldName, m.simpleName)))
  }

  /** One turn of the `findGetMethods` loop: `get` + name, or else `is` +
      name, pointing to a field in use. */
  function GetMethodEntry(fieldsInUse: map<string, Element>, m: Element): Result<Option<(string, string)>> {
    var simpleName := m.simpleName;
    if HasAnnotation(m.annotations, GetFieldClass) then Ok(None)
    else if HasPrefix(simpleName, "get") then
      var fieldName := FieldOfAccessor(simpleName, "get");
      if fieldName !in fieldsInUse then Ok(None)
      else if fieldsInUse[fieldName].asType != m.asType then Err(InvalidElement(GET_TYPE))
      else Ok(Some((fieldName, simpleName)))
    else if HasPrefix(simpleName, "is") then
      var fieldName := FieldOfAccessor(simpleName, "is");
      if fieldName !in fieldsInUse then Ok(None)
      else if !fieldsInUse[fieldName].asType.BooleanType? then Err(InvalidElement(IS_FIELD_NOT_BOOLEAN))
      else if !m.asType.BooleanType? then Err(InvalidElement(IS_RETURN_NOT_BOOLEAN))
      else Ok(Some((fieldName, simpleName)))
    else Ok(None)
  }

  /** One turn of the `findSetFieldMethods` loop. */
  function SetFieldEntry(fieldsInUse: map<string, Element>, m: Element): Result<Option<(string, string)>> {
    var annotation := GetAnnotation(m.annotations, SetFieldClass);
    if annotation.None? then Ok(None)
    else
      var fieldName := annotation.value.value;
      if fieldName !in fieldsInUse then Err(InvalidElement(SET_FIELD_INVALID))
      else if |m.parameters| != 1 then Err(InvalidElement(SET_FIELD_ONE_PARAMETER))
      else if fieldsInUse[fieldName].asType != m.parameters[0].asType then Err(InvalidElement(SET_FIELD_TYPE))
      else Ok(Some((fieldName, m.simpleName)))
  }

  /** One turn of the `findSetMethods` loop. */
  function SetMethodEntry(fieldsInUse: map<string, Element>, m: Element): Result<Option<(string, string)>> {
    var simpleName := m.simpleName;
    if HasAnnotation(m.annotations, SetFieldClass) then Ok(None)
    else if HasPrefix(simpleName, "set") then
      var fieldName := FieldOfAccessor(simpleName, "set");
      if fieldName !in fieldsInUse then Ok(None)
      else if |m.parameters| != 1 then Err(InvalidElement(SET_ONE_PARAMETER))
      else if fieldsInUse[fieldName].asType != m.parameters[0].asType then Err(InvalidElement(SET_TYPE))
      else Ok(Some((fieldName, simpleName)))
    else Ok(None)
  }

  function GetFieldEntries(fieldsInUse: map<string, Element>): Element -> Result<Option<(string, string)>> {
    m => GetFieldEntry(fieldsInUse, m)
  }

  function GetMethodEntries(fieldsInUse: map<string, Element>): Element -> Result<Option<(string, string)>> {
    m => GetMethodEntry(fieldsInUse, m)
  }

  function SetFieldEntries(fieldsInUse: map<string, Element>): Element -> Result<Option<(string, string)>> {
    m => SetFieldEntry(fieldsInUse, m)
  }

  function SetMethodEntries(fieldsInUse: map<string, Element>): Element -> Result<Option<(string, string)>> {
    m => SetMethodEntry(fieldsInUse, m)
  }

  /** `findGetFieldMethods`: field name to `@GetField` method name. */
  function AnnotatedGetMethods(t: TypeElement, fieldsInUse: map<string, Element>): Result<map<string, string>> {
    HashMaps.PutEach(ElementExtensions.MethodsOf(t), GetFieldEntries(fieldsInUse))
  }

  /** `findGetMethods`: field name to conventional getter name. */
  function GetMethods(t: TypeElement, fieldsInUse: map<string, Element>): Result<map<string, string>> {
    HashMaps.PutEach(ElementExtensions.MethodsOf(t), GetMethodEntries(fieldsInUse))
  }

  /** `findSetFieldMethods`: field name to `@SetField` method name. */
  function AnnotatedSetMethods(t: TypeElement, fieldsInUse: map<string, Element>): Result<map<string, string>> {
    HashMaps.PutEach(ElementExtensions.MethodsOf(t), SetFieldEntries(fieldsInUse))
  }

  /** `findSetMethods`: field name to conventional setter name. */
  function SetMethods(t: TypeElement, fieldsInUse: map<string, Element>): Result<map<string, string>> {
    HashMaps.PutEach(ElementExtensions.MethodsOf(t), SetMethodEntries(fieldsInUse))
  }

  /** `m` is a conventional getter of `field`: not `@GetField`, named
      `get` + the field, or else `is` + the field. */
  predicate ConventionalGetter(m: Element, field: string) {
    !HasAnnotation(m.annotations, GetFieldClass)
    && (NamedAccessor(m, "get", field) || (!HasPrefix(m.simpleName, "get") && NamedAccessor(m, "is", field)))
  }

  /** `m` is a conventional setter of `field`: not `@SetField`, named
      `set` + the field. */
  predicate ConventionalSetter(m: Element, field: string) {
    !HasAnnotation(m.annotations, SetFieldClass) && NamedAccessor(m, "set", field)
  }

  /** `m` names `field` in an annotation of class `c`. */
  predicate AnnotatedAccessor(m: Element, c: AnnotationClass, field: string) {
    var annotation := GetAnnotation(m.annotations, c);
    annotation.Some? && (annotation.value.GetField? || annotation.value.SetField?) && annotation.value.value == field
  }

  /** `m` is a well-formed `@GetField` method, if it is one: it names a
      field in use and returns that field's type. */
  predicate GetFieldAccepted(fieldsInUse: map<string, Element>, m: Element) {
    var annotation := GetAnnotation(m.annotations, GetFieldClass);
    annotation.Some? ==>
      annotation.value.value in fieldsInUse && fieldsInUse[annotation.value.value].asType == m.asType
  }

  /** `m` is not a malformed conventional getter of a field in use: a
      `get` method returns the field's type, an `is` method returns boolean
      and points to a boolean field. */
  predicate GetterAccepted(fieldsInUse: map<string, Element>, m: Element) {
    forall f :: ConventionalGetter(m, f) && f in fieldsInUse ==>
      if HasPrefix(m.simpleName, "get") then fieldsInUse[f].asType == m.asType
      else fieldsInUse[f].asType.BooleanType? && m.asType.BooleanType?
  }

  /** `m` is a well-formed `@SetField` method, if it is one: it names a
      field in use and takes exactly one parameter of that field's type. */
  predicate SetFieldAccepted(fieldsInUse: map<string, Element>, m: Element) {
    var annotation := GetAnnotation(m.annotations, SetFieldClass);
    annotation.Some? ==>
      annotation.value.value in fieldsInUse && |m.parameters| == 1
      && fieldsInUse[annotation.value.value].asType == m.parameters[0].asType
  }

  /** `m` is not a malformed conventional setter of a field in use: it
      takes exactly one parameter of the field's type. */
  predicate SetterAccepted(fieldsInUse: map<string, Element>, m: Element) {
    forall f :: ConventionalSetter(m, f) && f in fieldsInUse ==>
      |m.parameters| == 1 && fieldsInUse[f].asType == m.parameters[0].asType
  }

  lemma GetMethodEntryOk(fieldsInUse: map<string, Element>, m: Element)
    ensures GetMethodEntry(fieldsInUse, m).Ok? <==> GetterAccepted(fieldsInUse, m)
  {
    if !HasAnnotation(m.annotations, GetFieldClass) && HasPrefix(m.simpleName, "get") {
      assert ConventionalGetter(m, FieldOfAccessor(m.simpleName, "get"));
    } else if !HasAnnotation(m.annotations, GetFieldClass) && HasPrefix(m.simpleName, "is") {
      assert ConventionalGetter(m, FieldOfAccessor(m.simpleName, "is"));
    }
  }

  lemma SetMethodEntryOk(fieldsInUse: map<string, Element>, m: Element)
    ensures SetMethodEntry(fieldsInUse, m).Ok? <==> SetterAccepted(fieldsInUse, m)
  {
    if !HasAnnotation(m.annotations, SetFieldClass) && HasPrefix(m.simpleName, "set") {
      assert ConventionalSetter(m, FieldOfAccessor(m.simpleName, "set"));
    }
  }

  /** The `@GetField` loop completes iff every accessible method carrying
      `@GetField` names a field in use and returns its type. */
  lemma AnnotatedGetMethodsOk(t: TypeElement, fieldsInUse: map<string, Element>)
    ensures AnnotatedGetMethods(t, fieldsInUse).Ok?
        <==> forall m :: m in ElementExtensions.MethodsOf(t) ==> GetFieldAccepted(fieldsInUse, m)
  {
    var methods := ElementExtensions.MethodsOf(t);
    forall m | m in methods ensures GetFieldEntries(fieldsInUse)(m).Ok? <==> GetFieldAccepted(fieldsInUse, m) {
    }
    HashMaps.PutEachAccepts(methods, GetFieldEntries(fieldsInUse), m => GetFieldAccepted(fieldsInUse, m));
  }

  /** Each field it maps is named by the `@GetField` of the method it maps to. */
  lemma AnnotatedGetMethodsValue(t: TypeElement, fieldsInUse: map<string, Element>)
    requires AnnotatedGetMethods(t, fieldsInUse).Ok?
    ensures forall f :: f in AnnotatedGetMethods(t, fieldsInUse).value ==>
              exists m :: m in ElementExtensions.MethodsOf(t) && AnnotatedAccessor(m, GetFieldClass, f)
                          && AnnotatedGetMethods(t, fieldsInUse).value[f] == m.simpleName
  {
    var methods := ElementExtensions.MethodsOf(t);
    var entry := GetFieldEntries(fieldsInUse);
    forall m | m in methods && entry(m).Ok? && entry(m).value.Some?
      ensures var k := entry(m).value.value.0; AnnotatedAccessor(m, GetFieldClass, k) && entry(m).value.value.1 == m.simpleName
    {
    }
    HashMaps.PutEachWitness(methods, entry, (m, k, v) => AnnotatedAccessor(m, GetFieldClass, k) && v == m.simpleName);
  }

  /** Every field named by a `@GetField` is mapped. */
  lemma AnnotatedGetMethodsComplete(t: TypeElement, fieldsInUse: map<string, Element>)
    requires AnnotatedGetMethods(t, fieldsInUse).Ok?
    ensures forall m, f :: m in ElementExtensions.MethodsOf(t) && AnnotatedAccessor(m, GetFieldClass, f) ==> f in AnnotatedGetMethods(t, fieldsInUse).value
  {
    var methods := ElementExtensions.MethodsOf(t);
    var entry := GetFieldEntries(fieldsInUse);
    forall m, k | m in methods && AnnotatedAccessor(m, GetFieldClass, k) && entry(m).Ok? ensures HashMaps.Puts(entry(m), k) {
    }
    HashMaps.PutEachCovers(methods, entry, (m, k) => AnnotatedAccessor(m, GetFieldClass, k));
  }

  /** The conventional-getter loop completes iff no conventional getter of
      a field in use is malformed. */
  lemma GetMethodsOk(t: TypeElement, fieldsInUse: map<string, Element>)
    ensures GetMethods(t, fieldsInUse).Ok?
        <==> forall m :: m in ElementExtensions.MethodsOf(t) ==> GetterAccepted(fieldsInUse, m)
  {
    var methods := ElementExtensions.MethodsOf(t);
    forall m | m in methods ensures GetMethodEntries(fieldsInUse)(m).Ok? <==> GetterAccepted(fieldsInUse, m) {
      GetMethodEntryOk(fieldsInUse, m);
    }
    HashMaps.PutEachAccepts(methods, GetMethodEntries(fieldsInUse), m => GetterAccepted(fieldsInUse, m));
  }

  /** Each field it maps is in use and maps to a conventional getter of it. */
  lemma GetMethodsValue(t: TypeElement, fieldsInUse: map<string, Element>)
    requires GetMethods(t, fieldsInUse).Ok?
    ensures forall f :: f in GetMethods(t, fieldsInUse).value ==>
              f in fieldsInUse
              && exists m :: m in ElementExtensions.MethodsOf(t) && ConventionalGetter(m, f)
                          && GetMethods(t, fieldsInUse).value[f] == m.simpleName
  {
    var methods := ElementExtensions.MethodsOf(t);
    var entry := GetMethodEntries(fieldsInUse);
    forall m | m in methods && entry(m).Ok? && entry(m).value.Some?
      ensures var k := entry(m).value.value.0; ConventionalGetter(m, k) && k in fieldsInUse && entry(m).value.value.1 == m.simpleName
    {
    }
    HashMaps.PutEachWitness(methods, entry, (m, k, v) => ConventionalGetter(m, k) && k in fieldsInUse && v == m.simpleName);
  }

  /** Every field in use with a conventional getter is mapped. */
  lemma GetMethodsComplete(t: TypeElement, fieldsInUse: map<string, Element>)
    requires GetMethods(t, fieldsInUse).Ok?
    ensures forall m, f :: m in ElementExtensions.MethodsOf(t) && ConventionalGetter(m, f) && f in fieldsInUse ==> f in GetMethods(t, fieldsInUse).value
  {
    var methods := ElementExtensions.MethodsOf(t);
    var entry := GetMethodEntries(fieldsInUse);
    forall m, k | m in methods && ConventionalGetter(m, k) && k in fieldsInUse && entry(m).Ok? ensures HashMaps.Puts(entry(m), k) {
      if HasPrefix(m.simpleName, "get") {
        assert k == FieldOfAccessor(m.simpleName, "get");
      } else {
        assert k == FieldOfAccessor(m.simpleName, "is");
      }
    }
    HashMaps.PutEachCovers(methods, entry, (m, k) => ConventionalGetter(m, k) && k in fieldsInUse);
  }

  /** The `@SetField` loop completes iff every accessible method carrying
      `@SetField` names a field in use and takes one parameter of its type. */
  lemma AnnotatedSetMethodsOk(t: TypeElement, fieldsInUse: map<string, Element>)
    ensures AnnotatedSetMethods(t, fieldsInUse).Ok?
        <==> forall m :: m in ElementExtensions.MethodsOf(t) ==> SetFieldAccepted(fieldsInUse, m)
  {
    var methods := ElementExtensions.MethodsOf(t);
    forall m | m in methods ensures SetFieldEntries(fieldsInUse)(m).Ok? <==> SetFieldAccepted(fieldsInUse, m) {
    }
    HashMaps.PutEachAccepts(methods, SetFieldEntries(fieldsInUse), m => SetFieldAccepted(fieldsInUse, m));
  }

  /** Each field it maps is named by the `@SetField` of the method it maps to. */
  lemma AnnotatedSetMethodsValue(t: TypeElement, fieldsInUse: map<string, Element>)
    requires AnnotatedSetMethods(t, fieldsInUse).Ok?
    ensures forall f :: f in AnnotatedSetMethods(t, fieldsInUse).value ==>
              exists m :: m in ElementExtensions.MethodsOf(t) && AnnotatedAccessor(m, SetFieldClass, f)
                          && AnnotatedSetMethods(t, fieldsInUse).value[f] == m.simpleName
  {
    var methods := ElementExtensions.MethodsOf(t);
    var entry := SetFieldEntries(fieldsInUse);
    forall m | m in methods && entry(m).Ok? && entry(m).value.Some?
      ensures var k := entry(m).value.value.0; AnnotatedAccessor(m, SetFieldClass, k) && entry(m).value.value.1 == m.simpleName
    {
    }
    HashMaps.PutEachWitness(methods, entry, (m, k, v) => AnnotatedAccessor(m, SetFieldClass, k) && v == m.simpleName);
  }

  /** Every field named by a `@SetField` is mapped. */
  lemma AnnotatedSetMethodsComplete(t: TypeElement, fieldsInUse: map<string, Element>)
    requires AnnotatedSetMethods(t, fieldsInUse).Ok?
    ensures forall m, f :: m in ElementExtensions.MethodsOf(t) && AnnotatedAccessor(m, SetFieldClass, f) ==> f in AnnotatedSetMethods(t, fieldsInUse).value
  {
    var methods := ElementExtensions.MethodsOf(t);
    var entry := SetFieldEntries(fieldsInUse);
    forall m, k | m in methods && AnnotatedAccessor(m, SetFieldClass, k) && entry(m).Ok? ensures HashMaps.Puts(entry(m), k) {
    }
    HashMaps.PutEachCovers(methods, entry, (m, k) => AnnotatedAccessor(m, SetFieldClass, k));
  }

  /** The conventional-setter loop completes iff no conventional setter of
      a field in use is malformed. */
  lemma SetMethodsOk(t: TypeElement, fieldsInUse: map<string, Element>)
    ensures SetMethods(t, fieldsInUse).Ok?
        <==> forall m :: m in ElementExtensions.MethodsOf(t) ==> SetterAccepted(fieldsInUse, m)
  {
    var methods := ElementExtensions.MethodsOf(t);
    forall m | m in methods ensures SetMethodEntries(fieldsInUse)(m).Ok? <==> SetterAccepted(fieldsInUse, m) {
      SetMethodEntryOk(fieldsInUse, m);
    }
    HashMaps.PutEachAccepts(methods, SetMethodEntries(fieldsInUse), m => SetterAccepted(fieldsInUse, m));
  }

  /** Each field it maps is in use and maps to a conventional setter of it. */
  lemma SetMethodsValue(t: TypeElement, fieldsInUse: map<string, Element>)
    requires SetMethods(t, fieldsInUse).Ok?
    ensures forall f :: f in SetMethods(t, fieldsInUse).value ==>
              f in fieldsInUse
              && exists m :: m in ElementExtensions.MethodsOf(t) && ConventionalSetter(m, f)
                          && SetMethods(t, fieldsInUse).value[f] == m.simpleName
  {
    var methods := ElementExtensions.MethodsOf(t);
    var entry := SetMethodEntries(fieldsInUse);
    forall m | m in methods && entry(m).Ok? && entry(m).value.Some?
      ensures var k := entry(m).value.value.0; ConventionalSetter(m, k) && k in fieldsInUse && entry(m).value.value.1 == m.simpleName
    {
    }
    HashMaps.PutEachWitness(methods, entry, (m, k, v) => ConventionalSetter(m, k) && k in fieldsInUse && v == m.simpleName);
  }

  /** Every field in use with a conventional setter is mapped. */
  lemma SetMethodsComplete(t: TypeElement, fieldsInUse: map<string, Element>)
    requires SetMethods(t, fieldsInUse).Ok?
    ensures forall m, f :: m in ElementExtensions.MethodsOf(t) && ConventionalSetter(m, f) && f in fieldsInUse ==> f in SetMethods(t, fieldsInUse).value
  {
    var methods := ElementExtensions.MethodsOf(t);
    var entry := SetMethodEntries(fieldsInUse);
    forall m, k | m in methods && ConventionalSetter(m, k) && k in fieldsInUse && entry(m).Ok? ensures HashMaps.Puts(entry(m), k) {
    }
    HashMaps.PutEachCovers(methods, entry, (m, k) => ConventionalSetter(m, k) && k in fieldsInUse);
  }

  // ------------------------------------------------------------ access

  /** One turn of `findGetFieldAccess`/`findSetFieldAccess`: an annotated
      accessor wins over a conventional one, which wins over direct access
      to an accessible field; a field with none of them fails with
      `message`. */
  function AccessEntry(fieldsInUse: map<string, Element>, annotated: map<string, string>, standard: map<string, string>,
                       message: string, field: string): Result<Option<(string, FieldAccess)>> {
    if field in annotated then Ok(Some((field, AnnotatedMethod)))
    else if field in standard then Ok(Some((field, StandardMethod)))
    else if field in fieldsInUse && ElementExtensions.IsAccessible(fieldsInUse[field]) then Ok(Some((field, DirectField)))
    else Err(InvalidElement(message))
  }

  function AccessEntries(fieldsInUse: map<string, Element>, annotated: map<string, string>, standard: map<string, string>,
                         message: string): string -> Result<Option<(string, FieldAccess)>> {
    f => AccessEntry(fieldsInUse, annotated, standard, message, f)
  }

  /** `findGetFieldAccess` (with `NO_GET_ACCESS`) and `findSetFieldAccess`
      (with `NO_SET_ACCESS`) over the key order `order`. */
  function FieldAccesses(fieldsInUse: map<string, Element>, annotated: map<string, string>, standard: map<string, string>,
                         message: string, order: seq<string>): Result<map<string, FieldAccess>> {
    HashMaps.PutEach(order, AccessEntries(fieldsInUse, annotated, standard, message))
  }

  /** The field has an annotated or a conventional accessor, or is accessible. */
  predicate Reachable(fieldsInUse: map<string, Element>, annotated: map<string, string>, standard: map<string, string>, field: string)
    requires field in fieldsInUse
  {
    field in annotated || field in standard || ElementExtensions.IsAccessible(fieldsInUse[field])
  }

  /** The access step completes iff every field in use can be reached. */
  lemma FieldAccessesOk(fieldsInUse: map<string, Element>, annotated: map<string, string>, standard: map<string, string>,
                        message: string, order: seq<string>)
    requires HashMaps.Enumerates(order, fieldsInUse.Keys)
    ensures FieldAccesses(fieldsInUse, annotated, standard, message, order).Ok?
        <==> forall f :: f in fieldsInUse ==> Reachable(fieldsInUse, annotated, standard, f)
  {
    HashMaps.PutEachAccepts(order, AccessEntries(fieldsInUse, annotated, standard, message),
                            f => f in fieldsInUse && Reachable(fieldsInUse, annotated, standard, f));
  }

  /** A field that cannot be reached fails with the step's own message. */
  lemma FieldAccessesErr(fieldsInUse: map<string, Element>, annotated: map<string, string>, standard: map<string, string>,
                         message: string, order: seq<string>)
    requires FieldAccesses(fieldsInUse, annotated, standard, message, order).Err?
    ensures FieldAccesses(fieldsInUse, annotated, standard, message, order).error == InvalidElement(message)
  {
    HashMaps.PutEachErr(order, AccessEntries(fieldsInUse, annotated, standard, message));
  }

  /** Every field in use gets an access, whatever the iteration order:
      the annotated method when there is one, else the conventional one,
      else the field itself, which is then accessible. */
  lemma FieldAccessesValue(fieldsInUse: map<string, Element>, annotated: map<string, string>, standard: map<string, string>,
                           message: string, order: seq<string>)
    requires HashMaps.Enumerates(order, fieldsInUse.Keys)
    requires FieldAccesses(fieldsInUse, annotated, standard, message, order).Ok?
    ensures var access := FieldAccesses(fieldsInUse, annotated, standard, message, order).value;
            access.Keys == fieldsInUse.Keys
            && forall f :: f in access ==>
                 (access[f] == AnnotatedMethod <==> f in annotated)
                 && (access[f] == StandardMethod <==> f !in annotated && f in standard)
                 && (access[f] == DirectField ==> ElementExtensions.IsAccessible(fieldsInUse[f]))
  {
    HashMaps.PutEachByKey(order, AccessEntries(fieldsInUse, annotated, standard, message));
  }

  // ------------------------------------------------------------ serializers

  /** `isDate`: the field's type is `java.util.Date`. */
  predicate IsDate(e: Element) {
    e.asType.DeclaredType? && e.asType.decl.qualifiedName == TYPE_DATE
  }

  /** One turn of `findSerializers`: a `@Serializer` field gets the class
      its annotation names (null when the mirror names no class, a failed
      cast for a type variable); otherwise a `Date` field gets the default
      date serializer. */
  function SerializerEntry(fieldsInUse: map<string, Element>, dateSerializer: Option<TypeElement>, field: string)
    : Result<Option<(string, Option<TypeElement>)>>
  {
    if field !in fieldsInUse then Ok(None)
    else
      var e := fieldsInUse[field];
      var annotation := GetAnnotation(e.annotations, SerializerClass);
      if annotation.Some? then
        var serializer :- EntityTypeJava.AsTypeElement(annotation.value.serializer);
        Ok(Some((field, serializer)))
      else if IsDate(e) then Ok(Some((field, dateSerializer)))
      else Ok(None)
  }

  function SerializerEntries(fieldsInUse: map<string, Element>, dateSerializer: Option<TypeElement>)
    : string -> Result<Option<(string, Option<TypeElement>)>>
  {
    f => SerializerEntry(fieldsInUse, dateSerializer, f)
  }

  /** `findSerializers` over the key order `order`. */
  function Serializers(fieldsInUse: map<string, Element>, dateSerializer: Option<TypeElement>, order: seq<string>)
    : Result<map<string, Option<TypeElement>>>
  {
    HashMaps.PutEach(order, SerializerEntries(fieldsInUse, dateSerializer))
  }

  /** The mirror named by the field's `@Serializer`, if it has one. */
  predicate SerializerNamesTypeVariable(e: Element) {
    var annotation := GetAnnotation(e.annotations, SerializerClass);
    annotation.Some? && annotation.value.serializer.TypeVariable?
  }

  /** The step fails (a failed cast) iff some field's `@Serializer` names
      a type variable. */
  lemma SerializersOk(fieldsInUse: map<string, Element>, dateSerializer: Option<TypeElement>, order: seq<string>)
    requires HashMaps.Enumerates(order, fieldsInUse.Keys)
    ensures Serializers(fieldsInUse, dateSerializer, order).Ok?
        <==> forall f :: f in fieldsInUse ==> !SerializerNamesTypeVariable(fieldsInUse[f])
  {
    HashMaps.PutEachAccepts(order, SerializerEntries(fieldsInUse, dateSerializer),
                            f => f in fieldsInUse && !SerializerNamesTypeVariable(fieldsInUse[f]));
  }

  /** Exactly the `@Serializer` fields and the `Date` fields get a
      serializer: the declared class the annotation names (null for a mirror
      that names no class), else the default date serializer. */
  lemma SerializersValue(fieldsInUse: map<string, Element>, dateSerializer: Option<TypeElement>, order: seq<string>)
    requires HashMaps.Enumerates(order, fieldsInUse.Keys)
    requires Serializers(fieldsInUse, dateSerializer, order).Ok?
    ensures var serializers := Serializers(fieldsInUse, dateSerializer, order).value;
            (forall f :: f in serializers <==>
               f in fieldsInUse && (HasAnnotation(fieldsInUse[f].annotations, SerializerClass) || IsDate(fieldsInUse[f])))
            && forall f :: f in serializers ==>
                 var annotation := GetAnnotation(fieldsInUse[f].annotations, SerializerClass);
                 (annotation.Some? ==> (serializers[f].Some? <==> annotation.value.serializer.DeclaredType?)
                                       && (serializers[f].Some? ==> serializers[f].value == annotation.value.serializer.decl))
                 && (annotation.None? ==> serializers[f] == dateSerializer)
  {
    HashMaps.PutEachByKey(order, SerializerEntries(fieldsInUse, dateSerializer));
  }

  /** `findMethodWithName`: the first accessible method of the class or of
      an ancestor with that simple name. */
  function FindMethodWithName(name: string, t: TypeElement): (r: Option<Element>)
    ensures r.Some? ==> r.value in ElementExtensions.MethodsOf(t) && r.value.simpleName == name
  {
    ElementExtensions.FirstNamedFound(ElementExtensions.MethodsOf(t), name);
    ElementExtensions.FirstNamed(ElementExtensions.MethodsOf(t), name)
  }

  /** The message of a serializer whose `deserialize` does not return the
      field's type. */
  function SerializerMismatch(fieldType: TypeMirror, returned: TypeMirror): string {
    SERIALIZER_MISMATCH + ElementExtensions.TypeToString(fieldType) + BUT_GOT + ElementExtensions.TypeToString(returned)
  }

  /** One turn of `verifySerializersMatchFields`, with the type comparison
      `same` (the class's own `isTypeMirrorEqual`). */
  function VerifyEntry(fieldsInUse: map<string, Element>, serializers: map<string, Option<TypeElement>>,
                       same: (TypeMirror, TypeMirror) -> bool, field: string): Result<()>
  {
    if field !in serializers || serializers[field].None? || field !in fieldsInUse then Ok(())
    else
      var deserialize := FindMethodWithName("deserialize", serializers[field].value);
      if deserialize.None? then Err(IllegalState(DESERIALIZE_NOT_FOUND))
      else if !same(fieldsInUse[field].asType, deserialize.value.asType) then
        Err(InvalidElement(SerializerMismatch(fieldsInUse[field].asType, deserialize.value.asType)))
      else Ok(())
  }

  function VerifyEntries(fieldsInUse: map<string, Element>, serializers: map<string, Option<TypeElement>>,
                         same: (TypeMirror, TypeMirror) -> bool): string -> Result<()>
  {
    f => VerifyEntry(fieldsInUse, serializers, same, f)
  }

  /** `verifySerializersMatchFields` over the key order `order`: the first
      field whose serializer does not fit fails. */
  function VerifySerializers(fieldsInUse: map<string, Element>, serializers: map<string, Option<TypeElement>>,
                             same: (TypeMirror, TypeMirror) -> bool, order: seq<string>): Result<()>
  {
    var _ :- Results.MapOrFail(order, VerifyEntries(fieldsInUse, serializers, same));
    Ok(())
  }

  /** The serializer of a field in use fits it: it has a `deserialize`
      method, returning a type `same` accepts for the field's type. */
  predicate SerializerFits(fieldsInUse: map<string, Element>, serializers: map<string, Option<TypeElement>>,
                           same: (TypeMirror, TypeMirror) -> bool, field: string)
    requires field in fieldsInUse
  {
    field in serializers && serializers[field].Some? ==>
      var deserialize := FindMethodWithName("deserialize", serializers[field].value);
      deserialize.Some? && same(fieldsInUse[field].asType, deserialize.value.asType)
  }

  /** Verification passes iff every field's serializer fits it. */
  lemma VerifySerializersOk(fieldsInUse: map<string, Element>, serializers: map<string, Option<TypeElement>>,
                            same: (TypeMirror, TypeMirror) -> bool, order: seq<string>)
    requires HashMaps.Enumerates(order, fieldsInUse.Keys)
    ensures VerifySerializers(fieldsInUse, serializers, same, order).Ok?
        <==> forall f :: f in fieldsInUse ==> SerializerFits(fieldsInUse, serializers, same, f)
  {
    var entries := VerifyEntries(fieldsInUse, serializers, same);
    Results.MapOrFailOk(order, entries);
    if !VerifySerializers(fieldsInUse, serializers, same, order).Ok? {
      var i :| 0 <= i < |order| && entries(order[i]).Err?;
      assert !SerializerFits(fieldsInUse, serializers, same, order[i]);
    } else {
      forall f | f in fieldsInUse ensures SerializerFits(fieldsInUse, serializers, same, f) {
        var i :| 0 <= i < |order| && order[i] == f;
        assert entries(order[i]).Ok?;
      }
    }
  }

  /** With the corrected comparison, a `deserialize` returning a primitive
      of another kind, or another class, is rejected; with the comparison as
      written, every serializer whose field has a primitive or declared type
      passes, whatever `deserialize` returns. */
  lemma VerifySerializersAsWrittenAcceptsAll(fieldsInUse: map<string, Element>, serializers: map<string, Option<TypeElement>>,
                                             order: seq<string>)
    requires HashMaps.Enumerates(order, fieldsInUse.Keys)
    requires forall f :: f in fieldsInUse ==> TypeUtils.IsPrimitive(fieldsInUse[f].asType) || fieldsInUse[f].asType.DeclaredType?
    requires forall f :: f in serializers && serializers[f].Some? ==> FindMethodWithName("deserialize", serializers[f].value).Some?
    ensures VerifySerializers(fieldsInUse, serializers, TypeUtils.IsTypeMirrorEqualAsWritten, order).Ok?
  {
    VerifySerializersOk(fieldsInUse, serializers, TypeUtils.IsTypeMirrorEqualAsWritten, order);
    forall f | f in fieldsInUse ensures SerializerFits(fieldsInUse, serializers, TypeUtils.IsTypeMirrorEqualAsWritten, f) {
      if f in serializers && serializers[f].Some? {
        var deserialize := FindMethodWithName("deserialize", serializers[f].value);
        TypeUtils.AsWrittenIgnoresOther(fieldsInUse[f].asType, deserialize.value.asType);
      }
    }
  }

  // ------------------------------------------------------------ SQL and cursor types

  /** `getDatabaseType`: the SQLite storage class of a Java type. */
  function DatabaseTypeOf(t: TypeMirror): (r: Result<ColumnDataType>)
    ensures t.BooleanType? || t.ShortType? || t.LongType? || t.IntType? ==> r == Ok(INTEGER)
    ensures t.FloatType? || t.DoubleType? ==> r == Ok(REAL)
    ensures t.ArrayType? ==> r == (if t.component.ByteType? then Ok(BLOB) else Err(InvalidElement(ArrayUnknown(t.component))))
    ensures t.DeclaredType? ==>
              var name := t.decl.qualifiedName;
              r == if name == TYPE_STRING then Ok(TEXT)
                   else if name == TYPE_LONG || name == TYPE_INTEGER || name == TYPE_SHORT then Ok(INTEGER)
                   else if name == TYPE_DOUBLE || name == TYPE_FLOAT then Ok(REAL)
                   else Err(InvalidElement(TypeUnknown(t.decl)))
    ensures t.ByteType? || t.CharType? || t.VoidType? || t.NoType? || t.TypeVariable? ==> r == Err(InvalidElement(NOT_KNOWN))
  {
    match t
    case BooleanType => Ok(INTEGER)
    case ShortType => Ok(INTEGER)
    case LongType => Ok(INTEGER)
    case IntType => Ok(INTEGER)
    case FloatType => Ok(REAL)
    case DoubleType => Ok(REAL)
    case ArrayType(component) =>
      if component.ByteType? then Ok(BLOB) else Err(InvalidElement(ArrayUnknown(component)))
    case DeclaredType(decl, _) =>
      var name := decl.qualifiedName;
      if name == TYPE_STRING then Ok(TEXT)
      else if name == TYPE_LONG || name == TYPE_INTEGER || name == TYPE_SHORT then Ok(INTEGER)
      else if name == TYPE_DOUBLE || name == TYPE_FLOAT then Ok(REAL)
      else Err(InvalidElement(TypeUnknown(decl)))
    case _ => Err(InvalidElement(NOT_KNOWN))
  }

  /** `getCursorType`: the `Cursor` getter of a Java type. */
  function CursorTypeOf(t: TypeMirror): (r: Result<CursorType>)
    ensures t.ArrayType? ==> r == (if t.component.ByteType? then Ok(BYTE_ARRAY) else Err(InvalidElement(CursorArrayUnknown(t.component))))
    ensures t.ByteType? || t.CharType? || t.VoidType? || t.NoType? || t.TypeVariable? ==> r == Err(InvalidElement(NOT_KNOWN))
  {
    match t
    case BooleanType => Ok(BOOLEAN)
    case ShortType => Ok(SHORT)
    case LongType => Ok(LONG)
    case IntType => Ok(INT)
    case FloatType => Ok(FLOAT)
    case DoubleType => Ok(DOUBLE)
    case ArrayType(component) =>
      if component.ByteType? then Ok(BYTE_ARRAY) else Err(InvalidElement(CursorArrayUnknown(component)))
    case DeclaredType(decl, _) => DeclaredCursorType(decl)
    case _ => Err(InvalidElement(NOT_KNOWN))
  }

  /** `getCursorType(element, declaredType)`: by qualified name. */
  function DeclaredCursorType(decl: TypeElement): Result<CursorType> {
    var name := decl.qualifiedName;
    if name == TYPE_STRING then Ok(STRING)
    else if name == TYPE_LONG then Ok(LONG)
    else if name == TYPE_INTEGER then Ok(INT)
    else if name == TYPE_SHORT then Ok(SHORT)
    else if name == TYPE_DOUBLE then Ok(DOUBLE)
    else if name == TYPE_FLOAT then Ok(FLOAT)
    else if name == TYPE_BOOLEAN then Ok(BOOLEAN)
    else Err(InvalidElement(CursorTypeUnknown(decl)))
  }

  /** The storage class a cursor getter reads. */
  function StorageClassOf(c: CursorType): ColumnDataType {
    match c
    case BOOLEAN => INTEGER
    case SHORT => INTEGER
    case LONG => INTEGER
    case INT => INTEGER
    case FLOAT => REAL
    case DOUBLE => REAL
    case BYTE_ARRAY => BLOB
    case STRING => TEXT
  }

  /** A boxed `java.lang.Boolean`. */
  predicate IsBoxedBoolean(t: TypeMirror) {
    t.DeclaredType? && t.decl.qualifiedName == TYPE_BOOLEAN
  }

  /** The two mappings agree: a type with a storage class has a cursor
      getter reading that class, and the only type with a getter but no
      storage class is the boxed `Boolean`. */
  lemma CursorTypeMatchesDatabaseType(t: TypeMirror)
    ensures DatabaseTypeOf(t).Ok? ==> CursorTypeOf(t).Ok? && StorageClassOf(CursorTypeOf(t).value) == DatabaseTypeOf(t).value
    ensures CursorTypeOf(t).Ok? && DatabaseTypeOf(t).Err? ==> IsBoxedBoolean(t)
  {
  }

  /** The class a serializer turns values into: the declared return type
      of its `serialize` method. */
  function SerializedType(serializer: TypeElement): (r: Result<TypeElement>)
    ensures r.Ok? ==> exists m :: m in ElementExtensions.MethodsOf(serializer) && m.simpleName == "serialize"
                                  && m.asType.DeclaredType? && m.asType.decl == r.value
  {
    var serialize := FindMethodWithName("serialize", serializer);
    if serialize.None? then Err(IllegalState(SERIALIZE_NOT_FOUND))
    else if !serialize.value.asType.DeclaredType? then Err(ClassCast(SERIALIZE_NOT_DECLARED))
    else Ok(serialize.value.asType.decl)
  }

  /** `getDatabaseTypeForField` and `getCursorTypeForField`, with `leaf`
      the mapping of a type (`DatabaseTypeOf` or `CursorTypeOf`): a field
      with a serializer takes the type of what the serializer produces; a
      field holding another entity takes the type of that entity's only
      key; any other field takes the type of its own Java type.  `m` is the
      model as far as `initialize` has filled it. */
  function FieldTypeOf<T>(m: Model, keyOrder: set<string> -> seq<string>, field: string, leaf: TypeMirror -> Result<T>): Result<T>
    decreases m, 0
  {
    if field in m.fieldSerializer && m.fieldSerializer[field].Some? then
      var serialized :- SerializedType(m.fieldSerializer[field].value);
      leaf(DeclaredType(serialized, []))
    else if field in m.subModels then KeyTypeOf(m.subModels[field], keyOrder, leaf)
    else if field in m.fieldsInUse then leaf(m.fieldsInUse[field].asType)
    else Err(IllegalArgument(ELEMENT_IS_NULL))
  }

  /** The type of the only key of a sub-model; several keys (or none) fail. */
  function KeyTypeOf<T>(sub: Model, keyOrder: set<string> -> seq<string>, leaf: TypeMirror -> Result<T>): Result<T>
    decreases sub, 1
  {
    if |sub.primaryKeyFields| != 1 then Err(InvalidElement(ONLY_ONE_KEY))
    else
      var keys := keyOrder(sub.primaryKeyFields);
      if |keys| == 0 then Err(IndexOutOfBounds(NO_KEY_IN_LIST))
      else FieldTypeOf(sub, keyOrder, keys[0], leaf)
  }

  /** The only key of a model with one key. */
  function OnlyKey(sub: Model, keyOrder: set<string> -> seq<string>): string
    requires |sub.primaryKeyFields| == 1 && |keyOrder(sub.primaryKeyFields)| > 0
  {
    keyOrder(sub.primaryKeyFields)[0]
  }

  /** The three cases of a field's type, in their order of precedence. */
  lemma FieldTypeOfCases<T>(m: Model, keyOrder: set<string> -> seq<string>, field: string, leaf: TypeMirror -> Result<T>)
    requires forall keys :: HashMaps.Enumerates(keyOrder(keys), keys)
    requires field in m.fieldsInUse
    ensures var r := FieldTypeOf(m, keyOrder, field, leaf);
            if field in m.fieldSerializer && m.fieldSerializer[field].Some? then
              (SerializedType(m.fieldSerializer[field].value).Err? ==> r == Err(SerializedType(m.fieldSerializer[field].value).error))
              && (SerializedType(m.fieldSerializer[field].value).Ok? ==> r == leaf(DeclaredType(SerializedType(m.fieldSerializer[field].value).value, [])))
            else if field in m.subModels then
              var sub := m.subModels[field];
              (|sub.primaryKeyFields| != 1 ==> r == Err(InvalidElement(ONLY_ONE_KEY)))
              && (|sub.primaryKeyFields| == 1 ==>
                    var key :| key in sub.primaryKeyFields; r == FieldTypeOf(sub, keyOrder, key, leaf))
            else r == leaf(m.fieldsInUse[field].asType)
  {
    if !(field in m.fieldSerializer && m.fieldSerializer[field].Some?) && field in m.subModels {
      var sub := m.subModels[field];
      if |sub.primaryKeyFields| == 1 {
        var keys := keyOrder(sub.primaryKeyFields);
        assert HashMaps.Enumerates(keys, sub.primaryKeyFields);
        var key :| key in sub.primaryKeyFields;
        assert sub.primaryKeyFields == {key} by { SingletonSet(sub.primaryKeyFields, key); }
        assert keys[0] in sub.primaryKeyFields;
      }
    }
  }

  lemma SingletonSet<T>(s: set<T>, x: T)
    requires |s| == 1 && x in s
    ensures s == {x}
  {
    var rest := s - {x};
    assert s == rest + {x};
    assert |rest| == 0;
  }

  function TypeEntry<T>(m: Model, keyOrder: set<string> -> seq<string>, leaf: TypeMirror -> Result<T>, field: string)
    : Result<Option<(string, T)>>
  {
    var t :- FieldTypeOf(m, keyOrder, field, leaf);
    Ok(Some((field, t)))
  }

  function TypeEntries<T>(m: Model, keyOrder: set<string> -> seq<string>, leaf: TypeMirror -> Result<T>)
    : string -> Result<Option<(string, T)>>
  {
    f => TypeEntry(m, keyOrder, leaf, f)
  }

  /** `findDatabaseTypesForFields` (with `DatabaseTypeOf`) and
      `findCursorTypesForFields` (with `CursorTypeOf`): the type of every
      column, over the iteration order of the column names. */
  function FieldTypes<T>(m: Model, keyOrder: set<string> -> seq<string>, leaf: TypeMirror -> Result<T>): Result<map<string, T>> {
    HashMaps.PutEach(keyOrder(m.columnNames.Keys), TypeEntries(m, keyOrder, leaf))
  }

  /** The step completes iff every column's type resolves, and then maps
      each column to its type, whatever the iteration order. */
  lemma FieldTypesOk<T>(m: Model, keyOrder: set<string> -> seq<string>, leaf: TypeMirror -> Result<T>)
    requires HashMaps.Enumerates(keyOrder(m.columnNames.Keys), m.columnNames.Keys)
    ensures FieldTypes(m, keyOrder, leaf).Ok? <==> forall f :: f in m.columnNames ==> FieldTypeOf(m, keyOrder, f, leaf).Ok?
  {
    HashMaps.PutEachAccepts(keyOrder(m.columnNames.Keys), TypeEntries(m, keyOrder, leaf),
                            f => FieldTypeOf(m, keyOrder, f, leaf).Ok?);
  }

  lemma FieldTypesValue<T>(m: Model, keyOrder: set<string> -> seq<string>, leaf: TypeMirror -> Result<T>)
    requires HashMaps.Enumerates(keyOrder(m.columnNames.Keys), m.columnNames.Keys)
    requires FieldTypes(m, keyOrder, leaf).Ok?
    ensures var types := FieldTypes(m, keyOrder, leaf).value;
            types.Keys == m.columnNames.Keys
            && forall f :: f in types ==> FieldTypeOf(m, keyOrder, f, leaf) == Ok(types[f])
  {
    HashMaps.PutEachByKey(keyOrder(m.columnNames.Keys), TypeEntries(m, keyOrder, leaf));
  }

  // ------------------------------------------------------------ CREATE TABLE

  /** `getStringFromAction`. */
  function ActionName(action: ForeignKeyAction): string {
    match action
    case NoAction => "NO ACTION"
    case Restrict => "RESTRICT"
    case SetNull => "SET NULL"
    case SetDefault => "SET DEFAULT"
    case Cascade => "CASCADE"
  }

  /** `<column> <TYPE>` for one field; a field without a database type
      fails on `name()` of null. */
  function ColumnDefinition(m: Model, field: string): Result<string> {
    if field !in m.fieldDatabaseTypes then Err(NullPointer(NO_DATABASE_TYPE))
    else Ok(ColumnOrNull(m.columnNames, field) + " " + ColumnDataTypeName(m.fieldDatabaseTypes[field]))
  }

  function ColumnDefinitions(m: Model): string -> Result<string> {
    f => ColumnDefinition(m, f)
  }

  /** The columns of a list of fields (`null` for a field without one). */
  function Columns(columnNames: map<string, string>, fields: seq<string>): (r: seq<string>)
    ensures |r| == |fields| && forall i :: 0 <= i < |fields| ==> r[i] == ColumnOrNull(columnNames, fields[i])
  {
    seq(|fields|, i requires 0 <= i < |fields| => ColumnOrNull(columnNames, fields[i]))
  }

  function IsKeyOf(keys: set<string>): string -> bool {
    f => f in keys
  }

  /** `createSqlPrimaryKeysText`'s list: the columns of the keys, in the
      iteration order of the fields in use. */
  function KeyColumns(m: Model, order: seq<string>): seq<string> {
    Columns(m.columnNames, Seqs.Filter(order, IsKeyOf(m.primaryKeyFields)))
  }

  /** An `ON UPDATE`/`ON DELETE` suffix, when the field has an action. */
  function ActionClause(prefix: string, actions: map<string, ForeignKeyAction>, field: string): string {
    if field in actions then prefix + ActionName(actions[field]) else ""
  }

  /** What the `REFERENCES` clause names in the referenced table, as
      written: the key's field name. */
  function ReferencedField(sub: Model, key: string): string {
    key
  }

  /** What it evidently should name: the key's column. */
  function ReferencedColumn(sub: Model, key: string): string {
    ColumnOrNull(sub.columnNames, key)
  }

  /** One turn of `createSqlForeignKeysText`, with `reference` choosing the
      referenced name: the sub-model must have exactly one key. */
  function ForeignKeyClause(m: Model, keyOrder: set<string> -> seq<string>, reference: (Model, string) -> string, field: string)
    : Result<string>
  {
    if field !in m.subModels then Err(NullPointer(NO_SUB_MODEL))
    else
      var sub := m.subModels[field];
      var keys := keyOrder(sub.primaryKeyFields);
      if |keys| < 1 then Err(InvalidElement(FOREIGN_NO_KEY))
      else if |keys| > 1 then Err(InvalidElement(FOREIGN_MANY_KEYS))
      else Ok(ForeignKeyText(ColumnOrNull(m.columnNames, field), sub.tableName, reference(sub, keys[0]),
                             ActionClause(ON_UPDATE, m.foreignKeyOnUpdate, field),
                             ActionClause(ON_DELETE, m.foreignKeyOnDelete, field)))
  }

  /** `, FOREIGN KEY(<column>) REFERENCES <table>(<referenced>)` and the
      action suffixes. */
  function ForeignKeyText(column: string, table: string, referenced: string, onUpdate: string, onDelete: string): string {
    FOREIGN_KEY_OPEN + column + REFERENCES + table + "(" + referenced + ")" + onUpdate + onDelete
  }

  /** A clause is built iff the sub-model has exactly one key. */
  lemma ForeignKeyClauseOk(m: Model, keyOrder: set<string> -> seq<string>, reference: (Model, string) -> string, field: string)
    requires forall keys :: HashMaps.Enumerates(keyOrder(keys), keys)
    requires field in m.subModels
    ensures ForeignKeyClause(m, keyOrder, reference, field).Ok? <==> |m.subModels[field].primaryKeyFields| == 1
  {
    var keys := keyOrder(m.subModels[field].primaryKeyFields);
    assert HashMaps.Enumerates(keys, m.subModels[field].primaryKeyFields);
    HashMaps.EnumeratesCard(keys, m.subModels[field].primaryKeyFields);
  }

  function ForeignKeyClauses(m: Model, keyOrder: set<string> -> seq<string>, reference: (Model, string) -> string)
    : string -> Result<string>
  {
    f => ForeignKeyClause(m, keyOrder, reference, f)
  }

  /** `generateCreateTableSql`, with `reference` choosing what a foreign key
      references: the column definitions and the key columns in the
      iteration order of the fields in use, then one clause per sub-model in
      the iteration order of the sub-models. */
  function CreateTableSqlWith(m: Model, keyOrder: set<string> -> seq<string>, reference: (Model, string) -> string): Result<string> {
    var order := keyOrder(m.fieldsInUse.Keys);
    var definitions :- Results.MapOrFail(order, ColumnDefinitions(m));
    var keyColumns := KeyColumns(m, order);
    var foreignKeys :- Results.MapOrFail(keyOrder(m.subModels.Keys), ForeignKeyClauses(m, keyOrder, reference));
    Ok(AssembleCreateTable(m.tableName, definitions, keyColumns, foreignKeys))
  }

  /** The format string of `generateCreateTableSql`. */
  function AssembleCreateTable(tableName: string, definitions: seq<string>, keyColumns: seq<string>, foreignKeys: seq<string>)
    : (r: string)
    ensures var head := CREATE_TABLE_PREFIX + tableName + "(";
            |r| > |head| && r[..|head|] == head && r[|r| - 1] == ')'
  {
    var head := CREATE_TABLE_PREFIX + tableName + "(";
    var tail := Seqs.Join(definitions, ", ") + PRIMARY_KEY_OPEN + Seqs.Join(keyColumns, ", ") + ")"
                + Seqs.Join(foreignKeys, "") + ")";
    assert (head + tail)[..|head|] == head;
    head + tail
  }

  /** The statement as written. */
  function CreateTableSqlAsWritten(m: Model, keyOrder: set<string> -> seq<string>): Result<string> {
    CreateTableSqlWith(m, keyOrder, ReferencedField)
  }

  /** The statement with foreign keys referencing the key's column. */
  function CreateTableSql(m: Model, keyOrder: set<string> -> seq<string>): Result<string> {
    CreateTableSqlWith(m, keyOrder, ReferencedColumn)
  }

  /** The column definitions are built iff every field in use has a
      database type. */
  lemma ColumnDefinitionsOk(m: Model, order: seq<string>)
    requires HashMaps.Enumerates(order, m.fieldsInUse.Keys)
    ensures Results.MapOrFail(order, ColumnDefinitions(m)).Ok? <==> m.fieldsInUse.Keys <= m.fieldDatabaseTypes.Keys
  {
    Results.MapOrFailAccepts(order, ColumnDefinitions(m), f => f in m.fieldDatabaseTypes);
  }

  /** The foreign-key clauses are built iff every sub-model has exactly one
      key. */
  lemma ForeignKeyClausesOk(m: Model, keyOrder: set<string> -> seq<string>, reference: (Model, string) -> string)
    requires forall keys :: HashMaps.Enumerates(keyOrder(keys), keys)
    ensures Results.MapOrFail(keyOrder(m.subModels.Keys), ForeignKeyClauses(m, keyOrder, reference)).Ok?
        <==> forall f :: f in m.subModels ==> |m.subModels[f].primaryKeyFields| == 1
  {
    var subOrder := keyOrder(m.subModels.Keys);
    var clauses := ForeignKeyClauses(m, keyOrder, reference);
    assert HashMaps.Enumerates(subOrder, m.subModels.Keys);
    forall f | f in subOrder ensures clauses(f).Ok? <==> |m.subModels[f].primaryKeyFields| == 1 {
      ForeignKeyClauseOk(m, keyOrder, reference, f);
    }
    Results.MapOrFailAccepts(subOrder, clauses, f => f in m.subModels && |m.subModels[f].primaryKeyFields| == 1);
  }

  /** The statement is built iff every field in use has a database type and
      every sub-model has exactly one key, whatever it references. */
  lemma CreateTableSqlOk(m: Model, keyOrder: set<string> -> seq<string>, reference: (Model, string) -> string)
    requires forall keys :: HashMaps.Enumerates(keyOrder(keys), keys)
    ensures CreateTableSqlWith(m, keyOrder, reference).Ok?
        <==> m.fieldsInUse.Keys <= m.fieldDatabaseTypes.Keys
             && forall f :: f in m.subModels ==> |m.subModels[f].primaryKeyFields| == 1
  {
    assert HashMaps.Enumerates(keyOrder(m.fieldsInUse.Keys), m.fieldsInUse.Keys);
    ColumnDefinitionsOk(m, keyOrder(m.fieldsInUse.Keys));
    ForeignKeyClausesOk(m, keyOrder, reference);
  }

  /** The `PRIMARY KEY` clause lists the column of every key exactly once,
      in the order the column definitions list them. */
  lemma KeyColumnsInOrder(m: Model, order: seq<string>)
    requires HashMaps.Enumerates(order, m.fieldsInUse.Keys)
    requires m.primaryKeyFields <= m.fieldsInUse.Keys
    ensures var keys := Seqs.Filter(order, IsKeyOf(m.primaryKeyFields));
            HashMaps.Enumerates(keys, m.primaryKeyFields)
            && Seqs.IsSubsequence(keys, order)
            && KeyColumns(m, order) == Columns(m.columnNames, keys)
  {
    var keys := Seqs.Filter(order, IsKeyOf(m.primaryKeyFields));
    Seqs.FilterIsSubsequence(order, IsKeyOf(m.primaryKeyFields));
    Seqs.FilterNoDuplicates(order, IsKeyOf(m.primaryKeyFields));
    forall k ensures k in keys <==> k in m.primaryKeyFields {
      Seqs.FilterMembers(order, IsKeyOf(m.primaryKeyFields), k);
    }
  }

  /** A foreign key written as the source does references the key's field
      name: for a referenced entity whose key `id` is stored in column
      `_id`, the clause names `id`, which is no column of that table, where
      the corrected clause names `_id`. */
  lemma ForeignKeyAsWrittenNamesNoColumn(sub: Model)
    requires sub.primaryKeyFields == {"id"} && sub.columnNames == map["id" := "_id"]
    ensures ReferencedField(sub, "id") !in sub.columnNames.Values
    ensures ReferencedColumn(sub, "id") in sub.columnNames.Values
  {
    assert sub.columnNames["id"] == "_id";
    assert forall v :: v in sub.columnNames.Values ==> v == "_id";
  }

  // ------------------------------------------------------------ serializer field names

  /** The fields `generateNamesForSerializers` fills: how often each simple
      name has named a field, the class of each serializer field, the
      qualified names to import, and the serializer field of each entity
      field. */
  datatype Naming = Naming(
    occurrences: map<string, nat>,
    classNames: map<string, string>,
    qualifiedNames: set<string>,
    fieldNames: map<string, string>)

  /** The name of the generated field holding a serializer whose simple name
      has named `occurrences` fields before: the simple name with its first
      character lower-cased, followed, from the second use on, by the string
      concatenation `+ occurrences + 1`, i.e. the count's digits and a `1`. */
  function SerializerFieldName(simpleName: string, occurrences: nat): (r: Result<string>)
    ensures r.Ok? <==> |simpleName| >= 2
    ensures r.Err? ==> r.error.IllegalArgument?
    ensures r.Ok? ==> |r.value| >= |simpleName| && r.value[0] == ToLower(simpleName[0])
                      && r.value[1..|simpleName|] == simpleName[1..]
    ensures r.Ok? ==> (|r.value| == |simpleName| <==> occurrences == 0)
  {
    var base :- StringUtils.LowerCaseFirstCharacter(Some(simpleName));
    Ok(if occurrences == 0 then base else base + Decimal.NatToString(occurrences) + "1")
  }

  /** Two serializers with the same simple name, named at different counts,
      get different fields. */
  lemma SerializerFieldNamesDistinct(simpleName: string, a: nat, b: nat)
    requires |simpleName| >= 2 && a != b
    ensures SerializerFieldName(simpleName, a).value != SerializerFieldName(simpleName, b).value
  {
    var x := SerializerFieldName(simpleName, a).value;
    var y := SerializerFieldName(simpleName, b).value;
    if a > 0 && b > 0 && x == y {
      var base := StringUtils.LowerCaseFirstCharacter(Some(simpleName)).value;
      var n := |base|;
      assert x[n..|x| - 1] == Decimal.NatToString(a);
      assert y[n..|y| - 1] == Decimal.NatToString(b);
      Decimal.NatToStringInjective(a, b);
    }
  }

  /** One turn of the loop over the distinct serializer classes: a null
      class throws, the field name is chosen from the simple name's count,
      and the name is put for every field in `fieldsFor(s)`. */
  function NameStep(n: Naming, s: Option<TypeElement>, fieldsFor: Option<TypeElement> -> set<string>): Result<Naming> {
    if s.None? then Err(NullPointer(NULL_SERIALIZER))
    else
      var simpleName := s.value.simpleName;
      var occurrences := if simpleName in n.occurrences then n.occurrences[simpleName] else 0;
      var name :- SerializerFieldName(simpleName, occurrences);
      Ok(Naming(n.occurrences[simpleName := occurrences + 1],
                n.classNames[name := simpleName],
                n.qualifiedNames + {s.value.qualifiedName},
                n.fieldNames + map f | f in fieldsFor(s) :: name))
  }

  /** The loop over `types`, from empty fields. */
  function NameEach(types: seq<Option<TypeElement>>, fieldsFor: Option<TypeElement> -> set<string>): Result<Naming>
    decreases |types|
  {
    if |types| == 0 then Ok(Naming(map[], map[], {}, map[]))
    else
      var n :- NameEach(types[..|types| - 1], fieldsFor);
      NameStep(n, types[|types| - 1], fieldsFor)
  }

  predicate Nameable(s: Option<TypeElement>) {
    s.Some? && |s.value.simpleName| >= 2
  }

  /** The loop completes iff no class is null and every simple name has at
      least two characters. */
  lemma {:induction false} NameEachOk(types: seq<Option<TypeElement>>, fieldsFor: Option<TypeElement> -> set<string>)
    ensures NameEach(types, fieldsFor).Ok? <==> forall i :: 0 <= i < |types| ==> Nameable(types[i])
    decreases |types|
  {
    if |types| > 0 {
      var front := types[..|types| - 1];
      NameEachOk(front, fieldsFor);
      assert forall i :: 0 <= i < |front| ==> front[i] == types[i];
    }
  }

  /** The entity fields given a serializer field are those some class put. */
  lemma {:induction false} NameEachFields(types: seq<Option<TypeElement>>, fieldsFor: Option<TypeElement> -> set<string>)
    requires NameEach(types, fieldsFor).Ok?
    ensures forall f :: f in NameEach(types, fieldsFor).value.fieldNames <==> exists i :: 0 <= i < |types| && f in fieldsFor(types[i])
    decreases |types|
  {
    if |types| > 0 {
      var front := types[..|types| - 1];
      NameEachFields(front, fieldsFor);
      assert forall i :: 0 <= i < |front| ==> front[i] == types[i];
    }
  }

  /** Every serializer field an entity field uses is declared with a class. */
  lemma {:induction false} NameEachDeclared(types: seq<Option<TypeElement>>, fieldsFor: Option<TypeElement> -> set<string>)
    requires NameEach(types, fieldsFor).Ok?
    ensures var n := NameEach(types, fieldsFor).value;
            forall f :: f in n.fieldNames ==> n.fieldNames[f] in n.classNames
    decreases |types|
  {
    if |types| > 0 {
      NameEachDeclared(types[..|types| - 1], fieldsFor);
    }
  }

  /** The qualified names to import are those of the classes named. */
  lemma {:induction false} NameEachQualified(types: seq<Option<TypeElement>>, fieldsFor: Option<TypeElement> -> set<string>)
    requires NameEach(types, fieldsFor).Ok?
    ensures forall q :: q in NameEach(types, fieldsFor).value.qualifiedNames
                    <==> exists i :: 0 <= i < |types| && types[i].Some? && types[i].value.qualifiedName == q
    decreases |types|
  {
    if |types| > 0 {
      var front := types[..|types| - 1];
      NameEachQualified(front, fieldsFor);
      assert forall i :: 0 <= i < |front| ==> front[i] == types[i];
    }
  }

  /** `findFieldNameForTypeElement`: the first field, in the key order of
      `fieldSerializer`, whose serializer is `s` — as a set of at most one
      field, empty when none is (the source then puts under a null key). */
  function FirstFieldWith(fieldSerializer: map<string, Option<TypeElement>>, order: seq<string>, s: Option<TypeElement>)
    : (r: set<string>)
    ensures forall f :: f in r ==> f in order && f in fieldSerializer && fieldSerializer[f] == s
    ensures forall f, g :: f in r && g in r ==> f == g
    ensures r == {} ==> forall f :: f in order && f in fieldSerializer ==> fieldSerializer[f] != s
  {
    if |order| == 0 then {}
    else if order[0] in fieldSerializer && fieldSerializer[order[0]] == s then {order[0]}
    else FirstFieldWith(fieldSerializer, order[1..], s)
  }

  /** Every field whose serializer is `s`. */
  function FieldsWith(fieldSerializer: map<string, Option<TypeElement>>, s: Option<TypeElement>): set<string> {
    set f | f in fieldSerializer && fieldSerializer[f] == s
  }

  /** The first field, in `order`, of each serializer class. */
  function FirstUserOf(fieldSerializer: map<string, Option<TypeElement>>, order: seq<string>): Option<TypeElement> -> set<string> {
    s => FirstFieldWith(fieldSerializer, order, s)
  }

  /** `generateNamesForSerializers` as written: each distinct serializer
      class names the first field found using it. */
  function NameSerializersAsWritten(fieldSerializer: map<string, Option<TypeElement>>, env: Environment): Result<Naming> {
    NameEach(env.serializerOrder(fieldSerializer.Values), FirstUserOf(fieldSerializer, env.keyOrder(fieldSerializer.Keys)))
  }

  /** Naming as written succeeds under the same condition as the corrected
      naming: every serializer class is non-null with a simple name of at
      least two characters. */
  lemma NameSerializersAsWrittenOk(fieldSerializer: map<string, Option<TypeElement>>, env: Environment)
    requires ValidEnvironment(env)
    ensures NameSerializersAsWritten(fieldSerializer, env).Ok? <==> NameSerializers(fieldSerializer, env).Ok?
  {
    var types := env.serializerOrder(fieldSerializer.Values);
    NameEachOk(types, FirstUserOf(fieldSerializer, env.keyOrder(fieldSerializer.Keys)));
    NameEachOk(types, UsersOf(fieldSerializer));
  }

  /** The fields `named` are fields with a serializer, one for each
      serializer class: every class in use has one of its fields named, and
      no two named fields share a class. */
  predicate NamedOncePerSerializer(fieldSerializer: map<string, Option<TypeElement>>, named: set<string>) {
    && named <= fieldSerializer.Keys
    && (forall f :: f in fieldSerializer ==>
          exists g :: g in named && g in fieldSerializer && fieldSerializer[g] == fieldSerializer[f])
    && (forall f, g ::
          f in named && g in named && f in fieldSerializer && g in fieldSerializer && fieldSerializer[f] == fieldSerializer[g]
          ==> f == g)
  }

  /** The fields the first-user rule picks over `types`, when `types` lists
      every serializer class and `order` every field: one per class. */
  lemma FirstUsersOncePerSerializer(fieldSerializer: map<string, Option<TypeElement>>, order: seq<string>,
                                    types: seq<Option<TypeElement>>, named: set<string>)
    requires HashMaps.Enumerates(types, fieldSerializer.Values) && HashMaps.Enumerates(order, fieldSerializer.Keys)
    requires forall f :: f in named <==> exists i :: 0 <= i < |types| && f in FirstUserOf(fieldSerializer, order)(types[i])
    ensures NamedOncePerSerializer(fieldSerializer, named)
  {
    FirstUsersHaveSerializers(fieldSerializer, order, types, named);
    FirstUsersCoverClasses(fieldSerializer, order, types, named);
    FirstUsersDistinctClasses(fieldSerializer, order, types, named);
  }

  lemma FirstUsersHaveSerializers(fieldSerializer: map<string, Option<TypeElement>>, order: seq<string>,
                                  types: seq<Option<TypeElement>>, named: set<string>)
    requires forall f :: f in named <==> exists i :: 0 <= i < |types| && f in FirstUserOf(fieldSerializer, order)(types[i])
    ensures named <= fieldSerializer.Keys
  {
    forall f | f in named ensures f in fieldSerializer {
      var i :| 0 <= i < |types| && f in FirstUserOf(fieldSerializer, order)(types[i]);
    }
  }

  lemma FirstUsersCoverClasses(fieldSerializer: map<string, Option<TypeElement>>, order: seq<string>,
                               types: seq<Option<TypeElement>>, named: set<string>)
    requires HashMaps.Enumerates(types, fieldSerializer.Values) && HashMaps.Enumerates(order, fieldSerializer.Keys)
    requires forall f :: f in named <==> exists i :: 0 <= i < |types| && f in FirstUserOf(fieldSerializer, order)(types[i])
    ensures forall f :: f in fieldSerializer ==>
              exists g :: g in named && g in fieldSerializer && fieldSerializer[g] == fieldSerializer[f]
  {
    forall f | f in fieldSerializer
      ensures exists g :: g in named && g in fieldSerializer && fieldSerializer[g] == fieldSerializer[f]
    {
      assert fieldSerializer[f] in fieldSerializer.Values;
      var i :| 0 <= i < |types| && types[i] == fieldSerializer[f];
      var first := FirstFieldWith(fieldSerializer, order, types[i]);
      assert f in order;
      assert first != {};
      var g :| g in first;
      assert FirstUserOf(fieldSerializer, order)(types[i]) == first;
      assert g in named;
    }
  }

  lemma FirstUsersDistinctClasses(fieldSerializer: map<string, Option<TypeElement>>, order: seq<string>,
                                  types: seq<Option<TypeElement>>, named: set<string>)
    requires forall f :: f in named <==> exists i :: 0 <= i < |types| && f in FirstUserOf(fieldSerializer, order)(types[i])
    ensures forall f, g ::
              f in named && g in named && f in fieldSerializer && g in fieldSerializer && fieldSerializer[f] == fieldSerializer[g]
              ==> f == g
  {
    forall f, g | f in named && g in named && f in fieldSerializer && g in fieldSerializer
                  && fieldSerializer[f] == fieldSerializer[g]
      ensures f == g
    {
      var i :| 0 <= i < |types| && f in FirstUserOf(fieldSerializer, order)(types[i]);
      var j :| 0 <= j < |types| && g in FirstUserOf(fieldSerializer, order)(types[j]);
      assert types[i] == fieldSerializer[f] == fieldSerializer[g] == types[j];
    }
  }

  /** After naming as written, each serializer class has its name recorded
      for exactly one of the fields using it, and every serializer field is
      declared with a class. */
  lemma NameSerializersAsWrittenFields(fieldSerializer: map<string, Option<TypeElement>>, env: Environment)
    requires ValidEnvironment(env) && NameSerializersAsWritten(fieldSerializer, env).Ok?
    ensures var n := NameSerializersAsWritten(fieldSerializer, env).value;
            NamedOncePerSerializer(fieldSerializer, n.fieldNames.Keys)
            && forall f :: f in n.fieldNames ==> n.fieldNames[f] in n.classNames
  {
    var types := env.serializerOrder(fieldSerializer.Values);
    var order := env.keyOrder(fieldSerializer.Keys);
    var fieldsFor := FirstUserOf(fieldSerializer, order);
    assert HashMaps.Enumerates(types, fieldSerializer.Values);
    assert HashMaps.Enumerates(order, fieldSerializer.Keys);
    NameEachFields(types, fieldsFor);
    NameEachDeclared(types, fieldsFor);
    FirstUsersOncePerSerializer(fieldSerializer, order, types, NameEach(types, fieldsFor).value.fieldNames.Keys);
  }

  /** The fields of each serializer class. */
  function UsersOf(fieldSerializer: map<string, Option<TypeElement>>): Option<TypeElement> -> set<string> {
    s => FieldsWith(fieldSerializer, s)
  }

  /** `generateNamesForSerializers` naming every field that uses the class. */
  function NameSerializers(fieldSerializer: map<string, Option<TypeElement>>, env: Environment): Result<Naming> {
    NameEach(env.serializerOrder(fieldSerializer.Values), UsersOf(fieldSerializer))
  }

  /** Naming succeeds iff every serializer class is non-null with a simple
      name of at least two characters. */
  lemma NameSerializersOk(fieldSerializer: map<string, Option<TypeElement>>, env: Environment)
    requires ValidEnvironment(env)
    ensures NameSerializers(fieldSerializer, env).Ok? <==> forall f :: f in fieldSerializer ==> Nameable(fieldSerializer[f])
  {
    var types := env.serializerOrder(fieldSerializer.Values);
    assert HashMaps.Enumerates(types, fieldSerializer.Values);
    NameEachOk(types, UsersOf(fieldSerializer));
    if NameSerializers(fieldSerializer, env).Ok? {
      forall f | f in fieldSerializer ensures Nameable(fieldSerializer[f]) {
        assert fieldSerializer[f] in fieldSerializer.Values;
        var i :| 0 <= i < |types| && types[i] == fieldSerializer[f];
      }
    } else {
      var i :| 0 <= i < |types| && !Nameable(types[i]);
      assert types[i] in fieldSerializer.Values;
      var f :| f in fieldSerializer && fieldSerializer[f] == types[i];
    }
  }

  /** After naming, every entity field with a serializer has a serializer
      field, and that field is declared with a class. */
  lemma NameSerializersFields(fieldSerializer: map<string, Option<TypeElement>>, env: Environment)
    requires ValidEnvironment(env) && NameSerializers(fieldSerializer, env).Ok?
    ensures var n := NameSerializers(fieldSerializer, env).value;
            n.fieldNames.Keys == fieldSerializer.Keys && forall f :: f in n.fieldNames ==> n.fieldNames[f] in n.classNames
  {
    var types := env.serializerOrder(fieldSerializer.Values);
    var fieldsFor := UsersOf(fieldSerializer);
    assert HashMaps.Enumerates(types, fieldSerializer.Values);
    NameEachFields(types, fieldsFor);
    NameEachDeclared(types, fieldsFor);
    var n := NameEach(types, fieldsFor).value;
    forall f | f in fieldSerializer ensures f in n.fieldNames {
      assert fieldSerializer[f] in fieldSerializer.Values;
      var i :| 0 <= i < |types| && types[i] == fieldSerializer[f];
      assert f in fieldsFor(types[i]);
    }
  }

  /** The classes to import are exactly the serializer classes. */
  lemma NameSerializersImports(fieldSerializer: map<string, Option<TypeElement>>, env: Environment)
    requires ValidEnvironment(env) && NameSerializers(fieldSerializer, env).Ok?
    ensures forall q :: q in NameSerializers(fieldSerializer, env).value.qualifiedNames
                    <==> exists f :: f in fieldSerializer && fieldSerializer[f].Some? && fieldSerializer[f].value.qualifiedName == q
  {
    var types := env.serializerOrder(fieldSerializer.Values);
    var fieldsFor := UsersOf(fieldSerializer);
    assert HashMaps.Enumerates(types, fieldSerializer.Values);
    NameEachQualified(types, fieldsFor);
    var n := NameEach(types, fieldsFor).value;
    forall q | q in n.qualifiedNames
      ensures exists f :: f in fieldSerializer && fieldSerializer[f].Some? && fieldSerializer[f].value.qualifiedName == q
    {
      var i :| 0 <= i < |types| && types[i].Some? && types[i].value.qualifiedName == q;
      assert types[i] in fieldSerializer.Values;
    }
    forall q | exists f :: f in fieldSerializer && fieldSerializer[f].Some? && fieldSerializer[f].value.qualifiedName == q
      ensures q in n.qualifiedNames
    {
      var f :| f in fieldSerializer && fieldSerializer[f].Some? && fieldSerializer[f].value.qualifiedName == q;
      assert fieldSerializer[f] in fieldSerializer.Values;
      var i :| 0 <= i < |types| && types[i] == fieldSerializer[f];
    }
  }

  /** A loop over one class is one turn from empty fields. */
  lemma NameEachSingle(s: Option<TypeElement>, fieldsFor: Option<TypeElement> -> set<string>)
    ensures NameEach([s], fieldsFor) == NameStep(Naming(map[], map[], {}, map[]), s, fieldsFor)
  {
    assert [s][..0] == [];
  }

  /** A turn puts its name under at most one field when `fieldsFor` gives at
      most one. */
  lemma NameStepAtMostOne(n: Naming, s: Option<TypeElement>, fieldsFor: Option<TypeElement> -> set<string>, a: string, b: string)
    requires n.fieldNames == map[] && NameStep(n, s, fieldsFor).Ok?
    requires forall f, g :: f in fieldsFor(s) && g in fieldsFor(s) ==> f == g
    requires a != b
    ensures !(a in NameStep(n, s, fieldsFor).value.fieldNames && b in NameStep(n, s, fieldsFor).value.fieldNames)
  {
  }

  /** Two `Date` fields share the default date serializer; as written only
      one of them is given the serializer field, so code generated for the
      other reads a null serializer. */
  lemma NameSerializersAsWrittenMissesField(date: TypeElement, env: Environment)
    requires ValidEnvironment(env) && |date.simpleName| >= 2
    ensures var fieldSerializer := map["created" := Some(date), "updated" := Some(date)];
            var n := NameSerializersAsWritten(fieldSerializer, env);
            n.Ok? && !("created" in n.value.fieldNames && "updated" in n.value.fieldNames)
  {
    var fieldSerializer := map["created" := Some(date), "updated" := Some(date)];
    var types := env.serializerOrder(fieldSerializer.Values);
    assert fieldSerializer.Values == {Some(date)} by {
      assert fieldSerializer["created"] == Some(date);
    }
    assert HashMaps.Enumerates(types, {Some(date)});
    HashMaps.EnumeratesCard(types, {Some(date)});
    assert types == [Some(date)] by {
      assert types[0] in {Some(date)};
    }
    var fieldsFor := FirstUserOf(fieldSerializer, env.keyOrder(fieldSerializer.Keys));
    NameEachSingle(Some(date), fieldsFor);
    NameStepAtMostOne(Naming(map[], map[], {}, map[]), Some(date), fieldsFor, "created", "updated");
  }

  // ------------------------------------------------------------ item SQL

  const AND: string := " AND "
  const PLACEHOLDER: string := "=?"

  /** The `WHERE` condition of the row with the given keys: `column=?` per
      key, in the iteration order of the key set, joined by ` AND `; the
      argument fields are the keys in the same order. */
  function ItemSql(columnNames: map<string, string>, primaryKeyFields: set<string>, keyOrder: set<string> -> seq<string>)
    : (string, seq<string>)
  {
    var order := keyOrder(primaryKeyFields);
    (Seqs.Join(KeyConditions(columnNames, order), AND), order)
  }

  function KeyConditions(columnNames: map<string, string>, fields: seq<string>): (r: seq<string>)
    ensures |r| == |fields|
    ensures forall i :: 0 <= i < |fields| ==> r[i] == ColumnOrNull(columnNames, fields[i]) + PLACEHOLDER
  {
    seq(|fields|, i requires 0 <= i < |fields| => ColumnOrNull(columnNames, fields[i]) + PLACEHOLDER)
  }

  lemma ConditionPlaceholder(column: string)
    requires '?' !in column
    ensures StringExtensions.CountSqliteArgs(column + PLACEHOLDER) == 1
  {
    StringExtensions.CountSqliteArgsAppend(column, PLACEHOLDER);
    assert multiset(column)['?'] == 0;
    assert PLACEHOLDER == ['=', '?'];
    assert multiset(PLACEHOLDER)['?'] == 1;
  }

  /** One placeholder per condition, when no column name holds one. */
  lemma KeyConditionsPlaceholders(columnNames: map<string, string>, fields: seq<string>)
    requires forall f :: f in columnNames ==> '?' !in columnNames[f]
    ensures StringExtensions.CountSqliteArgs(Seqs.Join(KeyConditions(columnNames, fields), AND)) == |fields|
  {
    var conditions := KeyConditions(columnNames, fields);
    assert '?' !in AND;
    forall i | 0 <= i < |conditions| ensures StringExtensions.CountSqliteArgs(conditions[i]) == 1 {
      ConditionPlaceholder(ColumnOrNull(columnNames, fields[i]));
    }
    StringExtensions.JoinPlaceholders(conditions, AND);
  }

  /** The statement has one placeholder per argument field, and the
      argument fields are the keys, each once; with the conditions built
      from the same sequence, the `i`-th placeholder binds the `i`-th
      argument's column (no column name holding a `?`). */
  lemma ItemSqlBindsKeys(columnNames: map<string, string>, primaryKeyFields: set<string>, keyOrder: set<string> -> seq<string>)
    requires HashMaps.Enumerates(keyOrder(primaryKeyFields), primaryKeyFields)
    requires forall f :: f in columnNames ==> '?' !in columnNames[f]
    ensures var (sql, args) := ItemSql(columnNames, primaryKeyFields, keyOrder);
            StringExtensions.CountSqliteArgs(sql) == |args| == |primaryKeyFields|
            && HashMaps.Enumerates(args, primaryKeyFields)
  {
    KeyConditionsPlaceholders(columnNames, keyOrder(primaryKeyFields));
    HashMaps.EnumeratesCard(keyOrder(primaryKeyFields), primaryKeyFields);
  }

  // ------------------------------------------------------------ initialize

  /** The model of a class before any step has run. */
  function Unresolved(t: TypeElement): Model {
    Model(t, "", "", "", "", map[], {}, map[], map[], map[], map[], map[], map[], map[], map[], map[], map[],
          map[], map[], map[], "", map[], map[], {}, map[], "", [])
  }

  /** `findMapperPackageName` to `findColumnNames`, except the sub-models:
      names, fields in use, keys, foreign-key actions and column names. */
  function Discover(t: TypeElement, env: Environment): (r: Result<Model>)
    ensures r.Ok? ==> FieldsInUse(t).Ok? && r.value.fieldsInUse == FieldsInUse(t).value && r.value.typeElement == t
  {
    var tableName :- TableName(t);
    var fieldsInUse :- FieldsInUse(t);
    var primaryKeyFields :- PrimaryKeys(t, fieldsInUse);
    var columnNames :- ColumnNames(fieldsInUse, env.keyOrder(fieldsInUse.Keys));
    Ok(Unresolved(t).(mapperPackageName := env.packageOf(t), mapperClassName := MapperClassName(t),
                      databaseEntityClassName := t.simpleName, tableName := tableName,
                      fieldsInUse := fieldsInUse, primaryKeyFields := primaryKeyFields,
                      foreignKeyOnUpdate := OnUpdateActions(fieldsInUse),
                      foreignKeyOnDelete := OnDeleteActions(fieldsInUse), columnNames := columnNames))
  }

  /** `findGetFieldMethods` to `findSetFieldAccess`. */
  function ResolveAccessors(m: Model, env: Environment): (r: Result<Model>)
    ensures r.Ok? ==>
              r.value == m.(annotatedGetMethods := r.value.annotatedGetMethods, getMethods := r.value.getMethods,
                            fieldGetAccess := r.value.fieldGetAccess, annotatedSetMethods := r.value.annotatedSetMethods,
                            setMethods := r.value.setMethods, fieldSetAccess := r.value.fieldSetAccess)
  {
    var order := env.keyOrder(m.fieldsInUse.Keys);
    var annotatedGet :- AnnotatedGetMethods(m.typeElement, m.fieldsInUse);
    var getMethods :- GetMethods(m.typeElement, m.fieldsInUse);
    var getAccess :- FieldAccesses(m.fieldsInUse, annotatedGet, getMethods, NO_GET_ACCESS, order);
    var annotatedSet :- AnnotatedSetMethods(m.typeElement, m.fieldsInUse);
    var setMethods :- SetMethods(m.typeElement, m.fieldsInUse);
    var setAccess :- FieldAccesses(m.fieldsInUse, annotatedSet, setMethods, NO_SET_ACCESS, order);
    Ok(m.(annotatedGetMethods := annotatedGet, getMethods := getMethods, fieldGetAccess := getAccess,
          annotatedSetMethods := annotatedSet, setMethods := setMethods, fieldSetAccess := setAccess))
  }

  /** `findSerializers` and `verifySerializersMatchFields`, with the
      class's own type comparison as written. */
  function ResolveSerializers(m: Model, env: Environment): (r: Result<Model>)
    ensures r.Ok? ==> r.value == m.(fieldSerializer := r.value.fieldSerializer)
  {
    var order := env.keyOrder(m.fieldsInUse.Keys);
    var serializers :- Serializers(m.fieldsInUse, env.dateSerializer, order);
    var _ :- VerifySerializers(m.fieldsInUse, serializers, TypeUtils.IsTypeMirrorEqualAsWritten, order);
    Ok(m.(fieldSerializer := serializers))
  }

  /** `findDatabaseTypesForFields` to `generateItemSql`, as written: foreign
      keys reference the key's field name, and each serializer class names
      the first field found using it. */
  function Generate(m: Model, env: Environment): (r: Result<Model>)
    ensures r.Ok? ==>
              r.value == m.(fieldDatabaseTypes := r.value.fieldDatabaseTypes, cursorTypes := r.value.cursorTypes,
                            createTableSql := r.value.createTableSql, fieldNameOccurrences := r.value.fieldNameOccurrences,
                            serializerFieldClassNames := r.value.serializerFieldClassNames,
                            serializerQualifiedNames := r.value.serializerQualifiedNames,
                            fieldSerializerNames := r.value.fieldSerializerNames, itemSql := r.value.itemSql,
                            itemSqlArgFields := r.value.itemSqlArgFields)
  {
    var databaseTypes :- FieldTypes(m, env.keyOrder, DatabaseTypeOf);
    var cursorTypes :- FieldTypes(m, env.keyOrder, CursorTypeOf);
    var typed := m.(fieldDatabaseTypes := databaseTypes, cursorTypes := cursorTypes);
    var createTableSql :- CreateTableSqlAsWritten(typed, env.keyOrder);
    var naming :- NameSerializersAsWritten(m.fieldSerializer, env);
    var (itemSql, itemSqlArgFields) := ItemSql(m.columnNames, m.primaryKeyFields, env.keyOrder);
    Ok(typed.(createTableSql := createTableSql, fieldNameOccurrences := naming.occurrences,
              serializerFieldClassNames := naming.classNames, serializerQualifiedNames := naming.qualifiedNames,
              fieldSerializerNames := naming.fieldNames, itemSql := itemSql, itemSqlArgFields := itemSqlArgFields))
  }

  /** The entity class of a sub-model field is smaller than the class. */
  lemma SubModelTypesSmaller(t: TypeElement)
    requires FieldsInUse(t).Ok?
    ensures forall f :: f in SubModelTypes(FieldsInUse(t).value) ==> TypeSize(SubModelTypes(FieldsInUse(t).value)[f]) < TypeSize(t)
  {
    FieldsInUseSmaller(t);
  }

  /** `initialize`: the steps in the order the source runs them; the first
      that fails ends it. */
  function Initialize(t: TypeElement, env: Environment): Result<Model>
    decreases TypeSize(t), 1
  {
    var discovered :- Discover(t, env);
    var types := SubModelTypes(discovered.fieldsInUse);
    SubModelTypesSmaller(t);
    var subModels :- InitializeEach(types, env.keyOrder(types.Keys), TypeSize(t), env);
    Complete(discovered.(subModels := subModels), env)
  }

  /** The steps after `initializeSubModels`. */
  function Complete(m: Model, env: Environment): Result<Model> {
    var accessed :- ResolveAccessors(m, env);
    var serialized :- ResolveSerializers(accessed, env);
    Generate(serialized, env)
  }

  /** `initializeSubModels`: the model of each sub-model class, initialized
      in the iteration order of the sub-model fields. */
  function InitializeEach(types: map<string, TypeElement>, order: seq<string>, bound: nat, env: Environment)
    : Result<map<string, Model>>
    requires forall f :: f in types ==> TypeSize(types[f]) < bound
    decreases bound, 0, |order|
  {
    if |order| == 0 then Ok(map[])
    else
      var done :- InitializeEach(types, order[..|order| - 1], bound, env);
      var f := order[|order| - 1];
      if f !in types then Ok(done)
      else
        var sub :- Initialize(types[f], env);
        Ok(done[f := sub])
  }

  // ------------------------------------------------------------ what initialize establishes

  /** The SQL type of a column is the storage class its cursor getter reads,
      whether the type comes from a serializer, a sub-model's key or the
      field itself. */
  lemma {:induction false} FieldTypeAgrees(m: Model, keyOrder: set<string> -> seq<string>, field: string)
    ensures FieldTypeOf(m, keyOrder, field, DatabaseTypeOf).Ok? ==>
              FieldTypeOf(m, keyOrder, field, CursorTypeOf).Ok?
              && StorageClassOf(FieldTypeOf(m, keyOrder, field, CursorTypeOf).value) == FieldTypeOf(m, keyOrder, field, DatabaseTypeOf).value
    decreases m, 0
  {
    if field in m.fieldSerializer && m.fieldSerializer[field].Some? {
      var serialized := SerializedType(m.fieldSerializer[field].value);
      if serialized.Ok? {
        CursorTypeMatchesDatabaseType(DeclaredType(serialized.value, []));
      }
    } else if field in m.subModels {
      KeyTypeAgrees(m.subModels[field], keyOrder);
    } else if field in m.fieldsInUse {
      CursorTypeMatchesDatabaseType(m.fieldsInUse[field].asType);
    }
  }

  lemma {:induction false} KeyTypeAgrees(sub: Model, keyOrder: set<string> -> seq<string>)
    ensures KeyTypeOf(sub, keyOrder, DatabaseTypeOf).Ok? ==>
              KeyTypeOf(sub, keyOrder, CursorTypeOf).Ok?
              && StorageClassOf(KeyTypeOf(sub, keyOrder, CursorTypeOf).value) == KeyTypeOf(sub, keyOrder, DatabaseTypeOf).value
    decreases sub, 1
  {
    if |sub.primaryKeyFields| == 1 && |keyOrder(sub.primaryKeyFields)| > 0 {
      FieldTypeAgrees(sub, keyOrder, keyOrder(sub.primaryKeyFields)[0]);
    }
  }

  /** Fields in use, keys and column names as the first steps leave them. */
  ghost predicate Discovered(m: Model) {
    m.fieldsInUse != map[]
    && m.primaryKeyFields != {} && m.primaryKeyFields <= m.fieldsInUse.Keys
    && m.columnNames.Keys == m.fieldsInUse.Keys
    && forall f :: f in m.columnNames ==> m.columnNames[f] == ColumnNameOf(m.fieldsInUse[f]) != ""
  }

  /** One sub-model per field whose type is an entity class, for that class. */
  ghost predicate HasSubModels(m: Model) {
    (forall f :: f in m.subModels <==> f in m.fieldsInUse && IsEntityType(m.fieldsInUse[f].asType))
    && forall f :: f in m.subModels ==> m.subModels[f].typeElement == m.fieldsInUse[f].asType.decl
  }

  /** Every field in use can be read and written, by the accessor the
      precedence chooses. */
  ghost predicate Accessible(m: Model) {
    m.fieldGetAccess.Keys == m.fieldsInUse.Keys && m.fieldSetAccess.Keys == m.fieldsInUse.Keys
    && (forall f :: f in m.fieldGetAccess ==>
          (m.fieldGetAccess[f] == AnnotatedMethod <==> f in m.annotatedGetMethods)
          && (m.fieldGetAccess[f] == DirectField ==> ElementExtensions.IsAccessible(m.fieldsInUse[f])))
    && forall f :: f in m.fieldSetAccess ==>
          (m.fieldSetAccess[f] == AnnotatedMethod <==> f in m.annotatedSetMethods)
          && (m.fieldSetAccess[f] == DirectField ==> ElementExtensions.IsAccessible(m.fieldsInUse[f]))
  }

  /** Every serializer belongs to a field in use and fits it in the sense
      of the class's own comparison: it has a `deserialize` method, whose
      type is only compared when the field's type is neither primitive nor
      declared. */
  ghost predicate SerializersFit(m: Model) {
    m.fieldSerializer.Keys <= m.fieldsInUse.Keys
    && forall f :: f in m.fieldsInUse ==> SerializerFits(m.fieldsInUse, m.fieldSerializer, TypeUtils.IsTypeMirrorEqualAsWritten, f)
  }

  /** Every column has an SQL type and the matching cursor getter, every
      sub-model has exactly one key, each serializer class has a declared
      serializer field recorded for exactly one of the fields using it, and
      the item statement's arguments are the keys. */
  ghost predicate Generated(m: Model) {
    m.fieldDatabaseTypes.Keys == m.columnNames.Keys && m.cursorTypes.Keys == m.columnNames.Keys
    && (forall f :: f in m.cursorTypes ==> StorageClassOf(m.cursorTypes[f]) == m.fieldDatabaseTypes[f])
    && (forall f :: f in m.subModels ==> |m.subModels[f].primaryKeyFields| == 1)
    && NamedOncePerSerializer(m.fieldSerializer, m.fieldSerializerNames.Keys)
    && (forall f :: f in m.fieldSerializerNames ==> m.fieldSerializerNames[f] in m.serializerFieldClassNames)
    && HashMaps.Enumerates(m.itemSqlArgFields, m.primaryKeyFields)
  }

  /** A model `initialize` has returned, and so are its sub-models. */
  ghost predicate Resolved(m: Model)
    decreases m
  {
    Discovered(m) && HasSubModels(m) && Accessible(m) && SerializersFit(m) && Generated(m)
    && forall f :: f in m.subModels ==> Resolved(m.subModels[f])
  }

  lemma DiscoverResolves(t: TypeElement, env: Environment)
    requires ValidEnvironment(env) && Discover(t, env).Ok?
    ensures Discovered(Discover(t, env).value) && Discover(t, env).value.subModels == map[]
  {
    var fields := ColumnFields(t);
    var fieldsInUse := FieldsInUse(t).value;
    FieldsByNameKeys(fields);
    assert fields[0].simpleName in fieldsInUse;
    PrimaryKeysInUse(t, fieldsInUse);
    assert HashMaps.Enumerates(env.keyOrder(fieldsInUse.Keys), fieldsInUse.Keys);
    ColumnNamesOk(fieldsInUse, env.keyOrder(fieldsInUse.Keys));
    ColumnNamesValue(fieldsInUse, env.keyOrder(fieldsInUse.Keys));
  }

  lemma ResolveAccessorsResolves(m: Model, env: Environment)
    requires ValidEnvironment(env) && ResolveAccessors(m, env).Ok?
    ensures var r := ResolveAccessors(m, env).value;
            Accessible(r)
            && (Discovered(m) ==> Discovered(r)) && (HasSubModels(m) ==> HasSubModels(r))
            && r.subModels == m.subModels && r.fieldSerializer == m.fieldSerializer
  {
    var order := env.keyOrder(m.fieldsInUse.Keys);
    assert HashMaps.Enumerates(order, m.fieldsInUse.Keys);
    var annotatedGet := AnnotatedGetMethods(m.typeElement, m.fieldsInUse).value;
    var getMethods := GetMethods(m.typeElement, m.fieldsInUse).value;
    var annotatedSet := AnnotatedSetMethods(m.typeElement, m.fieldsInUse).value;
    var setMethods := SetMethods(m.typeElement, m.fieldsInUse).value;
    FieldAccessesValue(m.fieldsInUse, annotatedGet, getMethods, NO_GET_ACCESS, order);
    FieldAccessesValue(m.fieldsInUse, annotatedSet, setMethods, NO_SET_ACCESS, order);
  }

  lemma ResolveSerializersResolves(m: Model, env: Environment)
    requires ValidEnvironment(env) && ResolveSerializers(m, env).Ok?
    ensures var r := ResolveSerializers(m, env).value;
            SerializersFit(r)
            && (Discovered(m) ==> Discovered(r)) && (HasSubModels(m) ==> HasSubModels(r)) && (Accessible(m) ==> Accessible(r))
            && r.subModels == m.subModels
  {
    var order := env.keyOrder(m.fieldsInUse.Keys);
    assert HashMaps.Enumerates(order, m.fieldsInUse.Keys);
    var serializers := Serializers(m.fieldsInUse, env.dateSerializer, order).value;
    SerializersValue(m.fieldsInUse, env.dateSerializer, order);
    VerifySerializersOk(m.fieldsInUse, serializers, TypeUtils.IsTypeMirrorEqualAsWritten, order);
  }

  /** Each column's cursor getter reads the column's SQL type. */
  lemma ColumnTypesAgree(m: Model, keyOrder: set<string> -> seq<string>)
    requires HashMaps.Enumerates(keyOrder(m.columnNames.Keys), m.columnNames.Keys)
    requires FieldTypes(m, keyOrder, DatabaseTypeOf).Ok?
    ensures FieldTypes(m, keyOrder, CursorTypeOf).Ok?
    ensures var databaseTypes := FieldTypes(m, keyOrder, DatabaseTypeOf).value;
            var cursorTypes := FieldTypes(m, keyOrder, CursorTypeOf).value;
            databaseTypes.Keys == cursorTypes.Keys == m.columnNames.Keys
            && forall f :: f in cursorTypes ==> StorageClassOf(cursorTypes[f]) == databaseTypes[f]
  {
    FieldTypesOk(m, keyOrder, DatabaseTypeOf);
    FieldTypesOk(m, keyOrder, CursorTypeOf);
    forall f | f in m.columnNames ensures FieldTypeOf(m, keyOrder, f, CursorTypeOf).Ok? {
      FieldTypeAgrees(m, keyOrder, f);
    }
    FieldTypesValue(m, keyOrder, DatabaseTypeOf);
    FieldTypesValue(m, keyOrder, CursorTypeOf);
    forall f | f in m.columnNames
      ensures StorageClassOf(FieldTypes(m, keyOrder, CursorTypeOf).value[f]) == FieldTypes(m, keyOrder, DatabaseTypeOf).value[f]
    {
      FieldTypeAgrees(m, keyOrder, f);
    }
  }

  /** The types the last steps find agree, and every sub-model has one key. */
  lemma GenerateTypes(m: Model, env: Environment)
    requires ValidEnvironment(env) && Generate(m, env).Ok?
    ensures var r := Generate(m, env).value;
            r.fieldDatabaseTypes.Keys == m.columnNames.Keys && r.cursorTypes.Keys == m.columnNames.Keys
            && (forall f :: f in r.cursorTypes ==> StorageClassOf(r.cursorTypes[f]) == r.fieldDatabaseTypes[f])
            && forall f :: f in m.subModels ==> |m.subModels[f].primaryKeyFields| == 1
  {
    assert HashMaps.Enumerates(env.keyOrder(m.columnNames.Keys), m.columnNames.Keys);
    ColumnTypesAgree(m, env.keyOrder);
    var typed := m.(fieldDatabaseTypes := FieldTypes(m, env.keyOrder, DatabaseTypeOf).value,
                    cursorTypes := FieldTypes(m, env.keyOrder, CursorTypeOf).value);
    CreateTableSqlOk(typed, env.keyOrder, ReferencedField);
  }

  /** Each serializer class is recorded for exactly one field using it, with
      a declared serializer field, and the item arguments are the keys. */
  lemma GenerateNames(m: Model, env: Environment)
    requires ValidEnvironment(env) && Generate(m, env).Ok?
    ensures var r := Generate(m, env).value;
            && NamedOncePerSerializer(m.fieldSerializer, r.fieldSerializerNames.Keys)
            && (forall f :: f in r.fieldSerializerNames ==> r.fieldSerializerNames[f] in r.serializerFieldClassNames)
            && HashMaps.Enumerates(r.itemSqlArgFields, m.primaryKeyFields)
  {
    NameSerializersAsWrittenFields(m.fieldSerializer, env);
    assert HashMaps.Enumerates(env.keyOrder(m.primaryKeyFields), m.primaryKeyFields);
  }

  lemma GenerateResolves(m: Model, env: Environment)
    requires ValidEnvironment(env) && Generate(m, env).Ok?
    ensures Generated(Generate(m, env).value)
  {
    GenerateTypes(m, env);
    GenerateNames(m, env);
  }

  /** The last steps leave what the earlier ones established. */
  lemma GenerateKeeps(m: Model, env: Environment)
    requires Generate(m, env).Ok?
    ensures var r := Generate(m, env).value;
            (Discovered(m) ==> Discovered(r)) && (HasSubModels(m) ==> HasSubModels(r))
            && (Accessible(m) ==> Accessible(r)) && (SerializersFit(m) ==> SerializersFit(r))
            && r.subModels == m.subModels
  {
  }

  /** `initialize` returns a resolved model of the class, whatever the
      iteration orders: see `Resolved`. */
  lemma {:induction false} InitializeResolved(t: TypeElement, env: Environment)
    requires ValidEnvironment(env) && Initialize(t, env).Ok?
    ensures Resolved(Initialize(t, env).value) && Initialize(t, env).value.typeElement == t
    decreases TypeSize(t), 1
  {
    var discovered := Discover(t, env).value;
    DiscoverResolves(t, env);
    var types := SubModelTypes(discovered.fieldsInUse);
    SubModelTypesSmaller(t);
    var order := env.keyOrder(types.Keys);
    assert HashMaps.Enumerates(order, types.Keys);
    InitializeEachResolved(types, order, TypeSize(t), env);
    var withSubs := discovered.(subModels := InitializeEach(types, order, TypeSize(t), env).value);
    assert HasSubModels(withSubs);
    CompleteKeeps(withSubs, env);
    CompleteResolves(withSubs, env);
  }

  /** The steps after the sub-models keep what discovery established. */
  lemma CompleteKeeps(m: Model, env: Environment)
    requires ValidEnvironment(env) && Complete(m, env).Ok? && Discovered(m) && HasSubModels(m)
    ensures var r := Complete(m, env).value;
            Discovered(r) && HasSubModels(r) && r.subModels == m.subModels && r.typeElement == m.typeElement
  {
    var accessed := ResolveAccessors(m, env).value;
    ResolveAccessorsResolves(m, env);
    var serialized := ResolveSerializers(accessed, env).value;
    ResolveSerializersResolves(accessed, env);
    GenerateKeeps(serialized, env);
  }

  /** The steps after the sub-models resolve accessors, serializers and the
      generated statements. */
  lemma CompleteResolves(m: Model, env: Environment)
    requires ValidEnvironment(env) && Complete(m, env).Ok?
    ensures var r := Complete(m, env).value;
            Accessible(r) && SerializersFit(r) && Generated(r)
  {
    var accessed := ResolveAccessors(m, env).value;
    ResolveAccessorsResolves(m, env);
    var serialized := ResolveSerializers(accessed, env).value;
    ResolveSerializersResolves(accessed, env);
    GenerateResolves(serialized, env);
    GenerateKeeps(serialized, env);
  }

  lemma {:induction false} InitializeEachResolved(types: map<string, TypeElement>, order: seq<string>, bound: nat, env: Environment)
    requires ValidEnvironment(env) && forall f :: f in types ==> TypeSize(types[f]) < bound
    requires InitializeEach(types, order, bound, env).Ok?
    ensures var subs := InitializeEach(types, order, bound, env).value;
            (forall f :: f in subs <==> f in order && f in types)
            && forall f :: f in subs ==> Resolved(subs[f]) && subs[f].typeElement == types[f]
    decreases bound, 0, |order|
  {
    if |order| > 0 {
      var front := order[..|order| - 1];
      InitializeEachResolved(types, front, bound, env);
      var f := order[|order| - 1];
      assert order == front + [f];
      if f in types {
        InitializeResolved(types[f], env);
      }
    }
  }

  /** A set of one element holds just that element. */
  lemma SingletonIs(s: set<string>, k: string)
    requires |s| == 1 && k in s
    ensures s == {k}
  {
    assert |s - {k}| == 0;
  }

  /** The one key of a discovered entity: the foreign key names it, and the
      corrected reference is a column of the entity's table. */
  lemma KeyColumnReferenced(sub: Model, k: string)
    requires Discovered(sub) && |sub.primaryKeyFields| == 1 && k in sub.primaryKeyFields
    ensures sub.primaryKeyFields == {k}
    ensures ReferencedColumn(sub, k) in sub.columnNames.Values && ReferencedColumn(sub, k) != ""
  {
    SingletonIs(sub.primaryKeyFields, k);
    assert k in sub.columnNames;
  }

  /** The parts of a resolved model the foreign keys depend on. */
  lemma ResolvedSubModels(m: Model)
    requires Resolved(m)
    ensures forall f :: f in m.subModels ==> Discovered(m.subModels[f]) && |m.subModels[f].primaryKeyFields| == 1
  {
    forall f | f in m.subModels
      ensures Discovered(m.subModels[f]) && |m.subModels[f].primaryKeyFields| == 1
    {
      assert Generated(m) && Resolved(m.subModels[f]);
    }
  }

  /** In a resolved model every foreign key names the one key of the
      referenced entity, and with the corrected reference the name is a
      column of that entity's table. */
  lemma ForeignKeysReferenceColumns(m: Model)
    requires Resolved(m)
    ensures forall f, k :: f in m.subModels && k in m.subModels[f].primaryKeyFields ==>
              m.subModels[f].primaryKeyFields == {k}
              && ReferencedColumn(m.subModels[f], k) in m.subModels[f].columnNames.Values
              && ReferencedColumn(m.subModels[f], k) != ""
  {
    ResolvedSubModels(m);
    forall f, k | f in m.subModels && k in m.subModels[f].primaryKeyFields
      ensures m.subModels[f].primaryKeyFields == {k}
              && ReferencedColumn(m.subModels[f], k) in m.subModels[f].columnNames.Values
              && ReferencedColumn(m.subModels[f], k) != ""
    {
      KeyColumnReferenced(m.subModels[f], k);
    }
  }

  /** The type of a field does not depend on the SQL types already found,
      so the cursor types come out the same after the SQL types are stored. */
  lemma FieldTypesIgnoreFoundTypes<T>(m: Model, keyOrder: set<string> -> seq<string>, leaf: TypeMirror -> Result<T>,
                                      found: map<string, ColumnDataType>)
    ensures FieldTypes(m.(fieldDatabaseTypes := found), keyOrder, leaf) == FieldTypes(m, keyOrder, leaf)
  {
    var typed := m.(fieldDatabaseTypes := found);
    forall f | f in keyOrder(m.columnNames.Keys)
      ensures TypeEntries(typed, keyOrder, leaf)(f) == TypeEntries(m, keyOrder, leaf)(f)
    {
      assert FieldTypeOf(typed, keyOrder, f, leaf) == FieldTypeOf(m, keyOrder, f, leaf);
    }
    HashMaps.PutEachSame(keyOrder(m.columnNames.Keys), TypeEntries(typed, keyOrder, leaf), TypeEntries(m, keyOrder, leaf));
  }
}

/** `DatabaseEntityModel` (Kotlin generation): everything the generator needs
    to know about one entity class.

    The Kotlin class holds only the entity's type element; every property is
    computed from it on demand.  The model keeps the class (its identity
    matters to the memoising `DatabaseEntityModelLazyMap`) and states each
    property as a function of the type element.
 */
module DatabaseEntityModelKt {
  import opened Wrappers
  import opened Elements
  import opened ElementExtensions
  import Seqs
  import Results
  import Decimal
  import StringExtensions

  // Messages of the exceptions the model raises.
  const NOT_AN_ENTITY_PREFIX: string := "element "
  const NOT_AN_ENTITY_SUFFIX: string := " not annotated with @DatabaseEntity"
  const EMPTY_FIELD_NAME: string := "fieldName must not be null or empty!"
  const KEY_FIELD_MISSING: string := "Field specified in DatabaseEntity annotation doesn't exist in entity class!"
  const NO_ENTITY_ANNOTATION: string := "getAnnotation(DatabaseEntity) returned null"
  const NO_KEY_FIELDS: string := "There must be a field annotated with PrimaryKey or the keys specified in @DatabaseEntity is empty!"
  const NOT_UNDERSTOOD: string := " is not a type that SlingerORM understands, please add @SerializeTo and tell it what to serialize to."
  const TYPE_NOT_KNOWN: string := " have a type not known by SlingerORM, solve this by creating a custom serializer"
  const UNREACHABLE: string := " should never been reached, processor error?"
  const NO_SERIALIZE_TO: string := "getAnnotation(SerializeTo) returned null"
  const ONLY_ONE_PARAMETER: string := " parameters, only 1 parameter supported!"
  const NOT_KNOWN: string := " is not known by SlingerORM, solve this by creating a custom serializer method"

  class DatabaseEntityModel {
    const databaseTypeElement: TypeElement

    constructor (databaseTypeElement: TypeElement)
      ensures this.databaseTypeElement == databaseTypeElement
    {
      this.databaseTypeElement := databaseTypeElement;
    }
  }

  // ---------------------------------------------------------------- table

  function EntityAnnotation(entity: TypeElement): Option<Annotation> {
    GetAnnotation(entity.typeAnnotations, DatabaseEntityClass)
  }

  /** `tableName`: the annotation's `name`, or the simple name when `name` is
      empty; a type without `@DatabaseEntity` is rejected. */
  function TableName(entity: TypeElement): (r: Result<string>)
    ensures r.Ok? <==> EntityAnnotation(entity).Some?
    ensures r.Err? ==> r.error.InvalidElement?
    ensures r.Ok? ==> var name := EntityAnnotation(entity).value.name;
                      (name != "" ==> r.value == name) && (name == "" ==> r.value == entity.simpleName)
  {
    var annotation := EntityAnnotation(entity);
    if annotation.None? then Err(InvalidElement(NOT_AN_ENTITY_PREFIX + entity.qualifiedName + NOT_AN_ENTITY_SUFFIX))
    else if annotation.value.name == "" then Ok(entity.simpleName)
    else Ok(annotation.value.name)
  }

  // -------------------------------------------------------------- columns

  /** `isDatabaseField`: a field that is neither static nor transient nor
      marked `@IgnoreField`. */
  predicate IsDatabaseField(e: Element) {
    e.kind == FieldKind && Static !in e.modifiers && Transient !in e.modifiers
    && !HasAnnotation(e.annotations, IgnoreFieldClass)
  }

  /** `fieldsUsedInDatabase`. */
  function Columns(entity: TypeElement): seq<Element> {
    Seqs.Filter(ElementsOf(entity), IsDatabaseField)
  }

  predicate DistinctNames(s: seq<Element>) {
    forall i, j :: 0 <= i < j < |s| ==> s[i].simpleName != s[j].simpleName
  }

  lemma {:induction false} FilterKeepsNamesDistinct(s: seq<Element>, p: Element -> bool)
    requires DistinctNames(s)
    ensures DistinctNames(Seqs.Filter(s, p))
  {
    if |s| > 0 {
      assert DistinctNames(s[1..]) by {
        forall i, j | 0 <= i < j < |s[1..]|
          ensures s[1..][i].simpleName != s[1..][j].simpleName
        {
          assert s[1..][i] == s[i + 1] && s[1..][j] == s[j + 1];
        }
      }
      FilterKeepsNamesDistinct(s[1..], p);
      var rest := Seqs.Filter(s[1..], p);
      forall e | e in rest ensures e.simpleName != s[0].simpleName {
        Seqs.FilterMembers(s[1..], p, e);
        var k :| 0 <= k < |s[1..]| && s[1..][k] == e;
        assert s[k + 1] == e;
      }
      var r := Seqs.Filter(s, p);
      if p(s[0]) {
        assert r == [s[0]] + rest;
        forall i, j | 0 <= i < j < |r| ensures r[i].simpleName != r[j].simpleName {
          if i == 0 {
            assert r[j] == rest[j - 1];
            assert r[j] in rest;
          } else {
            assert r[i] == rest[i - 1] && r[j] == rest[j - 1];
          }
        }
      } else {
        assert r == rest;
      }
    }
  }

  /** The columns are exactly the listed members that are database fields,
      in member order, and no two share a simple name. */
  lemma ColumnsProperties(entity: TypeElement)
    ensures forall e :: e in Columns(entity) <==> e in ElementsOf(entity) && IsDatabaseField(e)
    ensures Seqs.IsSubsequence(Columns(entity), ElementsOf(entity))
    ensures DistinctNames(Columns(entity))
  {
    forall e ensures e in Columns(entity) <==> e in ElementsOf(entity) && IsDatabaseField(e) {
      Seqs.FilterMembers(ElementsOf(entity), IsDatabaseField, e);
    }
    Seqs.FilterIsSubsequence(ElementsOf(entity), IsDatabaseField);
    ElementsOfProperties(entity);
    FilterKeepsNamesDistinct(ElementsOf(entity), IsDatabaseField);
  }

  /** No two columns share a simple name. */
  lemma ColumnsDistinct(entity: TypeElement)
    ensures DistinctNames(Columns(entity))
  {
    ElementsOfProperties(entity);
    FilterKeepsNamesDistinct(ElementsOf(entity), IsDatabaseField);
  }

  /** `getDatabaseFieldName`: the `@FieldName` value, or the member name;
      an empty `@FieldName` is rejected. */
  function GetDatabaseFieldName(e: Element): (r: Result<string>)
    ensures var a := GetAnnotation(e.annotations, FieldNameClass);
            && (r.Ok? <==> a.None? || a.value.value != "")
            && (r.Ok? && a.None? ==> r.value == e.simpleName)
            && (r.Ok? && a.Some? ==> r.value == a.value.value && r.value != "")
            && (r.Err? ==> r.error.InvalidElement?)
  {
    var a := GetAnnotation(e.annotations, FieldNameClass);
    if a.None? then Ok(e.simpleName)
    else if a.value.value == "" then Err(InvalidElement(EMPTY_FIELD_NAME))
    else Ok(a.value.value)
  }

  /** `fieldNames`. */
  function FieldNames(entity: TypeElement): Result<seq<string>> {
    Results.MapOrFail(Columns(entity), GetDatabaseFieldName)
  }

  /** `fieldNames` has one column name per column, in column order, and
      fails iff some column has an empty `@FieldName`. */
  lemma FieldNamesAligned(entity: TypeElement)
    ensures FieldNames(entity).Ok? <==>
              forall i :: 0 <= i < |Columns(entity)| ==> GetDatabaseFieldName(Columns(entity)[i]).Ok?
    ensures FieldNames(entity).Ok? ==>
              |FieldNames(entity).value| == |Columns(entity)|
              && forall i :: 0 <= i < |Columns(entity)| ==>
                   FieldNames(entity).value[i] == GetDatabaseFieldName(Columns(entity)[i]).value
  {
    Results.MapOrFailOk(Columns(entity), GetDatabaseFieldName);
  }

  // --------------------------------------------------------- primary keys

  predicate IsPrimaryKeyMarked(e: Element) {
    HasAnnotation(e.annotations, PrimaryKeyClass)
  }

  /** `getFieldByName`, failing when the name is not a column. */
  function LookupColumn(columns: seq<Element>, key: string): (r: Result<Element>)
    ensures r.Ok? <==> FirstNamed(columns, key).Some?
    ensures r.Ok? ==> r.value == FirstNamed(columns, key).value
    ensures r.Err? ==> r.error.InvalidElement?
  {
    var field := FirstNamed(columns, key);
    if field.None? then Err(InvalidElement(KEY_FIELD_MISSING))
    else Ok(field.value)
  }

  /** What `getPrimaryKeyFieldsUsingDatabaseEntity` computes: the column named
      by each annotation key, in key order; a missing annotation is a null
      dereference. */
  function KeyFieldsFromAnnotation(entity: TypeElement, columns: seq<Element>): Result<seq<Element>> {
    var annotation := EntityAnnotation(entity);
    if annotation.None? then Err(NullPointer(NO_ENTITY_ANNOTATION))
    else Results.MapOrFail(annotation.value.primaryKeyFields, (key: string) => LookupColumn(columns, key))
  }

  /** `getPrimaryKeyFieldsUsingDatabaseEntity`. */
  method GetPrimaryKeyFieldsUsingDatabaseEntity(entity: TypeElement, columns: seq<Element>)
    returns (r: Result<seq<Element>>)
    ensures r == KeyFieldsFromAnnotation(entity, columns)
  {
    var annotation := EntityAnnotation(entity);
    if annotation.None? {
      return Err(NullPointer(NO_ENTITY_ANNOTATION));
    }
    var keys := annotation.value.primaryKeyFields;
    var lookup := (key: string) => LookupColumn(columns, key);
    if |keys| == 0 {
      return Ok([]);
    }
    var elements := [];
    for i := 0 to |keys|
      invariant Results.MapOrFail(keys[..i], lookup) == Ok(elements)
    {
      var key := keys[i];
      assert keys[..i + 1] == keys[..i] + [key];
      Results.MapOrFailSnoc(keys[..i], key, lookup);
      var field := FirstNamed(columns, key);
      if field.None? {
        Results.MapOrFailPrefixErr(keys, i + 1, lookup);
        return Err(InvalidElement(KEY_FIELD_MISSING));
      }
      elements := elements + [field.value];
    }
    assert keys[..|keys|] == keys;
    return Ok(elements);
  }

  /** `primaryKeyFields`: the columns, replaced by the annotation's keys
      only when no column carries `@PrimaryKey`; an empty result fails.  So
      once one column is marked, every column is a key. */
  function PrimaryKeyFields(entity: TypeElement): (r: Result<seq<Element>>)
    ensures r.Ok? ==> |r.value| > 0
  {
    var fields := Columns(entity);
    var marked := Seqs.Filter(fields, IsPrimaryKeyMarked);
    var keys :- if |marked| == 0 then KeyFieldsFromAnnotation(entity, fields) else Ok(fields);
    if |keys| == 0 then Err(InvalidElement(NO_KEY_FIELDS))
    else Ok(keys)
  }

  /** A single `@PrimaryKey` column makes every column a key. */
  lemma PrimaryKeyFieldsTakesAllColumns(entity: TypeElement)
    requires Seqs.Filter(Columns(entity), IsPrimaryKeyMarked) != []
    ensures PrimaryKeyFields(entity) == Ok(Columns(entity))
  {
  }

  /** `primaryKeyFields` as evidently intended: the marked columns when
      there are any. */
  function PrimaryKeyFieldsIntended(entity: TypeElement): (r: Result<seq<Element>>)
    ensures r.Ok? ==> |r.value| > 0
  {
    var fields := Columns(entity);
    var marked := Seqs.Filter(fields, IsPrimaryKeyMarked);
    var keys :- if |marked| == 0 then KeyFieldsFromAnnotation(entity, fields) else Ok(marked);
    if |keys| == 0 then Err(InvalidElement(NO_KEY_FIELDS))
    else Ok(keys)
  }

  /** The sample entity: `id` marked `@PrimaryKey`, then `message`, under
      the default `primaryKeyFields = [""]`. */
  function SampleField(name: string, marked: bool): Element {
    Element(name, FieldKind, {Public}, IntType, if marked then [PrimaryKey] else [], [])
  }

  function SampleEntity(): TypeElement {
    TypeElement("a.Sample", "Sample", [DatabaseEntity("", "", [""], NoType)],
                [SampleField("id", true), SampleField("message", false)], NoType)
  }

  /** The columns of a class declaring the sample's two fields. */
  lemma SampleColumns(t: TypeElement)
    requires t.enclosedElements == [SampleField("id", true), SampleField("message", false)] && t.superclass == NoType
    ensures Columns(t) == [SampleField("id", true), SampleField("message", false)]
    ensures Seqs.Filter(Columns(t), IsPrimaryKeyMarked) == [SampleField("id", true)]
  {
    var id := SampleField("id", true);
    var message := SampleField("message", false);
    assert Chain(t) == [id, message];
    assert [id, message][1..] == [message] && [message][1..] == [];
    assert Unseen([message], {"id"}) == [message] + Unseen([], {"id", "message"});
    assert {} + {"id"} == {"id"};
    assert ElementsOf(t) == [id] + Unseen([message], {"id"});
    assert Seqs.Filter([message], IsDatabaseField) == [message];
    assert Seqs.Filter([message], IsPrimaryKeyMarked) == [];
  }

  /** The input that shows the difference: as written both columns become
      keys, as intended only `id`. */
  lemma PrimaryKeyFieldsSample()
    ensures PrimaryKeyFields(SampleEntity()) == Ok([SampleField("id", true), SampleField("message", false)])
    ensures PrimaryKeyFieldsIntended(SampleEntity()) == Ok([SampleField("id", true)])
  {
    SampleColumns(SampleEntity());
  }

  /** The intended key fields when some column is marked: exactly the
      marked columns, in column order. */
  lemma PrimaryKeyFieldsIntendedMarked(entity: TypeElement)
    ensures var marked := Seqs.Filter(Columns(entity), IsPrimaryKeyMarked);
            marked != [] ==> (PrimaryKeyFieldsIntended(entity) == Ok(marked)
                              && forall e :: e in marked <==> e in Columns(entity) && IsPrimaryKeyMarked(e))
  {
    var columns := Columns(entity);
    forall e ensures e in Seqs.Filter(columns, IsPrimaryKeyMarked) <==> e in columns && IsPrimaryKeyMarked(e) {
      Seqs.FilterMembers(columns, IsPrimaryKeyMarked, e);
    }
  }

  /** Without markers, the key fields are the column named by each
      annotation key, in key order; a key that names no column fails. */
  lemma PrimaryKeyFieldsFromAnnotation(entity: TypeElement)
    requires Seqs.Filter(Columns(entity), IsPrimaryKeyMarked) == []
    requires EntityAnnotation(entity).Some?
    ensures var keys := EntityAnnotation(entity).value.primaryKeyFields;
            && (PrimaryKeyFields(entity).Ok? <==>
                  |keys| > 0 && forall i :: 0 <= i < |keys| ==> FirstNamed(Columns(entity), keys[i]).Some?)
            && (PrimaryKeyFields(entity).Ok? ==>
                  |PrimaryKeyFields(entity).value| == |keys|
                  && forall i :: 0 <= i < |keys| ==>
                       PrimaryKeyFields(entity).value[i] == FirstNamed(Columns(entity), keys[i]).value)
  {
    var columns := Columns(entity);
    var keys := EntityAnnotation(entity).value.primaryKeyFields;
    var lookup := (key: string) => LookupColumn(columns, key);
    assert PrimaryKeyFields(entity) == (var k :- Results.MapOrFail(keys, lookup);
                                         if |k| == 0 then Err(InvalidElement(NO_KEY_FIELDS)) else Ok(k));
    Results.MapOrFailOk(keys, lookup);
  }

  /** Without markers, the default `primaryKeyFields = [""]` names no column,
      so the entity is rejected ("doesn't exist"). */
  lemma DefaultKeysRejected(entity: TypeElement)
    requires Seqs.Filter(Columns(entity), IsPrimaryKeyMarked) == []
    requires EntityAnnotation(entity).Some? && EntityAnnotation(entity).value.primaryKeyFields == [""]
    requires forall e :: e in Columns(entity) ==> e.simpleName != ""
    ensures PrimaryKeyFields(entity).Err? && PrimaryKeyFields(entity).error.InvalidElement?
  {
    FirstNamedFound(Columns(entity), "");
  }

  predicate NonEmpty(s: string) { s != "" }

  /** The simple names of a list of members. */
  function SimpleNames(s: seq<Element>): (r: seq<string>)
    ensures |r| == |s| && forall i :: 0 <= i < |s| ==> r[i] == s[i].simpleName
  {
    if |s| == 0 then [] else [s[0].simpleName] + SimpleNames(s[1..])
  }

  /** `primaryKeyFieldNames` (a set in insertion order): the non-empty
      annotation keys, de-duplicated and not checked against the columns;
      only when there are none, the simple names of the key fields. */
  function PrimaryKeyFieldNames(entity: TypeElement): Result<seq<string>> {
    var annotation := EntityAnnotation(entity);
    if annotation.None? then Err(NullPointer(NO_ENTITY_ANNOTATION))
    else
      var annotationKeys := Seqs.Distinct(Seqs.Filter(annotation.value.primaryKeyFields, NonEmpty));
      if |annotationKeys| > 0 then Ok(annotationKeys)
      else
        var fields :- PrimaryKeyFields(entity);
        Ok(Seqs.Distinct(Seqs.Filter(SimpleNames(fields), NonEmpty)))
  }

  /** When the annotation has no non-empty key, the key names are those of
      the key fields. */
  lemma KeyNamesFromFields(entity: TypeElement, fields: seq<Element>)
    requires EntityAnnotation(entity).Some?
    requires Seqs.Distinct(Seqs.Filter(EntityAnnotation(entity).value.primaryKeyFields, NonEmpty)) == []
    requires PrimaryKeyFields(entity) == Ok(fields)
    ensures PrimaryKeyFieldNames(entity) == Ok(Seqs.Distinct(Seqs.Filter(SimpleNames(fields), NonEmpty)))
  {
  }

  /** The non-empty names of `s`, de-duplicated. */
  lemma DistinctNonEmpty(s: seq<string>)
    ensures Seqs.NoDuplicates(Seqs.Distinct(Seqs.Filter(s, NonEmpty)))
    ensures forall k :: k in Seqs.Distinct(Seqs.Filter(s, NonEmpty)) <==> k in s && k != ""
  {
    var nonEmpty := Seqs.Filter(s, NonEmpty);
    Seqs.DistinctProperties(nonEmpty);
    forall k ensures k in nonEmpty <==> k in s && k != "" {
      Seqs.FilterMembers(s, NonEmpty, k);
    }
  }

  lemma SimpleNamesMembers(s: seq<Element>, k: string)
    ensures k in SimpleNames(s) <==> exists e :: e in s && e.simpleName == k
  {
    if k in SimpleNames(s) {
      var i :| 0 <= i < |s| && SimpleNames(s)[i] == k;
      assert s[i] in s;
    }
  }

  /** The names have no duplicates; the annotation's non-empty keys win, and
      otherwise they are the names of the key fields. */
  lemma PrimaryKeyFieldNamesProperties(entity: TypeElement)
    ensures PrimaryKeyFieldNames(entity).Ok? ==> Seqs.NoDuplicates(PrimaryKeyFieldNames(entity).value)
    ensures PrimaryKeyFieldNames(entity).Ok? ==>
              var keys := EntityAnnotation(entity).value.primaryKeyFields;
              if exists k :: k in keys && k != "" then
                forall k :: k in PrimaryKeyFieldNames(entity).value <==> k in keys && k != ""
              else
                PrimaryKeyFields(entity).Ok?
                && forall k :: k in PrimaryKeyFieldNames(entity).value <==>
                     k != "" && exists e :: e in PrimaryKeyFields(entity).value && e.simpleName == k
  {
    var annotation := EntityAnnotation(entity);
    if annotation.Some? {
      var keys := annotation.value.primaryKeyFields;
      DistinctNonEmpty(keys);
      if |Seqs.Distinct(Seqs.Filter(keys, NonEmpty))| == 0 {
        if PrimaryKeyFields(entity).Ok? {
          var fields := PrimaryKeyFields(entity).value;
          DistinctNonEmpty(SimpleNames(fields));
          forall k ensures k in SimpleNames(fields) <==> exists e :: e in fields && e.simpleName == k {
            SimpleNamesMembers(fields, k);
          }
        }
      } else {
        var k0 := Seqs.Distinct(Seqs.Filter(keys, NonEmpty))[0];
        assert k0 in keys && k0 != "";
      }
    }
  }

  /** Only empty keys leave nothing after the non-empty filter. */
  lemma {:induction false} NoNonEmptyKeys(keys: seq<string>)
    requires forall k :: k in keys ==> k == ""
    ensures Seqs.Filter(keys, NonEmpty) == []
  {
    if |keys| > 0 {
      assert keys[0] in keys;
      assert forall k :: k in keys[1..] ==> k in keys;
      NoNonEmptyKeys(keys[1..]);
    }
  }

  /** With no non-empty annotation key (the default `[""]`) and one column
      marked `@PrimaryKey`, the key names are the names of all columns. */
  lemma KeyNamesAllColumnsWhenMarked(entity: TypeElement)
    requires EntityAnnotation(entity).Some?
    requires forall k :: k in EntityAnnotation(entity).value.primaryKeyFields ==> k == ""
    requires Seqs.Filter(Columns(entity), IsPrimaryKeyMarked) != []
    ensures PrimaryKeyFieldNames(entity).Ok?
    ensures forall k :: k in PrimaryKeyFieldNames(entity).value <==>
              k != "" && exists e :: e in Columns(entity) && e.simpleName == k
  {
    var keys := EntityAnnotation(entity).value.primaryKeyFields;
    DistinctNonEmpty(keys);
    NoNonEmptyKeys(keys);
    PrimaryKeyFieldsTakesAllColumns(entity);
    PrimaryKeyFieldNamesProperties(entity);
  }

  /** The class of `KeyResolversDisagree`: the annotation names `message`,
      while `id` carries the marker. */
  function TwoKeysEntity(): TypeElement {
    TypeElement("a.Two", "Two", [DatabaseEntity("", "", ["message"], NoType)],
                [SampleField("id", true), SampleField("message", false)], NoType)
  }

  /** The two resolvers disagree: annotation keys win in
      `primaryKeyFieldNames`, while in `primaryKeyFields` the marker wins
      and then makes every column a key. */
  lemma KeyResolversDisagree()
    ensures PrimaryKeyFieldNames(TwoKeysEntity()) == Ok(["message"])
    ensures PrimaryKeyFields(TwoKeysEntity()) == Ok([SampleField("id", true), SampleField("message", false)])
  {
    var t := TwoKeysEntity();
    SampleColumns(t);
    TwoKeysNames();
  }

  /** The annotation keys of `TwoKeysEntity`, filtered and de-duplicated. */
  lemma TwoKeysNames()
    ensures EntityAnnotation(TwoKeysEntity()) == Some(DatabaseEntity("", "", ["message"], NoType))
    ensures Seqs.Distinct(Seqs.Filter(["message"], NonEmpty)) == ["message"]
  {
    var keys := ["message"];
    assert keys[1..] == [] && keys[..0] == [];
    assert Seqs.Filter(keys, NonEmpty) == keys;
    assert Seqs.Distinct(keys) == keys;
  }

  /** `primaryKeyDbNames`: the column names of the key fields. */
  function PrimaryKeyDbNames(entity: TypeElement): Result<seq<string>> {
    var fields :- PrimaryKeyFields(entity);
    Results.MapOrFail(fields, GetDatabaseFieldName)
  }

  // ------------------------------------------------------------ SQL types

  /** `SerializeType.databaseType`. */
  function SerializeDatabaseType(t: SerializeType): string {
    match t
    case SerShort => "INTEGER"
    case SerInt => "INTEGER"
    case SerLong => "INTEGER"
    case SerFloat => "REAL"
    case SerDouble => "REAL"
    case SerByteArray => "BLOB"
    case SerString => "TEXT"
  }

  /** `getDatabaseType`: boolean, short, int and long are INTEGER, float and
      double REAL, String TEXT; another declared type takes its `@SerializeTo`
      target's type and fails without one; any other type fails. */
  function GetDatabaseType(e: Element): Result<string>
  {
    match e.asType
    case BooleanType => Ok(SerializeDatabaseType(SerInt))
    case ShortType => Ok(SerializeDatabaseType(SerShort))
    case LongType => Ok(SerializeDatabaseType(SerLong))
    case IntType => Ok(SerializeDatabaseType(SerInt))
    case FloatType => Ok(SerializeDatabaseType(SerFloat))
    case DoubleType => Ok(SerializeDatabaseType(SerDouble))
    case DeclaredType(decl, _) =>
      if decl.qualifiedName == TYPE_STRING then Ok(SerializeDatabaseType(SerString))
      else
        var a := GetAnnotation(e.annotations, SerializeToClass);
        if a.None? then Err(InvalidElement(decl.qualifiedName + NOT_UNDERSTOOD))
        else Ok(SerializeDatabaseType(a.value.serializeTo))
    case _ => Err(InvalidElement(e.simpleName + TYPE_NOT_KNOWN))
  }

  /** Every column type is one of the four SQLite storage classes, and the
      only failure is an unsupported type. */
  lemma GetDatabaseTypeRange(e: Element)
    ensures GetDatabaseType(e).Ok? ==> GetDatabaseType(e).value in ["INTEGER", "REAL", "TEXT", "BLOB"]
    ensures GetDatabaseType(e).Err? ==> GetDatabaseType(e).error.InvalidElement?
  {
  }

  /** The SQL type of each kind of column. */
  lemma GetDatabaseTypeProperties(e: Element)
    ensures (e.asType.BooleanType? || e.asType.ShortType? || e.asType.IntType? || e.asType.LongType?)
              ==> GetDatabaseType(e) == Ok("INTEGER")
    ensures (e.asType.FloatType? || e.asType.DoubleType?) ==> GetDatabaseType(e) == Ok("REAL")
    ensures IsDeclaredString(e.asType) ==> GetDatabaseType(e) == Ok("TEXT")
    ensures e.asType.DeclaredType? && !IsDeclaredString(e.asType) ==>
              var a := GetAnnotation(e.annotations, SerializeToClass);
              && (GetDatabaseType(e).Ok? <==> a.Some?)
              && (a.Some? ==> GetDatabaseType(e).value == SerializeDatabaseType(a.value.serializeTo))
    ensures !IsNativePrimitive(e.asType) && !e.asType.DeclaredType? ==> GetDatabaseType(e).Err?
  {
  }

  /** `getObjectTypeForElement`: arrays, bytes and chars are rejected as
      unknown; void, none and type variables are a processor error. */
  function GetObjectTypeForElement(e: Element): Result<ObjectType>
  {
    match e.asType
    case BooleanType => Ok(BooleanObject)
    case ShortType => Ok(ShortObject)
    case IntType => Ok(IntObject)
    case LongType => Ok(LongObject)
    case FloatType => Ok(FloatObject)
    case DoubleType => Ok(DoubleObject)
    case DeclaredType(decl, _) => if decl.qualifiedName == TYPE_STRING then Ok(StringObject) else Ok(OtherObject)
    case ArrayType(_) => Err(InvalidElement("ARRAY" + NOT_KNOWN))
    case ByteType => Err(InvalidElement("BYTE" + NOT_KNOWN))
    case CharType => Err(InvalidElement("CHAR" + NOT_KNOWN))
    case _ => Err(IllegalState(KindName(KindOf(e.asType)) + UNREACHABLE))
  }

  /** The accessor classification of a column type. */
  lemma GetObjectTypeForElementProperties(e: Element)
    ensures GetObjectTypeForElement(e).Ok? <==> IsNativePrimitive(e.asType) || e.asType.DeclaredType?
    ensures GetObjectTypeForElement(e).Ok? ==>
              && (GetObjectTypeForElement(e).value == StringObject <==> IsDeclaredString(e.asType))
              && (GetObjectTypeForElement(e).value == OtherObject <==>
                    e.asType.DeclaredType? && !IsDeclaredString(e.asType))
    ensures (e.asType.ArrayType? || e.asType.ByteType? || e.asType.CharType?) ==>
              GetObjectTypeForElement(e).Err? && GetObjectTypeForElement(e).error.InvalidElement?
    ensures (e.asType.ArrayType? || e.asType.ByteType? || e.asType.CharType?) ==>
              GetObjectTypeForElement(e) == Err(InvalidElement(KindName(KindOf(e.asType)) + NOT_KNOWN))
    ensures GetObjectTypeForElement(e).Err? && !(e.asType.ArrayType? || e.asType.ByteType? || e.asType.CharType?) ==>
              GetObjectTypeForElement(e) == Err(IllegalState(KindName(KindOf(e.asType)) + UNREACHABLE))
  {
  }

  /** Every column with an SQL type also has an accessor kind. */
  lemma StorableColumnsHaveObjectType(e: Element)
    requires GetDatabaseType(e).Ok?
    ensures GetObjectTypeForElement(e).Ok?
    ensures GetObjectTypeForElement(e).value == OtherObject ==> HasAnnotation(e.annotations, SerializeToClass)
  {
  }

  // -------------------------------------------------------------- getters

  const EMPTY_GET_FIELD: string := " has a GetField annotation with empty value!"
  const EMPTY_SET_FIELD: string := " has a SetField annotation with empty value!"
  const NO_ACCESS: string := "No get method or a public field for "
  const IN: string := " in "

  /** The `GetField`/`SetField` reference of a method, if annotated. */
  function AccessorReference(e: Element, c: AnnotationClass): Option<string>
    requires c == GetFieldClass || c == SetFieldClass
  {
    var a := GetAnnotation(e.annotations, c);
    if a.None? then None
    else match a.value
      case GetField(v) => Some(v)
      case SetField(v) => Some(v)
      case _ => None
  }

  /** What the two annotation scans compute: the first method whose
      annotation names the field, failing at the first empty reference met
      first. */
  function AnnotatedAccessor(methods: seq<Element>, fieldName: string, c: AnnotationClass): Result<Option<Element>>
    requires c == GetFieldClass || c == SetFieldClass
  {
    if |methods| == 0 then Ok(None)
    else
      var reference := AccessorReference(methods[0], c);
      if reference.None? then AnnotatedAccessor(methods[1..], fieldName, c)
      else if reference.value == "" then Err(InvalidElement(methods[0].simpleName + (if c == GetFieldClass then EMPTY_GET_FIELD else EMPTY_SET_FIELD)))
      else if reference.value == fieldName then Ok(Some(methods[0]))
      else AnnotatedAccessor(methods[1..], fieldName, c)
  }

  /** A method the scan passes over: unannotated, or naming another field. */
  predicate PassedOver(m: Element, fieldName: string, c: AnnotationClass)
    requires c == GetFieldClass || c == SetFieldClass
  {
    var reference := AccessorReference(m, c);
    reference.None? || (reference.value != "" && reference.value != fieldName)
  }

  /** The scan finds the first annotated method that names the field, fails
      at an empty reference that comes first, and finds nothing only when
      every method is passed over. */
  lemma {:induction false} AnnotatedAccessorMeaning(methods: seq<Element>, fieldName: string, c: AnnotationClass)
    requires c == GetFieldClass || c == SetFieldClass
    ensures var r := AnnotatedAccessor(methods, fieldName, c);
            && (r == Ok(None) <==> forall i :: 0 <= i < |methods| ==> PassedOver(methods[i], fieldName, c))
            && (r.Ok? && r.value.Some? ==>
                  exists i :: 0 <= i < |methods| && methods[i] == r.value.value
                    && AccessorReference(methods[i], c) == Some(fieldName) && fieldName != ""
                    && forall j :: 0 <= j < i ==> PassedOver(methods[j], fieldName, c))
            && (r.Err? ==>
                  r.error.InvalidElement?
                  && (exists i :: 0 <= i < |methods| && AccessorReference(methods[i], c) == Some("")
                       && forall j :: 0 <= j < i ==> PassedOver(methods[j], fieldName, c)))
  {
    if |methods| > 0 {
      AnnotatedAccessorMeaning(methods[1..], fieldName, c);
      var r := AnnotatedAccessor(methods, fieldName, c);
      if PassedOver(methods[0], fieldName, c) {
        assert r == AnnotatedAccessor(methods[1..], fieldName, c);
        forall j | 1 <= j < |methods| ensures methods[j] == methods[1..][j - 1] { }
        if r.Ok? && r.value.Some? {
          var i :| 0 <= i < |methods[1..]| && methods[1..][i] == r.value.value
                   && AccessorReference(methods[1..][i], c) == Some(fieldName) && fieldName != ""
                   && forall j :: 0 <= j < i ==> PassedOver(methods[1..][j], fieldName, c);
          assert forall j :: 0 <= j < i + 1 ==> PassedOver(methods[j], fieldName, c);
          assert methods[i + 1] == r.value.value;
        }
        if r.Err? {
          var i :| 0 <= i < |methods[1..]| && AccessorReference(methods[1..][i], c) == Some("")
                   && forall j :: 0 <= j < i ==> PassedOver(methods[1..][j], fieldName, c);
          assert forall j :: 0 <= j < i + 1 ==> PassedOver(methods[j], fieldName, c);
          assert AccessorReference(methods[i + 1], c) == Some("");
        }
      }
    }
  }

  /** `findMethodByFieldNameAndGetFieldAnnotation`. */
  method FindMethodByFieldNameAndGetFieldAnnotation(elements: seq<Element>, fieldName: string)
    returns (r: Result<Option<Element>>)
    ensures r == AnnotatedAccessor(elements, fieldName, GetFieldClass)
  {
    for i := 0 to |elements|
      invariant AnnotatedAccessor(elements[i..], fieldName, GetFieldClass)
             == AnnotatedAccessor(elements, fieldName, GetFieldClass)
    {
      var element := elements[i];
      assert elements[i..][0] == element && elements[i..][1..] == elements[i + 1..];
      var annotation := GetAnnotation(element.annotations, GetFieldClass);
      if annotation.None? {
        continue;
      }
      var fieldReference := annotation.value.value;
      if fieldReference == "" {
        return Err(InvalidElement(element.simpleName + EMPTY_GET_FIELD));
      }
      if fieldReference == fieldName {
        return Ok(Some(element));
      }
    }
    return Ok(None);
  }

  /** `firstByFieldNameAndSetFieldAnnotation`. */
  method FirstByFieldNameAndSetFieldAnnotation(elements: seq<Element>, fieldName: string)
    returns (r: Result<Option<Element>>)
    ensures r == AnnotatedAccessor(elements, fieldName, SetFieldClass)
  {
    for i := 0 to |elements|
      invariant AnnotatedAccessor(elements[i..], fieldName, SetFieldClass)
             == AnnotatedAccessor(elements, fieldName, SetFieldClass)
    {
      var element := elements[i];
      assert elements[i..][0] == element && elements[i..][1..] == elements[i + 1..];
      var annotation := GetAnnotation(element.annotations, SetFieldClass);
      if annotation.None? {
        continue;
      }
      var fieldReference := annotation.value.value;
      if fieldReference == "" {
        return Err(InvalidElement(element.simpleName + EMPTY_SET_FIELD));
      }
      if fieldReference == fieldName {
        return Ok(Some(element));
      }
    }
    return Ok(None);
  }

  /** `firstByFieldName`: the first method named `prefix` + the capitalised
      field name.  The name is built inside the search predicate, so an empty
      field name only fails when there is a method to test. */
  function FirstByFieldName(methods: seq<Element>, fieldName: string, prefix: string): (r: Result<Option<Element>>)
    ensures r.Err? <==> |methods| > 0 && fieldName == ""
    ensures r.Ok? && fieldName != "" ==>
              r.value == FirstNamed(methods, AccessorName(prefix, fieldName).value)
  {
    if |methods| == 0 then Ok(None)
    else
      var methodName :- AccessorName(prefix, fieldName);
      Ok(FirstNamed(methods, methodName))
  }

  /** `findDirectGetter`: a `@GetField` method, then `is`/`get` + name (`is`
      for a boolean field), then the field itself when accessible. */
  function FindDirectGetter(entity: TypeElement, field: Element, variableName: string): Result<string> {
    var methods := MethodsOf(entity);
    var annotated :- AnnotatedAccessor(methods, field.simpleName, GetFieldClass);
    if annotated.Some? then Ok(variableName + "." + annotated.value.simpleName + "()")
    else
      var conventional :- FirstByFieldName(methods, field.simpleName, if field.asType.BooleanType? then "is" else "get");
      if conventional.Some? then Ok(variableName + "." + conventional.value.simpleName + "()")
      else if !IsAccessible(field) then Err(InvalidElement(NO_ACCESS + field.simpleName + IN + entity.simpleName))
      else Ok(variableName + "." + field.simpleName)
  }

  /** The read accessor precedence. */
  lemma FindDirectGetterPrecedence(entity: TypeElement, field: Element, variableName: string)
    ensures var methods := MethodsOf(entity);
            var annotated := AnnotatedAccessor(methods, field.simpleName, GetFieldClass);
            var prefix := if field.asType.BooleanType? then "is" else "get";
            var r := FindDirectGetter(entity, field, variableName);
            && (annotated.Err? ==> r.Err?)
            && (annotated.Ok? && annotated.value.Some? ==>
                  r == Ok(variableName + "." + annotated.value.value.simpleName + "()")
                  && annotated.value.value in methods)
            && (annotated == Ok(None) && field.simpleName != "" && |methods| > 0 ==>
                  var standard := FirstNamed(methods, AccessorName(prefix, field.simpleName).value);
                  && (standard.Some? ==> r == Ok(variableName + "." + standard.value.simpleName + "()"))
                  && (standard.None? ==> (r.Ok? <==> IsAccessible(field))))
            && (annotated == Ok(None) && |methods| == 0 ==>
                  (r.Ok? <==> IsAccessible(field)) && (r.Ok? ==> r.value == variableName + "." + field.simpleName))
  {
    var methods := MethodsOf(entity);
    AnnotatedAccessorMeaning(methods, field.simpleName, GetFieldClass);
  }

  /** `SerializeType.getTypeName`. */
  function SerializeTypeName(t: SerializeType): string {
    match t
    case SerShort => "Short"
    case SerInt => "Int"
    case SerLong => "Long"
    case SerFloat => "Float"
    case SerDouble => "Double"
    case SerString => "String"
    case SerByteArray => "ByteArray"
  }

  /** `getSerializerFieldName`: `<lowerCamel(type)>To<target>Serializer`.
      The field's type must be declared (`asTypeElement`), its simple name
      non-empty, and the field must carry `@SerializeTo`. */
  function GetSerializerFieldName(field: Element): (r: Result<string>)
    ensures r.Ok? <==> field.asType.DeclaredType? && field.asType.decl.simpleName != ""
                       && HasAnnotation(field.annotations, SerializeToClass)
    ensures r.Ok? ==> r.value == StringExtensions.FirstCharLowerCase(field.asType.decl.simpleName).value + "To"
                                 + SerializeTypeName(GetAnnotation(field.annotations, SerializeToClass).value.serializeTo)
                                 + "Serializer"
  {
    var typeElement :- AsElement(field);
    var fieldTypeName := typeElement.simpleName;
    if |fieldTypeName| == 0 then Err(IndexOutOfBounds("begin 0, end 1, length 0"))
    else
      var firstLowerCase := [ToLower(fieldTypeName[0])] + fieldTypeName[1..];
      var annotation := GetAnnotation(field.annotations, SerializeToClass);
      if annotation.None? then Err(NullPointer(NO_SERIALIZE_TO))
      else Ok(firstLowerCase + "To" + SerializeTypeName(annotation.value.serializeTo) + "Serializer")
  }

  /** Fields of the same type serialized to the same target share one
      serializer field name. */
  lemma SerializerFieldNameShared(a: Element, b: Element)
    requires a.asType.DeclaredType? && b.asType.DeclaredType? && a.asType.decl == b.asType.decl
    requires GetAnnotation(a.annotations, SerializeToClass) == GetAnnotation(b.annotations, SerializeToClass)
    ensures GetSerializerFieldName(a) == GetSerializerFieldName(b)
  {
  }

  /** `findGetter`: a custom-typed field is read through its serializer. */
  function FindGetter(entity: TypeElement, field: Element, variableName: string): (r: Result<string>)
    ensures GetObjectTypeForElement(field).Ok? && GetObjectTypeForElement(field).value != OtherObject ==>
              r == FindDirectGetter(entity, field, variableName)
    ensures r.Ok? && GetObjectTypeForElement(field).Ok? && GetObjectTypeForElement(field).value == OtherObject ==>
              GetSerializerFieldName(field).Ok? && FindDirectGetter(entity, field, variableName).Ok?
              && r.value == GetSerializerFieldName(field).value + ".serialize("
                            + FindDirectGetter(entity, field, variableName).value + ")"
    ensures GetObjectTypeForElement(field).Err? ==> r.Err?
  {
    var objectType :- GetObjectTypeForElement(field);
    if objectType == OtherObject then
      var serializerFieldName :- GetSerializerFieldName(field);
      var getter :- FindDirectGetter(entity, field, variableName);
      Ok(serializerFieldName + ".serialize(" + getter + ")")
    else FindDirectGetter(entity, field, variableName)
  }

  // -------------------------------------------------------------- setters

  /** `getCursorMethod`: the cursor call reading column `columnIndex`. */
  function GetCursorMethod(objectType: ObjectType, variableName: string, columnIndex: nat): (r: Result<string>)
    ensures r.Ok? <==> objectType != OtherObject
    ensures r.Err? ==> r.error.UnsupportedOperation?
    ensures objectType == BooleanObject ==>
              r == Ok(variableName + ".getInt(" + Decimal.NatToString(columnIndex) + ") == 1")
  {
    var index := Decimal.NatToString(columnIndex);
    match objectType
    case BooleanObject => Ok(variableName + ".getInt(" + index + ") == 1")
    case DoubleObject => Ok(variableName + ".getDouble(" + index + ")")
    case FloatObject => Ok(variableName + ".getFloat(" + index + ")")
    case IntObject => Ok(variableName + ".getInt(" + index + ")")
    case LongObject => Ok(variableName + ".getLong(" + index + ")")
    case ShortObject => Ok(variableName + ".getShort(" + index + ")")
    case StringObject => Ok(variableName + ".getString(" + index + ")")
    case OtherObject => Err(UnsupportedOperation("this should not be called!"))
  }

  /** `SerializeType.asObjectType`: BYTE_ARRAY cannot be read back. */
  function AsObjectType(t: SerializeType): (r: Result<ObjectType>)
    ensures r.Err? <==> t == SerByteArray
    ensures r.Err? ==> r.error.UnsupportedOperation?
    ensures r.Ok? ==> r.value != OtherObject && r.value != BooleanObject
  {
    match t
    case SerShort => Ok(ShortObject)
    case SerInt => Ok(IntObject)
    case SerLong => Ok(LongObject)
    case SerFloat => Ok(FloatObject)
    case SerDouble => Ok(DoubleObject)
    case SerString => Ok(StringObject)
    case SerByteArray => Err(UnsupportedOperation("BYTE_ARRAY not implemented"))
  }

  /** `findDeserializerMethod`: read the target type from the cursor and
      hand it to the serializer. */
  function FindDeserializerMethod(field: Element, variableName: string, columnIndex: nat): (r: Result<string>)
    ensures GetAnnotation(field.annotations, SerializeToClass) == Some(SerializeTo(SerByteArray)) ==> r.Err?
    ensures r.Ok? ==> (GetSerializerFieldName(field).Ok? && HasAnnotation(field.annotations, SerializeToClass)
                       && var objectType := AsObjectType(GetAnnotation(field.annotations, SerializeToClass).value.serializeTo);
                       objectType.Ok? && GetCursorMethod(objectType.value, variableName, columnIndex).Ok?
                       && r.value == GetSerializerFieldName(field).value + ".deserialize("
                                     + GetCursorMethod(objectType.value, variableName, columnIndex).value + ")")
  {
    var serializerFieldName :- GetSerializerFieldName(field);
    var annotation := GetAnnotation(field.annotations, SerializeToClass);
    if annotation.None? then Err(NullPointer(NO_SERIALIZE_TO))
    else
      var objectType :- AsObjectType(annotation.value.serializeTo);
      // `asObjectType` never yields OTHER, so the cursor call exists
      var cursorMethod := GetCursorMethod(objectType, variableName, columnIndex).value;
      Ok(serializerFieldName + ".deserialize(" + cursorMethod + ")")
  }

  /** `findCursorMethod`: the value for `field`, typed by `element` (the
      field itself or the setter's parameter). */
  function FindCursorMethod(element: Element, field: Element, variableName: string, columnIndex: nat): Result<string> {
    var objectType :- GetObjectTypeForElement(element);
    if objectType == OtherObject then FindDeserializerMethod(field, variableName, columnIndex)
    else GetCursorMethod(objectType, variableName, columnIndex)
  }

  /** `findSetterMethodFromParameter`: a setter takes exactly one parameter. */
  function FindSetterMethodFromParameter(m: Element, field: Element, variableName: string, columnIndex: nat): (r: Result<string>)
    ensures |m.parameters| != 1 ==> r.Err? && r.error.InvalidElement?
    ensures |m.parameters| == 1 ==>
              (r.Ok? <==> FindCursorMethod(m.parameters[0], field, variableName, columnIndex).Ok?)
              && (r.Ok? ==> r.value == m.simpleName + "(" + FindCursorMethod(m.parameters[0], field, variableName, columnIndex).value + ")")
  {
    if |m.parameters| != 1 then Err(InvalidElement("method has " + Decimal.NatToString(|m.parameters|) + ONLY_ONE_PARAMETER))
    else
      var cursorMethod :- FindCursorMethod(m.parameters[0], field, variableName, columnIndex);
      Ok(m.simpleName + "(" + cursorMethod + ")")
  }

  /** `findSetter`: a `@SetField` method, then `set` + name, then an
      assignment to the field when accessible. */
  function FindSetter(entity: TypeElement, field: Element, variableName: string, columnIndex: nat): Result<string> {
    var methods := MethodsOf(entity);
    var annotated :- AnnotatedAccessor(methods, field.simpleName, SetFieldClass);
    if annotated.Some? then FindSetterMethodFromParameter(annotated.value, field, variableName, columnIndex)
    else
      var conventional :- FirstByFieldName(methods, field.simpleName, "set");
      if conventional.Some? then FindSetterMethodFromParameter(conventional.value, field, variableName, columnIndex)
      else if !IsAccessible(field) then Err(InvalidElement(NO_ACCESS + field.simpleName + IN + entity.simpleName))
      else
        var cursorMethod :- FindCursorMethod(field, field, variableName, columnIndex);
        Ok(field.simpleName + " = " + cursorMethod)
  }

  /** The write accessor precedence. */
  lemma FindSetterPrecedence(entity: TypeElement, field: Element, variableName: string, columnIndex: nat)
    ensures var methods := MethodsOf(entity);
            var annotated := AnnotatedAccessor(methods, field.simpleName, SetFieldClass);
            var r := FindSetter(entity, field, variableName, columnIndex);
            && (annotated.Err? ==> r.Err?)
            && (annotated.Ok? && annotated.value.Some? ==>
                  r == FindSetterMethodFromParameter(annotated.value.value, field, variableName, columnIndex)
                  && annotated.value.value in methods)
            && (annotated == Ok(None) && field.simpleName != "" && |methods| > 0 ==>
                  var standard := FirstNamed(methods, AccessorName("set", field.simpleName).value);
                  && (standard.Some? ==> r == FindSetterMethodFromParameter(standard.value, field, variableName, columnIndex))
                  && (standard.None? && !IsAccessible(field) ==> r.Err?)
                  && (standard.None? && IsAccessible(field) ==>
                        (r.Ok? <==> FindCursorMethod(field, field, variableName, columnIndex).Ok?)
                        && (r.Ok? ==> r.value == field.simpleName + " = " + FindCursorMethod(field, field, variableName, columnIndex).value)))
  {
    var methods := MethodsOf(entity);
    AnnotatedAccessorMeaning(methods, field.simpleName, SetFieldClass);
  }

  /** Each item paired with its index, as `mapIndexed` sees it. */
  function Indexed<T>(s: seq<T>): (r: seq<(T, nat)>)
    ensures |r| == |s| && forall i :: 0 <= i < |s| ==> r[i] == (s[i], i)
  {
    seq(|s|, i requires 0 <= i < |s| => (s[i], i as nat))
  }

  /** `getSetters`: the setter of column `i` reads cursor column `i`. */
  function GetSetters(entity: TypeElement, variableName: string): Result<seq<string>> {
    Results.MapOrFail(Indexed(Columns(entity)),
                      (p: (Element, nat)) => FindSetter(entity, p.0, variableName, p.1))
  }

  /** One setter per column, in column order, the `i`-th reading cursor
      column `i`; the list fails iff some column has no setter. */
  lemma GetSettersAligned(entity: TypeElement, variableName: string)
    ensures GetSetters(entity, variableName).Ok? <==>
              forall i :: 0 <= i < |Columns(entity)| ==> FindSetter(entity, Columns(entity)[i], variableName, i).Ok?
    ensures GetSetters(entity, variableName).Ok? ==>
              |GetSetters(entity, variableName).value| == |Columns(entity)|
              && forall i :: 0 <= i < |Columns(entity)| ==>
                   FindSetter(entity, Columns(entity)[i], variableName, i).Ok?
                   && GetSetters(entity, variableName).value[i] == FindSetter(entity, Columns(entity)[i], variableName, i).value
  {
    var f := (p: (Element, nat)) => FindSetter(entity, p.0, variableName, p.1);
    Results.MapOrFailOk(Indexed(Columns(entity)), f);
  }

  /** `createGetter`: `"<column>", <getter>`. */
  function CreateGetter(entity: TypeElement, field: Element, variableName: string): Result<string> {
    var name :- GetDatabaseFieldName(field);
    var getter :- FindGetter(entity, field, variableName);
    Ok("\"" + name + "\", " + getter)
  }

  /** `getGetters`. */
  function GetGetters(entity: TypeElement, variableName: string): Result<seq<string>> {
    Results.MapOrFail(Columns(entity), (f: Element) => CreateGetter(entity, f, variableName))
  }

  /** One getter per column, in column order. */
  lemma GetGettersAligned(entity: TypeElement, variableName: string)
    ensures GetGetters(entity, variableName).Ok? ==>
              |GetGetters(entity, variableName).value| == |Columns(entity)|
              && forall i :: 0 <= i < |Columns(entity)| ==>
                   CreateGetter(entity, Columns(entity)[i], variableName).Ok?
                   && GetGetters(entity, variableName).value[i] == CreateGetter(entity, Columns(entity)[i], variableName).value
  {
    Results.MapOrFailOk(Columns(entity), (f: Element) => CreateGetter(entity, f, variableName));
  }

  // ------------------------------------------------------------- item SQL

  function KeyPredicates(names: seq<string>): (r: seq<string>)
    ensures |r| == |names| && forall i :: 0 <= i < |names| ==> r[i] == names[i] + " = ?"
  {
    seq(|names|, i requires 0 <= i < |names| => names[i] + " = ?")
  }

  /** `itemSql`: `k = ?` for each key column, joined by ` AND `; "" for none. */
  function ItemSql(entity: TypeElement): Result<string> {
    var names :- PrimaryKeyDbNames(entity);
    Ok(Seqs.Join(KeyPredicates(names), " AND "))
  }

  lemma KeyPredicatePlaceholder(name: string)
    requires '?' !in name
    ensures StringExtensions.CountSqliteArgs(name + " = ?") == 1
  {
    StringExtensions.CountSqliteArgsAppend(name, " = ?");
    assert multiset(name)['?'] == 0;
    assert " = ?" == [' ', '=', ' ', '?'];
    assert multiset(" = ?")['?'] == 1;
  }

  lemma NoPlaceholderInAnd()
    ensures StringExtensions.CountSqliteArgs(" AND ") == 0
  {
    assert '?' !in " AND ";
  }

  /** Each `k = ?` predicate holds one placeholder when `k` holds none. */
  lemma KeyPredicatesPlaceholders(names: seq<string>)
    requires forall i :: 0 <= i < |names| ==> '?' !in names[i]
    ensures StringExtensions.CountSqliteArgs(Seqs.Join(KeyPredicates(names), " AND ")) == |names|
  {
    var parts := KeyPredicates(names);
    forall i | 0 <= i < |parts| ensures StringExtensions.CountSqliteArgs(parts[i]) == 1 {
      KeyPredicatePlaceholder(names[i]);
    }
    NoPlaceholderInAnd();
    StringExtensions.JoinPlaceholders(parts, " AND ");
  }

  /** `itemSql` has exactly one `?` per key column (when no column name
      itself contains `?`), so the keys bind as many arguments as there are
      key columns. */
  lemma ItemSqlPlaceholders(entity: TypeElement)
    requires PrimaryKeyDbNames(entity).Ok?
    requires forall n :: n in PrimaryKeyDbNames(entity).value ==> '?' !in n
    ensures StringExtensions.CountSqliteArgs(ItemSql(entity).value) == |PrimaryKeyDbNames(entity).value|
  {
    var names := PrimaryKeyDbNames(entity).value;
    assert forall i :: 0 <= i < |names| ==> names[i] in names;
    KeyPredicatesPlaceholders(names);
  }

  /** `getItemSqlArgs`: each key field's getter, wrapped in `String.valueOf`
      unless the field is a String. */
  function GetItemSqlArgs(entity: TypeElement, variableName: string): Result<seq<string>> {
    var fields :- PrimaryKeyFields(entity);
    Results.MapOrFail(fields, (f: Element) => ItemSqlArg(entity, f, variableName))
  }

  function ItemSqlArg(entity: TypeElement, field: Element, variableName: string): Result<string> {
    var getter :- FindDirectGetter(entity, field, variableName);
    Ok(StringExtensions.EncloseStringValueOfIfNotString(getter, IsString(field)))
  }

  /** The arguments line up with the predicates of `itemSql`: one per key
      column, in the same order. */
  lemma ItemSqlArgsAligned(entity: TypeElement, variableName: string)
    requires GetItemSqlArgs(entity, variableName).Ok? && PrimaryKeyDbNames(entity).Ok?
    ensures |GetItemSqlArgs(entity, variableName).value| == |PrimaryKeyDbNames(entity).value|
              == |PrimaryKeyFields(entity).value|
    ensures forall i :: 0 <= i < |PrimaryKeyFields(entity).value| ==>
              var f := PrimaryKeyFields(entity).value[i];
              && FindDirectGetter(entity, f, variableName).Ok?
              && GetItemSqlArgs(entity, variableName).value[i]
                 == StringExtensions.EncloseStringValueOfIfNotString(FindDirectGetter(entity, f, variableName).value, IsString(f))
              && GetDatabaseFieldName(f).Ok?
              && PrimaryKeyDbNames(entity).value[i] == GetDatabaseFieldName(f).value
  {
    var fields := PrimaryKeyFields(entity).value;
    Results.MapOrFailOk(fields, (f: Element) => ItemSqlArg(entity, f, variableName));
    Results.MapOrFailOk(fields, GetDatabaseFieldName);
  }

  // ---------------------------------------------------------- serializers

  /** The `SerializerType` holder: field name, declared type, imports. */
  datatype SerializerType = SerializerType(name: string, typeName: string, imports: seq<string>)

  const SERIALIZER_IMPORT: string := "net.daverix.slingerorm.serializer.Serializer"

  /** `getImports`: the serializer interface, then the field's own class
      when it is declared. */
  function GetImports(e: Element): (r: seq<string>)
    ensures |r| == (if e.asType.DeclaredType? then 2 else 1)
    ensures r[0] == SERIALIZER_IMPORT
    ensures e.asType.DeclaredType? ==> r[1] == e.asType.decl.qualifiedName
  {
    [SERIALIZER_IMPORT] + (if e.asType.DeclaredType? then [e.asType.decl.qualifiedName] else [])
  }

  /** `TypeKind.getFieldTypeName`: the boxed class name of a primitive. */
  function KindFieldTypeName(t: TypeMirror): (r: Result<string>)
    ensures r.Ok? <==> IsNativePrimitive(t) || t.ByteType? || t.CharType?
    ensures r.Err? ==> r == Err(IllegalState(KindName(KindOf(t)) + UNREACHABLE))
  {
    match t
    case BooleanType => Ok("Boolean")
    case IntType => Ok("Integer")
    case ShortType => Ok("Short")
    case LongType => Ok("Long")
    case FloatType => Ok("Float")
    case DoubleType => Ok("Double")
    case ByteType => Ok("Byte")
    case CharType => Ok("Char")
    case _ => Err(IllegalState(KindName(KindOf(t)) + UNREACHABLE))
  }

  /** `getFieldTypeName`: the type parameter of the field's `Serializer`. */
  function GetFieldTypeName(e: Element): Result<string> {
    match e.asType
    case DeclaredType(decl, _) => Ok(decl.simpleName)
    case ArrayType(component) =>
      if component.DeclaredType? then Ok(component.decl.simpleName)
      else
        var name :- KindFieldTypeName(component);
        Ok(name + "[]")
    case _ => KindFieldTypeName(e.asType)
  }

  /** An array of a declared type is named like the declared type itself. */
  lemma FieldTypeNameDropsDeclaredArray(e: Element, f: Element)
    requires e.asType.ArrayType? && e.asType.component.DeclaredType?
    requires f.asType.DeclaredType? && f.asType.decl == e.asType.component.decl
    ensures GetFieldTypeName(e) == GetFieldTypeName(f)
  {
  }

  predicate HasSerializeTo(e: Element) {
    HasAnnotation(e.annotations, SerializeToClass)
  }

  function SerializerOf(field: Element): Result<SerializerType> {
    var annotation := GetAnnotation(field.annotations, SerializeToClass);
    if annotation.None? then Err(NullPointer(NO_SERIALIZE_TO))
    else
      var serializedType := SerializeTypeName(annotation.value.serializeTo);
      var deserializedType :- GetFieldTypeName(field);
      var imports := GetImports(field);
      var name :- GetSerializerFieldName(field);
      Ok(SerializerType(name, "Serializer<" + deserializedType + "," + serializedType + ">", imports))
  }

  /** `serializers`: one per `@SerializeTo` column, in column order. */
  function Serializers(entity: TypeElement): Result<seq<SerializerType>> {
    Results.MapOrFail(Seqs.Filter(Columns(entity), HasSerializeTo), SerializerOf)
  }

  /** One serializer per `@SerializeTo` column, with no de-duplication: two
      columns of one type and target give two equal entries. */
  lemma SerializersNotDeduplicated(entity: TypeElement)
    ensures var serialized := Seqs.Filter(Columns(entity), HasSerializeTo);
            Serializers(entity).Ok? ==>
              && |Serializers(entity).value| == |serialized|
              && (forall i :: 0 <= i < |serialized| ==>
                    SerializerOf(serialized[i]).Ok? && Serializers(entity).value[i] == SerializerOf(serialized[i]).value)
              && (forall i, j :: 0 <= i < j < |serialized|
                    && serialized[i].asType == serialized[j].asType
                    && GetAnnotation(serialized[i].annotations, SerializeToClass)
                       == GetAnnotation(serialized[j].annotations, SerializeToClass)
                    ==> Serializers(entity).value[i] == Serializers(entity).value[j])
  {
    var serialized := Seqs.Filter(Columns(entity), HasSerializeTo);
    Results.MapOrFailOk(serialized, SerializerOf);
    forall i, j | 0 <= i < j < |serialized| && serialized[i].asType == serialized[j].asType
                  && GetAnnotation(serialized[i].annotations, SerializeToClass)
                     == GetAnnotation(serialized[j].annotations, SerializeToClass)
      ensures SerializerOf(serialized[i]) == SerializerOf(serialized[j])
    {
      SerializerOfDeterminedByType(serialized[i], serialized[j]);
    }
  }

  /** A serializer depends only on the field's type and its target. */
  lemma SerializerOfDeterminedByType(a: Element, b: Element)
    requires a.asType == b.asType
    requires GetAnnotation(a.annotations, SerializeToClass) == GetAnnotation(b.annotations, SerializeToClass)
    ensures SerializerOf(a) == SerializerOf(b)
  {
    assert GetSerializerFieldName(a) == GetSerializerFieldName(b);
    assert GetFieldTypeName(a) == GetFieldTypeName(b);
  }
}

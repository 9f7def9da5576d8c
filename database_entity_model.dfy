/** `DatabaseEntityModel` as the Java class keeps it: one object per entity
    class, whose `initialize` runs its steps one after another, each step
    filling one of the object's maps, sets or strings, most of them in a
    loop over the fields in use.

    Every step is tied to the function of `DatabaseEntityModelJava` that
    states what it computes, and `Initialize` to the whole pipeline there,
    so what is proved about `DatabaseEntityModelJava.Initialize` (the
    `Resolved` invariant, the one key each foreign key names) holds of the object's fields.
    A sub-model is kept as the value of its object's fields: the object is
    created and initialized by `initializeSubModels` and referenced by
    nothing else.
 */
module DatabaseEntityModelObject {
  import opened Wrappers
  import opened Elements
  import HashMaps
  import Results
  import Seqs
  import TypeUtils
  import ElementExtensions
  import opened DatabaseEntityModelJava

  /** What a step that throws or completes leaves to `initialize`. */
  function Outcome<T>(r: Result<T>): (o: Result<()>)
    ensures o.Ok? <==> r.Ok?
    ensures o.Err? ==> o.error == r.error
  {
    if r.Ok? then Ok(()) else Err(r.error)
  }

  /** The state of a sub-model object `findSubModels` has just created. */
  function Uninitialized(types: map<string, TypeElement>): (r: map<string, Model>)
    ensures r.Keys == types.Keys
    ensures forall f :: f in r ==> r[f] == Unresolved(types[f]) && r[f].typeElement == types[f]
  {
    map f | f in types :: Unresolved(types[f])
  }

  // ------------------------------------------------------------ loops over the fields in use

  /** One turn of `findOnUpdateActions`: the field's `OnUpdate` action, if any. */
  function OnUpdateEntries(fieldsInUse: map<string, Element>): string -> Result<Option<(string, ForeignKeyAction)>> {
    f => if f in fieldsInUse && HasAnnotation(fieldsInUse[f].annotations, OnUpdateClass)
         then Ok(Some((f, GetAnnotation(fieldsInUse[f].annotations, OnUpdateClass).value.updateAction)))
         else Ok(None)
  }

  /** One turn of `findOnDeleteActions`: the field's `OnDelete` action, if any. */
  function OnDeleteEntries(fieldsInUse: map<string, Element>): string -> Result<Option<(string, ForeignKeyAction)>> {
    f => if f in fieldsInUse && HasAnnotation(fieldsInUse[f].annotations, OnDeleteClass)
         then Ok(Some((f, GetAnnotation(fieldsInUse[f].annotations, OnDeleteClass).value.deleteAction)))
         else Ok(None)
  }

  /** One turn of `findSubModels`: the field's class when its type is an
      entity class. */
  function SubModelEntries(fieldsInUse: map<string, Element>): string -> Result<Option<(string, TypeElement)>> {
    f => if f in fieldsInUse && IsEntityType(fieldsInUse[f].asType)
         then Ok(Some((f, fieldsInUse[f].asType.decl)))
         else Ok(None)
  }

  /** In any iteration order the `OnUpdate` loop finds every field's action. */
  lemma OnUpdateLoopFinds(fieldsInUse: map<string, Element>, order: seq<string>)
    requires HashMaps.Enumerates(order, fieldsInUse.Keys)
    ensures HashMaps.PutEach(order, OnUpdateEntries(fieldsInUse)) == Ok(OnUpdateActions(fieldsInUse))
  {
    var entry := OnUpdateEntries(fieldsInUse);
    HashMaps.PutEachByKeyMap(order, fieldsInUse.Keys, entry);
    var found := map k | k in fieldsInUse.Keys && entry(k).value.Some? :: entry(k).value.value.1;
    assert found.Keys == OnUpdateActions(fieldsInUse).Keys;
    assert forall k :: k in found ==> found[k] == OnUpdateActions(fieldsInUse)[k];
    assert found == OnUpdateActions(fieldsInUse);
  }

  /** In any iteration order the `OnDelete` loop finds every field's action. */
  lemma OnDeleteLoopFinds(fieldsInUse: map<string, Element>, order: seq<string>)
    requires HashMaps.Enumerates(order, fieldsInUse.Keys)
    ensures HashMaps.PutEach(order, OnDeleteEntries(fieldsInUse)) == Ok(OnDeleteActions(fieldsInUse))
  {
    var entry := OnDeleteEntries(fieldsInUse);
    HashMaps.PutEachByKeyMap(order, fieldsInUse.Keys, entry);
    var found := map k | k in fieldsInUse.Keys && entry(k).value.Some? :: entry(k).value.value.1;
    assert found.Keys == OnDeleteActions(fieldsInUse).Keys;
    assert forall k :: k in found ==> found[k] == OnDeleteActions(fieldsInUse)[k];
    assert found == OnDeleteActions(fieldsInUse);
  }

  /** In any iteration order the sub-model loop finds the class of every
      field whose type is an entity class. */
  lemma SubModelLoopFinds(fieldsInUse: map<string, Element>, order: seq<string>)
    requires HashMaps.Enumerates(order, fieldsInUse.Keys)
    ensures HashMaps.PutEach(order, SubModelEntries(fieldsInUse)) == Ok(SubModelTypes(fieldsInUse))
  {
    var entry := SubModelEntries(fieldsInUse);
    HashMaps.PutEachByKeyMap(order, fieldsInUse.Keys, entry);
    var found := map k | k in fieldsInUse.Keys && entry(k).value.Some? :: entry(k).value.value.1;
    assert found.Keys == SubModelTypes(fieldsInUse).Keys;
    assert found == SubModelTypes(fieldsInUse);
  }

  // ------------------------------------------------------------ loops that stop at a failure

  /** Once a prefix of the listed keys is rejected, the whole list is. */
  lemma {:induction false} AnnotationKeysPrefixErr(names: seq<string>, n: nat, fieldsInUse: map<string, Element>)
    requires n <= |names| && AnnotationKeys(names[..n], fieldsInUse).Err?
    ensures AnnotationKeys(names, fieldsInUse) == AnnotationKeys(names[..n], fieldsInUse)
    decreases |names|
  {
    if n < |names| {
      var front := names[..|names| - 1];
      assert front[..n] == names[..n];
      AnnotationKeysPrefixErr(front, n, fieldsInUse);
    } else {
      assert names[..n] == names;
    }
  }

  /** Once a prefix of the serializer classes fails to be named, the whole
      loop fails the same way. */
  lemma {:induction false} NameEachPrefixErr(types: seq<Option<TypeElement>>, n: nat, fieldsFor: Option<TypeElement> -> set<string>)
    requires n <= |types| && NameEach(types[..n], fieldsFor).Err?
    ensures NameEach(types, fieldsFor) == NameEach(types[..n], fieldsFor)
    decreases |types|
  {
    if n < |types| {
      var front := types[..|types| - 1];
      assert front[..n] == types[..n];
      NameEachPrefixErr(front, n, fieldsFor);
    } else {
      assert types[..n] == types;
    }
  }

  /** Once a sub-model fails to initialize, the whole loop fails the same way. */
  lemma {:induction false} InitializeEachPrefixErr(types: map<string, TypeElement>, order: seq<string>, n: nat, bound: nat,
                                                   env: Environment)
    requires forall f :: f in types ==> TypeSize(types[f]) < bound
    requires n <= |order| && InitializeEach(types, order[..n], bound, env).Err?
    ensures InitializeEach(types, order, bound, env) == InitializeEach(types, order[..n], bound, env)
    decreases |order|
  {
    if n < |order| {
      var front := order[..|order| - 1];
      assert front[..n] == order[..n];
      InitializeEachPrefixErr(types, front, n, bound, env);
    } else {
      assert order[..n] == order;
    }
  }

  // ------------------------------------------------------------ loops of the SQL steps

  /** `createSqlPrimaryKeysText`'s loop: the column of every key, in the
      iteration order of the fields in use. */
  method KeyColumnsLoop(m: Model, order: seq<string>) returns (columns: seq<string>)
    ensures columns == KeyColumns(m, order)
  {
    columns := [];
    for i := 0 to |order|
      invariant columns == KeyColumns(m, order[..i])
    {
      var field := order[i];
      assert order[..i + 1] == order[..i] + [field];
      Seqs.FilterSnoc(order[..i], field, IsKeyOf(m.primaryKeyFields));
      if field in m.primaryKeyFields {
        columns := columns + [ColumnOrNull(m.columnNames, field)];
      }
    }
    assert order[..|order|] == order;
  }

  /** `initializeSubModels`' loop: a new model object for each sub-model
      field, in the iteration order of the sub-models, initialized in turn;
      the first that throws ends the loop. */
  method InitializeEachLoop(types: map<string, TypeElement>, order: seq<string>, bound: nat, env: Environment)
    returns (r: Result<map<string, Model>>)
    requires ValidEnvironment(env)
    requires forall f :: f in types ==> TypeSize(types[f]) < bound
    ensures r == InitializeEach(types, order, bound, env)
    decreases bound, 0
  {
    var done: map<string, Model> := map[];
    for i := 0 to |order|
      invariant InitializeEach(types, order[..i], bound, env) == Ok(done)
    {
      var field := order[i];
      assert order[..i + 1][..i] == order[..i];
      if field in types {
        var sub := new DatabaseEntityModel(types[field], env);
        var initialized := sub.Initialize();
        if initialized.Err? {
          InitializeEachPrefixErr(types, order, i + 1, bound, env);
          return Err(initialized.error);
        }
        done := done[field := sub.Snapshot()];
      }
    }
    assert order[..|order|] == order;
    r := Ok(done);
  }

  // ------------------------------------------------------------ the object

  /** `findPrimaryKeyFieldsInDatabaseEntityAnnotation`: the non-empty names
      the annotation lists, each of which must be a field in use. */
  method AnnotationKeysLoop(names: seq<string>, fieldsInUse: map<string, Element>) returns (r: Result<set<string>>)
    ensures r == AnnotationKeys(names, fieldsInUse)
  {
    var keys: set<string> := {};
    for i := 0 to |names|
      invariant AnnotationKeys(names[..i], fieldsInUse) == Ok(keys)
    {
      assert names[..i + 1][..i] == names[..i];
      var field := names[i];
      if field != "" {
        if field !in fieldsInUse {
          AnnotationKeysPrefixErr(names, i + 1, fieldsInUse);
          return Err(InvalidElement(KeyNotFound(field)));
        }
        keys := keys + {field};
      }
    }
    assert names[..|names|] == names;
    r := Ok(keys);
  }

  /** The loop of `findPrimaryKeyFields` over the fields in use, in the
      iteration order `order`: the fields marked `@PrimaryKey`. */
  method MarkedKeysLoop(fieldsInUse: map<string, Element>, order: seq<string>) returns (keys: set<string>)
    requires HashMaps.Enumerates(order, fieldsInUse.Keys)
    ensures keys == MarkedKeys(fieldsInUse)
  {
    keys := {};
    for i := 0 to |order|
      invariant keys == set f | f in order[..i] && f in fieldsInUse && HasAnnotation(fieldsInUse[f].annotations, PrimaryKeyClass)
    {
      assert order[..i + 1] == order[..i] + [order[i]];
      if order[i] in fieldsInUse && HasAnnotation(fieldsInUse[order[i]].annotations, PrimaryKeyClass) {
        keys := keys + {order[i]};
      }
    }
    assert order[..|order|] == order;
  }

  /** `generateCreateTableSql` over the state `m`: the column definitions,
      the key columns and the foreign keys, each built by its own loop. */
  method CreateTableLoop(m: Model, keyOrder: set<string> -> seq<string>) returns (r: Result<string>)
    ensures r == CreateTableSqlAsWritten(m, keyOrder)
  {
    var order := keyOrder(m.fieldsInUse.Keys);
    var definitions :- Results.MapLoop(order, ColumnDefinitions(m));
    var keyColumns := KeyColumnsLoop(m, order);
    var foreignKeys :- Results.MapLoop(keyOrder(m.subModels.Keys), ForeignKeyClauses(m, keyOrder, ReferencedField));
    r := Ok(AssembleCreateTable(m.tableName, definitions, keyColumns, foreignKeys));
  }

  /** The loop of `generateItemSql`: a `column=?` condition for each key in
      `order`, and the keys themselves as the statement's arguments. */
  method KeyConditionsLoop(columnNames: map<string, string>, order: seq<string>) returns (expressions: seq<string>, args: seq<string>)
    ensures expressions == KeyConditions(columnNames, order) && args == order
  {
    expressions, args := [], [];
    for i := 0 to |order|
      invariant expressions == KeyConditions(columnNames, order[..i]) && args == order[..i]
    {
      assert order[..i + 1] == order[..i] + [order[i]];
      expressions := expressions + [ColumnOrNull(columnNames, order[i]) + PLACEHOLDER];
      args := args + [order[i]];
    }
    assert order[..|order|] == order;
  }

  /** `findFieldNameForTypeElement`: the first field in `order` whose
      serializer is `s`, or none (the source's `null`). */
  method FindFieldNameForTypeElement(fieldSerializer: map<string, Option<TypeElement>>, order: seq<string>, s: Option<TypeElement>)
    returns (r: Option<string>)
    ensures r.None? ==> FirstFieldWith(fieldSerializer, order, s) == {}
    ensures r.Some? ==> FirstFieldWith(fieldSerializer, order, s) == {r.value}
  {
    for i := 0 to |order|
      invariant FirstFieldWith(fieldSerializer, order, s) == FirstFieldWith(fieldSerializer, order[i..], s)
    {
      assert order[i..][1..] == order[i + 1..];
      if order[i] in fieldSerializer && fieldSerializer[order[i]] == s {
        return Some(order[i]);
      }
    }
    return None;
  }

  /** Putting a name under the field found is putting it under every field
      of the at most one the first-user rule picks. */
  lemma PutFirstField(names: map<string, string>, field: Option<string>, first: set<string>, name: string)
    requires field.None? ==> first == {}
    requires field.Some? ==> first == {field.value}
    ensures (if field.Some? then names[field.value := name] else names) == names + map f | f in first :: name
  {
  }

  /** One step of the naming loop when the first user of `s` is `field`. */
  lemma NameStepFirstUser(n: Naming, s: Option<TypeElement>, fieldSerializer: map<string, Option<TypeElement>>,
                          order: seq<string>, field: Option<string>, name: string)
    requires s.Some?
    requires SerializerFieldName(s.value.simpleName,
                                 if s.value.simpleName in n.occurrences then n.occurrences[s.value.simpleName] else 0) == Ok(name)
    requires field.None? ==> FirstFieldWith(fieldSerializer, order, s) == {}
    requires field.Some? ==> FirstFieldWith(fieldSerializer, order, s) == {field.value}
    ensures var simpleName := s.value.simpleName;
            var occurrences := if simpleName in n.occurrences then n.occurrences[simpleName] else 0;
            NameStep(n, s, FirstUserOf(fieldSerializer, order))
            == Ok(Naming(n.occurrences[simpleName := occurrences + 1],
                         n.classNames[name := simpleName],
                         n.qualifiedNames + {s.value.qualifiedName},
                         if field.Some? then n.fieldNames[field.value := name] else n.fieldNames))
  {
    assert FirstUserOf(fieldSerializer, order)(s) == FirstFieldWith(fieldSerializer, order, s);
    PutFirstField(n.fieldNames, field, FirstFieldWith(fieldSerializer, order, s), name);
  }

  /** The loop of `generateNamesForSerializers` over the serializer classes
      in `types`, each naming the first field of `fieldSerializer`, in
      `order`, that uses it. */
  method NameLoop(types: seq<Option<TypeElement>>, fieldSerializer: map<string, Option<TypeElement>>, order: seq<string>)
    returns (r: Result<Naming>)
    ensures r == NameEach(types, FirstUserOf(fieldSerializer, order))
  {
    ghost var fieldsFor := FirstUserOf(fieldSerializer, order);
    var n := Naming(map[], map[], {}, map[]);
    for i := 0 to |types|
      invariant NameEach(types[..i], fieldsFor) == Ok(n)
    {
      assert types[..i + 1][..i] == types[..i];
      var s := types[i];
      assert NameEach(types[..i + 1], fieldsFor) == NameStep(n, s, fieldsFor);
      if s.None? {
        NameEachPrefixErr(types, i + 1, fieldsFor);
        return Err(NullPointer(NULL_SERIALIZER));
      }
      var simpleName := s.value.simpleName;
      var occurrences := if simpleName in n.occurrences then n.occurrences[simpleName] else 0;
      var name := SerializerFieldName(simpleName, occurrences);
      if name.Err? {
        NameEachPrefixErr(types, i + 1, fieldsFor);
        return Err(name.error);
      }
      var field := FindFieldNameForTypeElement(fieldSerializer, order, s);
      var fieldNames := if field.Some? then n.fieldNames[field.value := name.value] else n.fieldNames;
      NameStepFirstUser(n, s, fieldSerializer, order, field, name.value);
      n := Naming(n.occurrences[simpleName := occurrences + 1],
                  n.classNames[name.value := simpleName],
                  n.qualifiedNames + {s.value.qualifiedName},
                  fieldNames);
    }
    assert types[..|types|] == types;
    r := Ok(n);
  }

  class DatabaseEntityModel {
    const databaseTypeElement: TypeElement
    /** The type converter, the element utilities, the package provider and
        the iteration orders of the maps and sets. */
    const env: Environment

    var mapperPackageName: string
    var mapperClassName: string
    var databaseEntityClassName: string
    var tableName: string
    var fieldsInUse: map<string, Element>
    var primaryKeyFields: set<string>
    var foreignKeyOnUpdate: map<string, ForeignKeyAction>
    var foreignKeyOnDelete: map<string, ForeignKeyAction>
    var subModels: map<string, Model>
    var columnNames: map<string, string>
    var annotatedGetMethods: map<string, string>
    var getMethods: map<string, string>
    var fieldGetAccess: map<string, FieldAccess>
    var annotatedSetMethods: map<string, string>
    var setMethods: map<string, string>
    var fieldSetAccess: map<string, FieldAccess>
    var fieldSerializer: map<string, Option<TypeElement>>
    var fieldDatabaseTypes: map<string, ColumnDataType>
    var cursorTypes: map<string, CursorType>
    var createTableSql: string
    var fieldNameOccurrences: map<string, nat>
    var serializerFieldClassNames: map<string, string>
    var serializerQualifiedNames: set<string>
    var fieldSerializerNames: map<string, string>
    var itemSql: string
    var itemSqlArgFields: seq<string>

    /** The object's fields as one value. */
    function Snapshot(): Model
      reads this
    {
      Model(databaseTypeElement, mapperPackageName, mapperClassName, databaseEntityClassName, tableName,
            fieldsInUse, primaryKeyFields, foreignKeyOnUpdate, foreignKeyOnDelete, subModels, columnNames,
            annotatedGetMethods, getMethods, fieldGetAccess, annotatedSetMethods, setMethods, fieldSetAccess,
            fieldSerializer, fieldDatabaseTypes, cursorTypes, createTableSql, fieldNameOccurrences,
            serializerFieldClassNames, serializerQualifiedNames, fieldSerializerNames, itemSql, itemSqlArgFields)
    }

    /** Empty maps, sets and lists; the strings are not set yet. */
    constructor (databaseTypeElement: TypeElement, env: Environment)
      ensures this.databaseTypeElement == databaseTypeElement && this.env == env
      ensures Snapshot() == Unresolved(databaseTypeElement)
    {
      this.databaseTypeElement := databaseTypeElement;
      this.env := env;
      mapperPackageName, mapperClassName, databaseEntityClassName, tableName := "", "", "", "";
      fieldsInUse, primaryKeyFields, foreignKeyOnUpdate, foreignKeyOnDelete := map[], {}, map[], map[];
      subModels, columnNames := map[], map[];
      annotatedGetMethods, getMethods, fieldGetAccess := map[], map[], map[];
      annotatedSetMethods, setMethods, fieldSetAccess := map[], map[], map[];
      fieldSerializer, fieldDatabaseTypes, cursorTypes, createTableSql := map[], map[], map[], "";
      fieldNameOccurrences, serializerFieldClassNames, serializerQualifiedNames := map[], map[], {};
      fieldSerializerNames, itemSql, itemSqlArgFields := map[], "", [];
    }

    // ---------------------------------------------------------- names, fields and keys

    /** `findMapperPackageName`: the package the element utilities report. */
    method FindMapperPackageName()
      modifies this
      ensures Snapshot() == old(Snapshot()).(mapperPackageName := env.packageOf(databaseTypeElement))
    {
      mapperPackageName := env.packageOf(databaseTypeElement);
    }

    /** `findMapperClassName`. */
    method FindMapperClassName()
      modifies this
      ensures Snapshot() == old(Snapshot()).(mapperClassName := MapperClassName(databaseTypeElement))
    {
      mapperClassName := databaseTypeElement.simpleName + "Mapper";
    }

    /** `findEntityClassName`, for a top-level class. */
    method FindEntityClassName()
      modifies this
      ensures Snapshot() == old(Snapshot()).(databaseEntityClassName := databaseTypeElement.simpleName)
    {
      databaseEntityClassName := databaseTypeElement.simpleName;
    }

    /** `findTableName`. */
    method FindTableName() returns (r: Result<()>)
      modifies this
      ensures r == Outcome(TableName(databaseTypeElement))
      ensures Snapshot() == old(Snapshot()).(tableName := if r.Ok? then TableName(databaseTypeElement).value else old(tableName))
    {
      var annotation := GetAnnotation(databaseTypeElement.typeAnnotations, DatabaseEntityClass);
      if annotation.None? {
        return Err(NullPointer(NO_ENTITY_ANNOTATION));
      }
      if annotation.value.name == "" {
        tableName := databaseTypeElement.simpleName;
      } else {
        tableName := annotation.value.name;
      }
      r := Ok(());
    }

    /** `findFieldsInUse`: every stored field, put under its simple name. */
    method FindFieldsInUse() returns (r: Result<()>)
      modifies this
      ensures r == Outcome(FieldsInUse(databaseTypeElement))
      ensures Snapshot() == old(Snapshot()).(fieldsInUse := if r.Ok? then FieldsInUse(databaseTypeElement).value else old(fieldsInUse))
    {
      var fields := ColumnFields(databaseTypeElement);
      if |fields| == 0 {
        return Err(InvalidElement(NO_FIELDS));
      }
      var found: map<string, Element> := map[];
      for i := 0 to |fields|
        invariant found == FieldsByName(fields[..i])
      {
        assert fields[..i + 1][..i] == fields[..i];
        found := found[fields[i].simpleName := fields[i]];
      }
      assert fields[..|fields|] == fields;
      fieldsInUse := found;
      r := Ok(());
    }

    /** `findPrimaryKeyFields`: the keys the annotation lists, each a field in
        use; when it lists none, the fields marked `@PrimaryKey`. */
    method FindPrimaryKeyFields() returns (r: Result<()>)
      requires ValidEnvironment(env)
      modifies this
      ensures r == Outcome(PrimaryKeys(databaseTypeElement, fieldsInUse))
      ensures Snapshot() == old(Snapshot()).(primaryKeyFields :=
                if r.Ok? then PrimaryKeys(databaseTypeElement, fieldsInUse).value else old(primaryKeyFields))
    {
      var annotation := GetAnnotation(databaseTypeElement.typeAnnotations, DatabaseEntityClass);
      if annotation.None? {
        return Err(NullPointer(NO_ENTITY_ANNOTATION));
      }
      var keys :- AnnotationKeysLoop(annotation.value.primaryKeyFields, fieldsInUse);
      if |keys| == 0 {
        keys := MarkedKeysLoop(fieldsInUse, env.keyOrder(fieldsInUse.Keys));
        if |keys| == 0 {
          return Err(InvalidElement(NO_PRIMARY_KEYS));
        }
      }
      primaryKeyFields := keys;
      r := Ok(());
    }

    /** `findOnUpdateActions`. */
    method FindOnUpdateActions()
      requires ValidEnvironment(env)
      modifies this
      ensures Snapshot() == old(Snapshot()).(foreignKeyOnUpdate := OnUpdateActions(fieldsInUse))
    {
      var order := env.keyOrder(fieldsInUse.Keys);
      var actions := HashMaps.PutLoop(order, OnUpdateEntries(fieldsInUse));
      OnUpdateLoopFinds(fieldsInUse, order);
      foreignKeyOnUpdate := actions.value;
    }

    /** `findOnDeleteActions`. */
    method FindOnDeleteActions()
      requires ValidEnvironment(env)
      modifies this
      ensures Snapshot() == old(Snapshot()).(foreignKeyOnDelete := OnDeleteActions(fieldsInUse))
    {
      var order := env.keyOrder(fieldsInUse.Keys);
      var actions := HashMaps.PutLoop(order, OnDeleteEntries(fieldsInUse));
      OnDeleteLoopFinds(fieldsInUse, order);
      foreignKeyOnDelete := actions.value;
    }

    /** `findSubModels`: a new, not yet initialized model for every field
        whose type is an entity class. */
    method FindSubModels()
      requires ValidEnvironment(env)
      modifies this
      ensures Snapshot() == old(Snapshot()).(subModels := Uninitialized(SubModelTypes(fieldsInUse)))
    {
      var order := env.keyOrder(fieldsInUse.Keys);
      var found := HashMaps.PutLoop(order, SubModelEntries(fieldsInUse));
      SubModelLoopFinds(fieldsInUse, order);
      subModels := Uninitialized(found.value);
    }

    /** `findColumnNames`. */
    method FindColumnNames() returns (r: Result<()>)
      modifies this
      ensures r == Outcome(ColumnNames(fieldsInUse, env.keyOrder(fieldsInUse.Keys)))
      ensures Snapshot() == old(Snapshot()).(columnNames :=
                if r.Ok? then ColumnNames(fieldsInUse, env.keyOrder(fieldsInUse.Keys)).value else old(columnNames))
    {
      var found :- HashMaps.PutLoop(env.keyOrder(fieldsInUse.Keys), ColumnEntries(fieldsInUse));
      columnNames := found;
      r := Ok(());
    }

    /** `initializeSubModels`: each sub-model object is initialized, in the
        iteration order of the sub-models. */
    method InitializeSubModels() returns (r: Result<()>)
      requires ValidEnvironment(env)
      requires forall f :: f in SubModelTypes(fieldsInUse) ==> TypeSize(SubModelTypes(fieldsInUse)[f]) < TypeSize(databaseTypeElement)
      requires subModels == Uninitialized(SubModelTypes(fieldsInUse))
      modifies this
      decreases TypeSize(databaseTypeElement), 1
      ensures var types := SubModelTypes(old(fieldsInUse));
              r == Outcome(InitializeEach(types, env.keyOrder(types.Keys), TypeSize(databaseTypeElement), env))
              && Snapshot() == old(Snapshot()).(subModels :=
                   if r.Ok? then InitializeEach(types, env.keyOrder(types.Keys), TypeSize(databaseTypeElement), env).value
                   else old(subModels))
    {
      var types := SubModelTypes(fieldsInUse);
      assert subModels.Keys == types.Keys;
      var initialized :- InitializeEachLoop(types, env.keyOrder(subModels.Keys), TypeSize(databaseTypeElement), env);
      subModels := initialized;
      r := Ok(());
    }

    // ---------------------------------------------------------- accessors

    /** `findGetFieldMethods`. */
    method FindGetFieldMethods() returns (r: Result<()>)
      modifies this
      ensures r == Outcome(AnnotatedGetMethods(databaseTypeElement, fieldsInUse))
      ensures Snapshot() == old(Snapshot()).(annotatedGetMethods :=
                if r.Ok? then AnnotatedGetMethods(databaseTypeElement, fieldsInUse).value else old(annotatedGetMethods))
    {
      var found :- HashMaps.PutLoop(ElementExtensions.MethodsOf(databaseTypeElement), GetFieldEntries(fieldsInUse));
      annotatedGetMethods := found;
      r := Ok(());
    }

    /** `findGetMethods`. */
    method FindGetMethods() returns (r: Result<()>)
      modifies this
      ensures r == Outcome(GetMethods(databaseTypeElement, fieldsInUse))
      ensures Snapshot() == old(Snapshot()).(getMethods :=
                if r.Ok? then GetMethods(databaseTypeElement, fieldsInUse).value else old(getMethods))
    {
      var found :- HashMaps.PutLoop(ElementExtensions.MethodsOf(databaseTypeElement), GetMethodEntries(fieldsInUse));
      getMethods := found;
      r := Ok(());
    }

    /** `findGetFieldAccess`. */
    method FindGetFieldAccess() returns (r: Result<()>)
      modifies this
      ensures var access := FieldAccesses(fieldsInUse, annotatedGetMethods, getMethods, NO_GET_ACCESS, env.keyOrder(fieldsInUse.Keys));
              r == Outcome(access)
              && Snapshot() == old(Snapshot()).(fieldGetAccess := if r.Ok? then access.value else old(fieldGetAccess))
    {
      var found :- HashMaps.PutLoop(env.keyOrder(fieldsInUse.Keys), AccessEntries(fieldsInUse, annotatedGetMethods, getMethods, NO_GET_ACCESS));
      fieldGetAccess := found;
      r := Ok(());
    }

    /** `findSetFieldMethods`. */
    method FindSetFieldMethods() returns (r: Result<()>)
      modifies this
      ensures r == Outcome(AnnotatedSetMethods(databaseTypeElement, fieldsInUse))
      ensures Snapshot() == old(Snapshot()).(annotatedSetMethods :=
                if r.Ok? then AnnotatedSetMethods(databaseTypeElement, fieldsInUse).value else old(annotatedSetMethods))
    {
      var found :- HashMaps.PutLoop(ElementExtensions.MethodsOf(databaseTypeElement), SetFieldEntries(fieldsInUse));
      annotatedSetMethods := found;
      r := Ok(());
    }

    /** `findSetMethods`. */
    method FindSetMethods() returns (r: Result<()>)
      modifies this
      ensures r == Outcome(SetMethods(databaseTypeElement, fieldsInUse))
      ensures Snapshot() == old(Snapshot()).(setMethods :=
                if r.Ok? then SetMethods(databaseTypeElement, fieldsInUse).value else old(setMethods))
    {
      var found :- HashMaps.PutLoop(ElementExtensions.MethodsOf(databaseTypeElement), SetMethodEntries(fieldsInUse));
      setMethods := found;
      r := Ok(());
    }

    /** `findSetFieldAccess`. */
    method FindSetFieldAccess() returns (r: Result<()>)
      modifies this
      ensures var access := FieldAccesses(fieldsInUse, annotatedSetMethods, setMethods, NO_SET_ACCESS, env.keyOrder(fieldsInUse.Keys));
              r == Outcome(access)
              && Snapshot() == old(Snapshot()).(fieldSetAccess := if r.Ok? then access.value else old(fieldSetAccess))
    {
      var found :- HashMaps.PutLoop(env.keyOrder(fieldsInUse.Keys), AccessEntries(fieldsInUse, annotatedSetMethods, setMethods, NO_SET_ACCESS));
      fieldSetAccess := found;
      r := Ok(());
    }

    // ---------------------------------------------------------- serializers

    /** `findSerializers`. */
    method FindSerializers() returns (r: Result<()>)
      modifies this
      ensures var found := Serializers(fieldsInUse, env.dateSerializer, env.keyOrder(fieldsInUse.Keys));
              r == Outcome(found)
              && Snapshot() == old(Snapshot()).(fieldSerializer := if r.Ok? then found.value else old(fieldSerializer))
    {
      var found :- HashMaps.PutLoop(env.keyOrder(fieldsInUse.Keys), SerializerEntries(fieldsInUse, env.dateSerializer));
      fieldSerializer := found;
      r := Ok(());
    }

    /** `verifySerializersMatchFields`, comparing types with the class's own
        `isTypeMirrorEqual` as written. */
    method VerifySerializersMatchFields() returns (r: Result<()>)
      ensures r == VerifySerializers(fieldsInUse, fieldSerializer, TypeUtils.IsTypeMirrorEqualAsWritten, env.keyOrder(fieldsInUse.Keys))
    {
      var _ :- Results.MapLoop(env.keyOrder(fieldsInUse.Keys), VerifyEntries(fieldsInUse, fieldSerializer, TypeUtils.IsTypeMirrorEqualAsWritten));
      r := Ok(());
    }

    // ---------------------------------------------------------- SQL

    /** `findDatabaseTypesForFields`. */
    method FindDatabaseTypesForFields() returns (r: Result<()>)
      modifies this
      ensures var found := FieldTypes(old(Snapshot()), env.keyOrder, DatabaseTypeOf);
              r == Outcome(found)
              && Snapshot() == old(Snapshot()).(fieldDatabaseTypes := if r.Ok? then found.value else old(fieldDatabaseTypes))
    {
      var found :- HashMaps.PutLoop(env.keyOrder(columnNames.Keys), TypeEntries(Snapshot(), env.keyOrder, DatabaseTypeOf));
      fieldDatabaseTypes := found;
      r := Ok(());
    }

    /** `findCursorTypesForFields`. */
    method FindCursorTypesForFields() returns (r: Result<()>)
      modifies this
      ensures var found := FieldTypes(old(Snapshot()), env.keyOrder, CursorTypeOf);
              r == Outcome(found)
              && Snapshot() == old(Snapshot()).(cursorTypes := if r.Ok? then found.value else old(cursorTypes))
    {
      var found :- HashMaps.PutLoop(env.keyOrder(columnNames.Keys), TypeEntries(Snapshot(), env.keyOrder, CursorTypeOf));
      cursorTypes := found;
      r := Ok(());
    }

    /** `generateCreateTableSql`: the column definitions, the key columns and
        the foreign keys, with each foreign key referencing the key's field
        name. */
    method GenerateCreateTableSql() returns (r: Result<()>)
      modifies this
      ensures var sql := CreateTableSqlAsWritten(old(Snapshot()), env.keyOrder);
              r == Outcome(sql)
              && Snapshot() == old(Snapshot()).(createTableSql := if r.Ok? then sql.value else old(createTableSql))
    {
      var sql :- CreateTableLoop(Snapshot(), env.keyOrder);
      createTableSql := sql;
      r := Ok(());
    }

    /** Stores the generated field names: how often each simple name was
        used and the simple name behind each generated field. */
    method StoreFieldNames(occurrences: map<string, nat>, classNames: map<string, string>)
      modifies this
      ensures Snapshot() == old(Snapshot()).(fieldNameOccurrences := occurrences,
                                             serializerFieldClassNames := classNames)
    {
      fieldNameOccurrences, serializerFieldClassNames := occurrences, classNames;
    }

    /** Stores the serializer classes in use and the generated field each
        entity field is serialized through. */
    method StoreSerializerUses(qualifiedNames: set<string>, fieldNames: map<string, string>)
      modifies this
      ensures Snapshot() == old(Snapshot()).(serializerQualifiedNames := qualifiedNames,
                                             fieldSerializerNames := fieldNames)
    {
      serializerQualifiedNames, fieldSerializerNames := qualifiedNames, fieldNames;
    }

    /** `generateNamesForSerializers`: for each serializer class, in the
        iteration order of the set of serializers, a field name made unique
        by the number of classes with the same simple name before it,
        recorded for the first field found using the class. */
    method GenerateNamesForSerializers() returns (r: Result<()>)
      modifies this
      ensures r == Outcome(NameSerializersAsWritten(fieldSerializer, env))
      ensures r.Err? ==> Snapshot() == old(Snapshot())
      ensures r.Ok? ==> var naming := NameSerializersAsWritten(fieldSerializer, env).value;
                        Snapshot() == old(Snapshot()).(fieldNameOccurrences := naming.occurrences,
                                                       serializerFieldClassNames := naming.classNames,
                                                       serializerQualifiedNames := naming.qualifiedNames,
                                                       fieldSerializerNames := naming.fieldNames)
    {
      var naming := NameLoop(env.serializerOrder(fieldSerializer.Values), fieldSerializer, env.keyOrder(fieldSerializer.Keys));
      ghost var expected := NameSerializersAsWritten(fieldSerializer, env);
      assert naming == expected;
      if naming.Err? {
        return Err(naming.error);
      }
      var n := naming.value;
      StoreFieldNames(n.occurrences, n.classNames);
      StoreSerializerUses(n.qualifiedNames, n.fieldNames);
      assert NameSerializersAsWritten(fieldSerializer, env) == expected;
      r := Ok(());
    }

    /** Stores the statement selecting one row by its keys and the fields
        bound to its arguments. */
    method StoreItemSql(sql: string, argFields: seq<string>)
      modifies this
      ensures Snapshot() == old(Snapshot()).(itemSql := sql, itemSqlArgFields := argFields)
    {
      itemSql, itemSqlArgFields := sql, argFields;
    }

    /** `generateItemSql`: one `column=?` condition per key, joined by `AND`,
        and the keys in the same order as the statement's arguments. */
    method GenerateItemSql()
      modifies this
      ensures Snapshot() == old(Snapshot()).(itemSql := ItemSql(columnNames, primaryKeyFields, env.keyOrder).0,
                                             itemSqlArgFields := ItemSql(columnNames, primaryKeyFields, env.keyOrder).1)
    {
      var expressions, args := KeyConditionsLoop(columnNames, env.keyOrder(primaryKeyFields));
      assert (Seqs.Join(expressions, AND), args) == ItemSql(columnNames, primaryKeyFields, env.keyOrder);
      StoreItemSql(Seqs.Join(expressions, AND), args);
    }

    // ---------------------------------------------------------- initialize

    /** The steps of `initialize` before `initializeSubModels`. */
    method FindEntityProperties() returns (r: Result<()>)
      requires ValidEnvironment(env) && Snapshot() == Unresolved(databaseTypeElement)
      modifies this
      ensures r == Outcome(Discover(databaseTypeElement, env))
      ensures r.Ok? ==> FieldsInUse(databaseTypeElement) == Ok(fieldsInUse)
                        && Snapshot() == Discover(databaseTypeElement, env).value.(subModels := Uninitialized(SubModelTypes(fieldsInUse)))
    {
      FindMapperPackageName();
      FindMapperClassName();
      FindEntityClassName();
      r := FindTableName();
      if r.Err? {
        return;
      }
      r := FindFieldsInUse();
      if r.Err? {
        return;
      }
      r := FindPrimaryKeyFields();
      if r.Err? {
        return;
      }
      FindOnUpdateActions();
      FindOnDeleteActions();
      FindSubModels();
      r := FindColumnNames();
    }

    /** The accessor steps: `findGetFieldMethods` to `findSetFieldAccess`. */
    method FindAccessors() returns (r: Result<()>)
      modifies this
      ensures r == Outcome(ResolveAccessors(old(Snapshot()), env))
      ensures r.Ok? ==> Snapshot() == ResolveAccessors(old(Snapshot()), env).value
    {
      r := FindGetFieldMethods();
      if r.Err? {
        return;
      }
      r := FindGetMethods();
      if r.Err? {
        return;
      }
      r := FindGetFieldAccess();
      if r.Err? {
        return;
      }
      r := FindSetFieldMethods();
      if r.Err? {
        return;
      }
      r := FindSetMethods();
      if r.Err? {
        return;
      }
      r := FindSetFieldAccess();
    }

    /** `findSerializers` and `verifySerializersMatchFields`. */
    method FindVerifiedSerializers() returns (r: Result<()>)
      modifies this
      ensures r == Outcome(ResolveSerializers(old(Snapshot()), env))
      ensures r.Ok? ==> Snapshot() == ResolveSerializers(old(Snapshot()), env).value
    {
      r := FindSerializers();
      if r.Err? {
        return;
      }
      r := VerifySerializersMatchFields();
    }

    /** The SQL steps: `findDatabaseTypesForFields` to `generateItemSql`. */
    method GenerateSql() returns (r: Result<()>)
      modifies this
      ensures r == Outcome(Generate(old(Snapshot()), env))
      ensures r.Ok? ==> Snapshot() == Generate(old(Snapshot()), env).value
    {
      ghost var m := Snapshot();
      r := FindDatabaseTypesForFields();
      if r.Err? {
        return;
      }
      FieldTypesIgnoreFoundTypes(m, env.keyOrder, CursorTypeOf, fieldDatabaseTypes);
      r := FindCursorTypesForFields();
      if r.Err? {
        return;
      }
      r := GenerateCreateTableSql();
      if r.Err? {
        return;
      }
      r := GenerateNamesForSerializers();
      if r.Err? {
        return;
      }
      GenerateItemSql();
    }

    /** `initialize`: the steps in order, the first that throws ending it.
        The object ends in the state `DatabaseEntityModelJava.Initialize`
        describes, so it is `Resolved` (see `InitializeResolved`). */
    method Initialize() returns (r: Result<()>)
      requires ValidEnvironment(env) && Snapshot() == Unresolved(databaseTypeElement)
      modifies this
      decreases TypeSize(databaseTypeElement), 2
      ensures r == Outcome(DatabaseEntityModelJava.Initialize(databaseTypeElement, env))
      ensures r.Ok? ==> Snapshot() == DatabaseEntityModelJava.Initialize(databaseTypeElement, env).value
    {
      r := FindEntityProperties();
      if r.Err? {
        return;
      }
      SubModelTypesSmaller(databaseTypeElement);
      r := InitializeSubModels();
      if r.Err? {
        return;
      }
      r := FindAccessors();
      if r.Err? {
        return;
      }
      r := FindVerifiedSerializers();
      if r.Err? {
        return;
      }
      r := GenerateSql();
    }
  }
}

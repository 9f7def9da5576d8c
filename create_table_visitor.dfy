/** `CreateTableVisitor`: the `CREATE TABLE` statement of each entity named
    by a `@CreateTable` storage method, stored in one constant per entity,
    and the overriding methods that execute it.
 */
module CreateTableVisitor {
  import opened Wrappers
  import opened Elements
  import Seqs
  import Results
  import ElementExtensions
  import StringExtensions
  import DatabaseEntityModelKt
  import DatabaseEntityModelLazyMap
  import opened StorageBuilder

  const CREATE_TABLE_PREFIX: string := "CREATE TABLE IF NOT EXISTS "

  /** A column's name and SQL type, as the first loop records them. */
  datatype ColumnInfo = ColumnInfo(name: string, sqlType: string)

  /** The column name, then the SQL type; the first failure wins. */
  function ColumnInfoOf(f: Element): (r: Result<ColumnInfo>)
    ensures r.Ok? <==> DatabaseEntityModelKt.GetDatabaseFieldName(f).Ok? && DatabaseEntityModelKt.GetDatabaseType(f).Ok?
    ensures r.Ok? ==> r.value == ColumnInfo(DatabaseEntityModelKt.GetDatabaseFieldName(f).value,
                                            DatabaseEntityModelKt.GetDatabaseType(f).value)
    ensures DatabaseEntityModelKt.GetDatabaseFieldName(f).Err? ==> r == Err(DatabaseEntityModelKt.GetDatabaseFieldName(f).error)
  {
    var name :- DatabaseEntityModelKt.GetDatabaseFieldName(f);
    var sqlType :- DatabaseEntityModelKt.GetDatabaseType(f);
    Ok(ColumnInfo(name, sqlType))
  }

  /** The two `HashMap`s keyed by member name after `put`s for every column
      in order: the column names (`sqlType` false) or the SQL types. */
  function ColumnMap(columns: seq<Element>, infos: seq<ColumnInfo>, sqlType: bool): map<string, string>
    requires |columns| == |infos|
  {
    if |columns| == 0 then map[]
    else
      var n := |columns| - 1;
      ColumnMap(columns[..n], infos[..n], sqlType)[columns[n].simpleName := if sqlType then infos[n].sqlType else infos[n].name]
  }

  /** The keys of the maps are the member names of the columns. */
  lemma {:induction false} ColumnMapKeys(columns: seq<Element>, infos: seq<ColumnInfo>, sqlType: bool, k: string)
    requires |columns| == |infos|
    ensures k in ColumnMap(columns, infos, sqlType) <==> exists i :: 0 <= i < |columns| && columns[i].simpleName == k
  {
    if |columns| > 0 {
      var n := |columns| - 1;
      ColumnMapKeys(columns[..n], infos[..n], sqlType, k);
      if exists i :: 0 <= i < n && columns[..n][i].simpleName == k {
        var i :| 0 <= i < n && columns[..n][i].simpleName == k;
        assert columns[i].simpleName == k;
      }
      if exists i :: 0 <= i < |columns| && columns[i].simpleName == k {
        var i :| 0 <= i < |columns| && columns[i].simpleName == k;
        if i < n { assert columns[..n][i].simpleName == k; }
      }
    }
  }

  /** With distinct member names no `put` overwrites another: the entry of
      column `i` is what the first loop recorded for it. */
  lemma {:induction false} ColumnMapLookup(columns: seq<Element>, infos: seq<ColumnInfo>, sqlType: bool, i: int)
    requires |columns| == |infos| && DatabaseEntityModelKt.DistinctNames(columns) && 0 <= i < |columns|
    ensures columns[i].simpleName in ColumnMap(columns, infos, sqlType)
    ensures ColumnMap(columns, infos, sqlType)[columns[i].simpleName] == if sqlType then infos[i].sqlType else infos[i].name
  {
    var n := |columns| - 1;
    if i < n {
      assert DatabaseEntityModelKt.DistinctNames(columns[..n]) by {
        forall a, b | 0 <= a < b < n ensures columns[..n][a].simpleName != columns[..n][b].simpleName {
          assert columns[..n][a] == columns[a] && columns[..n][b] == columns[b];
        }
      }
      ColumnMapLookup(columns[..n], infos[..n], sqlType, i);
      assert columns[..n][i] == columns[i] && infos[..n][i] == infos[i];
      assert columns[n].simpleName != columns[i].simpleName;
    }
  }

  /** What a key marker appends to a column definition. */
  function KeySuffix(isKey: bool, singleKey: bool): string {
    if singleKey && isKey then " NOT NULL PRIMARY KEY"
    else if isKey then " NOT NULL"
    else ""
  }

  /** One column definition `<col> <TYPE><suffix>`. */
  function Definition(name: string, sqlType: string, isKey: bool, singleKey: bool): string {
    name + " " + sqlType + KeySuffix(isKey, singleKey)
  }

  /** The column definitions, in column order; key membership is by member
      name. */
  function ColumnDefinitions(columns: seq<Element>, infos: seq<ColumnInfo>, keys: seq<string>): (r: seq<string>)
    requires |columns| == |infos|
    ensures |r| == |columns|
    ensures forall i :: 0 <= i < |columns| ==>
              r[i] == Definition(infos[i].name, infos[i].sqlType, columns[i].simpleName in keys, |keys| == 1)
  {
    seq(|columns|, i requires 0 <= i < |columns| =>
          Definition(infos[i].name, infos[i].sqlType, columns[i].simpleName in keys, |keys| == 1))
  }

  /** `dbFieldNames[it]` for each key, an absent entry rendered `null`. */
  function KeyColumnNames(keys: seq<string>, names: map<string, string>): (r: seq<string>)
    ensures |r| == |keys|
    ensures forall j :: 0 <= j < |keys| ==> r[j] == if keys[j] in names then names[keys[j]] else "null"
  {
    seq(|keys|, j requires 0 <= j < |keys| => if keys[j] in names then names[keys[j]] else "null")
  }

  /** The composite key clause, present only for two or more keys. */
  function KeyClause(keys: seq<string>, names: map<string, string>): string {
    if |keys| > 1 then ", PRIMARY KEY(" + Seqs.Join(KeyColumnNames(keys, names), ",") + ")" else ""
  }

  /** The statement text from its resolved parts. */
  function CreateTableText(tableName: string, columns: seq<Element>, infos: seq<ColumnInfo>, keys: seq<string>): string
    requires |columns| == |infos|
  {
    CREATE_TABLE_PREFIX + tableName + "("
    + Seqs.Join(ColumnDefinitions(columns, infos, keys), ", ")
    + KeyClause(keys, ColumnMap(columns, infos, false)) + ")"
  }

  /** What `createTableSql` computes, in the order it evaluates: columns,
      table name, each column's name and type, the key names. */
  function CreateTableSqlOf(entity: TypeElement): Result<string> {
    var columns := DatabaseEntityModelKt.Columns(entity);
    if |columns| == 0 then Err(InvalidElement("no fields found in " + entity.simpleName))
    else
      var tableName :- DatabaseEntityModelKt.TableName(entity);
      var infos :- Results.MapOrFail(columns, ColumnInfoOf);
      var keys :- DatabaseEntityModelKt.PrimaryKeyFieldNames(entity);
      if |keys| == 0 then Err(InvalidElement("Primary key not found when creating SQL for entity " + entity.simpleName))
      else Ok(CreateTableText(tableName, columns, infos, keys))
  }

  /** The first loop of `createTableSql`: each column's name, then its type,
      put into the two maps under its member name. */
  method RecordColumns(fields: seq<Element>)
    returns (r: Result<(map<string, string>, map<string, string>)>, ghost infos: seq<ColumnInfo>)
    ensures r.Err? ==> Results.MapOrFail(fields, ColumnInfoOf) == Err(r.error)
    ensures r.Ok? ==> Results.MapOrFail(fields, ColumnInfoOf) == Ok(infos) && |infos| == |fields|
                      && r.value == (ColumnMap(fields, infos, false), ColumnMap(fields, infos, true))
  {
    var dbFieldNames: map<string, string> := map[];
    var fieldTypes: map<string, string> := map[];
    infos := [];
    for i := 0 to |fields|
      invariant |infos| == i
      invariant Results.MapOrFail(fields[..i], ColumnInfoOf) == Ok(infos)
      invariant dbFieldNames == ColumnMap(fields[..i], infos, false)
      invariant fieldTypes == ColumnMap(fields[..i], infos, true)
    {
      var field := fields[i];
      var simpleName := field.simpleName;
      assert fields[..i + 1] == fields[..i] + [field];
      Results.MapOrFailSnoc(fields[..i], field, ColumnInfoOf);
      var name := DatabaseEntityModelKt.GetDatabaseFieldName(field);
      if name.Err? {
        Results.MapOrFailPrefixErr(fields, i + 1, ColumnInfoOf);
        return Err(name.error), infos;
      }
      dbFieldNames := dbFieldNames[simpleName := name.value];
      var sqlType := DatabaseEntityModelKt.GetDatabaseType(field);
      if sqlType.Err? {
        Results.MapOrFailPrefixErr(fields, i + 1, ColumnInfoOf);
        return Err(sqlType.error), infos;
      }
      fieldTypes := fieldTypes[simpleName := sqlType.value];
      ghost var info := ColumnInfo(name.value, sqlType.value);
      assert (fields[..i + 1])[..i] == fields[..i] && (infos + [info])[..i] == infos;
      infos := infos + [info];
    }
    assert fields[..|fields|] == fields;
    r := Ok((dbFieldNames, fieldTypes));
  }

  /** One column's definition as the second loop appends it. */
  method ColumnDefinition(dbName: string, sqlType: string, singleKey: bool, isKey: bool) returns (definition: string)
    ensures definition == Definition(dbName, sqlType, isKey, singleKey)
  {
    definition := dbName + " " + sqlType;
    if singleKey && isKey {
      definition := definition + " NOT NULL PRIMARY KEY";
    } else if isKey {
      definition := definition + " NOT NULL";
    }
  }

  /** The second loop of `createTableSql`: each column's definition, with a
      `", "` after all but the last. */
  method AppendColumns(builder: string, fields: seq<Element>, ghost definitions: seq<string>,
                       dbFieldNames: map<string, string>, fieldTypes: map<string, string>,
                       primaryKeysCollection: seq<string>)
    returns (result: string)
    requires |fields| == |definitions|
    requires forall i :: 0 <= i < |fields| ==>
               fields[i].simpleName in dbFieldNames && fields[i].simpleName in fieldTypes
               && definitions[i] == Definition(dbFieldNames[fields[i].simpleName], fieldTypes[fields[i].simpleName],
                                               fields[i].simpleName in primaryKeysCollection, |primaryKeysCollection| == 1)
    ensures result == builder + Seqs.Join(definitions, ", ")
  {
    result := builder;
    var primaryKeysCollectionSize := |primaryKeysCollection|;
    if |fields| == 0 {
      return;
    }
    for i := 0 to |fields|
      invariant i < |fields| ==> result == builder + Seqs.Terminated(definitions[..i], ", ")
      invariant i == |fields| ==> result == builder + Seqs.Join(definitions, ", ")
    {
      var fieldName := fields[i].simpleName;
      var containsFieldName := fieldName in primaryKeysCollection;
      var definition := ColumnDefinition(dbFieldNames[fieldName], fieldTypes[fieldName],
                                         primaryKeysCollectionSize == 1, containsFieldName);
      TerminatedStep(definitions, i, ", ");
      result := result + definition;
      if i < |fields| - 1 {
        result := result + ", ";
        assert result == builder + Seqs.Terminated(definitions[..i + 1], ", ") by {
          assert result == (builder + Seqs.Terminated(definitions[..i], ", ")) + definitions[i] + ", ";
        }
      } else {
        assert result == builder + Seqs.Join(definitions, ", ") by {
          assert result == (builder + Seqs.Terminated(definitions[..i], ", ")) + definitions[i];
        }
      }
    }
  }

  /** One more part of a separated list: a separator follows it unless it
      is the last. */
  lemma TerminatedStep(parts: seq<string>, i: int, sep: string)
    requires 0 <= i < |parts|
    ensures Seqs.Terminated(parts[..i + 1], sep) == Seqs.Terminated(parts[..i], sep) + parts[i] + sep
    ensures i == |parts| - 1 ==> Seqs.Join(parts, sep) == Seqs.Terminated(parts[..i], sep) + parts[i]
  {
    assert parts[..i + 1][..i] == parts[..i];
  }

  /** Each definition can be read off the two maps. */
  lemma ColumnMapDefinitions(fields: seq<Element>, infos: seq<ColumnInfo>, keys: seq<string>)
    requires |fields| == |infos| && DatabaseEntityModelKt.DistinctNames(fields)
    ensures var names := ColumnMap(fields, infos, false);
            var types := ColumnMap(fields, infos, true);
            var definitions := ColumnDefinitions(fields, infos, keys);
            forall i :: 0 <= i < |fields| ==>
              fields[i].simpleName in names && fields[i].simpleName in types
              && definitions[i] == Definition(names[fields[i].simpleName], types[fields[i].simpleName],
                                              fields[i].simpleName in keys, |keys| == 1)
  {
    forall i | 0 <= i < |fields|
      ensures fields[i].simpleName in ColumnMap(fields, infos, false)
      ensures ColumnMap(fields, infos, false)[fields[i].simpleName] == infos[i].name
      ensures fields[i].simpleName in ColumnMap(fields, infos, true)
      ensures ColumnMap(fields, infos, true)[fields[i].simpleName] == infos[i].sqlType
    {
      ColumnMapLookup(fields, infos, false, i);
      ColumnMapLookup(fields, infos, true, i);
    }
  }

  /** The statement text once its parts are resolved: the definitions, the
      composite key clause and the closing parenthesis. */
  method AssembleCreateTable(tableName: string, fields: seq<Element>, ghost infos: seq<ColumnInfo>,
                             dbFieldNames: map<string, string>, fieldTypes: map<string, string>,
                             primaryKeysCollection: seq<string>)
    returns (text: string)
    requires |fields| == |infos| && DatabaseEntityModelKt.DistinctNames(fields)
    requires dbFieldNames == ColumnMap(fields, infos, false) && fieldTypes == ColumnMap(fields, infos, true)
    ensures text == CreateTableText(tableName, fields, infos, primaryKeysCollection)
  {
    var head := CREATE_TABLE_PREFIX + tableName + "(";
    ghost var definitions := ColumnDefinitions(fields, infos, primaryKeysCollection);
    ColumnMapDefinitions(fields, infos, primaryKeysCollection);
    var builder := AppendColumns(head, fields, definitions, dbFieldNames, fieldTypes, primaryKeysCollection);
    var keyClause := "";
    if |primaryKeysCollection| > 1 {
      var dbNames := KeyColumnNames(primaryKeysCollection, dbFieldNames);
      keyClause := ", PRIMARY KEY(" + Seqs.Join(dbNames, ",") + ")";
    }
    assert keyClause == KeyClause(primaryKeysCollection, dbFieldNames);
    text := builder + keyClause + ")";
  }

  /** `createTableSql`. */
  method CreateTableSql(databaseTypeElement: TypeElement) returns (r: Result<string>)
    ensures r == CreateTableSqlOf(databaseTypeElement)
  {
    var fields := DatabaseEntityModelKt.Columns(databaseTypeElement);
    if |fields| == 0 {
      return Err(InvalidElement("no fields found in " + databaseTypeElement.simpleName));
    }
    var tableName :- DatabaseEntityModelKt.TableName(databaseTypeElement);
    var maps, infos := RecordColumns(fields);
    if maps.Err? {
      return Err(maps.error);
    }
    var primaryKeysCollection :- DatabaseEntityModelKt.PrimaryKeyFieldNames(databaseTypeElement);
    if |primaryKeysCollection| == 0 {
      return Err(InvalidElement("Primary key not found when creating SQL for entity " + databaseTypeElement.simpleName));
    }
    DatabaseEntityModelKt.ColumnsDistinct(databaseTypeElement);
    var text := AssembleCreateTable(tableName, fields, infos, maps.value.0, maps.value.1, primaryKeysCollection);
    return Ok(text);
  }

  /** The statement is rejected for an entity without columns, and it exists
      exactly when the table name, every column's name and type and a
      non-empty set of key names can be resolved; it is then the text of
      those parts. */
  lemma CreateTableSqlErrors(entity: TypeElement)
    ensures DatabaseEntityModelKt.Columns(entity) == [] ==>
              CreateTableSqlOf(entity).Err? && CreateTableSqlOf(entity).error.InvalidElement?
    ensures var columns := DatabaseEntityModelKt.Columns(entity);
            var keys := DatabaseEntityModelKt.PrimaryKeyFieldNames(entity);
            CreateTableSqlOf(entity).Ok? <==>
              |columns| > 0 && DatabaseEntityModelKt.TableName(entity).Ok?
              && (forall i :: 0 <= i < |columns| ==> ColumnInfoOf(columns[i]).Ok?)
              && keys.Ok? && |keys.value| > 0
  {
    Results.MapOrFailOk(DatabaseEntityModelKt.Columns(entity), ColumnInfoOf);
  }

  /** Column `i` of a successful statement is described by its own column
      name and SQL type. */
  lemma CreateTableSqlParts(entity: TypeElement)
    requires CreateTableSqlOf(entity).Ok?
    ensures var columns := DatabaseEntityModelKt.Columns(entity);
            var infos := Results.MapOrFail(columns, ColumnInfoOf);
            && infos.Ok? && |infos.value| == |columns|
            && DatabaseEntityModelKt.DistinctNames(columns)
            && (forall i :: 0 <= i < |columns| ==> ColumnInfoOf(columns[i]) == Ok(infos.value[i]))
            && CreateTableSqlOf(entity).value
               == CreateTableText(DatabaseEntityModelKt.TableName(entity).value, columns, infos.value,
                                  DatabaseEntityModelKt.PrimaryKeyFieldNames(entity).value)
  {
    var columns := DatabaseEntityModelKt.Columns(entity);
    var infos := Results.MapOrFail(columns, ColumnInfoOf);
    assert infos.Ok?;
    Results.MapOrFailOk(columns, ColumnInfoOf);
    DatabaseEntityModelKt.ColumnsDistinct(entity);
    var tableName := DatabaseEntityModelKt.TableName(entity).value;
    var keys := DatabaseEntityModelKt.PrimaryKeyFieldNames(entity).value;
    assert CreateTableSqlOf(entity) == Ok(CreateTableText(tableName, columns, infos.value, keys));
  }

  /** The text starts with `CREATE TABLE IF NOT EXISTS <table>(`, continues
      with the column definitions separated by `", "` and ends with `)`. */
  lemma CreateTableTextLayout(tableName: string, columns: seq<Element>, infos: seq<ColumnInfo>, keys: seq<string>)
    requires |columns| == |infos|
    ensures var text := CreateTableText(tableName, columns, infos, keys);
            var head := CREATE_TABLE_PREFIX + tableName + "(";
            var body := Seqs.Join(ColumnDefinitions(columns, infos, keys), ", ");
            && |head| + |body| < |text|
            && text[..|head|] == head
            && text[|head|..|head| + |body|] == body
            && text[|text| - 1] == ')'
  {
    var text := CreateTableText(tableName, columns, infos, keys);
    var head := CREATE_TABLE_PREFIX + tableName + "(";
    var body := Seqs.Join(ColumnDefinitions(columns, infos, keys), ", ");
    var rest := KeyClause(keys, ColumnMap(columns, infos, false)) + ")";
    assert text == head + body + rest;
    assert (head + body + rest)[..|head|] == head;
    assert (head + body + rest)[|head|..|head| + |body|] == body;
  }

  /** Definition `i` is column `i`'s own column name and SQL type followed
      by its key suffix. */
  lemma CreateTableTextColumns(columns: seq<Element>, infos: seq<ColumnInfo>, keys: seq<string>)
    requires |columns| == |infos|
    requires forall i :: 0 <= i < |columns| ==> ColumnInfoOf(columns[i]) == Ok(infos[i])
    ensures var definitions := ColumnDefinitions(columns, infos, keys);
            forall i :: 0 <= i < |columns| ==>
              && DatabaseEntityModelKt.GetDatabaseFieldName(columns[i]).Ok?
              && DatabaseEntityModelKt.GetDatabaseType(columns[i]).Ok?
              && definitions[i] == DatabaseEntityModelKt.GetDatabaseFieldName(columns[i]).value + " "
                                   + DatabaseEntityModelKt.GetDatabaseType(columns[i]).value
                                   + KeySuffix(columns[i].simpleName in keys, |keys| == 1)
  {
    forall i | 0 <= i < |columns|
      ensures DatabaseEntityModelKt.GetDatabaseFieldName(columns[i]).Ok?
      ensures DatabaseEntityModelKt.GetDatabaseType(columns[i]).Ok?
      ensures infos[i] == ColumnInfo(DatabaseEntityModelKt.GetDatabaseFieldName(columns[i]).value,
                                     DatabaseEntityModelKt.GetDatabaseType(columns[i]).value)
    {
      assert ColumnInfoOf(columns[i]) == Ok(infos[i]);
    }
  }

  /** One key: that column alone is `NOT NULL PRIMARY KEY` and no clause
      follows.  Several keys: each key column is `NOT NULL` and the clause
      names, in key order, the column name of the member each key names, or
      `null` when no column has that member name. */
  lemma CreateTableTextKeys(columns: seq<Element>, infos: seq<ColumnInfo>, keys: seq<string>)
    requires |columns| == |infos| && DatabaseEntityModelKt.DistinctNames(columns)
    ensures var clause := KeyClause(keys, ColumnMap(columns, infos, false));
            && (|keys| == 1 ==>
                  clause == ""
                  && forall i :: 0 <= i < |columns| ==>
                       KeySuffix(columns[i].simpleName in keys, true)
                       == if columns[i].simpleName == keys[0] then " NOT NULL PRIMARY KEY" else "")
            && (|keys| > 1 ==>
                  (forall i :: 0 <= i < |columns| ==>
                     KeySuffix(columns[i].simpleName in keys, false) == if columns[i].simpleName in keys then " NOT NULL" else "")
                  && clause == ", PRIMARY KEY(" + Seqs.Join(KeyColumnNames(keys, ColumnMap(columns, infos, false)), ",") + ")")
            && (forall j, i :: 0 <= j < |keys| && 0 <= i < |columns| && columns[i].simpleName == keys[j] ==>
                  KeyColumnNames(keys, ColumnMap(columns, infos, false))[j] == infos[i].name)
            && (forall j :: 0 <= j < |keys| && (forall i :: 0 <= i < |columns| ==> columns[i].simpleName != keys[j]) ==>
                  KeyColumnNames(keys, ColumnMap(columns, infos, false))[j] == "null")
  {
    forall j, i | 0 <= j < |keys| && 0 <= i < |columns| && columns[i].simpleName == keys[j]
      ensures KeyColumnNames(keys, ColumnMap(columns, infos, false))[j] == infos[i].name
    {
      ColumnMapLookup(columns, infos, false, i);
    }
    forall j | 0 <= j < |keys| && (forall i :: 0 <= i < |columns| ==> columns[i].simpleName != keys[j])
      ensures KeyColumnNames(keys, ColumnMap(columns, infos, false))[j] == "null"
    {
      ColumnMapKeys(columns, infos, false, keys[j]);
    }
  }

  // ---------------------------------------------------------------- visit

  /** `CreateTable.getTypeElement()`: the class named by the annotation; a
      type that is not a class fails the cast. */
  function CreateTableEntity(m: Element): (r: Result<TypeElement>)
    ensures r.Ok? ==> GetAnnotation(m.annotations, CreateTableClass).Some?
  {
    var annotation := GetAnnotation(m.annotations, CreateTableClass);
    if annotation.None? then Err(NullPointer("getAnnotation(CreateTable) returned null"))
    else match annotation.value
      case CreateTable(entity) =>
        if entity.DeclaredType? then Ok(entity.decl) else Err(ClassCast("null cannot be cast to TypeElement"))
      case _ => Err(NullPointer("getAnnotation(CreateTable) returned null"))
  }

  /** The constant holding an entity's statement. */
  function ConstantName(entity: TypeElement): string {
    StringExtensions.ScreamingSnake(entity.simpleName) + "_CREATE_TABLE_SQL"
  }

  /** `createSqlField`. */
  function SqlFieldOf(entity: TypeElement): Result<FieldSpec> {
    var sql :- CreateTableSqlOf(entity);
    Ok(FieldSpec(ConstantName(entity), sql))
  }

  /** The overriding method running an entity's statement. */
  function ExecMethodOf(m: Element, entity: TypeElement): MethodSpec {
    MethodSpec(m.simpleName, [AddStatement("db.execSQL($L)", [ConstantName(entity)])])
  }

  /** Every `@CreateTable` method paired with its entity, in order. */
  function ExecMethods(methods: seq<Element>, entities: seq<TypeElement>): (r: seq<MethodSpec>)
    requires |methods| == |entities|
    ensures |r| == |methods| && forall i :: 0 <= i < |methods| ==> r[i] == ExecMethodOf(methods[i], entities[i])
  {
    seq(|methods|, i requires 0 <= i < |methods| => ExecMethodOf(methods[i], entities[i]))
  }

  /** What `visit` adds: one constant per distinct entity, in first-use
      order, then one method per `@CreateTable` method. */
  function VisitResult(typeElement: TypeElement): Result<(seq<FieldSpec>, seq<MethodSpec>)> {
    var methods := AnnotatedMethods(typeElement, CreateTableClass);
    var entities :- Results.MapOrFail(methods, CreateTableEntity);
    var fields :- Results.MapOrFail(Seqs.Distinct(entities), SqlFieldOf);
    Ok((fields, ExecMethods(methods, entities)))
  }

  /** A constant exists exactly when the entity's statement does; it is
      named after the entity and initialised with that statement. */
  lemma SqlFieldOfMeaning(entity: TypeElement)
    ensures SqlFieldOf(entity).Ok? <==> CreateTableSqlOf(entity).Ok?
    ensures SqlFieldOf(entity).Ok? ==>
              SqlFieldOf(entity).value == FieldSpec(ConstantName(entity), CreateTableSqlOf(entity).value)
  {
  }

  /** The constants: one per distinct entity of the `@CreateTable` methods,
      in first-use order, each the entity's `SqlFieldOf`. */
  lemma VisitResultFields(typeElement: TypeElement)
    requires VisitResult(typeElement).Ok?
    ensures var methods := AnnotatedMethods(typeElement, CreateTableClass);
            var entities := Results.MapOrFail(methods, CreateTableEntity).value;
            var distinct := Seqs.Distinct(entities);
            var fields := VisitResult(typeElement).value.0;
            && Seqs.NoDuplicates(distinct)
            && (forall e :: e in distinct <==> e in entities)
            && |fields| == |distinct|
            && (forall k :: 0 <= k < |distinct| ==> SqlFieldOf(distinct[k]) == Ok(fields[k]))
  {
    var methods := AnnotatedMethods(typeElement, CreateTableClass);
    var entities := Results.MapOrFail(methods, CreateTableEntity).value;
    Seqs.DistinctProperties(entities);
    Results.MapOrFailOk(Seqs.Distinct(entities), SqlFieldOf);
  }

  /** Some constant carries the entity's constant name. */
  predicate HasConstant(fields: seq<FieldSpec>, entity: TypeElement) {
    exists k :: 0 <= k < |fields| && fields[k].name == ConstantName(entity)
  }

  /** Every entity's constant is among those made for the distinct
      entities, whatever makes them, as long as each is named after its
      entity. */
  lemma ConstantsCover(entities: seq<TypeElement>, distinct: seq<TypeElement>, fields: seq<FieldSpec>,
                       f: TypeElement -> Result<FieldSpec>)
    requires |fields| == |distinct| && forall e :: e in entities ==> e in distinct
    requires forall k :: 0 <= k < |distinct| ==> f(distinct[k]) == Ok(fields[k])
    requires forall e :: f(e).Ok? ==> f(e).value.name == ConstantName(e)
    ensures forall i :: 0 <= i < |entities| ==> HasConstant(fields, entities[i])
  {
    forall i | 0 <= i < |entities|
      ensures HasConstant(fields, entities[i])
    {
      assert entities[i] in entities;
      assert entities[i] in distinct;
      var k :| 0 <= k < |distinct| && distinct[k] == entities[i];
      assert f(distinct[k]) == Ok(fields[k]);
      assert fields[k].name == ConstantName(entities[i]);
    }
  }

  /** The methods: one per `@CreateTable` method, overriding it and
      executing the constant of its own entity, which is among the
      constants. */
  lemma VisitResultMethods(typeElement: TypeElement)
    requires VisitResult(typeElement).Ok?
    ensures var methods := AnnotatedMethods(typeElement, CreateTableClass);
            var entities := Results.MapOrFail(methods, CreateTableEntity).value;
            var (fields, execs) := VisitResult(typeElement).value;
            && |execs| == |methods|
            && forall i :: 0 <= i < |methods| ==>
                 execs[i].name == methods[i].simpleName
                 && execs[i].body == [AddStatement("db.execSQL($L)", [ConstantName(entities[i])])]
                 && HasConstant(fields, entities[i])
  {
    var methods := AnnotatedMethods(typeElement, CreateTableClass);
    var entities := Results.MapOrFail(methods, CreateTableEntity).value;
    var fields := VisitResult(typeElement).value.0;
    VisitResultFields(typeElement);
    forall e ensures SqlFieldOf(e).Ok? ==> SqlFieldOf(e).value.name == ConstantName(e) {
      SqlFieldOfMeaning(e);
    }
    ConstantsCover(entities, Seqs.Distinct(entities), fields, SqlFieldOf);
  }

  /** `CreateTableVisitor` with the storage interface it reads and the
      shared entity models. */
  class CreateTableVisitor {
    const typeElement: TypeElement
    const dbEntities: DatabaseEntityModelLazyMap.DatabaseEntityModelLazyMap

    constructor (typeElement: TypeElement, dbEntities: DatabaseEntityModelLazyMap.DatabaseEntityModelLazyMap)
      ensures this.typeElement == typeElement && this.dbEntities == dbEntities
    {
      this.typeElement := typeElement;
      this.dbEntities := dbEntities;
    }

    /** `createSqlField`: the entity's statement, read through the shared
        models, as a public constant: the constant `SqlFieldOf`
        specifies. */
    method CreateSqlField(entity: TypeElement) returns (r: Result<FieldSpec>)
      requires dbEntities.Valid()
      modifies dbEntities
      ensures dbEntities.Valid()
      ensures r == SqlFieldOf(entity)
    {
      var model := dbEntities.Get(entity);
      var sql := CreateTableSql(model.databaseTypeElement);
      if sql.Err? {
        return Err(sql.error);
      }
      return Ok(FieldSpec(ConstantName(entity), sql.value));
    }

    /** The constants of `visit`, one per distinct entity in first-use order;
        the first failing statement aborts. */
    method CreateSqlFields(distinct: seq<TypeElement>)
      returns (r: Result<seq<FieldSpec>>)
      requires dbEntities.Valid()
      modifies dbEntities
      ensures dbEntities.Valid()
      ensures r == Results.MapOrFail(distinct, SqlFieldOf)
    {
      var sqlFields: seq<FieldSpec> := [];
      for k := 0 to |distinct|
        invariant dbEntities.Valid()
        invariant Results.MapOrFail(distinct[..k], SqlFieldOf) == Ok(sqlFields)
      {
        var entity := distinct[k];
        Results.MapOrFailStep(distinct, k, SqlFieldOf);
        var field := CreateSqlField(entity);
        if field.Err? {
          Results.MapOrFailPrefixErr(distinct, k + 1, SqlFieldOf);
          return Err(field.error);
        }
        sqlFields := sqlFields + [field.value];
      }
      assert distinct[..|distinct|] == distinct;
      return Ok(sqlFields);
    }

    /** `visit`: on success the builder gains exactly the constants and
        methods of `VisitResult`; on failure it is left unchanged. */
    method Visit(builder: DatabaseStorageBuilder) returns (r: Result<()>)
      requires dbEntities.Valid()
      modifies builder, dbEntities
      ensures dbEntities.Valid()
      ensures r.Ok? <==> VisitResult(typeElement).Ok?
      ensures r.Ok? ==> builder.fields == old(builder.fields) + VisitResult(typeElement).value.0
                        && builder.methods == old(builder.methods) + VisitResult(typeElement).value.1
      ensures r.Err? ==> builder.fields == old(builder.fields) && builder.methods == old(builder.methods)
    {
      var createTableMethods := AnnotatedMethods(typeElement, CreateTableClass);
      var entities :- Results.MapOrFail(createTableMethods, CreateTableEntity);
      var sqlFields :- CreateSqlFields(Seqs.Distinct(entities));
      builder.AddFields(sqlFields);
      builder.AddMethods(ExecMethods(createTableMethods, entities));
      return Ok(());
    }
  }

  // -------------------------------------------------------------- fixture

  const StringClass: TypeElement := TypeElement(TYPE_STRING, "String", [], [], NoType)

  function PublicField(name: string, t: TypeMirror, annotations: seq<Annotation>): Element {
    Element(name, FieldKind, {Public}, t, annotations, [])
  }

  /** The sample entity: `@PrimaryKey String id`, `String message`,
      `int Length`, with the default annotation attributes. */
  function SimpleEntity(): TypeElement {
    TypeElement("net.daverix.slingerorm.sample.SimpleEntity", "SimpleEntity", [DatabaseEntity("", "", [""], NoType)],
                [PublicField("id", DeclaredType(StringClass, []), [PrimaryKey]),
                 PublicField("message", DeclaredType(StringClass, []), []),
                 PublicField("Length", IntType, [])], NoType)
  }

  function IdField(): Element { PublicField("id", DeclaredType(StringClass, []), [PrimaryKey]) }
  function MessageField(): Element { PublicField("message", DeclaredType(StringClass, []), []) }
  function LengthField(): Element { PublicField("Length", IntType, []) }

  /** The sample's columns are its three members, in order. */
  lemma SimpleEntityColumns()
    ensures DatabaseEntityModelKt.Columns(SimpleEntity()) == [IdField(), MessageField(), LengthField()]
  {
    var t := SimpleEntity();
    var members := [IdField(), MessageField(), LengthField()];
    assert ElementExtensions.Chain(t) == members;
    assert members[1..] == [MessageField(), LengthField()] && members[1..][1..] == [LengthField()];
    assert ElementExtensions.Unseen([], {"id", "message", "Length"}) == [];
    assert ElementExtensions.Unseen([LengthField()], {"id", "message"}) == [LengthField()];
    assert ElementExtensions.Unseen([MessageField(), LengthField()], {"id"}) == [MessageField(), LengthField()];
    assert ElementExtensions.Unseen(members, {}) == members;
    assert DatabaseEntityModelKt.IsDatabaseField(IdField());
    assert DatabaseEntityModelKt.IsDatabaseField(MessageField());
    assert DatabaseEntityModelKt.IsDatabaseField(LengthField());
    assert Seqs.Filter([LengthField()], DatabaseEntityModelKt.IsDatabaseField) == [LengthField()];
    assert Seqs.Filter(members[1..], DatabaseEntityModelKt.IsDatabaseField) == members[1..];
    assert Seqs.Filter(members, DatabaseEntityModelKt.IsDatabaseField) == members;
  }

  /** The sample's key names: `id` is marked `@PrimaryKey` and the
      annotation lists no key, so every column is a key. */
  lemma SimpleEntityKeys()
    ensures DatabaseEntityModelKt.PrimaryKeyFieldNames(SimpleEntity()) == Ok(["id", "message", "Length"])
  {
    var t := SimpleEntity();
    var members := [IdField(), MessageField(), LengthField()];
    SimpleEntityMarked();
    DatabaseEntityModelKt.PrimaryKeyFieldsTakesAllColumns(t);
    SimpleEntityColumns();
    SampleDefaultKeys();
    DatabaseEntityModelKt.KeyNamesFromFields(t, members);
    SampleNamesKept();
  }

  /** The default annotation keys leave no key name, and the sample's
      members are named `id`, `message` and `Length`. */
  lemma SampleDefaultKeys()
    ensures DatabaseEntityModelKt.EntityAnnotation(SimpleEntity()) == Some(DatabaseEntity("", "", [""], NoType))
    ensures Seqs.Distinct(Seqs.Filter([""], DatabaseEntityModelKt.NonEmpty)) == []
    ensures DatabaseEntityModelKt.SimpleNames([IdField(), MessageField(), LengthField()]) == ["id", "message", "Length"]
  {
    assert Seqs.Filter([""], DatabaseEntityModelKt.NonEmpty) == [];
  }

  /** The sample's member names are non-empty and distinct, so filtering
      and de-duplicating keeps them all. */
  lemma SampleNamesKept()
    ensures Seqs.Distinct(Seqs.Filter(["id", "message", "Length"], DatabaseEntityModelKt.NonEmpty)) == ["id", "message", "Length"]
  {
    var names := ["id", "message", "Length"];
    assert names[1..] == ["message", "Length"] && names[1..][1..] == ["Length"];
    assert Seqs.Filter(["Length"], DatabaseEntityModelKt.NonEmpty) == ["Length"];
    assert Seqs.Filter(names[1..], DatabaseEntityModelKt.NonEmpty) == names[1..];
    assert Seqs.Filter(names, DatabaseEntityModelKt.NonEmpty) == names;
    assert names[..2] == ["id", "message"] && names[..2][..1] == ["id"] && ["id"][..0] == [];
    assert Seqs.Distinct(["id"]) == ["id"];
    assert Seqs.Distinct(names[..2]) == names[..2];
  }

  /** Only `id` of the sample carries `@PrimaryKey`. */
  lemma SimpleEntityMarked()
    ensures Seqs.Filter(DatabaseEntityModelKt.Columns(SimpleEntity()), DatabaseEntityModelKt.IsPrimaryKeyMarked) == [IdField()]
  {
    SimpleEntityColumns();
    SampleMarks();
    FilterThree(IdField(), MessageField(), LengthField(), DatabaseEntityModelKt.IsPrimaryKeyMarked);
  }

  /** The marker of each sample member. */
  lemma SampleMarks()
    ensures DatabaseEntityModelKt.IsPrimaryKeyMarked(IdField())
    ensures !DatabaseEntityModelKt.IsPrimaryKeyMarked(MessageField())
    ensures !DatabaseEntityModelKt.IsPrimaryKeyMarked(LengthField())
  {
  }

  /** Filtering three elements. */
  lemma FilterThree<T>(a: T, b: T, c: T, p: T -> bool)
    ensures Seqs.Filter([a, b, c], p) == (if p(a) then [a] else []) + (if p(b) then [b] else []) + (if p(c) then [c] else [])
  {
    assert [a, b, c][1..] == [b, c] && [b, c][1..] == [c] && [c][1..] == [];
    assert Seqs.Filter([c], p) == (if p(c) then [c] else []) + [];
    assert Seqs.Filter([b, c], p) == (if p(b) then [b] else []) + Seqs.Filter([c], p);
  }

  /** Column name and SQL type of each sample column. */
  lemma SimpleEntityInfos()
    ensures Results.MapOrFail([IdField(), MessageField(), LengthField()], ColumnInfoOf)
         == Ok([ColumnInfo("id", "TEXT"), ColumnInfo("message", "TEXT"), ColumnInfo("Length", "INTEGER")])
  {
    var members := [IdField(), MessageField(), LengthField()];
    DatabaseEntityModelKt.GetDatabaseTypeProperties(IdField());
    DatabaseEntityModelKt.GetDatabaseTypeProperties(MessageField());
    DatabaseEntityModelKt.GetDatabaseTypeProperties(LengthField());
    assert ColumnInfoOf(IdField()) == Ok(ColumnInfo("id", "TEXT"));
    assert ColumnInfoOf(MessageField()) == Ok(ColumnInfo("message", "TEXT"));
    assert ColumnInfoOf(LengthField()) == Ok(ColumnInfo("Length", "INTEGER"));
    var infos := [ColumnInfo("id", "TEXT"), ColumnInfo("message", "TEXT"), ColumnInfo("Length", "INTEGER")];
    Results.MapOrFailOk(members, ColumnInfoOf);
    assert forall i :: 0 <= i < 3 ==> ColumnInfoOf(members[i]) == Ok(infos[i]);
    assert Results.MapOrFail(members, ColumnInfoOf).value == infos;
  }

  /** The three definitions of the sample as text. */
  lemma SampleDefinitionTexts()
    ensures Definition("id", "TEXT", true, true) == "id TEXT NOT NULL PRIMARY KEY"
    ensures Definition("message", "TEXT", false, true) == "message TEXT"
    ensures Definition("Length", "INTEGER", false, true) == "Length INTEGER"
  {
  }

  /** The three definitions of the sample as text, every column a key. */
  lemma SampleDefinitionTextsAllKeys()
    ensures Definition("id", "TEXT", true, false) == "id TEXT NOT NULL"
    ensures Definition("message", "TEXT", true, false) == "message TEXT NOT NULL"
    ensures Definition("Length", "INTEGER", true, false) == "Length INTEGER NOT NULL"
  {
  }

  /** The sample's column definitions with every column a key: each is
      `NOT NULL`, none carries the inline `PRIMARY KEY`. */
  lemma SimpleEntityDefinitionsAllKeys()
    ensures ColumnDefinitions([IdField(), MessageField(), LengthField()],
                              [ColumnInfo("id", "TEXT"), ColumnInfo("message", "TEXT"), ColumnInfo("Length", "INTEGER")],
                              ["id", "message", "Length"])
         == ["id TEXT NOT NULL", "message TEXT NOT NULL", "Length INTEGER NOT NULL"]
  {
    var members := [IdField(), MessageField(), LengthField()];
    var infos := [ColumnInfo("id", "TEXT"), ColumnInfo("message", "TEXT"), ColumnInfo("Length", "INTEGER")];
    var keys := ["id", "message", "Length"];
    var definitions := ColumnDefinitions(members, infos, keys);
    assert members[0].simpleName in keys && members[1].simpleName in keys && members[2].simpleName in keys;
    assert definitions[0] == Definition("id", "TEXT", true, false);
    assert definitions[1] == Definition("message", "TEXT", true, false);
    assert definitions[2] == Definition("Length", "INTEGER", true, false);
    SampleDefinitionTextsAllKeys();
  }

  /** The sample's column definitions: only `id` is a key, and the only one. */
  lemma SimpleEntityDefinitions()
    ensures ColumnDefinitions([IdField(), MessageField(), LengthField()],
                              [ColumnInfo("id", "TEXT"), ColumnInfo("message", "TEXT"), ColumnInfo("Length", "INTEGER")], ["id"])
         == ["id TEXT NOT NULL PRIMARY KEY", "message TEXT", "Length INTEGER"]
  {
    var members := [IdField(), MessageField(), LengthField()];
    var infos := [ColumnInfo("id", "TEXT"), ColumnInfo("message", "TEXT"), ColumnInfo("Length", "INTEGER")];
    var definitions := ColumnDefinitions(members, infos, ["id"]);
    assert members[0].simpleName in ["id"];
    assert members[1].simpleName !in ["id"] && members[2].simpleName !in ["id"];
    assert definitions[0] == Definition("id", "TEXT", true, true);
    assert definitions[1] == Definition("message", "TEXT", false, true);
    assert definitions[2] == Definition("Length", "INTEGER", false, true);
    SampleDefinitionTexts();
  }

  /** Three parts joined. */
  lemma JoinThree(a: string, b: string, c: string, sep: string)
    ensures Seqs.Join([a, b, c], sep) == a + sep + b + sep + c
  {
    assert [a, b, c][..2] == [a, b] && [a, b][..1] == [a] && [a][..0] == [];
    assert Seqs.Terminated([a], sep) == a + sep;
    assert Seqs.Terminated([a, b], sep) == a + sep + b + sep;
  }

  /** With the intended key `id` alone, the sample's statement text is the
      one the repository's mapping test expects. */
  lemma SimpleEntityText()
    ensures CreateTableText("SimpleEntity", [IdField(), MessageField(), LengthField()],
                            [ColumnInfo("id", "TEXT"), ColumnInfo("message", "TEXT"), ColumnInfo("Length", "INTEGER")], ["id"])
         == CREATE_TABLE_PREFIX + "SimpleEntity" + "("
            + "id TEXT NOT NULL PRIMARY KEY" + ", " + "message TEXT" + ", " + "Length INTEGER" + ")"
  {
    var members := [IdField(), MessageField(), LengthField()];
    var infos := [ColumnInfo("id", "TEXT"), ColumnInfo("message", "TEXT"), ColumnInfo("Length", "INTEGER")];
    SimpleEntityDefinitions();
    JoinThree("id TEXT NOT NULL PRIMARY KEY", "message TEXT", "Length INTEGER", ", ");
    assert KeyClause(["id"], ColumnMap(members, infos, false)) == "";
  }

  /** The intended resolver keeps the sample's marked `id` as its only key
      field, so the key names would be `["id"]` and the statement the one
      above. */
  lemma SimpleEntityIntendedKeys()
    ensures DatabaseEntityModelKt.PrimaryKeyFieldsIntended(SimpleEntity()) == Ok([IdField()])
    ensures DatabaseEntityModelKt.SimpleNames([IdField()]) == ["id"]
  {
    SimpleEntityMarked();
  }

  /** The composite key clause of the sample, every column a key. */
  lemma SimpleEntityKeyClause()
    ensures KeyClause(["id", "message", "Length"],
                      ColumnMap([IdField(), MessageField(), LengthField()],
                                [ColumnInfo("id", "TEXT"), ColumnInfo("message", "TEXT"), ColumnInfo("Length", "INTEGER")], false))
         == ", PRIMARY KEY(id,message,Length)"
  {
    var members := [IdField(), MessageField(), LengthField()];
    var infos := [ColumnInfo("id", "TEXT"), ColumnInfo("message", "TEXT"), ColumnInfo("Length", "INTEGER")];
    var keys := ["id", "message", "Length"];
    var names := ColumnMap(members, infos, false);
    assert DatabaseEntityModelKt.DistinctNames(members);
    ColumnMapLookup(members, infos, false, 0);
    ColumnMapLookup(members, infos, false, 1);
    ColumnMapLookup(members, infos, false, 2);
    assert KeyColumnNames(keys, names) == keys;
    JoinThree("id", "message", "Length", ",");
  }

  /** The sample's statement text with every column a key. */
  lemma SimpleEntityTextAllKeys()
    ensures CreateTableText("SimpleEntity", [IdField(), MessageField(), LengthField()],
                            [ColumnInfo("id", "TEXT"), ColumnInfo("message", "TEXT"), ColumnInfo("Length", "INTEGER")],
                            ["id", "message", "Length"])
         == CREATE_TABLE_PREFIX + "SimpleEntity" + "("
            + "id TEXT NOT NULL" + ", " + "message TEXT NOT NULL" + ", " + "Length INTEGER NOT NULL"
            + ", PRIMARY KEY(id,message,Length)" + ")"
  {
    var members := [IdField(), MessageField(), LengthField()];
    var infos := [ColumnInfo("id", "TEXT"), ColumnInfo("message", "TEXT"), ColumnInfo("Length", "INTEGER")];
    var keys := ["id", "message", "Length"];
    SimpleEntityBodyAllKeys();
    SimpleEntityKeyClause();
    assert CreateTableText("SimpleEntity", members, infos, keys)
        == CREATE_TABLE_PREFIX + "SimpleEntity" + "(" + Seqs.Join(ColumnDefinitions(members, infos, keys), ", ")
           + KeyClause(keys, ColumnMap(members, infos, false)) + ")";
  }

  /** The sample's column definitions joined, every column a key. */
  lemma SimpleEntityBodyAllKeys()
    ensures Seqs.Join(ColumnDefinitions([IdField(), MessageField(), LengthField()],
                                        [ColumnInfo("id", "TEXT"), ColumnInfo("message", "TEXT"), ColumnInfo("Length", "INTEGER")],
                                        ["id", "message", "Length"]), ", ")
         == "id TEXT NOT NULL" + ", " + "message TEXT NOT NULL" + ", " + "Length INTEGER NOT NULL"
  {
    SimpleEntityDefinitionsAllKeys();
    JoinThree("id TEXT NOT NULL", "message TEXT NOT NULL", "Length INTEGER NOT NULL", ", ");
  }

  /** The statement of the sample entity: every column a `NOT NULL` key
      and a composite `PRIMARY KEY` over all three, where the repository's
      mapping test expects `id` alone as the key (see `SimpleEntityText`). */
  lemma SimpleEntityCreateTableSql()
    ensures CreateTableSqlOf(SimpleEntity())
         == Ok(CREATE_TABLE_PREFIX + "SimpleEntity" + "("
               + "id TEXT NOT NULL" + ", " + "message TEXT NOT NULL" + ", " + "Length INTEGER NOT NULL"
               + ", PRIMARY KEY(id,message,Length)" + ")")
  {
    SimpleEntityColumns();
    SimpleEntityKeys();
    SimpleEntityInfos();
    SimpleEntityTextAllKeys();
    assert DatabaseEntityModelKt.TableName(SimpleEntity()) == Ok("SimpleEntity");
  }

  /** The sample's key columns: all three, under their own names. */
  lemma SimpleEntityDbNames()
    ensures DatabaseEntityModelKt.PrimaryKeyDbNames(SimpleEntity()) == Ok(["id", "message", "Length"])
  {
    var t := SimpleEntity();
    var members := [IdField(), MessageField(), LengthField()];
    SimpleEntityMarked();
    DatabaseEntityModelKt.PrimaryKeyFieldsTakesAllColumns(t);
    SimpleEntityColumns();
    assert DatabaseEntityModelKt.PrimaryKeyFields(t) == Ok(members);
    SampleFieldNames();
  }

  /** Each sample column is stored under its own name. */
  lemma SampleFieldNames()
    ensures Results.MapOrFail([IdField(), MessageField(), LengthField()], DatabaseEntityModelKt.GetDatabaseFieldName)
         == Ok(["id", "message", "Length"])
  {
    var members := [IdField(), MessageField(), LengthField()];
    assert DatabaseEntityModelKt.GetDatabaseFieldName(IdField()) == Ok("id");
    assert DatabaseEntityModelKt.GetDatabaseFieldName(MessageField()) == Ok("message");
    assert DatabaseEntityModelKt.GetDatabaseFieldName(LengthField()) == Ok("Length");
    var names := ["id", "message", "Length"];
    Results.MapOrFailOk(members, DatabaseEntityModelKt.GetDatabaseFieldName);
    assert forall i :: 0 <= i < 3 ==> DatabaseEntityModelKt.GetDatabaseFieldName(members[i]) == Ok(names[i]);
    assert Results.MapOrFail(members, DatabaseEntityModelKt.GetDatabaseFieldName).value == names;
  }

  /** Three key columns give three predicates joined by ` AND `. */
  lemma KeyPredicatesThree(a: string, b: string, c: string)
    ensures Seqs.Join(DatabaseEntityModelKt.KeyPredicates([a, b, c]), " AND ")
         == a + " = ?" + " AND " + b + " = ?" + " AND " + c + " = ?"
  {
    assert DatabaseEntityModelKt.KeyPredicates([a, b, c]) == [a + " = ?", b + " = ?", c + " = ?"];
    JoinThree(a + " = ?", b + " = ?", c + " = ?", " AND ");
  }

  /** The sample's single-item predicate: one `= ?` per column, since every
      column is a key. */
  lemma SimpleEntityItemSql()
    ensures DatabaseEntityModelKt.ItemSql(SimpleEntity())
         == Ok("id" + " = ?" + " AND " + "message" + " = ?" + " AND " + "Length" + " = ?")
  {
    var names := ["id", "message", "Length"];
    SimpleEntityDbNames();
    assert DatabaseEntityModelKt.ItemSql(SimpleEntity()) == Ok(Seqs.Join(DatabaseEntityModelKt.KeyPredicates(names), " AND "));
    KeyPredicatesThree("id", "message", "Length");
  }
}

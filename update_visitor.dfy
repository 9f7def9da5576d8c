/** `UpdateVisitor`: one overriding method per `@Update` method of the
    storage interface.  The generated body rejects a null entity, puts
    every column of the entity into a `ContentValues` and updates the row
    its primary key selects.
 */
module UpdateVisitor {
  import opened Wrappers
  import opened Elements
  import Results
  import StringExtensions
  import Model = DatabaseEntityModelKt
  import DatabaseEntityModelLazyMap
  import DatabaseStorageProcessorKt
  import opened StorageBuilder

  const UPDATE: string := "Update"
  const UPDATE_VERB: string := "update"
  const DB_UPDATE: string := "db.update(\""
  const VALUES_WHERE: string := "\", values, \""
  const NEW_STRING_ARRAY: string := "\", new String[] {\n"
  const CLOSE_ARRAY: string := "});\n"

  /** `db.update(table, values, itemSql, new String[] { args })`. */
  function UpdateStatement(table: string, itemSql: string, args: seq<string>): Code {
    AddCode(DB_UPDATE + table + VALUES_WHERE + itemSql + NEW_STRING_ARRAY + ArgumentLines(args) + CLOSE_ARRAY, [])
  }

  /** The body for the model of `entity` and an entity parameter named
      `parameter`.  The getters are read first, then the table name, the
      key predicate and the key arguments. */
  function UpdateBody(entity: TypeElement, parameter: string): Result<seq<Code>> {
    var getters :- Model.GetGetters(entity, parameter);
    var table :- Model.TableName(entity);
    var itemSql :- Model.ItemSql(entity);
    var args :- Model.GetItemSqlArgs(entity, parameter);
    Ok(ValuesBody(parameter, getters, UpdateStatement(table, itemSql, args)))
  }

  /** The overriding method of one `@Update` method. */
  function UpdateMethodOf(m: Element): Result<MethodSpec> {
    var entity :- EntityParameter(m, UPDATE, UPDATE_VERB);
    var body :- UpdateBody(entity, m.parameters[0].simpleName);
    Ok(MethodSpec(m.simpleName, body))
  }

  /** What `visit` adds: the update methods in declaration order, or the
      first failure. */
  function VisitResult(t: TypeElement): Result<seq<MethodSpec>> {
    Results.MapOrFail(AnnotatedMethods(t, UpdateClass), UpdateMethodOf)
  }

  /** The body puts one `"column", getter` pair per column, in column
      order, then updates the entity's table where its key predicate holds,
      with the key arguments; it closes every block it opens. */
  lemma UpdateBodyLayout(entity: TypeElement, parameter: string)
    requires UpdateBody(entity, parameter).Ok?
    ensures var body := UpdateBody(entity, parameter).value;
            var columns := Model.Columns(entity);
            && |body| == |columns| + 5
            && body[3] == DECLARE_VALUES
            && (forall i :: 0 <= i < |columns| ==>
                  && Model.CreateGetter(entity, columns[i], parameter).Ok?
                  && body[4 + i] == AddCode("values.put(" + Model.CreateGetter(entity, columns[i], parameter).value + ");\n", []))
            && Model.TableName(entity).Ok? && Model.ItemSql(entity).Ok? && Model.GetItemSqlArgs(entity, parameter).Ok?
            && body[|body| - 1] == UpdateStatement(Model.TableName(entity).value, Model.ItemSql(entity).value,
                                                   Model.GetItemSqlArgs(entity, parameter).value)
            && Balanced(body)
  {
    Model.GetGettersAligned(entity, parameter);
  }

  /** The key predicate has one `?` per key argument passed (when no key
      column name contains `?`), so every placeholder of the statement
      `UpdateBodyLayout` describes is bound. */
  lemma UpdatePlaceholdersBound(entity: TypeElement, parameter: string)
    requires Model.PrimaryKeyDbNames(entity).Ok? && Model.GetItemSqlArgs(entity, parameter).Ok?
    requires forall n :: n in Model.PrimaryKeyDbNames(entity).value ==> '?' !in n
    ensures StringExtensions.CountSqliteArgs(Model.ItemSql(entity).value) == |Model.GetItemSqlArgs(entity, parameter).value|
  {
    Model.ItemSqlPlaceholders(entity);
    Model.ItemSqlArgsAligned(entity, parameter);
  }

  /** The storage processor accepts an update method with parameters after
      the entity; this visitor rejects it. */
  lemma UpdateStricterThanProcessor(m: Element)
    requires |m.parameters| >= 2 && IsEntityType(m.parameters[0].asType)
    ensures DatabaseStorageProcessorKt.CheckFirstParameterMustBeDatabaseEntity(m).Ok?
    ensures UpdateMethodOf(m).Err? && UpdateMethodOf(m).error.InvalidElement?
  {
  }

  class UpdateVisitor {
    const typeElement: TypeElement
    const dbEntities: DatabaseEntityModelLazyMap.DatabaseEntityModelLazyMap

    constructor (typeElement: TypeElement, dbEntities: DatabaseEntityModelLazyMap.DatabaseEntityModelLazyMap)
      ensures this.typeElement == typeElement && this.dbEntities == dbEntities
    {
      this.typeElement := typeElement;
      this.dbEntities := dbEntities;
    }

    /** The method for one `@Update` method, reading the entity's model
        through the shared models: the method `UpdateMethodOf` specifies. */
    method CreateUpdateMethod(m: Element) returns (r: Result<MethodSpec>)
      requires dbEntities.Valid()
      modifies dbEntities
      ensures dbEntities.Valid()
      ensures r == UpdateMethodOf(m)
    {
      var entity :- EntityParameter(m, UPDATE, UPDATE_VERB);
      var model := dbEntities.Get(entity);
      var body :- UpdateBody(model.databaseTypeElement, m.parameters[0].simpleName);
      return Ok(MethodSpec(m.simpleName, body));
    }

    /** The methods for `updateMethods`, in order; the first failure
        aborts. */
    method CreateUpdateMethods(updateMethods: seq<Element>)
      returns (r: Result<seq<MethodSpec>>)
      requires dbEntities.Valid()
      modifies dbEntities
      ensures dbEntities.Valid()
      ensures r == Results.MapOrFail(updateMethods, UpdateMethodOf)
    {
      var specs: seq<MethodSpec> := [];
      for k := 0 to |updateMethods|
        invariant dbEntities.Valid()
        invariant Results.MapOrFail(updateMethods[..k], UpdateMethodOf) == Ok(specs)
      {
        var m := updateMethods[k];
        Results.MapOrFailStep(updateMethods, k, UpdateMethodOf);
        var created := CreateUpdateMethod(m);
        if created.Err? {
          Results.MapOrFailPrefixErr(updateMethods, k + 1, UpdateMethodOf);
          return Err(created.error);
        }
        specs := specs + [created.value];
      }
      assert updateMethods[..|updateMethods|] == updateMethods;
      return Ok(specs);
    }

    /** `visit`: on success the builder gains exactly the methods of
        `VisitResult`; on failure it is left unchanged. */
    method Visit(builder: DatabaseStorageBuilder) returns (r: Result<()>)
      requires dbEntities.Valid()
      modifies builder, dbEntities
      ensures dbEntities.Valid()
      ensures r.Ok? <==> VisitResult(typeElement).Ok?
      ensures r.Ok? ==> builder.methods == old(builder.methods) + VisitResult(typeElement).value
      ensures builder.fields == old(builder.fields)
      ensures r.Err? ==> builder.methods == old(builder.methods)
    {
      var specs :- CreateUpdateMethods(AnnotatedMethods(typeElement, UpdateClass));
      builder.AddMethods(specs);
      return Ok(());
    }
  }
}

/** `InsertVisitor`: one overriding method per `@Insert` method of the
    storage interface.  The generated body rejects a null entity, puts
    every column of the entity into a `ContentValues` and inserts it into
    the entity's table.
 */
module InsertVisitor {
  import opened Wrappers
  import opened Elements
  import Results
  import Model = DatabaseEntityModelKt
  import DatabaseEntityModelLazyMap
  import DatabaseStorageProcessorKt
  import opened StorageBuilder

  const INSERT: string := "Insert"
  const INSERT_VERB: string := "insert"
  const INSERT_OR_THROW: string := "db.insertOrThrow(\""
  const NULL_VALUES: string := "\", null, values);\n"

  /** The body for the model of `entity` and an entity parameter named
      `parameter`.  The getters are read before the table name. */
  function InsertBody(entity: TypeElement, parameter: string): Result<seq<Code>> {
    var getters :- Model.GetGetters(entity, parameter);
    var table :- Model.TableName(entity);
    Ok(ValuesBody(parameter, getters, AddCode(INSERT_OR_THROW + table + NULL_VALUES, [])))
  }

  /** The overriding method of one `@Insert` method. */
  function InsertMethodOf(m: Element): Result<MethodSpec> {
    var entity :- EntityParameter(m, INSERT, INSERT_VERB);
    var body :- InsertBody(entity, m.parameters[0].simpleName);
    Ok(MethodSpec(m.simpleName, body))
  }

  /** What `visit` adds: the insert methods in declaration order, or the
      first failure. */
  function VisitResult(t: TypeElement): Result<seq<MethodSpec>> {
    Results.MapOrFail(AnnotatedMethods(t, InsertClass), InsertMethodOf)
  }

  /** The body puts one `"column", getter` pair per column, in column
      order, between the null check and the insert into the entity's
      table, and closes every block it opens. */
  lemma InsertBodyLayout(entity: TypeElement, parameter: string)
    requires InsertBody(entity, parameter).Ok?
    ensures var body := InsertBody(entity, parameter).value;
            var columns := Model.Columns(entity);
            && |body| == |columns| + 5
            && body[3] == DECLARE_VALUES
            && (forall i :: 0 <= i < |columns| ==>
                  && Model.CreateGetter(entity, columns[i], parameter).Ok?
                  && body[4 + i] == AddCode("values.put(" + Model.CreateGetter(entity, columns[i], parameter).value + ");\n", []))
            && Model.TableName(entity).Ok?
            && body[|body| - 1] == AddCode(INSERT_OR_THROW + Model.TableName(entity).value + NULL_VALUES, [])
            && Balanced(body)
  {
    Model.GetGettersAligned(entity, parameter);
  }

  /** The visitor accepts exactly the insert signatures the storage
      processor accepts: one parameter, whose class is an entity. */
  lemma InsertAcceptsAsProcessor(m: Element)
    ensures EntityParameter(m, INSERT, INSERT_VERB).Ok? <==>
              DatabaseStorageProcessorKt.CheckFirstParameterMustBeDatabaseEntity(m).Ok?
              && DatabaseStorageProcessorKt.CheckHasOneParameter(m).Ok?
  {
  }

  class InsertVisitor {
    const typeElement: TypeElement
    const dbEntities: DatabaseEntityModelLazyMap.DatabaseEntityModelLazyMap

    constructor (typeElement: TypeElement, dbEntities: DatabaseEntityModelLazyMap.DatabaseEntityModelLazyMap)
      ensures this.typeElement == typeElement && this.dbEntities == dbEntities
    {
      this.typeElement := typeElement;
      this.dbEntities := dbEntities;
    }

    /** The method for one `@Insert` method, reading the entity's model
        through the shared models: the method `InsertMethodOf` specifies. */
    method CreateInsertMethod(m: Element) returns (r: Result<MethodSpec>)
      requires dbEntities.Valid()
      modifies dbEntities
      ensures dbEntities.Valid()
      ensures r == InsertMethodOf(m)
    {
      var entity :- EntityParameter(m, INSERT, INSERT_VERB);
      var model := dbEntities.Get(entity);
      var body :- InsertBody(model.databaseTypeElement, m.parameters[0].simpleName);
      return Ok(MethodSpec(m.simpleName, body));
    }

    /** The methods for `insertMethods`, in order; the first failure
        aborts. */
    method CreateInsertMethods(insertMethods: seq<Element>)
      returns (r: Result<seq<MethodSpec>>)
      requires dbEntities.Valid()
      modifies dbEntities
      ensures dbEntities.Valid()
      ensures r == Results.MapOrFail(insertMethods, InsertMethodOf)
    {
      var specs: seq<MethodSpec> := [];
      for k := 0 to |insertMethods|
        invariant dbEntities.Valid()
        invariant Results.MapOrFail(insertMethods[..k], InsertMethodOf) == Ok(specs)
      {
        var m := insertMethods[k];
        Results.MapOrFailStep(insertMethods, k, InsertMethodOf);
        var created := CreateInsertMethod(m);
        if created.Err? {
          Results.MapOrFailPrefixErr(insertMethods, k + 1, InsertMethodOf);
          return Err(created.error);
        }
        specs := specs + [created.value];
      }
      assert insertMethods[..|insertMethods|] == insertMethods;
      return Ok(specs);
    }

    /** `visit`: on success the builder gains exactly the methods of
        `VisitResult`; on failure it is left unchanged. */
    method Visit(builder: DatabaseStorageBuilder) returns (r: Result<()>)
      requires dbEntities.Valid()
      modifies builder, dbEntities
      ensures dbEntities.Valid()
      ensures r.Ok? <==> VisitResult(typeElement).Ok?
      ensures r.Ok? ==> builder.methods == old(builder.methods) + VisitResult(typeElement).value
      ensures builder.fields == old(builder.fields)
      ensures r.Err? ==> builder.methods == old(builder.methods)
    {
      var specs :- CreateInsertMethods(AnnotatedMethods(typeElement, InsertClass));
      builder.AddMethods(specs);
      return Ok(());
    }
  }
}

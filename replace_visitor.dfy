/** `ReplaceVisitor`: one overriding method per `@Replace` method of the
    storage interface.  The generated body rejects a null entity and
    replaces the entity's row through the `db.edit(table)` chain, one
    `.put` per column.
 */
module ReplaceVisitor {
  import opened Wrappers
  import opened Elements
  import Results
  import Seqs
  import Model = DatabaseEntityModelKt
  import DatabaseEntityModelLazyMap
  import InsertVisitor
  import opened StorageBuilder

  const REPLACE: string := "Replace"
  const REPLACE_VERB: string := "replace"
  const DB_EDIT: string := "db.edit(\""
  const CLOSE_EDIT: string := "\")\n"
  const REPLACE_CALL: Code := AddCode("  .replace();\n", [])

  /** The body for the model of `entity` and an entity parameter named
      `parameter`.  The table name is read before the getters. */
  function ReplaceBody(entity: TypeElement, parameter: string): Result<seq<Code>> {
    var table :- Model.TableName(entity);
    var getters :- Model.GetGetters(entity, parameter);
    Ok([NullCheckStatement(parameter), AddCode(DB_EDIT + table + CLOSE_EDIT, [])] + PutLines(getters, "  .put(", ")\n") + [REPLACE_CALL])
  }

  /** The overriding method of one `@Replace` method. */
  function ReplaceMethodOf(m: Element): Result<MethodSpec> {
    var entity :- EntityParameter(m, REPLACE, REPLACE_VERB);
    var body :- ReplaceBody(entity, m.parameters[0].simpleName);
    Ok(MethodSpec(m.simpleName, body))
  }

  /** What `visit` adds: the replace methods in declaration order, or the
      first failure. */
  function VisitResult(t: TypeElement): Result<seq<MethodSpec>> {
    Results.MapOrFail(AnnotatedMethods(t, ReplaceClass), ReplaceMethodOf)
  }

  /** The body is the null check, the edit of the entity's table, one
      `"column", getter` put per column in column order, and the replace;
      it has no control flow, so it is balanced. */
  lemma ReplaceBodyLayout(entity: TypeElement, parameter: string)
    requires ReplaceBody(entity, parameter).Ok?
    ensures var body := ReplaceBody(entity, parameter).value;
            var columns := Model.Columns(entity);
            && |body| == |columns| + 3
            && body[0] == NullCheckStatement(parameter)
            && Model.TableName(entity).Ok?
            && body[1] == AddCode(DB_EDIT + Model.TableName(entity).value + CLOSE_EDIT, [])
            && (forall i :: 0 <= i < |columns| ==>
                  && Model.CreateGetter(entity, columns[i], parameter).Ok?
                  && body[2 + i] == AddCode("  .put(" + Model.CreateGetter(entity, columns[i], parameter).value + ")\n", []))
            && body[|body| - 1] == REPLACE_CALL
            && Flat(body) && Balanced(body)
  {
    Model.GetGettersAligned(entity, parameter);
    EditChainLayout(parameter, Model.TableName(entity).value, Model.GetGetters(entity, parameter).value);
  }

  /** The layout of the edit chain for a table name and a list of getters. */
  lemma EditChainLayout(parameter: string, table: string, getters: seq<string>)
    ensures var body := [NullCheckStatement(parameter), AddCode(DB_EDIT + table + CLOSE_EDIT, [])]
                        + PutLines(getters, "  .put(", ")\n") + [REPLACE_CALL];
            && |body| == |getters| + 3
            && (forall i :: 0 <= i < |getters| ==> body[2 + i] == AddCode("  .put(" + getters[i] + ")\n", []))
            && body[|body| - 1] == REPLACE_CALL
            && Flat(body) && Balanced(body)
  {
    var head := [NullCheckStatement(parameter), AddCode(DB_EDIT + table + CLOSE_EDIT, [])];
    var puts := PutLines(getters, "  .put(", ")\n");
    assert Flat(head) && Flat([REPLACE_CALL]);
    FlatConcat(head, puts);
    FlatConcat(head + puts, [REPLACE_CALL]);
    FlatBalanced(head + puts + [REPLACE_CALL]);
    Seqs.MiddleIndex(head, puts, [REPLACE_CALL]);
  }

  /** A replace method is generated exactly when an insert method with the
      same signature would be: both need the single entity parameter, the
      entity's table name and its getters. */
  lemma ReplaceAcceptsAsInsert(m: Element)
    ensures ReplaceMethodOf(m).Ok? <==> InsertVisitor.InsertMethodOf(m).Ok?
  {
  }

  class ReplaceVisitor {
    const typeElement: TypeElement
    const dbEntities: DatabaseEntityModelLazyMap.DatabaseEntityModelLazyMap

    constructor (typeElement: TypeElement, dbEntities: DatabaseEntityModelLazyMap.DatabaseEntityModelLazyMap)
      ensures this.typeElement == typeElement && this.dbEntities == dbEntities
    {
      this.typeElement := typeElement;
      this.dbEntities := dbEntities;
    }

    /** The method for one `@Replace` method, reading the entity's model
        through the shared models: the method `ReplaceMethodOf` specifies. */
    method CreateReplaceMethod(m: Element) returns (r: Result<MethodSpec>)
      requires dbEntities.Valid()
      modifies dbEntities
      ensures dbEntities.Valid()
      ensures r == ReplaceMethodOf(m)
    {
      var entity :- EntityParameter(m, REPLACE, REPLACE_VERB);
      var model := dbEntities.Get(entity);
      var body :- ReplaceBody(model.databaseTypeElement, m.parameters[0].simpleName);
      return Ok(MethodSpec(m.simpleName, body));
    }

    /** The methods for `replaceMethods`, in order; the first failure
        aborts. */
    method CreateReplaceMethods(replaceMethods: seq<Element>)
      returns (r: Result<seq<MethodSpec>>)
      requires dbEntities.Valid()
      modifies dbEntities
      ensures dbEntities.Valid()
      ensures r == Results.MapOrFail(replaceMethods, ReplaceMethodOf)
    {
      var specs: seq<MethodSpec> := [];
      for k := 0 to |replaceMethods|
        invariant dbEntities.Valid()
        invariant Results.MapOrFail(replaceMethods[..k], ReplaceMethodOf) == Ok(specs)
      {
        var m := replaceMethods[k];
        Results.MapOrFailStep(replaceMethods, k, ReplaceMethodOf);
        var created := CreateReplaceMethod(m);
        if created.Err? {
          Results.MapOrFailPrefixErr(replaceMethods, k + 1, ReplaceMethodOf);
          return Err(created.error);
        }
        specs := specs + [created.value];
      }
      assert replaceMethods[..|replaceMethods|] == replaceMethods;
      return Ok(specs);
    }

    /** `visit`: on success the builder gains exactly the methods of
        `VisitResult`; on failure it is left unchanged. */
    method Visit(builder: DatabaseStorageBuilder) returns (r: Result<()>)
      requires dbEntities.Valid()
      modifies builder, dbEntities
      ensures dbEntities.Valid()
      ensures r.Ok? <==> VisitResult(typeElement).Ok?
      ensures r.Ok? ==> builder.methods == old(builder.methods) + VisitResult(typeElement).value
      ensures builder.fields == old(builder.fields)
      ensures r.Err? ==> builder.methods == old(builder.methods)
    {
      var specs :- CreateReplaceMethods(AnnotatedMethods(typeElement, ReplaceClass));
      builder.AddMethods(specs);
      return Ok(());
    }
  }
}

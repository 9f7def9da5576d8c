/** `DeleteVisitor`: one overriding method per `@Delete` method of the
    storage interface.  With an entity type named in the annotation the
    method's parameters are the key values, one per key; otherwise its
    single parameter is the entity to delete, and the keys are read from it.
 */
module DeleteVisitor {
  import opened Wrappers
  import opened Elements
  import Seqs
  import Results
  import StringExtensions
  import ElementExtensions
  import Model = DatabaseEntityModelKt
  import DatabaseEntityModelLazyMap
  import DatabaseStorageProcessorKt
  import opened StorageBuilder

  const RETURN_TYPE: string := "Return type "
  const UNSUPPORTED_RETURN: string := " is unsupported, use void or int"
  const RETURN_PREFIX: string := "return "
  const DB_DELETE: string := "db.delete(\""
  const DELETE_SEPARATOR: string := "\",\""
  const NEW_STRING_ARRAY: string := "\", new String[] {\n"
  const CLOSE_ARRAY: Code := AddCode("});\n", [])
  const KEYS_MISMATCH: string := "Parameters does not match the primary keys "
  const KEYS_SEPARATOR: string := ", "
  const IN_TABLE: string := " in "
  const ONLY_ONE_ENTITY: string := "Only one parameter supported when passing a @DatabaseEntity annotated type and not having the Delete annotation set to a specific entity type"
  const LIST_IS_EMPTY: string := "List is empty."
  const THROW_IF_NULL: string := " throw new $T(\""
  const IS_NULL_END: string := " is null\");\n\n"
  const ARRAY_INDENT: string := "  "

  /** `db.delete(table, itemSql, new String[] {`, returning the count when
      the storage method returns `int`. */
  function DeleteCall(prefix: string, table: string, itemSql: string): Code {
    AddCode(prefix + DB_DELETE + table + DELETE_SEPARATOR + itemSql + NEW_STRING_ARRAY, [])
  }

  /** The null check of the entity parameter, as one code line followed by
      an empty line. */
  function NullCheckCode(parameterName: string): Code {
    AddCode(IfNull(parameterName) + THROW_IF_NULL + parameterName + IS_NULL_END, [ILLEGAL_ARGUMENT_EXCEPTION])
  }

  /** The body when the annotation names the entity `target`: as many
      parameters as key names, each rendered as a where argument.  The
      table name in the mismatch message is read after the key names. */
  function DeleteByKeysBody(target: TypeElement, parameters: seq<Element>, prefix: string,
                            render: Element -> string): Result<seq<Code>> {
    var keys :- Model.PrimaryKeyFieldNames(target);
    if |keys| != |parameters| then
      var table :- Model.TableName(target);
      Err(InvalidElement(KEYS_MISMATCH + Seqs.Join(keys, KEYS_SEPARATOR) + IN_TABLE + table))
    else
      var table :- Model.TableName(target);
      var itemSql :- Model.ItemSql(target);
      Ok([DeleteCall(prefix, table, itemSql)] + VariableArrayCode(parameters, ARRAY_INDENT, render) + [CLOSE_ARRAY])
  }

  /** The body when the annotation names no entity: the first parameter's
      class is the entity, and its key getters give the where arguments.
      An entity class allows no further parameter. */
  function DeleteEntityBody(parameters: seq<Element>, prefix: string): Result<seq<Code>> {
    if |parameters| == 0 then Err(NoSuchElement(LIST_IS_EMPTY))
    else
      var first := parameters[0];
      var entity :- ElementExtensions.AsElement(first);
      if HasAnnotation(entity.typeAnnotations, DatabaseEntityClass) && |parameters| != 1 then
        Err(InvalidElement(ONLY_ONE_ENTITY))
      else
        var table :- Model.TableName(entity);
        var itemSql :- Model.ItemSql(entity);
        var args :- Model.GetItemSqlArgs(entity, first.simpleName);
        Ok([NullCheckCode(first.simpleName), DeleteCall(prefix, table, itemSql), AddCode(ArgumentLines(args), []), CLOSE_ARRAY])
  }

  /** The overriding method of one `@Delete` method; `render` gives the
      where-argument expression of a parameter. */
  function DeleteMethodOf(m: Element, render: Element -> string): Result<MethodSpec> {
    if !(m.asType.VoidType? || m.asType.IntType?) then
      Err(InvalidElement(RETURN_TYPE + ElementExtensions.TypeToString(m.asType) + UNSUPPORTED_RETURN))
    else
      var prefix := if m.asType.IntType? then RETURN_PREFIX else "";
      var target :- DatabaseStorageProcessorKt.DeleteTarget(m);
      if target.qualifiedName != DatabaseStorageProcessorKt.JAVA_LANG_OBJECT then
        var body :- DeleteByKeysBody(target, m.parameters, prefix, render);
        Ok(MethodSpec(m.simpleName, body))
      else
        var body :- DeleteEntityBody(m.parameters, prefix);
        Ok(MethodSpec(m.simpleName, body))
  }

  /** `DeleteMethodOf` under one rendering of parameters. */
  function DeleteMethodsOf(render: Element -> string): Element -> Result<MethodSpec> {
    m => DeleteMethodOf(m, render)
  }

  /** What `visit` adds: the delete methods in declaration order, or the
      first failure. */
  function VisitResult(t: TypeElement, render: Element -> string): Result<seq<MethodSpec>> {
    Results.MapOrFail(AnnotatedMethods(t, DeleteClass), DeleteMethodsOf(render))
  }

  /** Only `void` and `int` delete methods are generated; the generated
      call returns the deleted-row count exactly when the method returns
      `int`. */
  lemma DeleteReturnTypes(m: Element, render: Element -> string)
    ensures DeleteMethodOf(m, render).Ok? ==> m.asType.VoidType? || m.asType.IntType?
    ensures !(m.asType.VoidType? || m.asType.IntType?) ==>
              DeleteMethodOf(m, render).Err? && DeleteMethodOf(m, render).error.InvalidElement?
    ensures DeleteMethodOf(m, render).Ok? ==>
              var body := DeleteMethodOf(m, render).value.body;
              var target := DatabaseStorageProcessorKt.DeleteTarget(m).value;
              var prefix := if m.asType.IntType? then RETURN_PREFIX else "";
              && DatabaseStorageProcessorKt.DeleteTarget(m).Ok?
              && (target.qualifiedName != DatabaseStorageProcessorKt.JAVA_LANG_OBJECT ==>
                    body == DeleteByKeysBody(target, m.parameters, prefix, render).value)
              && (target.qualifiedName == DatabaseStorageProcessorKt.JAVA_LANG_OBJECT ==>
                    body == DeleteEntityBody(m.parameters, prefix).value)
  {
  }

  /** With a named entity: the method takes exactly one parameter per key
      name, the call is followed by the parameters' array lines and the
      closing brace, and the body has no control flow. */
  lemma DeleteByKeysLayout(target: TypeElement, parameters: seq<Element>, prefix: string, render: Element -> string)
    requires DeleteByKeysBody(target, parameters, prefix, render).Ok?
    ensures var body := DeleteByKeysBody(target, parameters, prefix, render).value;
            && Model.PrimaryKeyFieldNames(target).Ok?
            && |parameters| == |Model.PrimaryKeyFieldNames(target).value|
            && Model.TableName(target).Ok? && Model.ItemSql(target).Ok?
            && body[0] == DeleteCall(prefix, Model.TableName(target).value, Model.ItemSql(target).value)
            && body[1..|body| - 1] == VariableArrayCode(parameters, ARRAY_INDENT, render)
            && body[|body| - 1] == CLOSE_ARRAY
            && Flat(body) && Balanced(body)
  {
    var body := DeleteByKeysBody(target, parameters, prefix, render).value;
    var middle := VariableArrayCode(parameters, ARRAY_INDENT, render);
    assert body == [body[0]] + middle + [CLOSE_ARRAY];
    assert body[1..|body| - 1] == middle;
    assert Flat(body) by {
      forall i | 0 <= i < |body| ensures body[i].AddCode? || body[i].AddStatement? {
        if 0 < i < |body| - 1 {
          assert body[i] == middle[i - 1];
        }
      }
    }
    FlatBalanced(body);
  }

  /** A key count that differs from the parameter count is rejected. */
  lemma DeleteByKeysMismatch(target: TypeElement, parameters: seq<Element>, prefix: string, render: Element -> string)
    requires Model.PrimaryKeyFieldNames(target).Ok? && Model.TableName(target).Ok?
    requires |Model.PrimaryKeyFieldNames(target).value| != |parameters|
    ensures DeleteByKeysBody(target, parameters, prefix, render)
            == Err(InvalidElement(KEYS_MISMATCH + Seqs.Join(Model.PrimaryKeyFieldNames(target).value, KEYS_SEPARATOR)
                                  + IN_TABLE + Model.TableName(target).value))
  {
  }

  /** The parameters are counted against the key names, while the `?` of
      the key predicate come from the key fields: the two agree only when
      the two key resolvers do. */
  lemma DeleteByKeysPlaceholders(target: TypeElement, parameters: seq<Element>, prefix: string, render: Element -> string)
    requires DeleteByKeysBody(target, parameters, prefix, render).Ok?
    requires forall n :: n in Model.PrimaryKeyDbNames(target).value ==> '?' !in n
    ensures Model.PrimaryKeyFields(target).Ok?
    ensures StringExtensions.CountSqliteArgs(Model.ItemSql(target).value) == |Model.PrimaryKeyFields(target).value|
    ensures |parameters| == |Model.PrimaryKeyFieldNames(target).value|
  {
    Model.ItemSqlPlaceholders(target);
  }

  /** With the entity as parameter: the null check, the call, one argument
      line per key (each `?` of the key predicate bound, when no key column
      name contains `?`) and the closing brace. */
  lemma DeleteEntityLayout(parameters: seq<Element>, prefix: string)
    requires DeleteEntityBody(parameters, prefix).Ok?
    requires forall n :: n in Model.PrimaryKeyDbNames(parameters[0].asType.decl).value ==> '?' !in n
    ensures |parameters| >= 1 && parameters[0].asType.DeclaredType?
    ensures var entity := parameters[0].asType.decl;
            var name := parameters[0].simpleName;
            var body := DeleteEntityBody(parameters, prefix).value;
            && (HasAnnotation(entity.typeAnnotations, DatabaseEntityClass) ==> |parameters| == 1)
            && Model.TableName(entity).Ok? && Model.ItemSql(entity).Ok? && Model.GetItemSqlArgs(entity, name).Ok?
            && body == [NullCheckCode(name), DeleteCall(prefix, Model.TableName(entity).value, Model.ItemSql(entity).value),
                        AddCode(ArgumentLines(Model.GetItemSqlArgs(entity, name).value), []), CLOSE_ARRAY]
            && StringExtensions.CountSqliteArgs(Model.ItemSql(entity).value) == |Model.GetItemSqlArgs(entity, name).value|
  {
    var entity := parameters[0].asType.decl;
    Model.ItemSqlPlaceholders(entity);
    Model.ItemSqlArgsAligned(entity, parameters[0].simpleName);
  }

  class DeleteVisitor {
    const typeElement: TypeElement
    const dbEntities: DatabaseEntityModelLazyMap.DatabaseEntityModelLazyMap
    /** How a parameter becomes a where-argument expression. */
    const render: Element -> string

    constructor (typeElement: TypeElement, dbEntities: DatabaseEntityModelLazyMap.DatabaseEntityModelLazyMap,
                 render: Element -> string)
      ensures this.typeElement == typeElement && this.dbEntities == dbEntities && this.render == render
    {
      this.typeElement := typeElement;
      this.dbEntities := dbEntities;
      this.render := render;
    }

    /** The method for one `@Delete` method, reading the entity's model
        through the shared models: the method `DeleteMethodOf` specifies. */
    method CreateDeleteMethod(m: Element) returns (r: Result<MethodSpec>)
      requires dbEntities.Valid()
      modifies dbEntities
      ensures dbEntities.Valid()
      ensures r == DeleteMethodOf(m, render)
    {
      if !(m.asType.VoidType? || m.asType.IntType?) {
        return Err(InvalidElement(RETURN_TYPE + ElementExtensions.TypeToString(m.asType) + UNSUPPORTED_RETURN));
      }
      var prefix := if m.asType.IntType? then RETURN_PREFIX else "";
      var target :- DatabaseStorageProcessorKt.DeleteTarget(m);
      if target.qualifiedName != DatabaseStorageProcessorKt.JAVA_LANG_OBJECT {
        var model := dbEntities.Get(target);
        var body :- DeleteByKeysBody(model.databaseTypeElement, m.parameters, prefix, render);
        return Ok(MethodSpec(m.simpleName, body));
      }
      if |m.parameters| == 0 {
        return Err(NoSuchElement(LIST_IS_EMPTY));
      }
      var entity :- ElementExtensions.AsElement(m.parameters[0]);
      if HasAnnotation(entity.typeAnnotations, DatabaseEntityClass) && |m.parameters| != 1 {
        return Err(InvalidElement(ONLY_ONE_ENTITY));
      }
      var model := dbEntities.Get(entity);
      var body :- DeleteEntityBody(m.parameters, prefix);
      return Ok(MethodSpec(m.simpleName, body));
    }

    /** The methods for `deleteMethods`, in order; the first failure
        aborts. */
    method CreateDeleteMethods(deleteMethods: seq<Element>)
      returns (r: Result<seq<MethodSpec>>)
      requires dbEntities.Valid()
      modifies dbEntities
      ensures dbEntities.Valid()
      ensures r == Results.MapOrFail(deleteMethods, DeleteMethodsOf(render))
    {
      var specs: seq<MethodSpec> := [];
      for k := 0 to |deleteMethods|
        invariant dbEntities.Valid()
        invariant Results.MapOrFail(deleteMethods[..k], DeleteMethodsOf(render)) == Ok(specs)
      {
        var m := deleteMethods[k];
        Results.MapOrFailStep(deleteMethods, k, DeleteMethodsOf(render));
        var created := CreateDeleteMethod(m);
        if created.Err? {
          Results.MapOrFailPrefixErr(deleteMethods, k + 1, DeleteMethodsOf(render));
          return Err(created.error);
        }
        specs := specs + [created.value];
      }
      assert deleteMethods[..|deleteMethods|] == deleteMethods;
      return Ok(specs);
    }

    /** `visit`: on success the builder gains exactly the methods of
        `VisitResult`; on failure it is left unchanged. */
    method Visit(builder: DatabaseStorageBuilder) returns (r: Result<()>)
      requires dbEntities.Valid()
      modifies builder, dbEntities
      ensures dbEntities.Valid()
      ensures r.Ok? <==> VisitResult(typeElement, render).Ok?
      ensures r.Ok? ==> builder.methods == old(builder.methods) + VisitResult(typeElement, render).value
      ensures builder.fields == old(builder.fields)
      ensures r.Err? ==> builder.methods == old(builder.methods)
    {
      var specs :- CreateDeleteMethods(AnnotatedMethods(typeElement, DeleteClass));
      builder.AddMethods(specs);
      return Ok(());
    }
  }
}

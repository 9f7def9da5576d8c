/** `SelectVisitor`: one overriding method per `@Select` method of the
    storage interface.  A method returning an entity queries the row its
    key predicate selects and reads it into a new entity; one returning a
    `List`, `Collection` or `Iterable` of entities queries with the
    method's `@Where`, `@OrderBy` and `@Limit` and collects every row.  A
    method returning an array is rejected: the entity check is made on the
    array type itself.
 */
module SelectVisitor {
  import opened Wrappers
  import opened Elements
  import Seqs
  import Results
  import ElementExtensions
  import Model = DatabaseEntityModelKt
  import DatabaseEntityModelLazyMap
  import DatabaseStorageProcessorKt
  import opened StorageBuilder

  const RETURN_EITHER: string := "Select methods must return either a collection of entities or a single entity "
  const RETURNED_TYPE: string := "Returned type "
  const WITH_TYPE_ARGUMENT: string := " with type argument "
  const MUST_BE_ENTITY: string := " must be annotated with @DatabaseEntity"
  const ARRAY_NOT_ENTITY: string := "Returned array must contain a type that is annotated with @DatabaseEntity"
  const LIST_IS_EMPTY: string := "List is empty."
  const ARRAY_LIST: string := "java.util.ArrayList"
  const CURSOR_VARIABLE: string := "cursor"
  const PARAMETER_INDENT: string := "    "
  const FIELD_INDENT: string := "    \""
  const FIELD_SEPARATOR: string := ",\n"
  const QUOTE: string := "\""
  const ARG_INDENT: string := "  "
  const ARG_END: string := ",\n"
  const LAST_ARG_END: string := ");\n"
  const TABLE_OPEN: string := "  \""
  const QUOTED_ARG_END: string := "\",\n"
  const LINE_END: string := "\n"
  const ENTITY_DOT: string := "entity."

  const CURSOR_QUERY: Code := AddCode("$T cursor = db.query(false,\n", [CURSOR])
  const OPEN_ARRAY: Code := AddCode("  new String[] {\n", [])
  const CLOSE_ARRAY_ARG: Code := AddCode("  },\n", [])
  const NULL_ARG: Code := AddCode("  null,\n", [])
  const NULL_LAST_ARG: Code := AddCode("  null);\n", [])
  const BLANK_LINE: Code := AddCode("\n", [])
  const NEW_ENTITY: string := "$1T entity = new $1T()"
  const IF_MOVE_TO_FIRST: string := "if(cursor.moveToFirst())"
  const WHILE_MOVE_TO_NEXT: string := "while(cursor.moveToNext())"
  const RETURN_ENTITY: Code := AddStatement("return entity", [])
  const RETURN_NULL: Code := AddStatement("return null", [])
  const ELSE: string := "else"
  const ENTITIES_ADD: Code := AddStatement("entities.add(entity)", [])
  const RETURN_ENTITIES: Code := AddStatement("return entities", [])
  const NEW_ENTITIES: string := "$T entities = new $T()"
  const CLOSE_CURSOR: seq<Code> := [AddStatement("cursor.close()", [])]
  const RETURN_NULL_CODE: Code := AddCode("return null;\n", [])

  // ------------------------------------------------------------- layout

  /** The column names, quoted, one per line, separated by commas. */
  function FieldLines(fieldNames: seq<string>): string {
    Seqs.Join(seq(|fieldNames|, i requires 0 <= i < |fieldNames| => FIELD_INDENT + fieldNames[i] + QUOTE), FIELD_SEPARATOR)
  }

  /** `$T cursor = db.query(false, table, new String[] { columns },`. */
  function QueryHead(table: string, fieldNames: seq<string>): (r: seq<Code>)
    ensures |r| == 5 && Flat(r)
  {
    [CURSOR_QUERY, AddCode(TABLE_OPEN + table + QUOTED_ARG_END, []), OPEN_ARRAY,
     AddCode(FieldLines(fieldNames) + LINE_END, []), CLOSE_ARRAY_ARG]
  }

  /** `entity.<setter>` for each setter, in order. */
  function SetterStatements(setters: seq<string>): (r: seq<Code>)
    ensures |r| == |setters| && Flat(r)
    ensures forall i :: 0 <= i < |setters| ==> r[i] == AddStatement(ENTITY_DOT + setters[i], [])
  {
    seq(|setters|, i requires 0 <= i < |setters| => AddStatement(ENTITY_DOT + setters[i], []))
  }

  /** The try block of a single select: the first row read into a new
      entity and returned, or `null` when there is no row. */
  function ReadFirst(entityType: string, setters: seq<string>): (r: seq<Code>)
    ensures BalancedInBlock(r)
    ensures forall i :: 0 <= i < |setters| ==> AddStatement(ENTITY_DOT + setters[i], []) in r
  {
    var inner := [AddStatement(NEW_ENTITY, [entityType])] + SetterStatements(setters) + [RETURN_ENTITY];
    assert Flat(inner);
    FlatBalanced(inner);
    FlatBalanced([RETURN_NULL]);
    ContinueBalanced(inner, ELSE, [RETURN_NULL]);
    BlockBalanced(IF_MOVE_TO_FIRST, inner + [NextControlFlow(ELSE)] + [RETURN_NULL]);
    var r := [BeginControlFlow(IF_MOVE_TO_FIRST)] + (inner + [NextControlFlow(ELSE)] + [RETURN_NULL]) + [EndControlFlow];
    assert Balanced(r);
    SetterStatementsIn(setters, r, [BeginControlFlow(IF_MOVE_TO_FIRST), AddStatement(NEW_ENTITY, [entityType])],
                       [RETURN_ENTITY, NextControlFlow(ELSE), RETURN_NULL, EndControlFlow]);
    r
  }

  /** The try block of a collection select: every row read into a new
      entity and added to the list, which is returned. */
  function ReadAll(entityType: string, setters: seq<string>): (r: seq<Code>)
    ensures BalancedInBlock(r)
    ensures forall i :: 0 <= i < |setters| ==> AddStatement(ENTITY_DOT + setters[i], []) in r
  {
    var inner := [AddStatement(NEW_ENTITY, [entityType])] + SetterStatements(setters) + [ENTITIES_ADD];
    assert Flat(inner);
    FlatBalanced(inner);
    BlockBalanced(WHILE_MOVE_TO_NEXT, inner);
    FlatBalanced([RETURN_ENTITIES]);
    var loop := [BeginControlFlow(WHILE_MOVE_TO_NEXT)] + inner + [EndControlFlow];
    AppendBalanced(loop, [RETURN_ENTITIES]);
    SetterStatementsIn(setters, loop + [RETURN_ENTITIES], [BeginControlFlow(WHILE_MOVE_TO_NEXT), AddStatement(NEW_ENTITY, [entityType])],
                       [ENTITIES_ADD, EndControlFlow, RETURN_ENTITIES]);
    loop + [RETURN_ENTITIES]
  }

  /** The setter statements sit inside a read block built around them. */
  lemma SetterStatementsIn(setters: seq<string>, read: seq<Code>, before: seq<Code>, after: seq<Code>)
    requires read == before + SetterStatements(setters) + after
    ensures forall i :: 0 <= i < |setters| ==> AddStatement(ENTITY_DOT + setters[i], []) in read
  {
    forall i | 0 <= i < |setters| ensures AddStatement(ENTITY_DOT + setters[i], []) in read {
      assert read[|before| + i] == SetterStatements(setters)[i];
    }
  }

  /** The query head followed by `read` in a `try` whose `finally` closes
      the cursor. */
  function WithCursor(head: seq<Code>, read: seq<Code>): (r: seq<Code>)
    requires Balanced(head) && BalancedInBlock(read)
    ensures Balanced(r) && |r| > |head| && r[..|head|] == head
    ensures forall c :: c in read ==> c in r
  {
    FlatBalanced(CLOSE_CURSOR);
    TryFinallyBalanced(read, CLOSE_CURSOR);
    AppendBalanced(head, TryFinally(read, CLOSE_CURSOR));
    var r := head + TryFinally(read, CLOSE_CURSOR);
    assert r[..|head|] == head;
    assert forall c :: c in read ==> c in TryFinally(read, CLOSE_CURSOR);
    r
  }

  /** The selection arguments: `null` without parameters, otherwise the
      parameters' array. */
  function SelectionArgs(parameters: seq<Element>, render: Element -> string): (r: seq<Code>)
    ensures Flat(r) && |r| > 0
    ensures |parameters| == 0 <==> r[0] == NULL_ARG
  {
    if |parameters| == 0 then [NULL_ARG]
    else
      var r := [OPEN_ARRAY] + VariableArrayCode(parameters, PARAMETER_INDENT, render) + [CLOSE_ARRAY_ARG];
      assert Flat(r) by {
        forall i | 0 <= i < |r| ensures r[i].AddCode? || r[i].AddStatement? {
          if 0 < i < |r| - 1 {
            assert r[i] == VariableArrayCode(parameters, PARAMETER_INDENT, render)[i - 1];
          }
        }
      }
      r
  }

  /** The query head of a single select: table, columns, the key
      predicate and the parameters' array. */
  function KeyQuery(table: string, fieldNames: seq<string>, itemSql: string, parameters: seq<Element>,
                    render: Element -> string): (r: seq<Code>)
    ensures Balanced(r) && |r| > 5 && r[..5] == QueryHead(table, fieldNames)
  {
    var arguments := [AddCode(TABLE_OPEN + itemSql + QUOTED_ARG_END, []), OPEN_ARRAY]
                     + VariableArrayCode(parameters, PARAMETER_INDENT, render)
                     + [CLOSE_ARRAY_ARG, NULL_ARG, NULL_ARG, NULL_ARG, NULL_LAST_ARG, BLANK_LINE];
    assert Flat(arguments) by {
      forall i | 0 <= i < |arguments| ensures arguments[i].AddCode? || arguments[i].AddStatement? {
        if 2 <= i < |arguments| - 6 {
          assert arguments[i] == VariableArrayCode(parameters, PARAMETER_INDENT, render)[i - 2];
        }
      }
    }
    FlatBalanced(QueryHead(table, fieldNames));
    FlatBalanced(arguments);
    AppendBalanced(QueryHead(table, fieldNames), arguments);
    var r := QueryHead(table, fieldNames) + arguments;
    assert r[..5] == QueryHead(table, fieldNames);
    r
  }

  /** The body of a single select of `entity`: the query by key with the
      parameters as arguments, then the first row, the cursor closed in a
      `finally`.  Column names, table name, key predicate and setters are
      read in that order. */
  function SelectSingleBody(entity: TypeElement, parameters: seq<Element>, render: Element -> string): Result<seq<Code>> {
    var fieldNames :- Model.FieldNames(entity);
    var table :- Model.TableName(entity);
    var itemSql :- Model.ItemSql(entity);
    var setters :- Model.GetSetters(entity, CURSOR_VARIABLE);
    Ok(WithCursor(KeyQuery(table, fieldNames, itemSql, parameters, render), ReadFirst(entity.qualifiedName, setters)))
  }

  /** The query clauses of a collection select: `@Where`, the selection
      arguments, `@OrderBy` and `@Limit`, each quoted, or `null` when absent. */
  function ClauseArguments(m: Element, render: Element -> string): (r: seq<Code>)
    ensures Flat(r) && |r| > 2
    ensures r[0] == AddCode(ARG_INDENT + DatabaseStorageProcessorKt.Quoted(DatabaseStorageProcessorKt.ClauseOf(m, WhereClass)) + ARG_END, [])
    ensures r[1] == SelectionArgs(m.parameters, render)[0]
    ensures AddCode(ARG_INDENT + DatabaseStorageProcessorKt.Quoted(DatabaseStorageProcessorKt.ClauseOf(m, OrderByClass)) + ARG_END, []) in r
    ensures AddCode(ARG_INDENT + DatabaseStorageProcessorKt.Quoted(DatabaseStorageProcessorKt.ClauseOf(m, LimitClass)) + LAST_ARG_END, []) in r
  {
    var where := DatabaseStorageProcessorKt.Quoted(DatabaseStorageProcessorKt.ClauseOf(m, WhereClass));
    var orderBy := DatabaseStorageProcessorKt.Quoted(DatabaseStorageProcessorKt.ClauseOf(m, OrderByClass));
    var limit := DatabaseStorageProcessorKt.Quoted(DatabaseStorageProcessorKt.ClauseOf(m, LimitClass));
    var args := SelectionArgs(m.parameters, render);
    var tail := [NULL_ARG, NULL_ARG, AddCode(ARG_INDENT + orderBy + ARG_END, []), AddCode(ARG_INDENT + limit + LAST_ARG_END, []), BLANK_LINE];
    var r := [AddCode(ARG_INDENT + where + ARG_END, [])] + args + tail;
    assert Flat(r) by {
      forall i | 0 <= i < |r| ensures r[i].AddCode? || r[i].AddStatement? {
        if 0 < i <= |args| {
          assert r[i] == args[i - 1];
        }
      }
    }
    assert r[|args| + 3] == tail[2] && r[|args| + 4] == tail[3];
    r
  }

  /** The query head of a collection select: table, columns, the clauses
      and the new `ArrayList`. */
  function ClauseQuery(m: Element, returnType: TypeMirror, entityType: string, table: string, fieldNames: seq<string>,
                       render: Element -> string): (r: seq<Code>)
    ensures Balanced(r) && |r| > 7 && r[..5] == QueryHead(table, fieldNames)
    ensures r[5] == ClauseArguments(m, render)[0] && r[6] == ClauseArguments(m, render)[1]
    ensures forall c :: c in ClauseArguments(m, render) ==> c in r
  {
    var clauses := ClauseArguments(m, render);
    var entities := AddStatement(NEW_ENTITIES, [ElementExtensions.TypeToString(returnType), ARRAY_LIST + "<" + entityType + ">"]);
    var tail := clauses + [entities];
    assert Flat(tail) by {
      forall i | 0 <= i < |tail| ensures tail[i].AddCode? || tail[i].AddStatement? {
        if i < |clauses| {
          assert tail[i] == clauses[i];
        }
      }
    }
    FlatBalanced(QueryHead(table, fieldNames));
    FlatBalanced(tail);
    AppendBalanced(QueryHead(table, fieldNames), tail);
    var r := QueryHead(table, fieldNames) + tail;
    assert r[..5] == QueryHead(table, fieldNames);
    assert r[5] == clauses[0] && r[6] == clauses[1];
    r
  }

  /** The body of a collection select of `entity` declared as
      `returnType`: the query, a new `ArrayList`, then every row, the cursor
      closed in a `finally`.  Column names, table name and setters are read
      in that order. */
  function SelectManyBody(m: Element, returnType: TypeMirror, entity: TypeElement, render: Element -> string): Result<seq<Code>> {
    var fieldNames :- Model.FieldNames(entity);
    var table :- Model.TableName(entity);
    var setters :- Model.GetSetters(entity, CURSOR_VARIABLE);
    Ok(WithCursor(ClauseQuery(m, returnType, entity.qualifiedName, table, fieldNames, render), ReadAll(entity.qualifiedName, setters)))
  }

  // ----------------------------------------------------------- dispatch

  /** An array return: its component must be an entity; the body is a
      stub returning `null`.  `componentType` is the type the check is made
      on. */
  function SelectArrayWith(m: Element, componentType: TypeMirror): Result<MethodSpec> {
    if !componentType.DeclaredType? then Err(InvalidElement(ARRAY_NOT_ENTITY))
    else if !HasAnnotation(componentType.decl.typeAnnotations, DatabaseEntityClass) then Err(InvalidElement(ARRAY_NOT_ENTITY))
    else Ok(MethodSpec(m.simpleName, [RETURN_NULL_CODE]))
  }

  /** `createMethodForArrayType` as written: the checked type is the
      component of the array type whose component is the return type, that
      is the (array) return type itself. */
  function SelectArrayAsWritten(m: Element): Result<MethodSpec> {
    SelectArrayWith(m, ArrayType(m.asType).component)
  }

  /** `createMethodForArrayType` checking the array's own component. */
  function SelectArray(m: Element): Result<MethodSpec>
    requires m.asType.ArrayType?
  {
    SelectArrayWith(m, m.asType.component)
  }

  /** A `List`, `Collection` or `Iterable` return: its first type argument
      must be a declared type. */
  function SelectCollection(m: Element, render: Element -> string): Result<MethodSpec>
    requires m.asType.DeclaredType?
  {
    var returnType := m.asType;
    if |returnType.typeArguments| == 0 then Err(NoSuchElement(LIST_IS_EMPTY))
    else
      var argument := returnType.typeArguments[0];
      if !argument.DeclaredType? then
        Err(InvalidElement(RETURNED_TYPE + ElementExtensions.TypeToString(returnType) + WITH_TYPE_ARGUMENT
                           + ElementExtensions.TypeToString(argument) + MUST_BE_ENTITY))
      else
        var body :- SelectManyBody(m, returnType, argument.decl, render);
        Ok(MethodSpec(m.simpleName, body))
  }

  /** A declared return: a supported collection, else an entity, else
      rejected. */
  function SelectDeclared(m: Element, render: Element -> string): Result<MethodSpec>
    requires m.asType.DeclaredType?
  {
    var returnTypeElement := m.asType.decl;
    if returnTypeElement.qualifiedName in DatabaseStorageProcessorKt.SUPPORTED_RETURN_TYPES_FOR_SELECT then
      SelectCollection(m, render)
    else if HasAnnotation(returnTypeElement.typeAnnotations, DatabaseEntityClass) then
      var body :- SelectSingleBody(returnTypeElement, m.parameters, render);
      Ok(MethodSpec(m.simpleName, body))
    else Err(InvalidElement(RETURN_EITHER + ElementExtensions.TypeToString(m.asType)))
  }

  /** The overriding method of one `@Select` method, by the kind of its
      return type; `render` gives the where-argument expression of a
      parameter. */
  function SelectMethodOf(m: Element, render: Element -> string): Result<MethodSpec> {
    match m.asType
    case ArrayType(_) => SelectArrayAsWritten(m)
    case DeclaredType(_, _) => SelectDeclared(m, render)
    case _ => Err(InvalidElement(RETURN_EITHER + ElementExtensions.TypeToString(m.asType)))
  }

  /** `SelectMethodOf` under one rendering of parameters. */
  function SelectMethodsOf(render: Element -> string): Element -> Result<MethodSpec> {
    m => SelectMethodOf(m, render)
  }

  /** What `visit` adds: the select methods in declaration order, or the
      first failure. */
  function VisitResult(t: TypeElement, render: Element -> string): Result<seq<MethodSpec>> {
    Results.MapOrFail(AnnotatedMethods(t, SelectClass), SelectMethodsOf(render))
  }

  // ------------------------------------------------------------ properties

  /** A select method is generated only for a supported collection of a
      declared type or for an entity; every array return is rejected, even
      an array of entities, and every other return type is rejected as
      invalid. */
  lemma SelectReturnTypes(m: Element, render: Element -> string)
    ensures SelectMethodOf(m, render).Ok? ==>
              || (&& m.asType.DeclaredType?
                  && m.asType.decl.qualifiedName in DatabaseStorageProcessorKt.SUPPORTED_RETURN_TYPES_FOR_SELECT
                  && |m.asType.typeArguments| > 0 && m.asType.typeArguments[0].DeclaredType?)
              || (&& IsEntityType(m.asType)
                  && m.asType.decl.qualifiedName !in DatabaseStorageProcessorKt.SUPPORTED_RETURN_TYPES_FOR_SELECT)
    ensures !m.asType.ArrayType? && !m.asType.DeclaredType? ==>
              SelectMethodOf(m, render).Err? && SelectMethodOf(m, render).error.InvalidElement?
    ensures m.asType.ArrayType? ==> SelectMethodOf(m, render) == Err(InvalidElement(ARRAY_NOT_ENTITY))
  {
  }

  /** The single select: one quoted column name per column, in column
      order; one `entity.<setter>` statement per column, reading cursor
      column `i` into column `i`; every block it opens is closed. */
  lemma SelectSingleLayout(entity: TypeElement, parameters: seq<Element>, render: Element -> string)
    requires SelectSingleBody(entity, parameters, render).Ok?
    ensures var body := SelectSingleBody(entity, parameters, render).value;
            var columns := Model.Columns(entity);
            && Model.FieldNames(entity).Ok? && Model.TableName(entity).Ok?
            && |Model.FieldNames(entity).value| == |columns|
            && body[..5] == QueryHead(Model.TableName(entity).value, Model.FieldNames(entity).value)
            && (forall i :: 0 <= i < |columns| ==>
                  && Model.FindSetter(entity, columns[i], CURSOR_VARIABLE, i).Ok?
                  && AddStatement(ENTITY_DOT + Model.FindSetter(entity, columns[i], CURSOR_VARIABLE, i).value, []) in body)
            && Balanced(body)
  {
    Model.FieldNamesAligned(entity);
    Model.GetSettersAligned(entity, CURSOR_VARIABLE);
    var head := KeyQuery(Model.TableName(entity).value, Model.FieldNames(entity).value, Model.ItemSql(entity).value, parameters, render);
    var body := SelectSingleBody(entity, parameters, render).value;
    assert body[..5] == head[..5] by {
      assert body[..|head|] == head;
    }
  }

  /** The collection select: the `@Where`, `@OrderBy` and `@Limit` values
      appear quoted as the query's clauses (`null` when absent), the
      selection arguments are `null` exactly when the method has no
      parameters, one `entity.<setter>` statement per column is run for
      every row, and every block opened is closed. */
  lemma SelectManyLayout(m: Element, returnType: TypeMirror, entity: TypeElement, render: Element -> string)
    requires SelectManyBody(m, returnType, entity, render).Ok?
    ensures var body := SelectManyBody(m, returnType, entity, render).value;
            var columns := Model.Columns(entity);
            && Model.FieldNames(entity).Ok? && Model.TableName(entity).Ok?
            && body[..5] == QueryHead(Model.TableName(entity).value, Model.FieldNames(entity).value)
            && body[5] == AddCode(ARG_INDENT + DatabaseStorageProcessorKt.Quoted(DatabaseStorageProcessorKt.ClauseOf(m, WhereClass)) + ARG_END, [])
            && (|m.parameters| == 0 <==> body[6] == NULL_ARG)
            && AddCode(ARG_INDENT + DatabaseStorageProcessorKt.Quoted(DatabaseStorageProcessorKt.ClauseOf(m, OrderByClass)) + ARG_END, []) in body
            && AddCode(ARG_INDENT + DatabaseStorageProcessorKt.Quoted(DatabaseStorageProcessorKt.ClauseOf(m, LimitClass)) + LAST_ARG_END, []) in body
            && (forall i :: 0 <= i < |columns| ==>
                  && Model.FindSetter(entity, columns[i], CURSOR_VARIABLE, i).Ok?
                  && AddStatement(ENTITY_DOT + Model.FindSetter(entity, columns[i], CURSOR_VARIABLE, i).value, []) in body)
            && Balanced(body)
  {
    Model.GetSettersAligned(entity, CURSOR_VARIABLE);
    var head := ClauseQuery(m, returnType, entity.qualifiedName, Model.TableName(entity).value, Model.FieldNames(entity).value, render);
    var body := SelectManyBody(m, returnType, entity, render).value;
    assert body[..|head|] == head;
    assert body[..5] == head[..5] && body[5] == head[5] && body[6] == head[6];
    assert forall c :: c in head ==> c in body;
  }

  /** As written, every array return is rejected, including an array of
      entities. */
  lemma SelectArrayAsWrittenRejects(m: Element)
    requires m.asType.ArrayType?
    ensures SelectArrayAsWritten(m) == Err(InvalidElement(ARRAY_NOT_ENTITY))
  {
  }

  /** Checking the component, an array of entities is accepted, and an
      array of anything else is rejected. */
  lemma SelectArrayAccepts(m: Element)
    requires m.asType.ArrayType?
    ensures SelectArray(m).Ok? <==> IsEntityType(m.asType.component)
    ensures IsEntityType(m.asType.component) ==> SelectArray(m).value.body == [RETURN_NULL_CODE]
    ensures IsEntityType(m.asType.component) ==> SelectArrayAsWritten(m) != SelectArray(m)
  {
  }

  class SelectVisitor {
    const typeElement: TypeElement
    const dbEntities: DatabaseEntityModelLazyMap.DatabaseEntityModelLazyMap
    /** How a parameter becomes a where-argument expression. */
    const render: Element -> string

    constructor (typeElement: TypeElement, dbEntities: DatabaseEntityModelLazyMap.DatabaseEntityModelLazyMap,
                 render: Element -> string)
      ensures this.typeElement == typeElement && this.dbEntities == dbEntities && this.render == render
    {
      this.typeElement := typeElement;
      this.dbEntities := dbEntities;
      this.render := render;
    }

    /** The method for one `@Select` method, reading the entity's model
        through the shared models: the method `SelectMethodOf` specifies. */
    method CreateSelectMethod(m: Element) returns (r: Result<MethodSpec>)
      requires dbEntities.Valid()
      modifies dbEntities
      ensures dbEntities.Valid()
      ensures r == SelectMethodOf(m, render)
    {
      var returnType := m.asType;
      if returnType.ArrayType? {
        return SelectArrayAsWritten(m);
      } else if !returnType.DeclaredType? {
        return Err(InvalidElement(RETURN_EITHER + ElementExtensions.TypeToString(returnType)));
      }
      var returnTypeElement := returnType.decl;
      if returnTypeElement.qualifiedName in DatabaseStorageProcessorKt.SUPPORTED_RETURN_TYPES_FOR_SELECT {
        if |returnType.typeArguments| == 0 {
          return Err(NoSuchElement(LIST_IS_EMPTY));
        }
        var argument := returnType.typeArguments[0];
        if !argument.DeclaredType? {
          return SelectCollection(m, render);
        }
        var model := dbEntities.Get(argument.decl);
        var body :- SelectManyBody(m, returnType, model.databaseTypeElement, render);
        return Ok(MethodSpec(m.simpleName, body));
      } else if HasAnnotation(returnTypeElement.typeAnnotations, DatabaseEntityClass) {
        var model := dbEntities.Get(returnTypeElement);
        var body :- SelectSingleBody(model.databaseTypeElement, m.parameters, render);
        return Ok(MethodSpec(m.simpleName, body));
      }
      return Err(InvalidElement(RETURN_EITHER + ElementExtensions.TypeToString(returnType)));
    }

    /** The methods for `selectMethods`, in order; the first failure
        aborts. */
    method CreateSelectMethods(selectMethods: seq<Element>)
      returns (r: Result<seq<MethodSpec>>)
      requires dbEntities.Valid()
      modifies dbEntities
      ensures dbEntities.Valid()
      ensures r == Results.MapOrFail(selectMethods, SelectMethodsOf(render))
    {
      var specs: seq<MethodSpec> := [];
      for k := 0 to |selectMethods|
        invariant dbEntities.Valid()
        invariant Results.MapOrFail(selectMethods[..k], SelectMethodsOf(render)) == Ok(specs)
      {
        var m := selectMethods[k];
        Results.MapOrFailStep(selectMethods, k, SelectMethodsOf(render));
        var created := CreateSelectMethod(m);
        if created.Err? {
          Results.MapOrFailPrefixErr(selectMethods, k + 1, SelectMethodsOf(render));
          return Err(created.error);
        }
        specs := specs + [created.value];
      }
      assert selectMethods[..|selectMethods|] == selectMethods;
      return Ok(specs);
    }

    /** `visit`: on success the builder gains exactly the methods of
        `VisitResult`; on failure it is left unchanged. */
    method Visit(builder: DatabaseStorageBuilder) returns (r: Result<()>)
      requires dbEntities.Valid()
      modifies builder, dbEntities
      ensures dbEntities.Valid()
      ensures r.Ok? <==> VisitResult(typeElement, render).Ok?
      ensures r.Ok? ==> builder.methods == old(builder.methods) + VisitResult(typeElement, render).value
      ensures builder.fields == old(builder.fields)
      ensures r.Err? ==> builder.methods == old(builder.methods)
    {
      var specs :- CreateSelectMethods(AnnotatedMethods(typeElement, SelectClass));
      builder.AddMethods(specs);
      return Ok(());
    }
  }
}

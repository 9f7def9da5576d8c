/** `DatabaseStorageProcessor` (Kotlin generation): turns each method of a
    `@DatabaseStorage` interface into an overriding method that goes through
    the entity's mapper, and lists the mappers the storage class needs.

    Each storage method is first validated and resolved into a
    `StoragePlan` (which mapper, which parameter, which predicate and
    arguments); the plan is then laid out as the builder calls of the
    generated body.
 */
module DatabaseStorageProcessorKt {
  import opened Wrappers
  import opened Elements
  import Seqs
  import Results
  import Decimal
  import StringExtensions
  import ElementExtensions
  import DatabaseEntityModelKt
  import CreateTableVisitor
  import opened StorageBuilder

  const DATA_POINTER: string := "net.daverix.slingerorm.DataPointer"
  const DATA_CONTAINER: string := "net.daverix.slingerorm.DataContainer"
  const JAVA_LANG_OBJECT: string := "java.lang.Object"
  const SUPPORTED_RETURN_TYPES_FOR_SELECT: seq<string> := ["java.util.List", "java.util.Collection", "java.lang.Iterable"]

  // Error messages, as the processor words them.
  const BOTH_ANNOTATED: string := "Method can't be annotated with both @"
  const AND_AT: string := " and @"
  const ONLY_VOID: string := "Only void is supported as return type for this method"
  const EXACTLY_ONE_PARAMETER: string := "method must have exactly one parameters"
  const NO_FIRST_PARAMETER: string := "method must have at least one parameter where the first is a type annotated with @DatabaseEntity"
  const FIRST_PARAMETER_NOT_DECLARED: string := "first parameter must be a declared type annotated with @DatabaseEntity"
  const FIRST_PARAMETER_NOT_ENTITY: string := "first parameter must be annotated with @DatabaseEntity"
  const NOT_A_DECLARED_TYPE: string := "cannot be cast to DeclaredType"
  const NO_DELETE_ANNOTATION: string := "getAnnotation(Delete) returned null"
  const NOT_A_TYPE_ELEMENT: string := "null cannot be cast to TypeElement"
  const DELETE_RETURN_TYPE: string := "Only int and void are supported as return types for Delete annotated methods"
  const DELETE_TARGET_NOT_SET: string := "Where together with Delete requires the type to delete to be set in Delete annotation"
  const WHERE_ARGUMENT_HAS: string := "the sql where argument has "
  const SQL_WHERE: string := "the sql where "
  const HAS: string := " has "
  const ARGUMENTS_METHOD_CONTAINS: string := " arguments, the method contains "
  const PARAMETERS_SHOULD_MATCH: string := " parameters. The number of arguments and parameters should match."
  const METHOD: string := "Method "
  const INDEX_ZERO: string := "Index: 0, Size: 0"

  /** The annotations `checkUniqueAnnotations` looks for.  `@Insert` is not
      among them. */
  const UNIQUE_CHECKED: seq<AnnotationClass> := [InjectClass, ReplaceClass, UpdateClass, DeleteClass, SelectClass, CreateTableClass]

  /** The six annotations that make a storage method, in dispatch order. */
  const STORAGE_ANNOTATIONS: seq<AnnotationClass> := [InsertClass, ReplaceClass, UpdateClass, DeleteClass, SelectClass, CreateTableClass]

  predicate IsAnnotationPresent(m: Element, c: AnnotationClass) {
    HasAnnotation(m.annotations, c)
  }

  /** The annotation's simple name, as `Class.simpleName` gives it. */
  function AnnotationName(c: AnnotationClass): string {
    match c
    case DatabaseEntityClass => "DatabaseEntity"
    case PrimaryKeyClass => "PrimaryKey"
    case FieldNameClass => "FieldName"
    case ColumnNameClass => "ColumnName"
    case IgnoreFieldClass => "IgnoreField"
    case NotDatabaseFieldClass => "NotDatabaseField"
    case GetFieldClass => "GetField"
    case SetFieldClass => "SetField"
    case SerializeToClass => "SerializeTo"
    case SerializerClass => "Serializer"
    case SerializeTypeClass => "SerializeType"
    case DeserializeTypeClass => "DeserializeType"
    case OnUpdateClass => "OnUpdate"
    case OnDeleteClass => "OnDelete"
    case InsertClass => "Insert"
    case ReplaceClass => "Replace"
    case UpdateClass => "Update"
    case DeleteClass => "Delete"
    case SelectClass => "Select"
    case CreateTableClass => "CreateTable"
    case InjectClass => "Inject"
    case WhereClass => "Where"
    case OrderByClass => "OrderBy"
    case LimitClass => "Limit"
    case DatabaseStorageClass => "DatabaseStorage"
  }

  // --------------------------------------------------------------- checks

  function CheckUniqueAnnotation(m: Element, c: AnnotationClass, other: AnnotationClass): (r: Result<()>)
    ensures r.Ok? <==> c == other || !IsAnnotationPresent(m, other)
    ensures r.Err? ==> r.error.InvalidElement?
  {
    Need(c == other || !IsAnnotationPresent(m, other),
         BOTH_ANNOTATED + AnnotationName(c) + AND_AT + AnnotationName(other))
  }

  /** None of `others` other than `c` itself is present. */
  predicate UniqueAmong(m: Element, c: AnnotationClass, others: seq<AnnotationClass>) {
    forall i :: 0 <= i < |others| ==> others[i] == c || !IsAnnotationPresent(m, others[i])
  }

  /** `checkUniqueAnnotation(c, o)` for each `o` of `others`, in order. */
  function CheckUniqueAmong(m: Element, c: AnnotationClass, others: seq<AnnotationClass>): (r: Result<()>)
    ensures r.Ok? <==> UniqueAmong(m, c, others)
    ensures r.Err? ==> r.error.InvalidElement?
  {
    if |others| == 0 then Ok(())
    else
      var u :- CheckUniqueAnnotation(m, c, others[0]);
      var rest := CheckUniqueAmong(m, c, others[1..]);
      assert rest.Ok? <==> UniqueAmong(m, c, others[1..]);
      assert UniqueAmong(m, c, others) <==> (others[0] == c || !IsAnnotationPresent(m, others[0])) && UniqueAmong(m, c, others[1..]) by {
        assert forall i :: 1 <= i < |others| ==> others[i] == others[1..][i - 1];
      }
      rest
  }

  /** `checkUniqueAnnotations(c)`: none of Inject, Replace, Update, Delete,
      Select and CreateTable may accompany `c`, checked in that order. */
  function CheckUniqueAnnotations(m: Element, c: AnnotationClass): (r: Result<()>)
    ensures r.Ok? <==> UniqueAmong(m, c, UNIQUE_CHECKED)
    ensures r.Err? ==> r.error.InvalidElement?
  {
    CheckUniqueAmong(m, c, UNIQUE_CHECKED)
  }

  /** `UniqueAmong` over the checked list, annotation by annotation. */
  lemma UniqueFacts(m: Element, c: AnnotationClass)
    requires UniqueAmong(m, c, UNIQUE_CHECKED)
    ensures c != InjectClass ==> !IsAnnotationPresent(m, InjectClass)
    ensures c != ReplaceClass ==> !IsAnnotationPresent(m, ReplaceClass)
    ensures c != UpdateClass ==> !IsAnnotationPresent(m, UpdateClass)
    ensures c != DeleteClass ==> !IsAnnotationPresent(m, DeleteClass)
    ensures c != SelectClass ==> !IsAnnotationPresent(m, SelectClass)
    ensures c != CreateTableClass ==> !IsAnnotationPresent(m, CreateTableClass)
  {
    assert UNIQUE_CHECKED[0] == InjectClass && UNIQUE_CHECKED[1] == ReplaceClass && UNIQUE_CHECKED[2] == UpdateClass;
    assert UNIQUE_CHECKED[3] == DeleteClass && UNIQUE_CHECKED[4] == SelectClass && UNIQUE_CHECKED[5] == CreateTableClass;
  }

  function CheckHasVoidReturnType(m: Element): (r: Result<()>)
    ensures r.Ok? <==> m.asType.VoidType?
    ensures r.Err? ==> r.error.InvalidElement?
  {
    Need(m.asType.VoidType?, ONLY_VOID)
  }

  function CheckHasOneParameter(m: Element): (r: Result<()>)
    ensures r.Ok? <==> |m.parameters| == 1
  {
    Need(|m.parameters| == 1, EXACTLY_ONE_PARAMETER)
  }

  /** `checkFirstParameterMustBeDatabaseEntity`: a first parameter whose
      declared type carries `@DatabaseEntity`. */
  function CheckFirstParameterMustBeDatabaseEntity(m: Element): (r: Result<()>)
    ensures r.Ok? <==> |m.parameters| >= 1 && IsEntityType(m.parameters[0].asType)
    ensures r.Err? ==> r.error.InvalidElement?
  {
    if |m.parameters| < 1 then
      Err(InvalidElement(NO_FIRST_PARAMETER))
    else if !m.parameters[0].asType.DeclaredType? then
      Err(InvalidElement(FIRST_PARAMETER_NOT_DECLARED))
    else if !HasAnnotation(m.parameters[0].asType.decl.typeAnnotations, DatabaseEntityClass) then
      Err(InvalidElement(FIRST_PARAMETER_NOT_ENTITY))
    else Ok(())
  }

  /** `getDatabaseEntityElementFromFirstParameter`: the class of the first
      parameter; no parameter, or one that is not a declared type, throws. */
  function FirstParameterEntity(m: Element): (r: Result<TypeElement>)
    ensures r.Ok? <==> |m.parameters| >= 1 && m.parameters[0].asType.DeclaredType?
    ensures r.Ok? ==> r.value == m.parameters[0].asType.decl
  {
    if |m.parameters| == 0 then Err(IndexOutOfBounds(INDEX_ZERO))
    else if !m.parameters[0].asType.DeclaredType? then Err(ClassCast(NOT_A_DECLARED_TYPE))
    else Ok(m.parameters[0].asType.decl)
  }

  /** `Delete.getTypeElement()`: the class named by `@Delete`. */
  function DeleteTarget(m: Element): (r: Result<TypeElement>)
    ensures r.Ok? ==> var annotation := GetAnnotation(m.annotations, DeleteClass);
                      && annotation.Some? && annotation.value.Delete? && annotation.value.deleteTarget.DeclaredType?
                      && annotation.value.deleteTarget.decl == r.value
  {
    var annotation := GetAnnotation(m.annotations, DeleteClass);
    if annotation.None? then Err(NullPointer(NO_DELETE_ANNOTATION))
    else match annotation.value
      case Delete(target) =>
        if target.DeclaredType? then Ok(target.decl) else Err(ClassCast(NOT_A_TYPE_ELEMENT))
      case _ => Err(NullPointer(NO_DELETE_ANNOTATION))
  }

  /** The value of `@Where`, `@OrderBy` or `@Limit`, or null. */
  function ClauseOf(m: Element, c: AnnotationClass): (r: Option<string>)
    requires c == WhereClass || c == OrderByClass || c == LimitClass
    ensures r.Some? <==> IsAnnotationPresent(m, c)
  {
    var annotation := GetAnnotation(m.annotations, c);
    if annotation.None? then None
    else Some(annotation.value.value)
  }

  /** `toMapperVariableName`: the simple name with its first character
      lower-cased, then `Mapper`; an empty name throws. */
  function ToMapperVariableName(t: TypeElement): (r: Result<string>)
    ensures r.Ok? <==> |t.simpleName| > 0
    ensures r.Ok? ==> |r.value| == |t.simpleName| + 6 && r.value[0] == ToLower(t.simpleName[0])
                      && r.value[1..|t.simpleName|] == t.simpleName[1..]
                      && r.value[|t.simpleName|..] == "Mapper"
  {
    var name :- StringExtensions.FirstCharLowerCase(t.simpleName);
    Ok(name + "Mapper")
  }

  // ----------------------------------------------------------- where args

  /** One parameter as a `String` argument: a String as is, a boolean as
      `"1"`/`"0"`, anything else through `String.valueOf`. */
  function WhereArg(p: Element): (r: string)
    ensures !p.asType.BooleanType? ==>
              r == StringExtensions.EncloseStringValueOfIfNotString(p.simpleName, ElementExtensions.IsString(p))
    ensures p.asType.BooleanType? ==> r == p.simpleName + " ? \"1\" : \"0\""
  {
    if ElementExtensions.IsString(p) then p.simpleName
    else if p.asType.BooleanType? then p.simpleName + " ? \"1\" : \"0\""
    else "String.valueOf(" + p.simpleName + ")"
  }

  function WhereArgs(parameters: seq<Element>): (r: seq<string>)
    ensures |r| == |parameters| && forall i :: 0 <= i < |parameters| ==> r[i] == WhereArg(parameters[i])
  {
    seq(|parameters|, i requires 0 <= i < |parameters| => WhereArg(parameters[i]))
  }

  /** `getWhereArgs`: the argument array of a query or delete. */
  function GetWhereArgs(parameters: seq<Element>): string {
    var args := Seqs.Join(WhereArgs(parameters), ", ");
    if args == "" then "null" else "new String[]{" + args + "}"
  }

  /** No parameter gives `null`; parameters with names give an array
      holding each parameter's argument, in parameter order. */
  lemma GetWhereArgsShape(parameters: seq<Element>)
    ensures |parameters| == 0 ==> GetWhereArgs(parameters) == "null"
    ensures (|parameters| > 0 && forall i :: 0 <= i < |parameters| ==> parameters[i].simpleName != "") ==>
              GetWhereArgs(parameters) == "new String[]{" + Seqs.Join(WhereArgs(parameters), ", ") + "}"
  {
    var args := WhereArgs(parameters);
    if |parameters| > 0 && forall i :: 0 <= i < |parameters| ==> parameters[i].simpleName != "" {
      var last := args[|args| - 1];
      assert |last| > 0;
      assert Seqs.Join(args, ", ") == Seqs.Terminated(args[..|args| - 1], ", ") + last;
    }
  }

  /** The argument of a single String parameter is its bare name. */
  lemma GetWhereArgsOneString(p: Element)
    requires ElementExtensions.IsString(p) && p.simpleName != ""
    ensures GetWhereArgs([p]) == "new String[]{" + p.simpleName + "}"
  {
    Seqs.JoinOne(p.simpleName, ", ");
  }

  // ---------------------------------------------------------------- plans

  /** What a storage method resolves to.  `returnsValue` says whether the
      result of the database call is returned (a non-void method). */
  datatype StoragePlan =
    | InsertPlan(mapper: string, parameter: string, returnsValue: bool)
    | ReplacePlan(mapper: string, parameter: string, returnsValue: bool)
    | UpdatePlan(mapper: string, parameter: string, returnsValue: bool)
    | DeleteSinglePlan(mapper: string, parameter: string, returnsValue: bool)
    | DeleteWherePlan(mapper: string, where: string, whereArgs: string, returnsValue: bool)
    | SelectSinglePlan(mapper: string, where: string, whereArgs: string)
    | SelectManyPlan(mapper: string, selectWhere: Option<string>, whereArgs: string,
                     orderBy: Option<string>, limit: Option<string>)
    | CreateTablePlan(mapper: string)

  function ReturnsValue(m: Element): bool {
    !m.asType.VoidType?
  }

  /** The checks shared by insert, replace and update, then the mapper of
      the entity parameter; `exactlyOne` adds `checkHasOneParameter`. */
  function ChangeMapperOf(m: Element, c: AnnotationClass, exactlyOne: bool): (r: Result<string>)
    ensures r.Ok? <==> && UniqueAmong(m, c, UNIQUE_CHECKED)
                       && |m.parameters| >= 1 && IsEntityType(m.parameters[0].asType)
                       && (exactlyOne ==> |m.parameters| == 1)
                       && |m.parameters[0].asType.decl.simpleName| > 0
    ensures r.Ok? ==> ToMapperVariableName(m.parameters[0].asType.decl) == r
  {
    var u1 :- CheckUniqueAnnotations(m, c);
    var u2 :- CheckFirstParameterMustBeDatabaseEntity(m);
    var u3 :- if exactlyOne then CheckHasOneParameter(m) else Ok(());
    var entity := m.parameters[0].asType.decl;
    ToMapperVariableName(entity)
  }

  /** `createInsertMethod`'s checks and names. */
  function InsertPlanOf(m: Element): (r: Result<StoragePlan>)
    ensures r.Ok? ==> PlanClass(r.value) == InsertClass
    ensures r.Ok? <==> ChangeMapperOf(m, InsertClass, true).Ok?
    ensures r.Ok? ==> r.value == InsertPlan(ChangeMapperOf(m, InsertClass, true).value, m.parameters[0].simpleName, ReturnsValue(m))
  {
    var mapper :- ChangeMapperOf(m, InsertClass, true);
    Ok(InsertPlan(mapper, m.parameters[0].simpleName, ReturnsValue(m)))
  }

  /** `createReplaceMethod`'s checks and names. */
  function ReplacePlanOf(m: Element): (r: Result<StoragePlan>)
    ensures r.Ok? ==> PlanClass(r.value) == ReplaceClass
    ensures r.Ok? <==> ChangeMapperOf(m, ReplaceClass, true).Ok?
    ensures r.Ok? ==> r.value == ReplacePlan(ChangeMapperOf(m, ReplaceClass, true).value, m.parameters[0].simpleName, ReturnsValue(m))
  {
    var mapper :- ChangeMapperOf(m, ReplaceClass, true);
    Ok(ReplacePlan(mapper, m.parameters[0].simpleName, ReturnsValue(m)))
  }

  /** `createUpdateMethod`'s checks and names: no parameter count check. */
  function UpdatePlanOf(m: Element): (r: Result<StoragePlan>)
    ensures r.Ok? ==> PlanClass(r.value) == UpdateClass
    ensures r.Ok? <==> ChangeMapperOf(m, UpdateClass, false).Ok?
    ensures r.Ok? ==> r.value == UpdatePlan(ChangeMapperOf(m, UpdateClass, false).value, m.parameters[0].simpleName, ReturnsValue(m))
  {
    var mapper :- ChangeMapperOf(m, UpdateClass, false);
    Ok(UpdatePlan(mapper, m.parameters[0].simpleName, ReturnsValue(m)))
  }

  /** `createDeleteMethod`: an int or void return (`return` emitted iff
      int); without `@Where` the entity parameter is deleted by its key;
      with `@Where` the class named by `@Delete`, which must not be
      `Object`, is deleted by the clause, which has one `?` per parameter. */
  function DeletePlanOf(m: Element): (r: Result<StoragePlan>)
    ensures r.Ok? ==> && PlanClass(r.value) == DeleteClass
                      && UniqueAmong(m, DeleteClass, UNIQUE_CHECKED)
                      && (m.asType.IntType? || m.asType.VoidType?)
                      && (r.value.returnsValue <==> m.asType.IntType?)
                      && (r.value.DeleteSinglePlan? <==> !IsAnnotationPresent(m, WhereClass))
    ensures r.Ok? && r.value.DeleteSinglePlan? ==>
              && |m.parameters| >= 1 && IsEntityType(m.parameters[0].asType)
              && r.value.parameter == m.parameters[0].simpleName
              && ToMapperVariableName(m.parameters[0].asType.decl) == Ok(r.value.mapper)
    ensures r.Ok? && r.value.DeleteWherePlan? ==>
              && DeleteTarget(m).Ok? && DeleteTarget(m).value.qualifiedName != JAVA_LANG_OBJECT
              && ToMapperVariableName(DeleteTarget(m).value) == Ok(r.value.mapper)
              && ClauseOf(m, WhereClass) == Some(r.value.where)
              && StringExtensions.CountSqliteArgs(r.value.where) == |m.parameters|
              && r.value.whereArgs == GetWhereArgs(m.parameters)
    ensures UniqueAmong(m, DeleteClass, UNIQUE_CHECKED) && !(m.asType.IntType? || m.asType.VoidType?) ==>
              r.Err? && r.error.InvalidElement?
  {
    var u1 :- CheckUniqueAnnotations(m, DeleteClass);
    if !(m.asType.IntType? || m.asType.VoidType?) then
      Err(InvalidElement(DELETE_RETURN_TYPE))
    else
      var where := ClauseOf(m, WhereClass);
      if where.None? then
        var u2 :- CheckFirstParameterMustBeDatabaseEntity(m);
        var entity := m.parameters[0].asType.decl;
        var mapper :- ToMapperVariableName(entity);
        Ok(DeleteSinglePlan(mapper, m.parameters[0].simpleName, ReturnsValue(m)))
      else
        var target :- DeleteTarget(m);
        if target.qualifiedName == JAVA_LANG_OBJECT then
          Err(InvalidElement(DELETE_TARGET_NOT_SET))
        else
          var count := StringExtensions.CountSqliteArgs(where.value);
          if count != |m.parameters| then
            Err(InvalidElement(WHERE_ARGUMENT_HAS + Decimal.NatToString(count) + ARGUMENTS_METHOD_CONTAINS + Decimal.NatToString(|m.parameters|)))
          else
            var whereArgs := GetWhereArgs(m.parameters);
            var mapper :- ToMapperVariableName(target);
            Ok(DeleteWherePlan(mapper, where.value, whereArgs, ReturnsValue(m)))
  }

  /** `String.format` applied to a `@Where` text that the select mismatch
      message splices into its format string.  `%%` stands for `%` and
      `%n` for a line break.  Any other `%` starts a conversion that is
      unknown or takes one of the two numbers meant for the message's own
      `%d`s, so the formatter throws: `None`. */
  function FormatEmbedded(s: string): (r: Option<string>)
    ensures '%' !in s ==> r == Some(s)
    ensures r.Some? ==> |r.value| <= |s|
    ensures r.Some? && '%' in s ==> |r.value| < |s|
    decreases |s|
  {
    if |s| == 0 then Some(s)
    else if s[0] != '%' then
      match FormatEmbedded(s[1..])
      case None => None
      case Some(rest) =>
        assert s == [s[0]] + s[1..];
        Some([s[0]] + rest)
    else if |s| >= 2 && (s[1] == '%' || s[1] == 'n') then
      match FormatEmbedded(s[2..])
      case None => None
      case Some(rest) => Some((if s[1] == '%' then ['%'] else ['\n']) + rest)
    else None
  }

  /** Doubling every `%` of a text escapes it for the formatter. */
  function EscapeFormat(t: string): (r: string)
    ensures |r| == |t| + multiset(t)['%']
  {
    if |t| == 0 then t
    else
      assert t == [t[0]] + t[1..];
      (if t[0] == '%' then "%%" else [t[0]]) + EscapeFormat(t[1..])
  }

  /** The formatter gives back exactly the text that was escaped. */
  lemma {:induction false} FormatEmbeddedEscape(t: string)
    ensures FormatEmbedded(EscapeFormat(t)) == Some(t)
  {
    if |t| > 0 {
      FormatEmbeddedEscape(t[1..]);
      var e := EscapeFormat(t);
      var tail := EscapeFormat(t[1..]);
      if t[0] == '%' {
        assert e == "%%" + tail;
        assert e[2..] == tail;
      } else {
        assert e == [t[0]] + tail;
        assert e[1..] == tail;
      }
      assert t == [t[0]] + t[1..];
    }
  }

  /** Text without `%` passes through the formatter unchanged, whatever
      follows it. */
  lemma {:induction false} FormatEmbeddedPlainPrefix(p: string, q: string)
    requires '%' !in p
    ensures FormatEmbedded(p + q) == if FormatEmbedded(q).None? then None else Some(p + FormatEmbedded(q).value)
  {
    if |p| > 0 {
      assert (p + q)[1..] == p[1..] + q;
      assert (p + q)[0] == p[0];
      FormatEmbeddedPlainPrefix(p[1..], q);
      if FormatEmbedded(q).Some? {
        var x := FormatEmbedded(q).value;
        assert FormatEmbedded(p + q) == Some([p[0]] + (p[1..] + x));
        assert [p[0]] + (p[1..] + x) == p + x;
      }
    } else {
      assert p + q == q;
      if FormatEmbedded(q).Some? {
        assert p + FormatEmbedded(q).value == FormatEmbedded(q).value;
      }
    }
  }

  /** A `%` after plain text that is followed by neither `%` nor `n`
      makes the formatter throw: in `name LIKE '%x%' AND id = ?`, `%x`
      takes a number meant for the message and `%'` is unknown. */
  lemma FormatEmbeddedConversion(p: string, c: char, q: string)
    requires '%' !in p && c != '%' && c != 'n'
    ensures FormatEmbedded(p + ['%', c] + q) == None
  {
    var rest := ['%', c] + q;
    assert rest[0] == '%' && rest[1] == c;
    assert FormatEmbedded(rest) == None;
    FormatEmbeddedPlainPrefix(p, rest);
    assert p + ['%', c] + q == p + rest;
  }

  /** An escaped `%%` comes out as one `%`. */
  lemma FormatEmbeddedEscapedPercent()
    ensures FormatEmbedded("rate = 100%%") == Some("rate = 100%")
  {
    var escaped := "%%";
    assert escaped[0] == '%' && escaped[1] == '%' && escaped[2..] == "";
    assert FormatEmbedded(escaped[2..]) == Some("");
    assert ['%'] + "" == "%";
    var rate := "rate = 100";
    assert '%' !in rate;
    FormatEmbeddedPlainPrefix(rate, escaped);
    assert rate + escaped == "rate = 100%%";
    assert rate + "%" == "rate = 100%";
  }

  const SELECT_RETURN_MESSAGE: string :=
    " must return a type annotated with @DatabaseEntity or a list of a type annotated with @DatabaseEntity"

  /** `createSelectMethod`: a declared return type; a `@Where` clause with
      as many `?` as the method has parameters; an entity return selects
      one row, by the clause or else by the entity's key; otherwise a
      `List`, `Collection` or `Iterable` return selects many rows of its
      first type argument. */
  function SelectPlanOf(m: Element): (r: Result<StoragePlan>)
    ensures r.Ok? ==> && PlanClass(r.value) == SelectClass
                      && UniqueAmong(m, SelectClass, UNIQUE_CHECKED)
                      && m.asType.DeclaredType?
                      && (IsAnnotationPresent(m, WhereClass) ==>
                            StringExtensions.CountSqliteArgs(ClauseOf(m, WhereClass).value) == |m.parameters|)
                      && r.value.whereArgs == GetWhereArgs(m.parameters)
                      && (r.value.SelectSinglePlan? <==> IsEntityType(m.asType))
    ensures r.Ok? && r.value.SelectSinglePlan? ==>
              && ToMapperVariableName(m.asType.decl) == Ok(r.value.mapper)
              && (IsAnnotationPresent(m, WhereClass) ==> ClauseOf(m, WhereClass) == Some(r.value.where))
              && (!IsAnnotationPresent(m, WhereClass) ==> DatabaseEntityModelKt.ItemSql(m.asType.decl) == Ok(r.value.where))
    ensures r.Ok? && r.value.SelectManyPlan? ==>
              && m.asType.decl.qualifiedName in SUPPORTED_RETURN_TYPES_FOR_SELECT
              && |m.asType.typeArguments| > 0 && m.asType.typeArguments[0].DeclaredType?
              && ToMapperVariableName(m.asType.typeArguments[0].decl) == Ok(r.value.mapper)
              && r.value.selectWhere == ClauseOf(m, WhereClass)
              && r.value.orderBy == ClauseOf(m, OrderByClass) && r.value.limit == ClauseOf(m, LimitClass)
    ensures UniqueAmong(m, SelectClass, UNIQUE_CHECKED) && !m.asType.DeclaredType? ==> r.Err? && r.error.InvalidElement?
    ensures UniqueAmong(m, SelectClass, UNIQUE_CHECKED) && m.asType.DeclaredType? && IsAnnotationPresent(m, WhereClass)
            && StringExtensions.CountSqliteArgs(ClauseOf(m, WhereClass).value) != |m.parameters| ==>
              && r.Err?
              && (r.error.IllegalFormat? <==> FormatEmbedded(ClauseOf(m, WhereClass).value).None?)
              && (FormatEmbedded(ClauseOf(m, WhereClass).value).Some? ==>
                    r.error == InvalidElement(SQL_WHERE + FormatEmbedded(ClauseOf(m, WhereClass).value).value + HAS
                                              + Decimal.NatToString(StringExtensions.CountSqliteArgs(ClauseOf(m, WhereClass).value))
                                              + ARGUMENTS_METHOD_CONTAINS + Decimal.NatToString(|m.parameters|)
                                              + PARAMETERS_SHOULD_MATCH))
  {
    var u1 :- CheckUniqueAnnotations(m, SelectClass);
    var where := ClauseOf(m, WhereClass);
    var orderBy := ClauseOf(m, OrderByClass);
    var limit := ClauseOf(m, LimitClass);
    if !m.asType.DeclaredType? then Err(InvalidElement(METHOD + m.simpleName + SELECT_RETURN_MESSAGE))
    else if where.Some? && StringExtensions.CountSqliteArgs(where.value) != |m.parameters| then
      match FormatEmbedded(where.value)
      case None =>
        Err(IllegalFormat(SQL_WHERE + where.value + HAS + "%d" + ARGUMENTS_METHOD_CONTAINS + "%d" + PARAMETERS_SHOULD_MATCH))
      case Some(text) =>
        Err(InvalidElement(SQL_WHERE + text + HAS + Decimal.NatToString(StringExtensions.CountSqliteArgs(where.value))
                           + ARGUMENTS_METHOD_CONTAINS + Decimal.NatToString(|m.parameters|) + PARAMETERS_SHOULD_MATCH))
    else
      SelectByReturnType(m.simpleName, m.asType, where, GetWhereArgs(m.parameters), orderBy, limit)
  }

  /** The second half of `createSelectMethod`: what is selected follows
      from the declared return type. */
  function SelectByReturnType(name: string, returnType: TypeMirror, where: Option<string>, whereArgs: string,
                              orderBy: Option<string>, limit: Option<string>): (r: Result<StoragePlan>)
    requires returnType.DeclaredType?
    ensures r.Ok? ==> && PlanClass(r.value) == SelectClass
                      && r.value.whereArgs == whereArgs
                      && (r.value.SelectSinglePlan? <==> IsEntityType(returnType))
    ensures r.Ok? && r.value.SelectSinglePlan? ==>
              && ToMapperVariableName(returnType.decl) == Ok(r.value.mapper)
              && (where.Some? ==> r.value.where == where.value)
              && (where.None? ==> DatabaseEntityModelKt.ItemSql(returnType.decl) == Ok(r.value.where))
    ensures r.Ok? && r.value.SelectManyPlan? ==>
              && returnType.decl.qualifiedName in SUPPORTED_RETURN_TYPES_FOR_SELECT
              && |returnType.typeArguments| > 0 && returnType.typeArguments[0].DeclaredType?
              && ToMapperVariableName(returnType.typeArguments[0].decl) == Ok(r.value.mapper)
              && r.value.selectWhere == where && r.value.orderBy == orderBy && r.value.limit == limit
  {
    var returnTypeElement := returnType.decl;
    if HasAnnotation(returnTypeElement.typeAnnotations, DatabaseEntityClass) then
      var mapper :- ToMapperVariableName(returnTypeElement);
      var clause :- if where.Some? then Ok(where.value) else DatabaseEntityModelKt.ItemSql(returnTypeElement);
      Ok(SelectSinglePlan(mapper, clause, whereArgs))
    else if returnTypeElement.qualifiedName in SUPPORTED_RETURN_TYPES_FOR_SELECT then
      if |returnType.typeArguments| == 0 then Err(IndexOutOfBounds(INDEX_ZERO))
      else if !returnType.typeArguments[0].DeclaredType? then Err(ClassCast(NOT_A_DECLARED_TYPE))
      else
        var mapper :- ToMapperVariableName(returnType.typeArguments[0].decl);
        Ok(SelectManyPlan(mapper, where, whereArgs, orderBy, limit))
    else Err(InvalidElement(METHOD + name + SELECT_RETURN_MESSAGE))
  }

  /** `createCreateTableMethod`: a void method naming its entity. */
  function CreateTablePlanOf(m: Element): (r: Result<StoragePlan>)
    ensures r.Ok? ==> && PlanClass(r.value) == CreateTableClass
                      && UniqueAmong(m, CreateTableClass, UNIQUE_CHECKED)
                      && m.asType.VoidType?
                      && CreateTableVisitor.CreateTableEntity(m).Ok?
                      && ToMapperVariableName(CreateTableVisitor.CreateTableEntity(m).value) == Ok(r.value.mapper)
    ensures UniqueAmong(m, CreateTableClass, UNIQUE_CHECKED) && !m.asType.VoidType? ==> r.Err? && r.error.InvalidElement?
  {
    var u1 :- CheckUniqueAnnotations(m, CreateTableClass);
    var u2 :- CheckHasVoidReturnType(m);
    var entity :- CreateTableVisitor.CreateTableEntity(m);
    var mapper :- ToMapperVariableName(entity);
    Ok(CreateTablePlan(mapper))
  }

  const NOT_A_STORAGE_METHOD: string :=
    " must be annotated with either @CreateTable, @Insert, @Replace, @Update, @Delete or @Select"

  /** `createStorageMethod`'s dispatch: Insert, Replace, Update, Delete,
      Select, CreateTable, in that order; anything else is rejected. */
  function StoragePlanOf(m: Element): Result<StoragePlan> {
    if IsAnnotationPresent(m, InsertClass) then InsertPlanOf(m)
    else if IsAnnotationPresent(m, ReplaceClass) then ReplacePlanOf(m)
    else if IsAnnotationPresent(m, UpdateClass) then UpdatePlanOf(m)
    else if IsAnnotationPresent(m, DeleteClass) then DeletePlanOf(m)
    else if IsAnnotationPresent(m, SelectClass) then SelectPlanOf(m)
    else if IsAnnotationPresent(m, CreateTableClass) then CreateTablePlanOf(m)
    else Err(InvalidElement(METHOD + m.simpleName + NOT_A_STORAGE_METHOD))
  }

  // -------------------------------------------------------------- bodies

  function ReturnPrefix(returnsValue: bool): string {
    if returnsValue then "return " else ""
  }

  /** Insert, replace and update: the entity's values go into a container
      opened on the mapper's table, and `action` ends the statement. */
  function ContainerBody(mapper: string, parameter: string, returnsValue: bool, action: string): seq<Code> {
    [NullCheckStatement(parameter),
     AddCode("\n", []),
     AddStatement("$T container = db.edit(" + mapper + ".getTableName())", [DATA_CONTAINER]),
     AddStatement(mapper + ".mapValues(" + parameter + ", container)", []),
     AddStatement(ReturnPrefix(returnsValue) + "container." + action, [])]
  }

  /** The query: the mapper's table and columns, the predicate and its
      arguments, then group by, having, order by and limit. */
  function QueryCode(mapper: string, where: string, whereArgs: string, orderBy: string, limit: Code): seq<Code> {
    [AddCode("pointer = db.query(false,\n", []),
     AddCode("        " + mapper + ".getTableName(),\n", []),
     AddCode("        " + mapper + ".getFieldNames(),\n", []),
     AddCode("        " + where + ",\n", []),
     AddCode("        " + whereArgs + ",\n", []),
     AddCode("        null,\n", []),
     AddCode("        null,\n", []),
     AddCode("        " + orderBy + ",\n", []),
     limit]
  }

  /** The `$S`-quoted value of a clause, or `null`. */
  function Quoted(clause: Option<string>): string {
    if clause.None? then "null" else "\"" + clause.value + "\""
  }

  const CLOSE_POINTER: Code := AddStatement("if(pointer != null) pointer.close()", [])

  /** The body of the overriding method, laid out from its plan. */
  function MethodBody(plan: StoragePlan): seq<Code> {
    match plan
    case InsertPlan(mapper, parameter, returnsValue) => ContainerBody(mapper, parameter, returnsValue, "insert()")
    case ReplacePlan(mapper, parameter, returnsValue) => ContainerBody(mapper, parameter, returnsValue, "replace()")
    case UpdatePlan(mapper, parameter, returnsValue) =>
      ContainerBody(mapper, parameter, returnsValue,
                    "update(" + mapper + ".getItemQuery(), " + mapper + ".getItemQueryArguments(" + parameter + "))")
    case DeleteSinglePlan(mapper, parameter, returnsValue) =>
      [NullCheckStatement(parameter),
       AddCode("\n", []),
       AddCode(ReturnPrefix(returnsValue) + "db.delete(" + mapper + ".getTableName(),\n", []),
       AddCode("        " + mapper + ".getItemQuery(),\n", []),
       AddCode("        " + mapper + ".getItemQueryArguments(" + parameter + "));\n", [])]
    case DeleteWherePlan(mapper, where, whereArgs, returnsValue) =>
      [AddCode(ReturnPrefix(returnsValue) + "db.delete(" + mapper + ".getTableName(),\n", []),
       AddCode("        " + Quoted(Some(where)) + ",\n", []),
       AddCode("        " + whereArgs + ");\n", [])]
    case SelectSinglePlan(mapper, where, whereArgs) =>
      [AddStatement("$T pointer = null", [DATA_POINTER]), BeginControlFlow("try")]
      + QueryCode(mapper, "$S", whereArgs, "null", AddCode("        $S);\n\n", ["1"]))[..3]
      + [AddCode("        $S,\n", [where])]
      + QueryCode(mapper, "$S", whereArgs, "null", AddCode("        $S);\n\n", ["1"]))[4..]
      + [BeginControlFlow("if (!pointer.moveToFirst())"), AddStatement("return null", []), EndControlFlow,
         AddStatement("return " + mapper + ".mapItem(pointer)", []),
         NextControlFlow("finally"), CLOSE_POINTER, EndControlFlow]
    case SelectManyPlan(mapper, where, whereArgs, orderBy, limit) =>
      [AddStatement("$T pointer = null", [DATA_POINTER]), BeginControlFlow("try")]
      + QueryCode(mapper, Quoted(where), whereArgs, Quoted(orderBy), AddCode("        " + Quoted(limit) + ");\n\n", []))
      + [AddStatement("return " + mapper + ".mapList(pointer)", []),
         NextControlFlow("finally"), CLOSE_POINTER, EndControlFlow]
    case CreateTablePlan(mapper) => [AddStatement("db.execSQL(" + mapper + ".createTable())", [])]
  }

  /** `createStorageMethod`: the overriding method of a storage method. */
  function CreateStorageMethod(m: Element): Result<MethodSpec> {
    var plan :- StoragePlanOf(m);
    Ok(MethodSpec(m.simpleName, MethodBody(plan)))
  }

  /** `getStorageMethods`: one overriding method per method of the
      interface, in order; the first rejected method aborts. */
  function GetStorageMethods(t: TypeElement): Result<seq<MethodSpec>> {
    Results.MapOrFail(DirectMethods(t), CreateStorageMethod)
  }

  // -------------------------------------------------------------- mappers

  /** `getDatabaseEntity`: the entity a storage method works on. */
  function GetDatabaseEntity(m: Element): Result<TypeElement> {
    if IsAnnotationPresent(m, InsertClass) || IsAnnotationPresent(m, ReplaceClass) || IsAnnotationPresent(m, UpdateClass) then
      FirstParameterEntity(m)
    else if IsAnnotationPresent(m, DeleteClass) then
      if IsAnnotationPresent(m, WhereClass) then DeleteTarget(m) else FirstParameterEntity(m)
    else if IsAnnotationPresent(m, SelectClass) then
      if !m.asType.DeclaredType? then Err(ClassCast(NOT_A_DECLARED_TYPE))
      else if HasAnnotation(m.asType.decl.typeAnnotations, DatabaseEntityClass) then Ok(m.asType.decl)
      else if |m.asType.typeArguments| == 0 then Err(IndexOutOfBounds(INDEX_ZERO))
      else if !m.asType.typeArguments[0].DeclaredType? then Err(ClassCast(NOT_A_DECLARED_TYPE))
      else Ok(m.asType.typeArguments[0].decl)
    else if IsAnnotationPresent(m, CreateTableClass) then CreateTableVisitor.CreateTableEntity(m)
    else Err(InvalidElement(METHOD + m.simpleName + NOT_A_STORAGE_METHOD))
  }

  /** A mapper the storage class holds: its field name, the entity it maps
      and the simple name of the generated mapper class. */
  datatype MapperInfo = MapperInfo(mapperName: string, entity: TypeElement, implementationName: string)

  /** `createMapperInfo`. */
  function CreateMapperInfo(entity: TypeElement): (r: Result<MapperInfo>)
    ensures r.Ok? ==> r.value.entity == entity
  {
    var mapperName :- ToMapperVariableName(entity);
    Ok(MapperInfo(mapperName, entity, entity.simpleName + "Mapper"))
  }

  function QualifiedNameOf(t: TypeElement): string {
    t.qualifiedName
  }

  /** `getMappers`: one mapper per distinct entity (by qualified name) of
      the interface's methods, in first-use order. */
  function GetMappers(t: TypeElement): Result<seq<MapperInfo>> {
    var entities :- Results.MapOrFail(DirectMethods(t), GetDatabaseEntity);
    Results.MapOrFail(Seqs.DistinctBy(entities, QualifiedNameOf), CreateMapperInfo)
  }

  /** Some mapper maps a class of qualified name `name`. */
  predicate HasMapperFor(mappers: seq<MapperInfo>, name: string) {
    exists k :: 0 <= k < |mappers| && mappers[k].entity.qualifiedName == name
  }

  /** Mappers that map the distinct entities of a list, in order: one per
      qualified name, covering every entity, never more than the entities. */
  lemma MappersOfEntities(entities: seq<TypeElement>, mappers: seq<MapperInfo>)
    requires var distinct := Seqs.DistinctBy(entities, QualifiedNameOf);
             |mappers| == |distinct| && forall k :: 0 <= k < |distinct| ==> mappers[k].entity == distinct[k]
    ensures forall i, j :: 0 <= i < j < |mappers| ==> mappers[i].entity.qualifiedName != mappers[j].entity.qualifiedName
    ensures forall e :: e in entities ==> HasMapperFor(mappers, e.qualifiedName)
    ensures |mappers| <= |entities|
  {
    var distinct := Seqs.DistinctBy(entities, QualifiedNameOf);
    Seqs.DistinctByProperties(entities, QualifiedNameOf);
    forall e | e in entities ensures HasMapperFor(mappers, e.qualifiedName) {
      var k :| 0 <= k < |distinct| && QualifiedNameOf(distinct[k]) == QualifiedNameOf(e);
      assert mappers[k].entity.qualifiedName == e.qualifiedName;
    }
    SubsequenceLength(distinct, entities);
  }

  /** No two mappers map classes of the same qualified name, every
      method's entity has a mapper, and there are never more mappers than
      methods. */
  lemma GetMappersProperties(t: TypeElement)
    requires GetMappers(t).Ok?
    ensures var mappers := GetMappers(t).value;
            && (forall i, j :: 0 <= i < j < |mappers| ==> mappers[i].entity.qualifiedName != mappers[j].entity.qualifiedName)
            && (forall m :: m in DirectMethods(t) ==> GetDatabaseEntity(m).Ok? && HasMapperFor(mappers, GetDatabaseEntity(m).value.qualifiedName))
            && |mappers| <= |DirectMethods(t)|
  {
    var methods := DirectMethods(t);
    var entities := Results.MapOrFail(methods, GetDatabaseEntity).value;
    var mappers := GetMappers(t).value;
    Results.MapOrFailOk(methods, GetDatabaseEntity);
    MapperEntities(Seqs.DistinctBy(entities, QualifiedNameOf), mappers);
    MappersOfEntities(entities, mappers);
    forall m | m in methods
      ensures GetDatabaseEntity(m).Ok? && GetDatabaseEntity(m).value in entities
    {
      var i :| 0 <= i < |methods| && methods[i] == m;
      assert entities[i] in entities;
    }
  }

  /** The mappers of a list of entities map those entities, in order. */
  lemma {:induction false} MapperEntities(entities: seq<TypeElement>, mappers: seq<MapperInfo>)
    requires Results.MapOrFail(entities, CreateMapperInfo) == Ok(mappers)
    ensures |mappers| == |entities|
    ensures forall k :: 0 <= k < |entities| ==> mappers[k].entity == entities[k]
  {
    if |entities| > 0 {
      var rest := Results.MapOrFail(entities[1..], CreateMapperInfo).value;
      MapperEntities(entities[1..], rest);
      assert mappers == [CreateMapperInfo(entities[0]).value] + rest;
    }
  }

  lemma {:induction false} SubsequenceLength<T>(r: seq<T>, s: seq<T>)
    requires Seqs.IsSubsequence(r, s)
    ensures |r| <= |s|
    decreases |s|
  {
    if |r| > 0 {
      if r[0] == s[0] && Seqs.IsSubsequence(r[1..], s[1..]) {
        SubsequenceLength(r[1..], s[1..]);
      } else {
        SubsequenceLength(r, s[1..]);
      }
    }
  }

  // ------------------------------------------------------------ properties

  /** The storage annotation a plan implements. */
  function PlanClass(plan: StoragePlan): (c: AnnotationClass)
    ensures c in STORAGE_ANNOTATIONS
  {
    match plan
    case InsertPlan(_, _, _) => InsertClass
    case ReplacePlan(_, _, _) => ReplaceClass
    case UpdatePlan(_, _, _) => UpdateClass
    case DeleteSinglePlan(_, _, _) => DeleteClass
    case DeleteWherePlan(_, _, _, _) => DeleteClass
    case SelectSinglePlan(_, _, _) => SelectClass
    case SelectManyPlan(_, _, _, _, _) => SelectClass
    case CreateTablePlan(_) => CreateTableClass
  }

  /** A storage method that is accepted carries no `@Inject` and exactly
      one of the six storage annotations, the one its plan implements.
      That `@Insert` is missing from the uniqueness list does not matter,
      because `@Insert` is dispatched first. */
  lemma StoragePlanExclusive(m: Element)
    requires StoragePlanOf(m).Ok?
    ensures !IsAnnotationPresent(m, InjectClass)
    ensures IsAnnotationPresent(m, PlanClass(StoragePlanOf(m).value))
    ensures forall a :: a in STORAGE_ANNOTATIONS && IsAnnotationPresent(m, a) ==> a == PlanClass(StoragePlanOf(m).value)
  {
    DispatchedUnique(m);
    OnlyStorageAnnotation(m, PlanClass(StoragePlanOf(m).value));
  }

  /** A method that passed the uniqueness check of `c`, and carries no
      `@Insert` unless `c` is `@Insert`, carries no storage annotation
      other than `c`. */
  lemma OnlyStorageAnnotation(m: Element, c: AnnotationClass)
    requires UniqueAmong(m, c, UNIQUE_CHECKED) && (c != InsertClass ==> !IsAnnotationPresent(m, InsertClass))
    ensures c != InjectClass ==> !IsAnnotationPresent(m, InjectClass)
    ensures forall a :: a in STORAGE_ANNOTATIONS && IsAnnotationPresent(m, a) ==> a == c
  {
    UniqueFacts(m, c);
  }

  /** `createStorageMethod` hands the method to the first of the six
      annotations it carries. */
  lemma Dispatch(m: Element)
    ensures IsAnnotationPresent(m, InsertClass) ==> StoragePlanOf(m) == InsertPlanOf(m)
    ensures (!IsAnnotationPresent(m, InsertClass) && IsAnnotationPresent(m, ReplaceClass)) ==>
              StoragePlanOf(m) == ReplacePlanOf(m)
    ensures (!IsAnnotationPresent(m, InsertClass) && !IsAnnotationPresent(m, ReplaceClass)
             && IsAnnotationPresent(m, UpdateClass)) ==>
              StoragePlanOf(m) == UpdatePlanOf(m)
    ensures (!IsAnnotationPresent(m, InsertClass) && !IsAnnotationPresent(m, ReplaceClass)
             && !IsAnnotationPresent(m, UpdateClass) && IsAnnotationPresent(m, DeleteClass)) ==>
              StoragePlanOf(m) == DeletePlanOf(m)
    ensures (!IsAnnotationPresent(m, InsertClass) && !IsAnnotationPresent(m, ReplaceClass)
             && !IsAnnotationPresent(m, UpdateClass) && !IsAnnotationPresent(m, DeleteClass)
             && IsAnnotationPresent(m, SelectClass)) ==>
              StoragePlanOf(m) == SelectPlanOf(m)
    ensures (!IsAnnotationPresent(m, InsertClass) && !IsAnnotationPresent(m, ReplaceClass)
             && !IsAnnotationPresent(m, UpdateClass) && !IsAnnotationPresent(m, DeleteClass)
             && !IsAnnotationPresent(m, SelectClass)) ==>
              StoragePlanOf(m) == if IsAnnotationPresent(m, CreateTableClass) then CreateTablePlanOf(m)
                                  else Err(InvalidElement(METHOD + m.simpleName + NOT_A_STORAGE_METHOD))
  {
  }

  /** The dispatched method passed the uniqueness check of its own
      annotation, which is present, and no earlier annotation is present. */
  lemma DispatchedUnique(m: Element)
    requires StoragePlanOf(m).Ok?
    ensures var c := PlanClass(StoragePlanOf(m).value);
            && UniqueAmong(m, c, UNIQUE_CHECKED)
            && IsAnnotationPresent(m, c)
            && (c != InsertClass ==> !IsAnnotationPresent(m, InsertClass))
  {
    Dispatch(m);
  }

  /** A method with none of the six annotations is rejected. */
  lemma NotAStorageMethod(m: Element)
    requires forall c :: c in STORAGE_ANNOTATIONS ==> !IsAnnotationPresent(m, c)
    ensures StoragePlanOf(m).Err? && StoragePlanOf(m).error.InvalidElement?
  {
    assert STORAGE_ANNOTATIONS[0] == InsertClass && STORAGE_ANNOTATIONS[1] == ReplaceClass && STORAGE_ANNOTATIONS[2] == UpdateClass;
    assert STORAGE_ANNOTATIONS[3] == DeleteClass && STORAGE_ANNOTATIONS[4] == SelectClass && STORAGE_ANNOTATIONS[5] == CreateTableClass;
  }

  /** Insert and replace take exactly one parameter, of an entity type;
      update takes at least one, the first of an entity type.  The mapper
      is the entity's, the parameter is the first one, and the database
      call's result is returned iff the method is not void. */
  lemma ChangePlanProperties(m: Element)
    requires StoragePlanOf(m).Ok?
    ensures var plan := StoragePlanOf(m).value;
            (plan.InsertPlan? || plan.ReplacePlan? || plan.UpdatePlan?) ==>
              && (plan.InsertPlan? || plan.ReplacePlan? ==> |m.parameters| == 1)
              && |m.parameters| >= 1 && IsEntityType(m.parameters[0].asType)
              && plan.parameter == m.parameters[0].simpleName
              && ToMapperVariableName(m.parameters[0].asType.decl) == Ok(plan.mapper)
              && (plan.returnsValue <==> !m.asType.VoidType?)
  {
    StoragePlanExclusive(m);
  }

  /** The `try` block of a single-row query: the query, the early `return
      null` and the mapped row. */
  lemma SelectSingleTryBalanced(queryCode: seq<Code>, mapper: string)
    requires Flat(queryCode)
    ensures BalancedInBlock(queryCode
                            + [BeginControlFlow("if (!pointer.moveToFirst())"), AddStatement("return null", []), EndControlFlow]
                            + [AddStatement("return " + mapper + ".mapItem(pointer)", [])])
  {
    var returnNull := [AddStatement("return null", [])];
    assert Flat(returnNull);
    FlatBalanced(returnNull);
    BlockBalanced("if (!pointer.moveToFirst())", returnNull);
    var ifBlock := [BeginControlFlow("if (!pointer.moveToFirst())")] + returnNull + [EndControlFlow];
    var tail := [AddStatement("return " + mapper + ".mapItem(pointer)", [])];
    assert Flat(queryCode + tail);
    FlatBalanced(queryCode + tail);
    FlatBalanced(queryCode);
    FlatBalanced(tail);
    AppendBalanced(queryCode, ifBlock);
    AppendBalanced(queryCode + ifBlock, tail);
    assert ifBlock == [BeginControlFlow("if (!pointer.moveToFirst())"), AddStatement("return null", []), EndControlFlow];
  }

  lemma SelectSingleBodyBalanced(mapper: string, where: string, whereArgs: string)
    ensures Balanced(MethodBody(SelectSinglePlan(mapper, where, whereArgs)))
  {
    var query := QueryCode(mapper, "$S", whereArgs, "null", AddCode("        $S);\n\n", ["1"]));
    var queryCode := query[..3] + [AddCode("        $S,\n", [where])] + query[4..];
    assert Flat(queryCode);
    SelectSingleTryBalanced(queryCode, mapper);
    var tryBlock := queryCode
                    + [BeginControlFlow("if (!pointer.moveToFirst())"), AddStatement("return null", []), EndControlFlow]
                    + [AddStatement("return " + mapper + ".mapItem(pointer)", [])];
    assert Flat([CLOSE_POINTER]);
    FlatBalanced([CLOSE_POINTER]);
    TryFinallyBalanced(tryBlock, [CLOSE_POINTER]);
    var head := [AddStatement("$T pointer = null", [DATA_POINTER])];
    assert Flat(head);
    FlatBalanced(head);
    AppendBalanced(head, TryFinally(tryBlock, [CLOSE_POINTER]));
    assert MethodBody(SelectSinglePlan(mapper, where, whereArgs)) == head + TryFinally(tryBlock, [CLOSE_POINTER]);
  }

  lemma SelectManyBodyBalanced(plan: StoragePlan)
    requires plan.SelectManyPlan?
    ensures Balanced(MethodBody(plan))
  {
    var query := QueryCode(plan.mapper, Quoted(plan.selectWhere), plan.whereArgs, Quoted(plan.orderBy),
                           AddCode("        " + Quoted(plan.limit) + ");\n\n", []));
    var inner := query + [AddStatement("return " + plan.mapper + ".mapList(pointer)", [])];
    assert Flat(inner);
    FlatBalanced(inner);
    assert Flat([CLOSE_POINTER]);
    FlatBalanced([CLOSE_POINTER]);
    TryFinallyBalanced(inner, [CLOSE_POINTER]);
    var head := [AddStatement("$T pointer = null", [DATA_POINTER])];
    assert Flat(head);
    FlatBalanced(head);
    AppendBalanced(head, TryFinally(inner, [CLOSE_POINTER]));
    assert MethodBody(plan) == head + TryFinally(inner, [CLOSE_POINTER]);
  }

  /** Every generated body closes each block it opens. */
  lemma MethodBodyBalanced(plan: StoragePlan)
    ensures Balanced(MethodBody(plan))
  {
    if plan.SelectSinglePlan? {
      SelectSingleBodyBalanced(plan.mapper, plan.where, plan.whereArgs);
    } else if plan.SelectManyPlan? {
      SelectManyBodyBalanced(plan);
    } else {
      assert Flat(MethodBody(plan));
      FlatBalanced(MethodBody(plan));
    }
  }
}

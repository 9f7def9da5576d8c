/** What the storage visitors hand to the code generator: the constant
    fields and the overriding methods of the generated storage class.  Only
    the strings and argument lists given to the JavaPoet builder are
    modelled, not the builder itself.
 */
module StorageBuilder {
  import opened Wrappers
  import opened Elements
  import Seqs
  import ElementExtensions

  /** A `public static final String` constant with its initial value. */
  datatype FieldSpec = FieldSpec(name: string, initializer: string)

  /** One call on the JavaPoet method builder: the format string and its
      `$T`/`$S`/`$L` arguments, as handed over.  A code block added with
      `addCode(block)` appears as its own `add` calls, in order. */
  datatype Code =
    | AddCode(format: string, args: seq<string>)
    | AddStatement(format: string, args: seq<string>)
    | BeginControlFlow(controlFlow: string)
    | NextControlFlow(controlFlow: string)
    | EndControlFlow

  /** An overriding method: the overridden method's name and the builder
      calls that make its body, in order. */
  datatype MethodSpec = MethodSpec(name: string, body: seq<Code>)

  /** The builder the visitors append to. */
  class DatabaseStorageBuilder {
    var fields: seq<FieldSpec>
    var methods: seq<MethodSpec>

    constructor ()
      ensures fields == [] && methods == []
    {
      fields := [];
      methods := [];
    }

    /** `fields += more`. */
    method AddFields(more: seq<FieldSpec>)
      modifies this
      ensures fields == old(fields) + more && methods == old(methods)
    {
      fields := fields + more;
    }

    /** `methods += more`. */
    method AddMethods(more: seq<MethodSpec>)
      modifies this
      ensures methods == old(methods) + more && fields == old(fields)
    {
      methods := methods + more;
    }
  }

  predicate IsMethod(e: Element) {
    e.kind == MethodKind
  }

  /** `directMethods`: the methods declared by the storage interface itself,
      in declaration order. */
  function DirectMethods(t: TypeElement): seq<Element> {
    Seqs.Filter(t.enclosedElements, IsMethod)
  }

  /** The storage methods carrying annotation `c`, in declaration order. */
  function AnnotatedMethods(t: TypeElement, c: AnnotationClass): (r: seq<Element>)
    ensures forall m :: m in r <==> m in t.enclosedElements && IsMethod(m) && HasAnnotation(m.annotations, c)
  {
    var p := (m: Element) => HasAnnotation(m.annotations, c);
    var r := Seqs.Filter(DirectMethods(t), p);
    assert forall m :: m in r <==> m in t.enclosedElements && IsMethod(m) && HasAnnotation(m.annotations, c) by {
      forall m ensures m in r <==> m in t.enclosedElements && IsMethod(m) && HasAnnotation(m.annotations, c) {
        Seqs.FilterMembers(DirectMethods(t), p, m);
        Seqs.FilterMembers(t.enclosedElements, IsMethod, m);
      }
    }
    r
  }

  // ------------------------------------------------ builder extensions

  /** The nesting depth after running `body` from depth `depth`: each
      `beginControlFlow` opens a block, `endControlFlow` closes one and
      `nextControlFlow` needs an open one.  A negative depth records a
      block closed (or continued) that was never opened, and sticks. */
  function FlowEnd(body: seq<Code>, depth: int): int
  {
    if depth < 0 || |body| == 0 then depth
    else
      var next := match body[0]
        case BeginControlFlow(_) => depth + 1
        case NextControlFlow(_) => if depth == 0 then -1 else depth
        case EndControlFlow => depth - 1
        case _ => depth;
      FlowEnd(body[1..], next)
  }

  /** Every block the body opens is closed, and none is closed or
      continued before it was opened: from any nesting depth the body
      ends at the depth it started from. */
  ghost predicate Balanced(body: seq<Code>) {
    forall depth: nat :: FlowEnd(body, depth) == depth
  }

  /** Balanced when it runs inside an open block: the body may continue
      that block (`nextControlFlow`). */
  ghost predicate BalancedInBlock(body: seq<Code>) {
    forall depth: nat :: 0 < depth ==> FlowEnd(body, depth) == depth
  }

  /** Plain code and statements: no control flow. */
  predicate Flat(body: seq<Code>) {
    forall i :: 0 <= i < |body| ==> body[i].AddCode? || body[i].AddStatement?
  }

  lemma {:induction false} FlowEndAppend(a: seq<Code>, b: seq<Code>, depth: int)
    ensures FlowEnd(a + b, depth) == FlowEnd(b, FlowEnd(a, depth))
  {
    if depth >= 0 && |a| > 0 {
      assert (a + b)[1..] == a[1..] + b;
      assert (a + b)[0] == a[0];
      var next := match a[0]
        case BeginControlFlow(_) => depth + 1
        case NextControlFlow(_) => if depth == 0 then -1 else depth
        case EndControlFlow => depth - 1
        case _ => depth;
      FlowEndAppend(a[1..], b, next);
    } else if depth >= 0 {
      assert a + b == b;
    }
  }

  lemma {:induction false} FlowEndFlat(body: seq<Code>, depth: int)
    requires Flat(body)
    ensures FlowEnd(body, depth) == depth
  {
    if depth >= 0 && |body| > 0 {
      assert Flat(body[1..]) by {
        forall i | 0 <= i < |body[1..]| ensures body[1..][i] == body[i + 1] { }
      }
      FlowEndFlat(body[1..], depth);
    }
  }

  /** Flat code followed by flat code is flat. */
  lemma FlatConcat(a: seq<Code>, b: seq<Code>)
    requires Flat(a) && Flat(b)
    ensures Flat(a + b)
  {
    forall i | 0 <= i < |a + b| ensures (a + b)[i].AddCode? || (a + b)[i].AddStatement? {
      if i >= |a| {
        assert (a + b)[i] == b[i - |a|];
      }
    }
  }

  lemma FlatBalanced(body: seq<Code>)
    requires Flat(body)
    ensures Balanced(body) && BalancedInBlock(body)
  {
    forall depth: nat ensures FlowEnd(body, depth) == depth {
      FlowEndFlat(body, depth);
    }
  }

  lemma AppendBalanced(a: seq<Code>, b: seq<Code>)
    ensures Balanced(a) && Balanced(b) ==> Balanced(a + b)
    ensures BalancedInBlock(a) && BalancedInBlock(b) ==> BalancedInBlock(a + b)
  {
    forall depth: nat ensures FlowEnd(a + b, depth) == FlowEnd(b, FlowEnd(a, depth)) {
      FlowEndAppend(a, b, depth);
    }
  }

  /** A block opened, filled with code balanced inside it, and closed, is
      balanced. */
  lemma BlockBalanced(controlFlow: string, inner: seq<Code>)
    requires BalancedInBlock(inner)
    ensures Balanced([BeginControlFlow(controlFlow)] + inner + [EndControlFlow])
  {
    forall depth: nat
      ensures FlowEnd([BeginControlFlow(controlFlow)] + inner + [EndControlFlow], depth) == depth
    {
      FlowEndAppend([BeginControlFlow(controlFlow)] + inner, [EndControlFlow], depth);
      FlowEndAppend([BeginControlFlow(controlFlow)], inner, depth);
    }
  }

  /** Continuing an open block (`else`, `finally`) between two parts
      balanced inside it. */
  lemma ContinueBalanced(a: seq<Code>, controlFlow: string, b: seq<Code>)
    requires BalancedInBlock(a) && BalancedInBlock(b)
    ensures BalancedInBlock(a + [NextControlFlow(controlFlow)] + b)
  {
    forall depth: nat | 0 < depth
      ensures FlowEnd(a + [NextControlFlow(controlFlow)] + b, depth) == depth
    {
      FlowEndAppend(a + [NextControlFlow(controlFlow)], b, depth);
      FlowEndAppend(a, [NextControlFlow(controlFlow)], depth);
    }
  }

  /** `tryFinally`: the try block, then the finally block. */
  function TryFinally(tryBlock: seq<Code>, finallyBlock: seq<Code>): seq<Code> {
    [BeginControlFlow("try")] + tryBlock + [NextControlFlow("finally")] + finallyBlock + [EndControlFlow]
  }

  /** Wrapping two parts balanced inside a block in `try`/`finally` gives a
      balanced block. */
  lemma TryFinallyBalanced(tryBlock: seq<Code>, finallyBlock: seq<Code>)
    requires BalancedInBlock(tryBlock) && BalancedInBlock(finallyBlock)
    ensures Balanced(TryFinally(tryBlock, finallyBlock))
  {
    ContinueBalanced(tryBlock, "finally", finallyBlock);
    BlockBalanced("try", tryBlock + [NextControlFlow("finally")] + finallyBlock);
    assert TryFinally(tryBlock, finallyBlock)
        == [BeginControlFlow("try")] + (tryBlock + [NextControlFlow("finally")] + finallyBlock) + [EndControlFlow];
  }

  /** `addVariableArrayCode`: each parameter's variable on its own line,
      indented, with a comma after every one but the last.  How a parameter
      becomes a variable expression is given by `render`. */
  function VariableArrayCode(parameters: seq<Element>, indent: string, render: Element -> string): (r: seq<Code>)
    ensures Flat(r)
  {
    if |parameters| == 0 then []
    else if |parameters| == 1 then [AddCode(indent + render(parameters[0]), []), AddCode("\n", [])]
    else [AddCode(indent + render(parameters[0]), []), AddCode(",", []), AddCode("\n", [])]
         + VariableArrayCode(parameters[1..], indent, render)
  }

  /** Parameter `i` is rendered at line `3 * i`, followed by a comma unless
      it is the last, then a line break: `3n - 1` calls for `n` parameters. */
  lemma {:induction false} VariableArrayCodeLayout(parameters: seq<Element>, indent: string, render: Element -> string)
    ensures var r := VariableArrayCode(parameters, indent, render);
            var n := |parameters|;
            && |r| == (if n == 0 then 0 else 3 * n - 1)
            && forall i :: 0 <= i < n ==>
                 && r[3 * i] == AddCode(indent + render(parameters[i]), [])
                 && (i < n - 1 ==> r[3 * i + 1] == AddCode(",", []) && r[3 * i + 2] == AddCode("\n", []))
                 && (i == n - 1 ==> r[3 * i + 1] == AddCode("\n", []))
  {
    VariableArrayCodeLength(parameters, indent, render);
    forall i | 0 <= i < |parameters|
      ensures var r := VariableArrayCode(parameters, indent, render);
              var n := |parameters|;
              && r[3 * i] == AddCode(indent + render(parameters[i]), [])
              && (i < n - 1 ==> r[3 * i + 1] == AddCode(",", []) && r[3 * i + 2] == AddCode("\n", []))
              && (i == n - 1 ==> r[3 * i + 1] == AddCode("\n", []))
    {
      VariableArrayCodeAt(parameters, indent, render, i);
    }
  }

  /** `3n - 1` lines for `n` parameters. */
  lemma {:induction false} VariableArrayCodeLength(parameters: seq<Element>, indent: string, render: Element -> string)
    ensures |VariableArrayCode(parameters, indent, render)| == (if |parameters| == 0 then 0 else 3 * |parameters| - 1)
  {
    if |parameters| > 1 {
      VariableArrayCodeLength(parameters[1..], indent, render);
    }
  }

  /** The lines of parameter `i`. */
  lemma {:induction false} VariableArrayCodeAt(parameters: seq<Element>, indent: string, render: Element -> string, i: nat)
    requires i < |parameters|
    ensures var r := VariableArrayCode(parameters, indent, render);
            var n := |parameters|;
            && 3 * i + 1 < |r|
            && r[3 * i] == AddCode(indent + render(parameters[i]), [])
            && (i < n - 1 ==> 3 * i + 2 < |r| && r[3 * i + 1] == AddCode(",", []) && r[3 * i + 2] == AddCode("\n", []))
            && (i == n - 1 ==> r[3 * i + 1] == AddCode("\n", []))
  {
    VariableArrayCodeLength(parameters, indent, render);
    if i > 0 {
      VariableArrayCodeAt(parameters[1..], indent, render, i - 1);
      var rest := VariableArrayCode(parameters[1..], indent, render);
      var first := [AddCode(indent + render(parameters[0]), []), AddCode(",", []), AddCode("\n", [])];
      assert VariableArrayCode(parameters, indent, render) == first + rest;
      assert parameters[1..][i - 1] == parameters[i];
      assert 3 * i == 3 * (i - 1) + 3;
    }
  }

  /** The storage method's single entity parameter, as the insert, update
      and replace visitors check it: more than one parameter, no parameter,
      a parameter that is not a declared type, or one whose class lacks
      `@DatabaseEntity`, is rejected.  `kind` and `verb` only word the
      messages. */
  function EntityParameter(m: Element, kind: string, verb: string): (r: Result<TypeElement>)
    ensures r.Ok? <==> |m.parameters| == 1 && IsEntityType(m.parameters[0].asType)
    ensures r.Ok? ==> r.value == m.parameters[0].asType.decl
    ensures r.Err? ==> r.error.InvalidElement?
  {
    if |m.parameters| > 1 then Err(InvalidElement(ONLY_ONE_PARAMETER + kind + METHODS))
    else if |m.parameters| == 0 then Err(InvalidElement(kind + MUST_HAVE_ONE_PARAMETER + verb))
    else
      var first := m.parameters[0];
      var entity :- ElementExtensions.AsElement(first);
      if !HasAnnotation(entity.typeAnnotations, DatabaseEntityClass) then
        Err(InvalidElement(TYPE_OF_PARAMETER + first.simpleName + MUST_BE_ANNOTATED))
      else Ok(entity)
  }

  const ONLY_ONE_PARAMETER: string := "Only one parameter supported for "
  const METHODS: string := " methods"
  const MUST_HAVE_ONE_PARAMETER: string := " methods must have one parameter which is the entity to "
  const TYPE_OF_PARAMETER: string := "The type of parameter "
  const MUST_BE_ANNOTATED: string := " must be annotated with @DatabaseEntity"

  const ILLEGAL_ARGUMENT_EXCEPTION: string := "java.lang.IllegalArgumentException"
  const CONTENT_VALUES: string := "android.content.ContentValues"
  const CURSOR: string := "android.database.Cursor"
  const THROW_NEW: string := "throw new $T($S)"
  const IS_NULL: string := " is null"

  /** The null check that opens the insert and update bodies. */
  function NullCheckBlock(parameterName: string): (r: seq<Code>)
    ensures Balanced(r)
  {
    var inner := [AddStatement(THROW_NEW, [ILLEGAL_ARGUMENT_EXCEPTION, parameterName + IS_NULL])];
    FlatBalanced(inner);
    BlockBalanced(IfNull(parameterName), inner);
    [BeginControlFlow(IfNull(parameterName))] + inner + [EndControlFlow]
  }

  function IfNull(parameterName: string): string {
    "if (" + parameterName + " == null)"
  }

  /** The null check as a single statement, as the replace visitor and the
      storage processor write it. */
  function NullCheckStatement(parameterName: string): Code {
    AddStatement(IfNull(parameterName) + " throw new $T(\"" + parameterName + " is null\")", [ILLEGAL_ARGUMENT_EXCEPTION])
  }

  /** `$1T values = new $1T();`, with `ContentValues` for `$1T`. */
  const DECLARE_VALUES: Code := AddCode("$1T values = new $1T();\n", [CONTENT_VALUES])

  /** `joinToString(",") { "  $it\n" }`: one argument expression per line. */
  function ArgumentLines(args: seq<string>): (r: string)
  {
    Seqs.Join(seq(|args|, i requires 0 <= i < |args| => "  " + args[i] + "\n"), ",")
  }

  /** The body shared by the insert and update visitors: the null check,
      the `ContentValues`, one put per getter, then `last`. */
  function ValuesBody(parameter: string, getters: seq<string>, last: Code): (r: seq<Code>)
    ensures |r| == |getters| + 5
    ensures r[3] == DECLARE_VALUES && r[|r| - 1] == last
    ensures forall i :: 0 <= i < |getters| ==> r[4 + i] == AddCode("values.put(" + getters[i] + ");\n", [])
    ensures last.AddCode? || last.AddStatement? ==> Balanced(r)
  {
    var tail := [DECLARE_VALUES] + PutLines(getters, "values.put(", ");\n") + [last];
    if last.AddCode? || last.AddStatement? then
      assert Flat(tail);
      FlatBalanced(tail);
      AppendBalanced(NullCheckBlock(parameter), tail);
      NullCheckBlock(parameter) + tail
    else NullCheckBlock(parameter) + tail
  }

  /** One `<open><getter><close>` line per getter, in order: the puts of
      the insert and update bodies and of the replace chain. */
  function PutLines(getters: seq<string>, open: string, close: string): (r: seq<Code>)
    ensures |r| == |getters| && Flat(r)
    ensures forall i :: 0 <= i < |getters| ==> r[i] == AddCode(open + getters[i] + close, [])
  {
    seq(|getters|, i requires 0 <= i < |getters| => AddCode(open + getters[i] + close, []))
  }
}

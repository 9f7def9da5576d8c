/** The Kotlin element helpers: accessibility, the inheritance walk that lists
    a class's members, method lookup, the String test and Java type names.
 */
module ElementExtensions {
  import opened Wrappers
  import opened Elements
  import Seqs

  /** A member is directly accessible from generated code unless it is
      transient, protected, static or private. */
  predicate IsAccessible(e: Element) {
    Transient !in e.modifiers && Protected !in e.modifiers
    && Static !in e.modifiers && Private !in e.modifiers
  }

  /** The type element of a member whose type is declared; any other kind of
      type is rejected. */
  function AsElement(e: Element): (r: Result<TypeElement>)
    ensures r.Ok? <==> e.asType.DeclaredType?
    ensures r.Ok? ==> r.value == e.asType.decl
    ensures r.Err? ==> r.error.InvalidElement?
  {
    if e.asType.DeclaredType? then Ok(e.asType.decl)
    else Err(InvalidElement("Element is not a declared type: " + KindName(KindOf(e.asType))))
  }

  /** The members of a class followed by those of its ancestors, nearest
      class first; the walk stops at the first superclass that is not a
      declared type (the `NoType` above `java.lang.Object`). */
  function Chain(t: TypeElement): (r: seq<Element>)
    decreases t
  {
    t.enclosedElements + (if t.superclass.DeclaredType? then Chain(t.superclass.decl) else [])
  }

  function NamesOf(s: seq<Element>): set<string> {
    set e | e in s :: e.simpleName
  }

  /** The elements of `s` whose simple name is neither in `seen` nor taken by
      an earlier element of `s`. */
  function Unseen(s: seq<Element>, seen: set<string>): seq<Element>
    decreases |s|
  {
    if |s| == 0 then []
    else if s[0].simpleName in seen then Unseen(s[1..], seen)
    else [s[0]] + Unseen(s[1..], seen + {s[0].simpleName})
  }

  /** What `getElements` returns: the inheritance chain with every simple name
      kept only at its first (nearest) declaration.  Fields and methods share
      one name space, so overloads and a method named like a field collapse
      to the first. */
  function ElementsOf(t: TypeElement): seq<Element> {
    Unseen(Chain(t), {})
  }

  /** The first element of `s` with the given simple name. */
  function FirstNamed(s: seq<Element>, name: string): Option<Element> {
    if |s| == 0 then None
    else if s[0].simpleName == name then Some(s[0])
    else FirstNamed(s[1..], name)
  }

  /** The first element named `name` is one, and only a list without such
      an element has none. */
  lemma {:induction false} FirstNamedFound(s: seq<Element>, name: string)
    ensures var r := FirstNamed(s, name);
            (r.Some? ==> r.value in s && r.value.simpleName == name)
            && (r.None? ==> forall e :: e in s ==> e.simpleName != name)
    decreases |s|
  {
    if |s| > 0 && s[0].simpleName != name {
      FirstNamedFound(s[1..], name);
    }
  }

  lemma {:induction false} UnseenAppend(a: seq<Element>, b: seq<Element>, seen: set<string>)
    ensures Unseen(a + b, seen) == Unseen(a, seen) + Unseen(b, seen + NamesOf(a))
    decreases |a|
  {
    if |a| == 0 {
      assert a + b == b;
      assert seen + NamesOf(a) == seen;
    } else {
      assert (a + b)[1..] == a[1..] + b;
      assert NamesOf(a) == {a[0].simpleName} + NamesOf(a[1..]);
      if a[0].simpleName in seen {
        UnseenAppend(a[1..], b, seen);
        assert seen + NamesOf(a) == seen + NamesOf(a[1..]);
      } else {
        UnseenAppend(a[1..], b, seen + {a[0].simpleName});
        assert seen + {a[0].simpleName} + NamesOf(a[1..]) == seen + NamesOf(a);
      }
    }
  }

  /** One iteration of the loop in `addElements`. */
  lemma AddOneStep(elements: seq<Element>, prefix: seq<Element>, x: Element, names: set<string>,
                   current: seq<Element>, currentNames: set<string>)
    requires current == elements + Unseen(prefix, names)
    requires currentNames == names + NamesOf(prefix)
    ensures (if x.simpleName in currentNames then current else current + [x])
            == elements + Unseen(prefix + [x], names)
    ensures (if x.simpleName in currentNames then currentNames else currentNames + {x.simpleName})
            == names + NamesOf(prefix + [x])
  {
    UnseenAppend(prefix, [x], names);
    NamesOfAppend(prefix, [x]);
    assert NamesOf([x]) == {x.simpleName};
  }

  /** The kept elements carry pairwise different names, none of them seen. */
  lemma {:induction false} UnseenDistinctNames(s: seq<Element>, seen: set<string>)
    ensures forall i :: 0 <= i < |Unseen(s, seen)| ==> Unseen(s, seen)[i].simpleName !in seen
    ensures forall i, j :: 0 <= i < j < |Unseen(s, seen)| ==>
              Unseen(s, seen)[i].simpleName != Unseen(s, seen)[j].simpleName
    decreases |s|
  {
    if |s| > 0 {
      if s[0].simpleName in seen {
        UnseenDistinctNames(s[1..], seen);
      } else {
        UnseenDistinctNames(s[1..], seen + {s[0].simpleName});
      }
    }
  }

  /** Every kept element is the first element of `s` with its name, and every
      name of `s` that was not seen is kept. */
  lemma {:induction false} UnseenNearest(s: seq<Element>, seen: set<string>)
    ensures forall e :: e in Unseen(s, seen) ==> FirstNamed(s, e.simpleName) == Some(e)
    ensures forall x :: x in s && x.simpleName !in seen ==>
              exists e :: e in Unseen(s, seen) && e.simpleName == x.simpleName
    decreases |s|
  {
    if |s| > 0 {
      if s[0].simpleName in seen {
        UnseenNearest(s[1..], seen);
        forall e | e in Unseen(s, seen) ensures FirstNamed(s, e.simpleName) == Some(e) {
          UnseenDistinctNames(s[1..], seen);
          assert e.simpleName != s[0].simpleName;
        }
      } else {
        var seen' := seen + {s[0].simpleName};
        UnseenNearest(s[1..], seen');
        UnseenDistinctNames(s[1..], seen');
        forall e | e in Unseen(s, seen) ensures FirstNamed(s, e.simpleName) == Some(e) {
          if e != s[0] {
            assert e in Unseen(s[1..], seen');
            assert e.simpleName != s[0].simpleName;
          }
        }
      }
    }
  }

  lemma {:induction false} UnseenIsSubsequence(s: seq<Element>, seen: set<string>)
    ensures Seqs.IsSubsequence(Unseen(s, seen), s)
    decreases |s|
  {
    if |s| > 0 {
      if s[0].simpleName in seen {
        UnseenIsSubsequence(s[1..], seen);
        Seqs.SubsequenceSkip(Unseen(s[1..], seen), s);
      } else {
        UnseenIsSubsequence(s[1..], seen + {s[0].simpleName});
        var u := Unseen(s, seen);
        assert u[0] == s[0] && u[1..] == Unseen(s[1..], seen + {s[0].simpleName});
      }
    }
  }

  lemma NamesOfAppend(a: seq<Element>, b: seq<Element>)
    ensures NamesOf(a + b) == NamesOf(a) + NamesOf(b)
  {
    assert forall e :: e in a + b <==> e in a || e in b;
  }

  /** `getElements` lists the class's own new members before anything it
      inherits, and then continues with the superclass's members whose names
      are still unused. */
  lemma OwnMembersFirst(t: TypeElement)
    ensures t.superclass.DeclaredType? ==>
      ElementsOf(t) == Unseen(t.enclosedElements, {})
                       + Unseen(Chain(t.superclass.decl), NamesOf(t.enclosedElements))
    ensures !t.superclass.DeclaredType? ==> ElementsOf(t) == Unseen(t.enclosedElements, {})
  {
    var sup := if t.superclass.DeclaredType? then Chain(t.superclass.decl) else [];
    UnseenAppend(t.enclosedElements, sup, {});
    assert {} + NamesOf(t.enclosedElements) == NamesOf(t.enclosedElements);
    if !t.superclass.DeclaredType? {
      assert t.enclosedElements + sup == t.enclosedElements;
    }
  }

  /** The members listed by `getElements`: no two share a simple name, each is
      the nearest declaration of its name, every name of the chain appears,
      and the order is that of the chain. */
  lemma ElementsOfProperties(t: TypeElement)
    ensures forall i, j :: 0 <= i < j < |ElementsOf(t)| ==>
              ElementsOf(t)[i].simpleName != ElementsOf(t)[j].simpleName
    ensures forall e :: e in ElementsOf(t) ==> FirstNamed(Chain(t), e.simpleName) == Some(e)
    ensures forall x :: x in Chain(t) ==>
              exists e :: e in ElementsOf(t) && e.simpleName == x.simpleName
    ensures Seqs.IsSubsequence(ElementsOf(t), Chain(t))
  {
    UnseenDistinctNames(Chain(t), {});
    UnseenNearest(Chain(t), {});
    UnseenIsSubsequence(Chain(t), {});
  }

  /** The chain splits into the class's own members and the inherited ones. */
  lemma ChainSplit(entity: TypeElement, names: set<string>)
    ensures var inherited := if entity.superclass.DeclaredType? then Chain(entity.superclass.decl) else [];
      && Unseen(Chain(entity), names)
         == Unseen(entity.enclosedElements, names)
            + Unseen(inherited, names + NamesOf(entity.enclosedElements))
      && NamesOf(Chain(entity)) == NamesOf(entity.enclosedElements) + NamesOf(inherited)
  {
    var inherited := if entity.superclass.DeclaredType? then Chain(entity.superclass.decl) else [];
    UnseenAppend(entity.enclosedElements, inherited, names);
    NamesOfAppend(entity.enclosedElements, inherited);
  }

  /** The loop of `addElements`: each member whose name is not yet seen is
      appended and its name recorded. */
  method AddEnclosedElements(elements: seq<Element>, enclosed: seq<Element>, names: set<string>)
    returns (elements': seq<Element>, names': set<string>)
    ensures elements' == elements + Unseen(enclosed, names)
    ensures names' == names + NamesOf(enclosed)
  {
    elements', names' := elements, names;
    for i := 0 to |enclosed|
      invariant elements' == elements + Unseen(enclosed[..i], names)
      invariant names' == names + NamesOf(enclosed[..i])
    {
      var element := enclosed[i];
      assert enclosed[..i + 1] == enclosed[..i] + [element];
      AddOneStep(elements, enclosed[..i], element, names, elements', names');
      if element.simpleName !in names' {
        elements' := elements' + [element];
        names' := names' + {element.simpleName};
      }
    }
    assert enclosed[..|enclosed|] == enclosed;
  }

  /** `addElements`: appends the not yet seen members of `entity` to the list,
      recording their names, and recurses into a declared superclass. */
  method AddElements(elements: seq<Element>, entity: TypeElement, names: set<string>)
    returns (elements': seq<Element>, names': set<string>)
    ensures elements' == elements + Unseen(Chain(entity), names)
    ensures names' == names + NamesOf(Chain(entity))
    decreases entity
  {
    var enclosed := entity.enclosedElements;
    elements', names' := AddEnclosedElements(elements, enclosed, names);
    var parentMirror := entity.superclass;
    ChainSplit(entity, names);
    if parentMirror.DeclaredType? {
      ghost var own := Unseen(enclosed, names);
      ghost var seen := names + NamesOf(enclosed);
      elements', names' := AddElements(elements', parentMirror.decl, names');
      assert elements' == elements + (own + Unseen(Chain(parentMirror.decl), seen));
    } else {
      assert Chain(entity) == enclosed;
    }
  }

  /** `getElements`. */
  method GetElements(t: TypeElement) returns (elements: seq<Element>)
    ensures elements == ElementsOf(t)
  {
    var names;
    elements, names := AddElements([], t, {});
  }

  predicate IsAccessibleMethod(e: Element) {
    e.kind == MethodKind && IsAccessible(e)
  }

  /** `getMethods`: the accessible methods among the listed members. */
  function MethodsOf(t: TypeElement): seq<Element> {
    Seqs.Filter(ElementsOf(t), IsAccessibleMethod)
  }

  lemma MethodsOfProperties(t: TypeElement, m: Element)
    ensures m in MethodsOf(t) <==> m in ElementsOf(t) && m.kind == MethodKind && IsAccessible(m)
    ensures Seqs.IsSubsequence(MethodsOf(t), ElementsOf(t))
  {
    Seqs.FilterMembers(ElementsOf(t), IsAccessibleMethod, m);
    Seqs.FilterIsSubsequence(ElementsOf(t), IsAccessibleMethod);
  }

  /** `isString`: the member's type is the declared type `java.lang.String`. */
  predicate IsString(e: Element) {
    IsDeclaredString(e.asType)
  }

  /** `getTypeName`: the Java keyword of a primitive, the simple name of a
      declared type; every other kind of type is rejected. */
  function GetTypeName(e: Element): (r: Result<string>)
    ensures r.Ok? <==> e.asType.DeclaredType? || IsNativePrimitive(e.asType)
                       || e.asType.ByteType? || e.asType.CharType?
    ensures e.asType.DeclaredType? ==> r == Ok(e.asType.decl.simpleName)
    ensures r.Err? ==> r == Err(InvalidElement(KindName(KindOf(e.asType)) + " is not known, bug?"))
  {
    match e.asType
    case IntType => Ok("int")
    case ShortType => Ok("short")
    case LongType => Ok("long")
    case FloatType => Ok("float")
    case DoubleType => Ok("double")
    case CharType => Ok("char")
    case ByteType => Ok("byte")
    case BooleanType => Ok("boolean")
    case DeclaredType(decl, _) => Ok(decl.simpleName)
    case _ => Err(InvalidElement(KindName(KindOf(e.asType)) + " is not known, bug?"))
  }

  /** Two members of different primitive types never get the same name. */
  lemma GetTypeNamePrimitivesDistinct(a: Element, b: Element)
    requires !a.asType.DeclaredType? && !b.asType.DeclaredType?
    requires GetTypeName(a).Ok? && GetTypeName(b).Ok?
    ensures GetTypeName(a) == GetTypeName(b) <==> a.asType == b.asType
  {
  }

  /** `TypeMirror.toString()`: the keyword of a primitive or `void`, the
      qualified name of a declared type with its type arguments in angle
      brackets, an array's component followed by `[]`. */
  function TypeToString(t: TypeMirror): (r: string)
    ensures t.DeclaredType? && t.typeArguments == [] ==> r == t.decl.qualifiedName
    ensures t.ArrayType? ==> r == TypeToString(t.component) + "[]"
    decreases t
  {
    match t
    case BooleanType => "boolean"
    case ShortType => "short"
    case IntType => "int"
    case LongType => "long"
    case FloatType => "float"
    case DoubleType => "double"
    case ByteType => "byte"
    case CharType => "char"
    case VoidType => "void"
    case NoType => "none"
    case ArrayType(component) => TypeToString(component) + "[]"
    case TypeVariable(name) => name
    case DeclaredType(decl, arguments) =>
      if |arguments| == 0 then decl.qualifiedName
      else decl.qualifiedName + "<" + Seqs.Join(seq(|arguments|, i requires 0 <= i < |arguments| => TypeToString(arguments[i])), ",") + ">"
  }
}

/** `ElementUtils`: the Java generation's copy of the element helpers.  Its
    methods are proved to agree with the Kotlin definitions in
    `ElementExtensions`, which serve as their reference.
 */
module ElementUtils {
  import opened Wrappers
  import opened Elements
  import opened ElementExtensions
  import ListUtils
  import Seqs

  /** `Modifier.name()`. */
  function ModifierName(m: Modifier): string {
    match m
    case Public => "PUBLIC"
    case Protected => "PROTECTED"
    case Private => "PRIVATE"
    case Static => "STATIC"
    case Final => "FINAL"
    case Transient => "TRANSIENT"
    case Abstract => "ABSTRACT"
    case Volatile => "VOLATILE"
  }

  /** `isAccessable`: scans the modifier set, in whatever order the set
      yields it, and answers false at the first private, protected, static or
      transient modifier. */
  method IsAccessable(element: Element) returns (accessible: bool)
    ensures accessible == IsAccessible(element)
  {
    var remaining := element.modifiers;
    while remaining != {}
      invariant remaining <= element.modifiers
      invariant forall m :: m in element.modifiers && m !in remaining ==>
                  m != Private && m != Protected && m != Static && m != Transient
      decreases remaining
    {
      var modifier :| modifier in remaining;
      var name := ModifierName(modifier);
      if name == "PRIVATE" || name == "PROTECTED" || name == "STATIC" || name == "TRANSIENT" {
        return false;
      }
      remaining := remaining - {modifier};
    }
    return true;
  }

  /** `getTypeElement`: the element of a declared type; any other type is an
      illegal argument. */
  function GetTypeElement(element: Element): (r: Result<TypeElement>)
    ensures r.Ok? <==> element.asType.DeclaredType?
    ensures r.Ok? ==> r.value == element.asType.decl
    ensures r.Err? ==> r.error.IllegalArgument?
  {
    if element.asType.DeclaredType? then Ok(element.asType.decl)
    else Err(IllegalArgument("Element is not a declared type: " + KindName(KindOf(element.asType))))
  }

  /** `getDeclaredTypeName`: the qualified name of a declared type. */
  function GetDeclaredTypeName(element: Element): (r: Result<string>)
    ensures r.Ok? <==> element.asType.DeclaredType?
    ensures r.Ok? ==> r.value == element.asType.decl.qualifiedName
  {
    var t :- GetTypeElement(element);
    Ok(t.qualifiedName)
  }

  /** The loop of `addElements`: each member whose name is not yet seen is
      appended and its name recorded. */
  method AddEnclosedElements(elements: seq<Element>, enclosed: seq<Element>, names: set<string>)
    returns (elements': seq<Element>, names': set<string>)
    ensures elements' == elements + Unseen(enclosed, names)
    ensures names' == names + NamesOf(enclosed)
  {
    elements', names' := elements, names;
    for i := 0 to |enclosed|
      invariant elements' == elements + Unseen(enclosed[..i], names)
      invariant names' == names + NamesOf(enclosed[..i])
    {
      var element := enclosed[i];
      assert enclosed[..i + 1] == enclosed[..i] + [element];
      AddOneStep(elements, enclosed[..i], element, names, elements', names');
      if element.simpleName !in names' {
        elements' := elements' + [element];
        names' := names' + {element.simpleName};
      }
    }
    assert enclosed[..|enclosed|] == enclosed;
  }

  /** `addElements` (Java copy). */
  method AddElements(elements: seq<Element>, entity: TypeElement, names: set<string>)
    returns (elements': seq<Element>, names': set<string>)
    ensures elements' == elements + Unseen(Chain(entity), names)
    ensures names' == names + NamesOf(Chain(entity))
    decreases entity
  {
    var enclosed := entity.enclosedElements;
    elements', names' := AddEnclosedElements(elements, enclosed, names);
    var parentMirror := entity.superclass;
    ChainSplit(entity, names);
    if parentMirror.DeclaredType? {
      ghost var own := Unseen(enclosed, names);
      ghost var seen := names + NamesOf(enclosed);
      elements', names' := AddElements(elements', parentMirror.decl, names');
      assert elements' == elements + (own + Unseen(Chain(parentMirror.decl), seen));
    } else {
      assert Chain(entity) == enclosed;
    }
  }

  /** `getElementsInTypeElement`: the same list as the Kotlin `getElements`. */
  method GetElementsInTypeElement(entity: TypeElement) returns (elements: seq<Element>)
    ensures elements == ElementsOf(entity)
  {
    var visitedTypes;
    elements, visitedTypes := AddElements([], entity, {});
  }

  /** `getMethodsInTypeElement`: filter to accessible methods, then the
      identity cast through `mapItems`; the same list as `getMethods`. */
  method GetMethodsInTypeElement(typeElement: TypeElement) returns (methods: seq<Element>)
    ensures methods == MethodsOf(typeElement)
  {
    var elements := GetElementsInTypeElement(typeElement);
    var test := (item: Element) => Ok(item.kind == MethodKind && IsAccessible(item));
    var filtered := ListUtils.Filter(elements, test);
    ListUtils.FilterOrFailTotal(elements, test, IsAccessibleMethod);
    methods := ListUtils.MapItems(filtered.value, (item: Element) => item);
  }
}

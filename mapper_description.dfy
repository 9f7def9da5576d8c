/** `MapperDescription`: the name and variable of a generated entity mapper,
    identified by the entity's qualified name.
 */
module MapperDescription {
  import opened Wrappers
  import opened Elements

  /** The three constructor arguments, stored once. */
  datatype MapperDescription = MapperDescription(qualifiedName: string, simpleName: string, emptyConstructor: bool)

  /** `getQualifiedName`: the mapper class sits next to the entity. */
  function QualifiedName(d: MapperDescription): (r: string)
    ensures |r| == |d.qualifiedName| + 6
    ensures r[..|d.qualifiedName|] == d.qualifiedName && r[|d.qualifiedName|..] == "Mapper"
  {
    d.qualifiedName + "Mapper"
  }

  /** `getEntityName`. */
  function EntityName(d: MapperDescription): (r: string)
    ensures r == d.simpleName
  {
    d.simpleName
  }

  /** `hasEmptyConstructor`. */
  function HasEmptyConstructor(d: MapperDescription): (r: bool)
    ensures r == d.emptyConstructor
  {
    d.emptyConstructor
  }

  /** `getVariableName`: `substring(0, 1)` throws on an empty simple name;
      otherwise the name with a lower-case first letter, then `Mapper`. */
  function VariableName(d: MapperDescription): (r: Result<string>)
    ensures r.Ok? <==> |d.simpleName| > 0
    ensures r.Err? ==> r.error.IndexOutOfBounds?
    ensures r.Ok? ==> |r.value| == |d.simpleName| + 6 && r.value[0] == ToLower(d.simpleName[0])
                      && r.value[1..|d.simpleName|] == d.simpleName[1..]
                      && r.value[|d.simpleName|..] == "Mapper"
  {
    if |d.simpleName| == 0 then Err(IndexOutOfBounds("begin 0, end 1, length 0"))
    else Ok([ToLower(d.simpleName[0])] + d.simpleName[1..] + "Mapper")
  }

  /** The mapper variable is the entity name with a lower-case first
      letter and `Mapper` appended; it exists exactly when the entity name
      is not empty. */
  lemma {:induction false} EntityNameNamesVariable(d: MapperDescription)
    ensures VariableName(d).Ok? <==> EntityName(d) != ""
    ensures VariableName(d).Ok? ==>
              VariableName(d).value == [ToLower(EntityName(d)[0])] + EntityName(d)[1..] + "Mapper"
  {
    if VariableName(d).Ok? {
      var v, n := VariableName(d).value, EntityName(d);
      assert v == [v[0]] + v[1..|n|] + v[|n|..];
      assert v == [ToLower(n[0])] + n[1..] + "Mapper";
    }
  }

  /** `equals`: two descriptions are equal iff their qualified names are. */
  predicate Equals(a: MapperDescription, b: MapperDescription) {
    a.qualifiedName == b.qualifiedName
  }

  const TWO_POW_32: int := 0x1_0000_0000
  const TWO_POW_31: int := 0x8000_0000

  /** The running value of Java's `String.hashCode` over the first `n`
      characters, kept as an unsigned 32-bit value: `h = 31 * h + c` wraps
      around at 2^32. */
  function HashPrefix(s: string, n: nat): (h: int)
    requires n <= |s|
    ensures 0 <= h < TWO_POW_32
  {
    if n == 0 then 0 else (31 * HashPrefix(s, n - 1) + s[n - 1] as int) % TWO_POW_32
  }

  /** `String.hashCode` read back as a signed 32-bit `int`. */
  function StringHashCode(s: string): (r: int)
    ensures -TWO_POW_31 <= r < TWO_POW_31
    ensures r % TWO_POW_32 == HashPrefix(s, |s|)
  {
    var h := HashPrefix(s, |s|);
    if h >= TWO_POW_31 then h - TWO_POW_32 else h
  }

  /** `hashCode`: the hash of the qualified name. */
  function HashCode(d: MapperDescription): (r: int)
    ensures -TWO_POW_31 <= r < TWO_POW_31
  {
    StringHashCode(d.qualifiedName)
  }

  /** `equals` is an equivalence and `hashCode` agrees with it. */
  lemma EqualsContract(a: MapperDescription, b: MapperDescription, c: MapperDescription)
    ensures Equals(a, a)
    ensures Equals(a, b) ==> Equals(b, a)
    ensures Equals(a, b) && Equals(b, c) ==> Equals(a, c)
    ensures Equals(a, b) ==> HashCode(a) == HashCode(b)
  {
  }

  /** Descriptions that differ only in the simple name or the constructor
      flag are equal, yet they may name different mapper variables. */
  lemma EqualsIgnoresSimpleName()
    ensures var a := MapperDescription("a.B", "B", true);
            var b := MapperDescription("a.B", "C", false);
            Equals(a, b) && VariableName(a) != VariableName(b)
  {
    var a := MapperDescription("a.B", "B", true);
    var b := MapperDescription("a.B", "C", false);
    assert VariableName(a).value[0] == 'b';
    assert VariableName(b).value[0] == 'c';
  }

  /** The hash of a one-letter name is its code point. */
  lemma HashCodeSingle(c: char)
    ensures StringHashCode([c]) == c as int
  {
    assert HashPrefix([c], 1) == (c as int) % TWO_POW_32;
  }
}

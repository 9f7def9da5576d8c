/** `PackageProvider`: the package of a qualified class name. */
module PackageProvider {
  import opened Wrappers

  /** `String.lastIndexOf`: the last position of `c`, or -1. */
  function LastIndexOf(s: string, c: char): (r: int)
    ensures -1 <= r < |s|
    ensures r >= 0 ==> s[r] == c
    ensures forall j :: r < j < |s| ==> s[j] != c
  {
    if |s| == 0 then -1
    else if s[|s| - 1] == c then |s| - 1
    else LastIndexOf(s[..|s| - 1], c)
  }

  /** -1 exactly when `c` does not occur, and nothing after the result is
      `c`. */
  lemma LastIndexOfMeaning(s: string, c: char)
    ensures LastIndexOf(s, c) == -1 <==> c !in s
    ensures LastIndexOf(s, c) >= 0 ==> c !in s[LastIndexOf(s, c) + 1..]
  {
    var r := LastIndexOf(s, c);
    if r == -1 {
      assert forall j :: 0 <= j < |s| ==> s[j] != c;
    } else {
      var tail := s[r + 1..];
      assert forall j :: 0 <= j < |tail| ==> tail[j] == s[r + 1 + j];
    }
  }

  /** `getPackage`: a null name is an illegal argument; a name without a dot
      makes `substring(0, -1)` throw; otherwise everything before the last
      dot.  `None` stands for null. */
  function GetPackage(qualifiedName: Option<string>): (r: Result<string>)
    ensures r.Ok? <==> qualifiedName.Some? && '.' in qualifiedName.value
    ensures qualifiedName.None? ==> r.Err? && r.error.IllegalArgument?
    ensures qualifiedName.Some? && r.Err? ==> r.error.IndexOutOfBounds?
    ensures r.Ok? ==> var s := qualifiedName.value;
                      |r.value| < |s| && r.value == s[..|r.value|] && s[|r.value|] == '.'
                      && '.' !in s[|r.value| + 1..]
  {
    if qualifiedName.None? then Err(IllegalArgument("qualifiedName is null"))
    else
      var lastDot := LastIndexOf(qualifiedName.value, '.');
      LastIndexOfMeaning(qualifiedName.value, '.');
      if lastDot < 0 then Err(IndexOutOfBounds("begin 0, end -1"))
      else Ok(qualifiedName.value[..lastDot])
  }

  /** The package, a dot and the simple name give back the qualified name. */
  lemma GetPackageReconstructs(qualifiedName: string)
    requires '.' in qualifiedName
    ensures var p := GetPackage(Some(qualifiedName)).value;
            p + "." + qualifiedName[|p| + 1..] == qualifiedName
  {
    var p := GetPackage(Some(qualifiedName)).value;
    assert qualifiedName == qualifiedName[..|p|] + [qualifiedName[|p|]] + qualifiedName[|p| + 1..];
  }

  /** A dot-free tail does not move the last dot. */
  lemma {:induction false} LastIndexOfSkips(a: string, b: string, c: char)
    requires c !in b
    ensures LastIndexOf(a + b, c) == LastIndexOf(a, c)
  {
    if |b| > 0 {
      var s := a + b;
      assert s[|s| - 1] == b[|b| - 1];
      assert s[..|s| - 1] == a + b[..|b| - 1];
      LastIndexOfSkips(a, b[..|b| - 1], c);
    } else {
      assert a + b == a;
    }
  }

  /** The inverse direction: the package of `p.n` for a dot-free simple name
      `n` is `p`. */
  lemma GetPackageOfJoined(p: string, n: string)
    requires '.' !in n
    ensures GetPackage(Some(p + "." + n)) == Ok(p)
  {
    var s := p + "." + n;
    LastIndexOfSkips(p + ".", n, '.');
    assert LastIndexOf(p + ".", '.') == |p|;
    assert LastIndexOf(s, '.') == |p|;
    assert s[..|p|] == p;
  }
}

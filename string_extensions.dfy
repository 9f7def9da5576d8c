/** `StringExtensions`: the Kotlin string helpers the generator uses to name
    variables and constants and to count SQL placeholders.
 */
module StringExtensions {
  import opened Wrappers
  import opened Elements
  import Seqs

  /** The message of `first()` on an empty char sequence. */
  const EMPTY_CHAR_SEQUENCE: string := "Char sequence is empty."

  /** `firstCharLowerCase`: `first()` throws on an empty string; otherwise
      only the first character is lower-cased. */
  function FirstCharLowerCase(s: string): (r: Result<string>)
    ensures r.Ok? <==> |s| > 0
    ensures r.Err? ==> r == Err(NoSuchElement(EMPTY_CHAR_SEQUENCE))
    ensures r.Ok? ==> |r.value| == |s| && r.value[0] == ToLower(s[0])
                      && forall i :: 1 <= i < |s| ==> r.value[i] == s[i]
  {
    if |s| == 0 then Err(NoSuchElement(EMPTY_CHAR_SEQUENCE))
    else Ok([ToLower(s[0])] + s[1..])
  }

  /** Lower-casing the first character twice is the same as once. */
  lemma FirstCharLowerCaseIdempotent(s: string)
    requires |s| > 0
    ensures FirstCharLowerCase(FirstCharLowerCase(s).value) == FirstCharLowerCase(s)
  {
    var once := FirstCharLowerCase(s).value;
    assert ToLower(once[0]) == once[0];
    assert [once[0]] + once[1..] == once;
  }

  /** `countSqliteArgs`: the number of `?` placeholders. */
  function CountSqliteArgs(s: string): (r: nat)
    ensures r == multiset(s)['?']
    ensures r <= |s|
  {
    if |s| == 0 then 0
    else
      assert s == [s[0]] + s[1..];
      (if s[0] == '?' then 1 else 0) + CountSqliteArgs(s[1..])
  }

  /** Placeholders of two concatenated clauses add up. */
  lemma CountSqliteArgsAppend(a: string, b: string)
    ensures CountSqliteArgs(a + b) == CountSqliteArgs(a) + CountSqliteArgs(b)
  {
    assert multiset(a + b) == multiset(a) + multiset(b);
  }

  /** Parts holding one placeholder each, each followed by a separator
      without one, hold one placeholder per part. */
  lemma {:induction false} TerminatedPlaceholders(parts: seq<string>, sep: string)
    requires forall i :: 0 <= i < |parts| ==> CountSqliteArgs(parts[i]) == 1
    requires CountSqliteArgs(sep) == 0
    ensures CountSqliteArgs(Seqs.Terminated(parts, sep)) == |parts|
  {
    if |parts| > 0 {
      var init := parts[..|parts| - 1];
      TerminatedPlaceholders(init, sep);
      CountSqliteArgsAppend(Seqs.Terminated(init, sep), parts[|parts| - 1]);
      CountSqliteArgsAppend(Seqs.Terminated(init, sep) + parts[|parts| - 1], sep);
    }
  }

  /** The same for parts joined by such a separator. */
  lemma JoinPlaceholders(parts: seq<string>, sep: string)
    requires forall i :: 0 <= i < |parts| ==> CountSqliteArgs(parts[i]) == 1
    requires CountSqliteArgs(sep) == 0
    ensures CountSqliteArgs(Seqs.Join(parts, sep)) == |parts|
  {
    if |parts| > 0 {
      var init := parts[..|parts| - 1];
      assert forall i :: 0 <= i < |init| ==> init[i] == parts[i];
      TerminatedPlaceholders(init, sep);
      CountSqliteArgsAppend(Seqs.Terminated(init, sep), parts[|parts| - 1]);
    }
  }

  /** `encloseStringValueOfIfNotString`: a non-String expression is
      converted with `String.valueOf`. */
  function EncloseStringValueOfIfNotString(s: string, isString: bool): (r: string)
    ensures r == s <==> isString
    ensures !isString ==> r == "String.valueOf(" + s + ")"
  {
    if isString then s else "String.valueOf(" + s + ")"
  }

  /** Whether `fromCamelCaseToScreamingSnakeCase` puts an underscore before
      character `i`: an upper-case letter strictly between the first and the
      last character. */
  predicate SplitsBefore(s: string, i: int)
    requires 0 <= i < |s|
  {
    i > 0 && i < |s| - 1 && IsUpperCase(s[i])
  }

  /** What one input character becomes. */
  function SnakePiece(s: string, i: int): string
    requires 0 <= i < |s|
  {
    (if SplitsBefore(s, i) then "_" else "") + [ToUpper(s[i])]
  }

  /** The converted first `n` characters. */
  function SnakePrefix(s: string, n: nat): string
    requires n <= |s|
  {
    if n == 0 then "" else SnakePrefix(s, n - 1) + SnakePiece(s, n - 1)
  }

  /** The whole conversion. */
  function ScreamingSnake(s: string): string {
    SnakePrefix(s, |s|)
  }

  /** `fromCamelCaseToScreamingSnakeCase`. */
  method FromCamelCaseToScreamingSnakeCase(s: string) returns (r: string)
    ensures r == ScreamingSnake(s)
  {
    var builder := "";
    for i := 0 to |s|
      invariant builder == SnakePrefix(s, i)
    {
      if i > 0 && i < |s| - 1 && IsUpperCase(s[i]) {
        builder := builder + "_";
      }
      builder := builder + [ToUpper(s[i])];
    }
    r := builder;
  }

  /** The number of underscores inserted among the first `n` characters. */
  function Splits(s: string, n: nat): nat
    requires n <= |s|
  {
    if n == 0 then 0 else Splits(s, n - 1) + (if SplitsBefore(s, n - 1) then 1 else 0)
  }

  /** The result is the input's length plus one per inserted underscore. */
  lemma {:induction false} ScreamingSnakeLength(s: string, n: nat)
    requires n <= |s|
    ensures |SnakePrefix(s, n)| == n + Splits(s, n)
  {
    if n > 0 {
      ScreamingSnakeLength(s, n - 1);
    }
  }

  /** No character of the result is a lower-case letter. */
  lemma {:induction false} ScreamingSnakeUpper(s: string, n: nat)
    requires n <= |s|
    ensures forall c :: c in SnakePrefix(s, n) ==> !IsLowerCase(c)
  {
    if n > 0 {
      ScreamingSnakeUpper(s, n - 1);
      assert SnakePrefix(s, n) == SnakePrefix(s, n - 1) + SnakePiece(s, n - 1);
    }
  }

  /** Every character upper-cased, nothing inserted. */
  function UpperAll(s: string): (r: string)
    ensures |r| == |s|
    ensures forall i :: 0 <= i < |s| ==> r[i] == ToUpper(s[i])
  {
    if |s| == 0 then "" else UpperAll(s[..|s| - 1]) + [ToUpper(s[|s| - 1])]
  }

  /** A name with no interior capital is just upper-cased. */
  lemma {:induction false} ScreamingSnakeNoInteriorCapitals(s: string, n: nat)
    requires n <= |s|
    requires forall i :: 0 < i < |s| - 1 ==> !IsUpperCase(s[i])
    ensures SnakePrefix(s, n) == UpperAll(s[..n])
  {
    if n > 0 {
      ScreamingSnakeNoInteriorCapitals(s, n - 1);
      assert s[..n][..n - 1] == s[..n - 1];
    }
  }

  /** The constant name of the sample entity. */
  lemma ScreamingSnakeSample()
    ensures ScreamingSnake("SimpleEntity") == "SIMPLE_ENTITY"
  {
    var s := "SimpleEntity";
    assert SnakePrefix(s, 1) == "S";
    assert SnakePrefix(s, 2) == "SI";
    assert SnakePrefix(s, 3) == "SIM";
    assert SnakePrefix(s, 4) == "SIMP";
    assert SnakePrefix(s, 5) == "SIMPL";
    assert SnakePrefix(s, 6) == "SIMPLE";
    assert SnakePrefix(s, 7) == "SIMPLE_E";
    assert SnakePrefix(s, 8) == "SIMPLE_EN";
    assert SnakePrefix(s, 9) == "SIMPLE_ENT";
    assert SnakePrefix(s, 10) == "SIMPLE_ENTI";
    assert SnakePrefix(s, 11) == "SIMPLE_ENTIT";
    assert SnakePrefix(s, 12) == "SIMPLE_ENTITY";
  }
}

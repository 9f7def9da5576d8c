/** `StringUtils`: the Java generation's `lowerCaseFirstCharacter`, used to
    name the mapper and serializer fields of generated classes.
 */
module StringUtils {
  import opened Wrappers
  import opened Elements
  import StringExtensions

  /** `lowerCaseFirstCharacter`: a null input, or one shorter than two
      characters, is an illegal argument; otherwise the first character is
      lower-cased and the rest is kept.  `None` stands for null. */
  function LowerCaseFirstCharacter(input: Option<string>): (r: Result<string>)
    ensures r.Ok? <==> input.Some? && |input.value| >= 2
    ensures r.Err? ==> r.error.IllegalArgument?
    ensures r.Ok? ==> |r.value| == |input.value| && r.value[0] == ToLower(input.value[0])
                      && r.value[1..] == input.value[1..]
  {
    if input.None? then Err(IllegalArgument("input is null"))
    else if |input.value| < 2 then Err(IllegalArgument("input is to small"))
    else Ok([ToLower(input.value[0])] + input.value[1..])
  }

  /** Applying it twice is the same as applying it once. */
  lemma LowerCaseFirstCharacterIdempotent(s: string)
    requires |s| >= 2
    ensures LowerCaseFirstCharacter(Some(LowerCaseFirstCharacter(Some(s)).value))
         == LowerCaseFirstCharacter(Some(s))
  {
    var once := LowerCaseFirstCharacter(Some(s)).value;
    assert ToLower(once[0]) == once[0];
    assert [once[0]] + once[1..] == once;
  }

  /** Where both accept the input, the Java helper agrees with the Kotlin
      `firstCharLowerCase`; the Java one also rejects one-character names. */
  lemma LowerCaseFirstCharacterMatchesKotlin(s: string)
    ensures LowerCaseFirstCharacter(Some(s)).Ok? ==>
              StringExtensions.FirstCharLowerCase(s) == LowerCaseFirstCharacter(Some(s))
    ensures |s| == 1 ==> LowerCaseFirstCharacter(Some(s)).Err? && StringExtensions.FirstCharLowerCase(s).Ok?
  {
  }
}

/** Case folding as the device lookups use it.
    The source lower-cases both sides with the culture-sensitive ToLower;
    this model folds the ASCII letters 'A'..'Z' and leaves every other
    character as it is. */
module Text {

  /** One character folded to lower case. */
  function LowerChar(c: char): char
  {
    if 'A' <= c <= 'Z' then (c as int + 32) as char else c
  }

  /** A string folded to lower case, character by character. */
  function Lower(s: string): (r: string)
    ensures |r| == |s|
    ensures forall i :: 0 <= i < |s| ==> r[i] == LowerChar(s[i])
  {
    if s == [] then [] else [LowerChar(s[0])] + Lower(s[1..])
  }

  /** Two strings are equal up to case (`a.ToLower() == b.ToLower()`). */
  predicate SameText(a: string, b: string)
  {
    Lower(a) == Lower(b)
  }
}

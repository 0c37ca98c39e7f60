/** The one piece of Go's `strings` package the core relies on. */
module Strings {

  /** `substr` occurs in `s` starting at position `i`. */
  predicate OccursAt(s: string, substr: string, i: int) {
    0 <= i && i + |substr| <= |s| && s[i..i + |substr|] == substr
  }

  /**
   * `strings.Contains(s, substr)`: whether `substr` occurs in `s` at some
   * position. The empty string occurs in every string.
   */
  function Contains(s: string, substr: string): (r: bool)
    ensures r <==> exists i :: OccursAt(s, substr, i)
    decreases |s|
  {
    if |s| < |substr| then false
    else if s[..|substr|] == substr then
      assert OccursAt(s, substr, 0);
      true
    else
      var rest := Contains(s[1..], substr);
      assert forall i :: OccursAt(s[1..], substr, i) <==> OccursAt(s, substr, i + 1);
      assert !OccursAt(s, substr, 0);
      assert forall j :: OccursAt(s, substr, j) ==> j == 0 || OccursAt(s[1..], substr, j - 1);
      rest
  }
}

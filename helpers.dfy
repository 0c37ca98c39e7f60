/** The helper that turns an optional SDK string into the string the status shows. */
module Helpers {
  import opened Wrappers

  /** What an absent pointer prints as. */
  const NilText := "<nil>"

  /**
   * `DerefString`: a present pointer yields exactly the string it points to;
   * a nil pointer yields the text "<nil>", never the empty string. Total:
   * nil is never dereferenced.
   */
  function DerefString(s: Option<string>): (r: string)
    ensures s.Some? ==> r == s.value
    ensures s.None? ==> r == NilText
    ensures r == "" ==> s == Some("")
  {
    if s.Some? then s.value else NilText
  }

  /** Absence cannot be told apart from a present "<nil>": the projection is not injective. */
  lemma DerefStringNotInjective()
    ensures DerefString(None) == DerefString(Some(NilText))
    ensures None != Some(NilText)
  {
  }

  /** Two inputs with the same projection are equal unless one of them is nil. */
  lemma DerefStringInjectiveOnPresent(a: Option<string>, b: Option<string>)
    requires DerefString(a) == DerefString(b)
    ensures a == b || (a == None && b == Some(NilText)) || (a == Some(NilText) && b == None)
  {
  }
}

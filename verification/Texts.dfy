// What several readers of text share.
module Texts {
  import opened Options

  predicate StartsWith(text: string, prefix: string) {
    |prefix| <= |text| && text[..|prefix|] == prefix
  }

  // A length with n more characters before it.
  function Plus(n: nat, length: Option<nat>): Option<nat> {
    if length.None? then None else Some(n + length.value)
  }
}

// Names of assets: bank denoms and the case-insensitive display names.
module Assets {
  import opened Types

  predicate IsLetter(c: char) {
    'a' <= c <= 'z' || 'A' <= c <= 'Z'
  }

  predicate IsDenomChar(c: char) {
    IsLetter(c) || '0' <= c <= '9' || c in "/:._-"
  }

  /** A letter followed by 2 to 127 letters, digits or separators. */
  predicate ValidDenom(denom: string) {
    3 <= |denom| <= 128 && IsLetter(denom[0]) && forall i :: 0 <= i < |denom| ==> IsDenomChar(denom[i])
  }

  predicate IsSpace(c: char) {
    c in " \t\n\r"
  }

  function TrimLeft(s: string): string {
    if s != "" && IsSpace(s[0]) then TrimLeft(s[1..]) else s
  }

  function TrimRight(s: string): string {
    if s != "" && IsSpace(s[|s| - 1]) then TrimRight(s[..|s| - 1]) else s
  }

  function Lower(s: string): string {
    seq(|s|, i requires 0 <= i < |s| => if 'A' <= s[i] <= 'Z' then s[i] - 'A' + 'a' else s[i])
  }

  /** What two display names are compared by. */
  function Fold(name: string): string {
    Lower(TrimRight(TrimLeft(name)))
  }

  /** Some asset already answers to the name; a blank name never does. */
  predicate NameTaken(assets: map<nat, Asset>, name: string) {
    Fold(name) != "" && exists x :: x in assets && Fold(assets[x].displayName) == Fold(name)
  }
}

/** Java's `String.trim()`: drop every leading and trailing character whose
    code point is at most U+0020. */
module Text {

  const Space: char := ' '

  /** The reference meaning of "not blank": some character is above U+0020. */
  predicate HasVisibleChar(s: string) {
    exists i :: 0 <= i < |s| && s[i] > Space
  }

  function TrimLeading(s: string): (r: string)
    ensures |r| <= |s| && r == s[|s| - |r|..]
    ensures r == [] || r[0] > Space
    ensures forall i :: 0 <= i < |s| - |r| ==> s[i] <= Space
  {
    if s != [] && s[0] <= Space then TrimLeading(s[1..]) else s
  }

  function TrimTrailing(s: string): (r: string)
    ensures |r| <= |s| && r == s[..|r|]
    ensures r == [] || r[|r| - 1] > Space
    ensures forall i :: |r| <= i < |s| ==> s[i] <= Space
  {
    if s != [] && s[|s| - 1] <= Space then TrimTrailing(s[..|s| - 1]) else s
  }

  /** `s.trim()`: the result is empty exactly when `s` has no visible
      character, and otherwise starts and ends with one. */
  function Trim(s: string): (r: string)
    ensures |r| <= |s|
    ensures r == [] <==> !HasVisibleChar(s)
    ensures r != [] ==> r[0] > Space && r[|r| - 1] > Space
  {
    var lead := TrimLeading(s);
    var r := TrimTrailing(lead);
    if r == [] then
      assert lead == [];
      r
    else
      assert lead[0] > Space;
      assert s[|s| - |lead|] > Space;
      r
  }

  /** `name.trim().isEmpty()`. */
  predicate IsBlank(s: string) {
    Trim(s) == []
  }
}

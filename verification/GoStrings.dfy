/** The few functions of Go's `strings` package that the modelled code relies on.
    A string is a sequence of Unicode code points. */
module GoStrings {

  /** The code points that `unicode.IsSpace` accepts. */
  predicate IsSpace(c: char) {
    || c in {' ', '\t', '\n', '\r', '\U{000B}', '\U{000C}', '\U{0085}', '\U{00A0}'}
    || c in {'\U{1680}', '\U{2028}', '\U{2029}', '\U{202F}', '\U{205F}', '\U{3000}'}
    || '\U{2000}' <= c <= '\U{200A}'
  }

  function TrimLeft(s: string): string {
    if s == "" || !IsSpace(s[0]) then s else TrimLeft(s[1..])
  }

  function TrimRight(s: string): string {
    if s == "" || !IsSpace(s[|s| - 1]) then s else TrimRight(s[..|s| - 1])
  }

  /** `strings.TrimSpace`. */
  function TrimSpace(s: string): string {
    TrimRight(TrimLeft(s))
  }

  predicate Blank(s: string) {
    TrimSpace(s) == ""
  }

  /** No white space at either end. */
  predicate Trimmed(s: string) {
    s == "" || (!IsSpace(s[0]) && !IsSpace(s[|s| - 1]))
  }

  predicate AllSpace(s: string) {
    forall i :: 0 <= i < |s| ==> IsSpace(s[i])
  }

  lemma {:induction false} TrimLeftMeaning(s: string) returns (spaces: string)
    ensures s == spaces + TrimLeft(s) && AllSpace(spaces)
    ensures TrimLeft(s) == "" || !IsSpace(TrimLeft(s)[0])
  {
    spaces := "";
    if s != "" && IsSpace(s[0]) {
      var rest := TrimLeftMeaning(s[1..]);
      spaces := [s[0]] + rest;
    }
  }

  lemma {:induction false} TrimRightMeaning(s: string) returns (spaces: string)
    ensures s == TrimRight(s) + spaces && AllSpace(spaces)
    ensures TrimRight(s) == "" || !IsSpace(TrimRight(s)[|TrimRight(s)| - 1])
  {
    spaces := "";
    if s != "" && IsSpace(s[|s| - 1]) {
      var rest := TrimRightMeaning(s[..|s| - 1]);
      spaces := rest + [s[|s| - 1]];
    }
  }

  /** `TrimSpace` removes exactly the white space at the two ends. */
  lemma TrimSpaceMeaning(s: string) returns (left: string, right: string)
    ensures s == left + TrimSpace(s) + right && AllSpace(left) && AllSpace(right)
    ensures Trimmed(TrimSpace(s))
  {
    left := TrimLeftMeaning(s);
    right := TrimRightMeaning(TrimLeft(s));
    if TrimSpace(s) != "" { assert TrimSpace(s)[0] == TrimLeft(s)[0]; }
  }

  /** It leaves a string alone exactly when there is no white space at its ends. */
  lemma TrimmedIsKept(s: string)
    ensures Trimmed(s) <==> TrimSpace(s) == s
    ensures TrimSpace(TrimSpace(s)) == TrimSpace(s)
  {
    var _, _ := TrimSpaceMeaning(s);
  }

  lemma {:induction false} TrimLeftPast(spaces: string, rest: string)
    requires AllSpace(spaces)
    ensures TrimLeft(spaces + rest) == TrimLeft(rest)
  {
    if spaces == "" {
      assert spaces + rest == rest;
    } else {
      assert (spaces + rest)[1..] == spaces[1..] + rest;
      TrimLeftPast(spaces[1..], rest);
    }
  }

  lemma {:induction false} TrimRightPast(rest: string, spaces: string)
    requires AllSpace(spaces)
    ensures TrimRight(rest + spaces) == TrimRight(rest)
  {
    if spaces == "" {
      assert rest + spaces == rest;
    } else {
      assert (rest + spaces)[..|rest + spaces| - 1] == rest + spaces[..|spaces| - 1];
      TrimRightPast(rest, spaces[..|spaces| - 1]);
    }
  }

  /** White space around a trimmed string does not matter. */
  lemma TrimPast(left: string, core: string, right: string)
    requires AllSpace(left) && AllSpace(right) && Trimmed(core)
    ensures TrimSpace(left + core + right) == core
  {
    assert left + core + right == left + (core + right);
    TrimLeftPast(left, core + right);
    if core == "" {
      TrimLeftPast(right, "");
      assert core + right == right + "";
    } else {
      TrimRightPast(core, right);
    }
  }

  predicate HasPrefix(s: string, prefix: string) {
    prefix <= s
  }

  predicate HasSuffix(s: string, suffix: string) {
    |suffix| <= |s| && s[|s| - |suffix|..] == suffix
  }

  /** `strings.Contains`. */
  predicate Contains(s: string, part: string) {
    part <= s || (s != "" && Contains(s[1..], part))
  }
}

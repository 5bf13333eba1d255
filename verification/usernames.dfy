/** The username rule of labview/internal/access/username.go. A string is its bytes. */
module Usernames {
  import opened Text

  const MAX_USERNAME := 64

  predicate UsernameByte(b: char) {
    || 'a' <= b <= 'z' || 'A' <= b <= 'Z' || '0' <= b <= '9'
    || b == '.' || b == '_' || b == '@' || b == '-'
  }

  predicate ValidUsername(s: string) {
    0 < |s| <= MAX_USERNAME && forall i :: 0 <= i < |s| ==> UsernameByte(s[i])
  }

  /** The name, or `?` when it falls outside the rule. */
  function Username(s: string): (u: string)
    ensures 0 < |u| <= MAX_USERNAME && (ValidUsername(u) || u == "?")
  {
    if ValidUsername(s) then s else "?"
  }

  /** The case-folded sanitised name failures are counted against. */
  function ThrottleKey(s: string): string {
    Lower(Username(s))
  }

  /** Two valid names count as one exactly when they differ only in case, and every invalid name counts as one. */
  lemma KeysFoldCase(a: string, b: string)
    ensures ThrottleKey(a) == ThrottleKey(b) <==>
      (ValidUsername(a) == ValidUsername(b) && (ValidUsername(a) ==> Lower(a) == Lower(b)))
  {
    if ValidUsername(a) && !ValidUsername(b) {
      assert UsernameByte(a[0]) && Lower(a)[0] != '?';
    } else if ValidUsername(b) && !ValidUsername(a) {
      assert UsernameByte(b[0]) && Lower(b)[0] != '?';
    }
  }
}

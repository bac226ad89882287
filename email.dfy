/**
 * The e-mail check the login and sign-up screens share:
 * `/\S+@\S+\.\S+/.test(email)`. The expression is not anchored, so it
 * holds when some run of the text reads "non-space characters, `@`,
 * non-space characters, `.`, non-space characters".
 */
module Email {
  import opened Text

  const EmailRequired: string := "Email é obrigatório"
  const EmailInvalid: string := "Email inválido"

  /** The e-mail field's message on both screens: blank first, then the pattern. */
  function EmailError(email: string): string {
    if IsBlank(email) then EmailRequired
    else if !LooksLikeEmail(email) then EmailInvalid
    else ""
  }

  /** The characters of `s` from `i` to `j` (exclusive) are all non-space. */
  predicate SolidBetween(s: string, i: int, j: int)
    requires 0 <= i <= j <= |s|
  {
    forall k :: i <= k < j ==> !IsSpace(s[k])
  }

  /**
   * A match with the `@` at `a` and the `.` at `d`: one non-space
   * character just before the `@`, at least one between the two (all of
   * those non-space), and one just after the `.`.
   */
  predicate MatchAt(s: string, a: int, d: int) {
    0 < a && a + 1 < d && d + 1 < |s|
    && s[a] == '@' && s[d] == '.'
    && !IsSpace(s[a - 1]) && SolidBetween(s, a + 1, d) && !IsSpace(s[d + 1])
  }

  /** `/\S+@\S+\.\S+/.test(s)`. */
  predicate LooksLikeEmail(s: string) {
    exists a, d | 0 <= a < |s| && 0 <= d < |s| :: MatchAt(s, a, d)
  }

  /** A plain address matches. */
  lemma PlainAddressMatches()
    ensures LooksLikeEmail("ana@mail.com")
  {
    assert MatchAt("ana@mail.com", 3, 8);
  }

  /** Without an `@`, or without a `.`, nothing matches. */
  lemma NeedsAtAndDot(s: string)
    requires '@' !in s || '.' !in s
    ensures !LooksLikeEmail(s)
  {
  }

  /** Spaces around the address do not matter: the check is not anchored. */
  lemma SurroundedMatches(s: string, pre: string, post: string)
    requires LooksLikeEmail(s)
    ensures LooksLikeEmail(pre + s + post)
  {
    var a, d :| 0 <= a < |s| && 0 <= d < |s| && MatchAt(s, a, d);
    var t := pre + s + post;
    var n := |pre|;
    forall k | a + 1 + n <= k < d + n ensures !IsSpace(t[k]) {
      assert t[k] == s[k - n];
    }
    assert MatchAt(t, a + n, d + n);
  }

  /** A matching text is never blank, so the "required" message and the "invalid" message never compete. */
  lemma MatchNotBlank(s: string)
    requires LooksLikeEmail(s)
    ensures !IsBlank(s)
  {
    var a, d :| 0 <= a < |s| && 0 <= d < |s| && MatchAt(s, a, d);
    BlankIffAllSpace(s);
  }

  /** A match survives cutting the text anywhere outside it. */
  lemma SliceMatches(s: string, a: int, d: int, p: int, q: int)
    requires MatchAt(s, a, d) && 0 <= p <= a - 1 && d + 1 < q <= |s|
    ensures MatchAt(s[p..q], a - p, d - p)
  {
    var r := s[p..q];
    forall k | a + 1 - p <= k < d - p ensures !IsSpace(r[k]) {
      assert r[k] == s[k + p];
    }
  }

  /** What the screens send, the trimmed text, still matches. */
  lemma TrimmedStillMatches(s: string)
    requires LooksLikeEmail(s)
    ensures LooksLikeEmail(Trim(s))
  {
    var a, d :| 0 <= a < |s| && 0 <= d < |s| && MatchAt(s, a, d);
    TrimSlice(s);
    var p := |s| - |TrimStart(s)|;
    var q := p + |Trim(s)|;
    assert p <= a - 1 && d + 1 < q;
    SliceMatches(s, a, d, p, q);
    assert MatchAt(Trim(s), a - p, d - p);
  }

  /** The e-mail field passes exactly when the text matches the pattern, and then what is sent, the trimmed text, matches too. */
  lemma EmailErrorMeans(email: string)
    ensures EmailError(email) == "" <==> LooksLikeEmail(email)
    ensures EmailError(email) == EmailRequired <==> IsBlank(email)
    ensures EmailError(email) == "" ==> LooksLikeEmail(Trim(email))
  {
    if LooksLikeEmail(email) {
      MatchNotBlank(email);
      TrimmedStillMatches(email);
    }
  }
}

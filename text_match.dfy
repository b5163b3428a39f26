/**
 * SQL `LIKE` / `ILIKE` pattern matching, as used by the text-search fallbacks
 * (`Memory.content.ilike(f"%{query}%")`).  In a pattern `%` matches any run of
 * characters and `_` exactly one; every other character matches itself, up to
 * ASCII case for `ILIKE`.
 */
module TextMatch {

  /** ASCII lower-casing of one character; other characters are unchanged. */
  function Fold(c: char): char
  {
    if 'A' <= c <= 'Z' then (c as int + 32) as char else c
  }

  /** Case-insensitive pattern match of the whole of `s` against `p`. */
  predicate ILike(s: string, p: string)
    decreases |s| + |p|
  {
    if |p| == 0 then |s| == 0
    else if p[0] == '%' then ILike(s, p[1..]) || (|s| > 0 && ILike(s[1..], p))
    else |s| > 0 && (p[0] == '_' || Fold(s[0]) == Fold(p[0])) && ILike(s[1..], p[1..])
  }

  /** The pattern the fallbacks build from a query: `%{query}%`. */
  function ContainsPattern(query: string): string
  {
    "%" + query + "%"
  }

  /** The query holds no wildcard character. */
  predicate NoWildcards(q: string)
  {
    forall k :: 0 <= k < |q| ==> q[k] != '%' && q[k] != '_'
  }

  /** `s` starts with `q`, ignoring ASCII case. */
  predicate FoldedPrefix(s: string, q: string)
  {
    |q| <= |s| && forall k :: 0 <= k < |q| ==> Fold(s[k]) == Fold(q[k])
  }

  /** `q` occurs somewhere in `s`, ignoring ASCII case. */
  predicate FoldedSubstring(s: string, q: string)
  {
    exists i :: 0 <= i <= |s| && FoldedPrefix(s[i..], q)
  }

  lemma {:induction false} PercentMatchesAll(s: string)
    ensures ILike(s, "%")
    decreases |s|
  {
    assert "%"[1..] == "";
    if |s| > 0 {
      PercentMatchesAll(s[1..]);
    }
  }

  /** With a wildcard-free `q`, the pattern `q%` matches exactly the strings starting with `q`. */
  lemma {:induction false} PrefixPattern(s: string, q: string)
    requires NoWildcards(q)
    ensures ILike(s, q + "%") <==> FoldedPrefix(s, q)
    decreases |q|
  {
    if |q| == 0 {
      assert q + "%" == "%";
      PercentMatchesAll(s);
    } else {
      var p := q + "%";
      assert p[0] == q[0] && p[1..] == q[1..] + "%";
      assert NoWildcards(q[1..]) by {
        forall k | 0 <= k < |q[1..]| ensures q[1..][k] != '%' && q[1..][k] != '_' {
          assert q[1..][k] == q[k + 1];
        }
      }
      if |s| > 0 {
        PrefixPattern(s[1..], q[1..]);
        if FoldedPrefix(s, q) {
          forall k | 0 <= k < |q[1..]| ensures Fold(s[1..][k]) == Fold(q[1..][k]) {
            assert s[1..][k] == s[k + 1] && q[1..][k] == q[k + 1];
          }
        }
        if Fold(s[0]) == Fold(q[0]) && FoldedPrefix(s[1..], q[1..]) {
          forall k | 0 <= k < |q| ensures Fold(s[k]) == Fold(q[k]) {
            if k > 0 {
              assert s[1..][k - 1] == s[k] && q[1..][k - 1] == q[k];
            }
          }
        }
      }
    }
  }

  /** A leading `%` lets the rest of the pattern match any suffix. */
  lemma {:induction false} LeadingPercent(s: string, p: string)
    ensures ILike(s, "%" + p) <==> exists i :: 0 <= i <= |s| && ILike(s[i..], p)
    decreases |s|
  {
    var pp := "%" + p;
    assert pp[0] == '%' && pp[1..] == p;
    assert s[0..] == s;
    if |s| > 0 {
      LeadingPercent(s[1..], p);
      if ILike(s[1..], pp) {
        var i :| 0 <= i <= |s[1..]| && ILike(s[1..][i..], p);
        assert s[1..][i..] == s[i + 1..];
      }
      if exists i :: 0 <= i <= |s| && ILike(s[i..], p) {
        var i :| 0 <= i <= |s| && ILike(s[i..], p);
        if i > 0 {
          assert s[1..][i - 1..] == s[i..];
        }
      }
    }
  }

  /**
   * For a query without wildcards, `ILIKE '%query%'` is exactly a
   * case-insensitive substring test.
   */
  lemma ContainsPatternIsSubstring(s: string, q: string)
    requires NoWildcards(q)
    ensures ILike(s, ContainsPattern(q)) <==> FoldedSubstring(s, q)
  {
    assert ContainsPattern(q) == "%" + (q + "%");
    LeadingPercent(s, q + "%");
    forall i | 0 <= i <= |s| ensures ILike(s[i..], q + "%") <==> FoldedPrefix(s[i..], q) {
      PrefixPattern(s[i..], q);
    }
  }

  /**
   * The query is not escaped: a query of one `_` matches every non-empty
   * content, though no content need contain `_`.
   */
  lemma UnderscoreQueryMatchesAnyNonEmpty(s: string)
    requires |s| > 0
    ensures ILike(s, ContainsPattern("_"))
  {
    var p := ContainsPattern("_");
    assert p == "%_%" && p[1..] == "_%" && p[1..][1..] == "%";
    PercentMatchesAll(s[1..]);
    assert ILike(s, p[1..]);
  }

  /** A query of one `%` matches every content, the empty one included. */
  lemma PercentQueryMatchesAll(s: string)
    ensures ILike(s, ContainsPattern("%"))
  {
    var p := ContainsPattern("%");
    assert p == "%%%" && p[1..] == "%%" && p[1..][1..] == "%";
    PercentMatchesAll(s);
    assert ILike(s, p[1..][1..]);
    TwoPercents(s);
  }

  lemma {:induction false} TwoPercents(s: string)
    ensures ILike(s, "%%")
    decreases |s|
  {
    assert "%%"[1..] == "%";
    PercentMatchesAll(s);
  }
}

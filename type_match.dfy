/**
 * The type-restriction rule of the data-fetching router: a `$type` or
 * `$create` query token selects the content type either by its full name
 * (a token containing '.') or by its short name, with or without a
 * trailing "content".
 */
module TypeMatch {

  /** The suffix stripped from short type names, and accepted back on tokens. */
  const ContentSuffix: string := "content"

  predicate IsUpper(c: char) {
    'A' <= c <= 'Z'
  }

  /** Lower-casing of one character (ASCII letters only). */
  function LowerChar(c: char): (r: char)
    ensures !IsUpper(r)
    ensures IsUpper(c) ==> r as int == c as int + 32
    ensures !IsUpper(c) ==> r == c
  {
    if IsUpper(c) then (c as int + 32) as char else c
  }

  /** String.ToLower: every character lower-cased, in place. */
  function ToLower(s: string): (r: string)
    ensures |r| == |s|
    ensures forall i :: 0 <= i < |s| ==> r[i] == LowerChar(s[i])
  {
    seq(|s|, i requires 0 <= i < |s| => LowerChar(s[i]))
  }

  /** A lower-cased string has no upper-case letter and lower-casing it again changes nothing. */
  lemma ToLowerIdempotent(s: string)
    ensures forall i :: 0 <= i < |ToLower(s)| ==> !IsUpper(ToLower(s)[i])
    ensures ToLower(ToLower(s)) == ToLower(s)
  {
    var t := ToLower(s);
    assert forall i :: 0 <= i < |t| ==> ToLower(t)[i] == t[i];
  }

  /** Lower-casing neither creates nor removes a '.'. */
  lemma ToLowerKeepsDot(s: string)
    ensures '.' in ToLower(s) <==> '.' in s
  {
    var t := ToLower(s);
    if '.' in s {
      var i :| 0 <= i < |s| && s[i] == '.';
      assert t[i] == '.';
    }
    if '.' in t {
      var i :| 0 <= i < |t| && t[i] == '.';
      assert s[i] == '.';
    }
  }

  /** String.EndsWith for an ordinal comparison. */
  predicate EndsWith(s: string, suffix: string) {
    |suffix| <= |s| && s[|s| - |suffix|..] == suffix
  }

  /** The helper UpToLast, in the one case the router uses: `s` ends with `suffix`, which is removed. */
  function UpToLast(s: string, suffix: string): (r: string)
    requires EndsWith(s, suffix)
    ensures r + suffix == s
  {
    s[..|s| - |suffix|]
  }

  /** The lower-cased short name with one trailing "content" removed. */
  function ShortStem(name: string): (stem: string)
    ensures var n := ToLower(name);
      if EndsWith(n, ContentSuffix) then stem + ContentSuffix == n else stem == n
  {
    var n := ToLower(name);
    if EndsWith(n, ContentSuffix) then UpToLast(n, ContentSuffix) else n
  }

  /**
   * Does query token `token` select the content type whose full name is
   * `fullName` and whose short name is `name`?
   */
  predicate Matches(token: string, fullName: string, name: string) {
    var spec := ToLower(token);
    if '.' in spec then
      ToLower(fullName) == spec
    else
      var stem := ShortStem(name);
      stem == spec || stem + ContentSuffix == spec
  }

  /**
   * A token carrying a '.' is compared with the whole full name, ignoring
   * case, and nothing else: no suffix is stripped and the short name plays no part.
   */
  lemma FullNameRule(token: string, fullName: string, name: string)
    requires '.' in token
    ensures Matches(token, fullName, name) <==> ToLower(token) == ToLower(fullName)
  {
    ToLowerKeepsDot(token);
  }

  /**
   * A token without '.' matches exactly when, ignoring case, it is the short
   * name itself, the short name less a trailing "content", or (for a short
   * name that does not end in "content") the short name plus "content".
   */
  lemma ShortNameRule(token: string, fullName: string, name: string)
    requires '.' !in token
    ensures var t, n := ToLower(token), ToLower(name);
      Matches(token, fullName, name) <==>
        (t == n || t + ContentSuffix == n || (!EndsWith(n, ContentSuffix) && t == n + ContentSuffix))
  {
    ToLowerKeepsDot(token);
    var t, n := ToLower(token), ToLower(name);
    var stem := ShortStem(name);
    if EndsWith(n, ContentSuffix) {
      assert stem + ContentSuffix == n;
      if t + ContentSuffix == n {
        AppendCancel(t, stem, ContentSuffix);
      }
    }
  }

  /** Equal strings with a common suffix have equal prefixes. */
  lemma AppendCancel(a: string, b: string, suffix: string)
    requires a + suffix == b + suffix
    ensures a == b
  {
    assert |a| == |b|;
    assert forall i :: 0 <= i < |a| ==> a[i] == (a + suffix)[i] && b[i] == (b + suffix)[i];
  }

  /** The rule is case-insensitive on the token and on both type names. */
  lemma MatchesIgnoresCase(token: string, fullName: string, name: string)
    ensures Matches(token, fullName, name) == Matches(ToLower(token), ToLower(fullName), ToLower(name))
  {
    ToLowerIdempotent(token);
    ToLowerIdempotent(fullName);
    ToLowerIdempotent(name);
    assert ShortStem(ToLower(name)) == ShortStem(name);
  }

  const BlogPostFullName: string := "Lynicon.Models.BlogPostContent"
  const BlogPostName: string := "BlogPostContent"

  lemma BlogPostStem()
    ensures ShortStem(BlogPostName) == "blogpost"
  {
    LowerIs(BlogPostName, "blogpost" + ContentSuffix);
    StemIs(BlogPostName, "blogpost");
  }

  /** For `BlogPostContent`, the short-name tokens "blogpost", "blogpostcontent" and "BlogPost" match and "blog" does not. */
  lemma BlogPostShortNameExamples()
    ensures Matches("blogpost", BlogPostFullName, BlogPostName)
    ensures Matches("blogpostcontent", BlogPostFullName, BlogPostName)
    ensures Matches("BlogPost", BlogPostFullName, BlogPostName)
    ensures !Matches("blog", BlogPostFullName, BlogPostName)
  {
    BlogPostStem();
    LowerIs("blogpost", "blogpost");
    LowerIs("blogpostcontent", "blogpost" + ContentSuffix);
    LowerIs("BlogPost", "blogpost");
    LowerIs("blog", "blog");
    assert |"blog"| != |"blogpost"| && |"blog"| != |"blogpost" + ContentSuffix|;
  }

  /** For `Lynicon.Models.BlogPostContent`, a dotted token must be the whole full name: no "content" is stripped. */
  lemma BlogPostFullNameExamples()
    ensures Matches("lynicon.models.blogpostcontent", BlogPostFullName, BlogPostName)
    ensures !Matches("lynicon.models.blogpost", BlogPostFullName, BlogPostName)
  {
    LowerIs(BlogPostFullName, "lynicon.models.blogpostcontent");
    LowerIs("lynicon.models.blogpostcontent", "lynicon.models.blogpostcontent");
    LowerIs("lynicon.models.blogpost", "lynicon.models.blogpost");
    assert "lynicon.models.blogpostcontent"[7] == '.';
    assert "lynicon.models.blogpost"[7] == '.';
    assert |"lynicon.models.blogpost"| != |"lynicon.models.blogpostcontent"|;
  }

  /** Helper for concrete cases: the stem of a short name that lower-cases to `stem` + "content". */
  lemma StemIs(name: string, stem: string)
    requires ToLower(name) == stem + ContentSuffix
    ensures ShortStem(name) == stem
  {
    var n := ToLower(name);
    assert n[|n| - |ContentSuffix|..] == ContentSuffix;
    AppendCancel(UpToLast(n, ContentSuffix), stem, ContentSuffix);
  }

  /** Helper for concrete cases: `lower` is the lower-cased form of `s`. */
  lemma LowerIs(s: string, lower: string)
    requires |s| == |lower|
    requires forall i :: 0 <= i < |s| ==> LowerChar(s[i]) == lower[i]
    ensures ToLower(s) == lower
  {
  }
}

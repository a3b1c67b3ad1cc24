/** The tag stripper of the PDF export: `re.sub('<[^<]+?>', '', text)`.
    The pattern is a `<`, then one or more characters other than `<`,
    taken lazily, up to the nearest `>`; `re.sub` removes the leftmost
    match, resumes scanning just after it, and keeps every character at
    which no match starts. */
module Markup {
  import opened Payloads

  /** s[..n] is a match of `<[^<]+>` (ignoring laziness): it opens with `<`,
      closes with `>`, and has at least one character between them, none of which is `<`. */
  predicate IsTag(s: string, n: nat)
  {
    3 <= n <= |s| && s[0] == '<' && s[n - 1] == '>' &&
    forall k :: 1 <= k < n - 1 ==> s[k] != '<'
  }

  /** Scans for the `>` that closes a tag opened at s[0], having already seen
      s[1..k] without a `<` and, past s[1], without a `>`. */
  function CloseFrom(s: string, k: nat): (end: Option<nat>)
    requires 2 <= k <= |s| && s[0] == '<'
    requires forall j :: 1 <= j < k ==> s[j] != '<'
    requires forall j :: 2 <= j < k ==> s[j] != '>'
    ensures end.Some? ==> IsTag(s, end.value) && forall m :: 3 <= m < end.value ==> !IsTag(s, m)
    ensures end.None? ==> forall m :: !IsTag(s, m)
    decreases |s| - k
  {
    if k == |s| then None
    else if s[k] == '>' then Some(k + 1)
    else if s[k] == '<' then None
    else CloseFrom(s, k + 1)
  }

  /** The length of the lazy match at the start of s, if the pattern matches there:
      the shortest prefix that is a tag, and None when no prefix is one. */
  function TagLength(s: string): (n: Option<nat>)
    ensures n.Some? ==> IsTag(s, n.value) && forall m :: 3 <= m < n.value ==> !IsTag(s, m)
    ensures n.None? ==> forall m :: !IsTag(s, m)
  {
    if 2 <= |s| && s[0] == '<' && s[1] != '<' then CloseFrom(s, 2) else None
  }

  /** `re.sub('<[^<]+?>', '', s)`: leftmost, non-overlapping, lazy removal. */
  function StripTags(s: string): (r: string)
    ensures |r| <= |s|
    decreases |s|
  {
    if s == [] then []
    else
      match TagLength(s)
      case Some(n) => StripTags(s[n..])
      case None => [s[0]] + StripTags(s[1..])
  }

  predicate NoOpen(s: string)
  {
    forall k :: 0 <= k < |s| ==> s[k] != '<'
  }

  /** a is a subsequence of b: a can be obtained from b by deleting characters. */
  predicate IsSubsequence(a: string, b: string)
    decreases |b|
  {
    a == [] ||
    (b != [] && ((a[0] == b[0] && IsSubsequence(a[1..], b[1..])) || IsSubsequence(a, b[1..])))
  }

  /** Text without a `<` passes through unchanged. */
  lemma {:induction false} StripTagsNoOpen(s: string)
    requires NoOpen(s)
    ensures StripTags(s) == s
  {
    if s != [] {
      assert TagLength(s).None?;
      assert NoOpen(s[1..]);
      StripTagsNoOpen(s[1..]);
    }
  }

  /** Dropping a prefix of b keeps a subsequence of what remains a subsequence of b. */
  lemma {:induction false} SubsequenceOfSuffix(a: string, b: string, n: nat)
    requires n <= |b| && IsSubsequence(a, b[n..])
    ensures IsSubsequence(a, b)
    decreases n
  {
    if n > 0 {
      assert b[n - 1..][1..] == b[n..];
      SubsequenceOfSuffix(a, b, n - 1);
    }
  }

  /** The characters that survive keep their relative order: the output is
      the input with some characters deleted. */
  lemma {:induction false} StripTagsSubsequence(s: string)
    ensures IsSubsequence(StripTags(s), s)
    decreases |s|
  {
    if s != [] {
      match TagLength(s)
      case Some(n) =>
        StripTagsSubsequence(s[n..]);
        SubsequenceOfSuffix(StripTags(s), s, n);
      case None =>
        StripTagsSubsequence(s[1..]);
        assert StripTags(s) == [s[0]] + StripTags(s[1..]);
        assert ([s[0]] + StripTags(s[1..]))[1..] == StripTags(s[1..]);
    }
  }

  /** A prefix without `<` is copied verbatim and scanning resumes after it. */
  lemma {:induction false} StripTagsPlainPrefix(a: string, b: string)
    requires NoOpen(a)
    ensures StripTags(a + b) == a + StripTags(b)
    decreases |a|
  {
    if a == [] {
      assert a + b == b;
    } else {
      assert (a + b)[0] == a[0];
      assert TagLength(a + b).None?;
      assert (a + b)[1..] == a[1..] + b;
      assert NoOpen(a[1..]);
      StripTagsPlainPrefix(a[1..], b);
    }
  }

  /** A simple tag `<body>`, with a non-empty body free of `<` and `>`,
      is removed whole and scanning resumes right after its `>`. */
  lemma StripTagsRemovesTag(body: string, rest: string)
    requires body != [] && NoOpen(body) && forall k :: 0 <= k < |body| ==> body[k] != '>'
    ensures StripTags("<" + body + ">" + rest) == StripTags(rest)
  {
    var s := "<" + body + ">" + rest;
    var n := |body| + 2;
    assert s[..n] == "<" + body + ">";
    assert forall k :: 1 <= k < n - 1 ==> s[k] == body[k - 1];
    assert IsTag(s, n);
    match TagLength(s)
    case None =>
      assert false;
    case Some(m) =>
      assert m == n;
      assert s[n..] == rest;
  }

  /** Example: "<p>Mix <b>well</b></p>" becomes "Mix well". */
  lemma StripExample()
    ensures StripTags("<p>" + "Mix " + "<b>" + "well" + "</b>" + "</p>") == "Mix well"
  {
    var closing := "</b>" + "</p>";
    assert StripTags(closing) == "" by {
      assert "</p>" == "<" + "/p" + ">" + "";
      StripTagsRemovesTag("/p", "");
      assert "</b>" == "<" + "/b" + ">";
      StripTagsRemovesTag("/b", "</p>");
    }
    assert StripTags("<b>" + "well" + closing) == "well" by {
      StripTagsPlainPrefix("well", closing);
      assert "<b>" + "well" + closing == "<" + "b" + ">" + ("well" + closing);
      StripTagsRemovesTag("b", "well" + closing);
    }
    var inner := "Mix " + ("<b>" + "well" + closing);
    assert StripTags(inner) == "Mix well" by {
      StripTagsPlainPrefix("Mix ", "<b>" + "well" + closing);
    }
    assert "<p>" == "<" + "p" + ">";
    StripTagsRemovesTag("p", inner);
    assert "<p>" + "Mix " + "<b>" + "well" + "</b>" + "</p>" == "<" + "p" + ">" + inner;
  }

  /** "<>" has no character between the brackets for `[^<]+?` and survives;
      in "<>>" the first `>` is that character and the whole text is one tag. */
  lemma EmptyTagBoundary()
    ensures StripTags("<>") == "<>"
    ensures StripTags("<>>") == ""
  {
  }

  /** Stripping is not idempotent: "<<a>b>" loses only "<a>", and the
      characters left behind form a new tag "<b>". */
  lemma StripNotIdempotent()
    ensures StripTags("<<a>b>") == "<b>"
    ensures StripTags(StripTags("<<a>b>")) == ""
  {
  }
}

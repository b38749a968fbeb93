/**
 * What `TextPreprocessor.preprocess` guarantees, proved about the model in
 * module Preprocessor: the shape of the whitespace, the truncation bound, the
 * removals (no match survives, other words are kept), and the strings the
 * preprocessor leaves alone.
 */
module PreprocessorProps {
  import opened Wrappers
  import opened Text
  import opened Preprocessor

  // ---------------------------------------------------------------------
  // Whitespace: only single U+0020 spaces, never at the front
  // ---------------------------------------------------------------------

  /** Every whitespace character is U+0020 and no two spaces are adjacent. */
  ghost predicate SingleSpaced(s: string) {
    && (forall i :: 0 <= i < |s| && IsSpace(s[i]) ==> s[i] == ' ')
    && (forall i :: 0 <= i < |s| - 1 ==> !(s[i] == ' ' && s[i + 1] == ' '))
  }

  /** No whitespace at either end. */
  ghost predicate Trimmed(s: string) {
    s != [] ==> !IsSpace(s[0]) && !IsSpace(s[|s| - 1])
  }

  lemma {:induction false} CollapseSingleSpaced(s: string)
    ensures SingleSpaced(Collapse(s))
    ensures |Collapse(s)| > 0 <==> |s| > 0
    ensures |s| > 0 ==> (IsSpace(Collapse(s)[0]) <==> IsSpace(s[0]))
    decreases |s|
  {
    if s != [] {
      var r := Collapse(s);
      if IsSpace(s[0]) {
        var n := LeadingSpaces(s);
        assert MatchLen(Whitespace, s) == Some(n);
        var rest := Collapse(s[n..]);
        CollapseSingleSpaced(s[n..]);
        assert r == " " + rest;
        assert n < |s| ==> s[n..][0] == s[n];
        assert rest != [] ==> !IsSpace(rest[0]);
        assert forall i :: 1 <= i < |r| ==> r[i] == rest[i - 1];
      } else {
        assert MatchLen(Whitespace, s).None?;
        var rest := Collapse(s[1..]);
        CollapseSingleSpaced(s[1..]);
        assert r == [s[0]] + rest;
        assert forall i :: 1 <= i < |r| ==> r[i] == rest[i - 1];
      }
    }
  }

  lemma SingleSpacedSlice(s: string, a: nat, b: nat)
    requires SingleSpaced(s) && a <= b <= |s|
    ensures SingleSpaced(s[a..b])
  {
    var t := s[a..b];
    assert forall i :: 0 <= i < |t| ==> t[i] == s[a + i];
  }

  lemma CleanedOfEmpty(cfg: TextPreprocessor)
    ensures Cleaned(cfg, "") == ""
  {
    assert Removals(cfg, "") == "";
    assert Lower("") == "";
    assert Collapse("") == "";
  }

  /**
   * The output holds no whitespace other than single U+0020 spaces, never
   * starts with whitespace, and ends with whitespace only when the
   * truncation cut the cleaned text right after a space.
   */
  lemma PreprocessWhitespace(cfg: TextPreprocessor, text: string)
    ensures SingleSpaced(Preprocess(cfg, text))
    ensures Trimmed(Cleaned(cfg, text))
    ensures Preprocess(cfg, text) != [] ==> !IsSpace(Preprocess(cfg, text)[0])
    ensures Preprocess(cfg, text) != [] && IsSpace(Preprocess(cfg, text)[|Preprocess(cfg, text)| - 1]) ==>
              cfg.Truncates() && |Preprocess(cfg, text)| < |Cleaned(cfg, text)|
  {
    CleanedShape(cfg, text);
    var c := Cleaned(cfg, text);
    var r := Preprocess(cfg, text);
    if text != [] {
      SingleSpacedSlice(c, 0, |r|);
      if r != [] {
        assert r[0] == c[0];
      }
    }
  }

  /** The cleaned text is single-spaced and has no whitespace at either end. */
  lemma CleanedShape(cfg: TextPreprocessor, text: string)
    ensures SingleSpaced(Cleaned(cfg, text)) && Trimmed(Cleaned(cfg, text))
  {
    var cased := Cased(cfg, Removals(cfg, text));
    var collapsed := Collapse(cased);
    CollapseSingleSpaced(cased);
    StripIsSlice(collapsed);
    if Cleaned(cfg, text) != [] {
      SingleSpacedSlice(collapsed, LeadingSpaces(collapsed), |collapsed| - TrailingSpaces(collapsed));
    }
  }

  // ---------------------------------------------------------------------
  // Truncation (lines 75-76)
  // ---------------------------------------------------------------------

  /**
   * The output is a prefix of the cleaned, stripped text.  A positive
   * `max_length` bounds its length and is reached exactly when the cleaned
   * text was longer; `None` or `0` disables the cut; a negative value cuts
   * that many characters off the end, as Python's slice does.
   */
  lemma PreprocessLength(cfg: TextPreprocessor, text: string)
    ensures Preprocess(cfg, text) == Cleaned(cfg, text)[..|Preprocess(cfg, text)|]
    ensures !cfg.Truncates() ==> Preprocess(cfg, text) == Cleaned(cfg, text)
    ensures cfg.Truncates() && cfg.maxLength.value > 0 ==>
              && |Preprocess(cfg, text)| <= cfg.maxLength.value
              && (|Cleaned(cfg, text)| > cfg.maxLength.value ==> |Preprocess(cfg, text)| == cfg.maxLength.value)
              && (|Cleaned(cfg, text)| <= cfg.maxLength.value ==> Preprocess(cfg, text) == Cleaned(cfg, text))
    ensures cfg.Truncates() && cfg.maxLength.value < 0 ==>
              |Preprocess(cfg, text)| == if |Cleaned(cfg, text)| + cfg.maxLength.value >= 0
                                         then |Cleaned(cfg, text)| + cfg.maxLength.value else 0
  {
    if text == [] {
      CleanedOfEmpty(cfg);
    } else {
    }
  }

  // ---------------------------------------------------------------------
  // Matches depend only on the leading non-whitespace run
  // ---------------------------------------------------------------------

  lemma UrlPrefixesNonSpace()
    ensures forall i :: 0 <= i < 7 ==> !IsSpace("http://"[i])
    ensures forall i :: 0 <= i < 8 ==> !IsSpace("https://"[i])
    ensures forall i :: 0 <= i < 4 ==> !IsSpace("www."[i])
  {
  }

  lemma PrefixWithinRun(t: string, prefix: string)
    requires forall i :: 0 <= i < |prefix| ==> !IsSpace(prefix[i])
    requires PrefixThenNonSpace(t, prefix)
    ensures PrefixThenNonSpace(t[..RunLen(t)], prefix)
  {
    forall i | 0 <= i <= |prefix| ensures !IsSpace(t[i]) {
      if i < |prefix| { assert t[i] == t[..|prefix|][i]; }
    }
    RunLenAtLeast(t, |prefix| + 1);
    var u := t[..RunLen(t)];
    assert u[..|prefix|] == t[..|prefix|];
  }

  /** A removal pattern that matches at the head of `t` already matches the leading run alone. */
  lemma MatchNeedsRun(p: Pattern, t: string)
    requires p != Whitespace && MatchLen(p, t).Some?
    ensures MatchLen(p, t[..RunLen(t)]).Some?
  {
    var u := t[..RunLen(t)];
    match p
    case Url =>
      UrlPrefixesNonSpace();
      if PrefixThenNonSpace(t, "http://") {
        PrefixWithinRun(t, "http://");
      } else if PrefixThenNonSpace(t, "https://") {
        PrefixWithinRun(t, "https://");
      } else {
        PrefixWithinRun(t, "www.");
      }
    case Email =>
      var k :| 1 <= k < RunLen(t) - 1 && t[k] == '@';
      RunLenAtLeast(u, |u|);
      assert u[k] == '@';
      assert EmailAt(u);
    case Mention =>
      WordCharIsNotSpace(t[1]);
      RunLenAtLeast(t, 2);
      assert SigilAt(u, '@');
    case Hashtag =>
      WordCharIsNotSpace(t[1]);
      RunLenAtLeast(t, 2);
      assert SigilAt(u, '#');
  }

  lemma PrefixMonotone(u: string, v: string, prefix: string)
    requires |u| <= |v| && u == v[..|u|]
    requires PrefixThenNonSpace(u, prefix)
    ensures PrefixThenNonSpace(v, prefix)
  {
    assert v[..|prefix|] == u[..|prefix|];
  }

  /** Extending a string on the right never destroys a match at its head. */
  lemma MatchMonotone(p: Pattern, u: string, v: string)
    requires |u| <= |v| && u == v[..|u|]
    requires MatchLen(p, u).Some?
    ensures MatchLen(p, v).Some?
  {
    match p
    case Url =>
      if PrefixThenNonSpace(u, "http://") {
        PrefixMonotone(u, v, "http://");
      } else if PrefixThenNonSpace(u, "https://") {
        PrefixMonotone(u, v, "https://");
      } else {
        PrefixMonotone(u, v, "www.");
      }
    case Email =>
      var k :| 1 <= k < RunLen(u) - 1 && u[k] == '@';
      RunLenAtLeast(v, RunLen(u));
      assert v[k] == '@';
      assert EmailAt(v);
    case Mention =>
      assert SigilAt(v, '@');
    case Hashtag =>
      assert SigilAt(v, '#');
    case Whitespace =>
      assert v[0] == u[0];
  }

  /** The leading run of `Sub(q, s)` is a prefix of the leading run of `s`. */
  lemma {:induction false} SubRunPrefix(q: Pattern, s: string)
    ensures RunLen(Sub(q, s)) <= RunLen(s)
    ensures Sub(q, s)[..RunLen(Sub(q, s))] == s[..RunLen(Sub(q, s))]
    decreases |s|
  {
    if s != [] {
      var r := Sub(q, s);
      match MatchLen(q, s)
      case Some(n) =>
        assert r == " " + Sub(q, s[n..]);
        assert IsSpace(r[0]);
      case None =>
        var rest := Sub(q, s[1..]);
        SubKeeps(q, s);
        if !IsSpace(s[0]) {
          SubRunPrefix(q, s[1..]);
          var k := RunLen(rest);
          ConsParts(s[0], rest, k);
          HeadTail(s);
          ConsParts(s[0], s[1..], k);
          assert RunLen(r) == 1 + k;
          assert RunLen(s) == 1 + RunLen(s[1..]);
        }
    }
  }

  lemma NoMatchSuffix(p: Pattern, s: string, k: nat)
    requires NoMatch(p, s) && k <= |s|
    ensures NoMatch(p, s[k..])
  {
    forall i | 0 <= i < |s| - k ensures MatchLen(p, s[k..][i..]).None? {
      assert s[k..][i..] == s[k + i..];
    }
  }

  /** A slice of a string without matches has none either. */
  lemma NoMatchSlice(p: Pattern, s: string, a: nat, b: nat)
    requires NoMatch(p, s) && a <= b <= |s|
    ensures NoMatch(p, s[a..b])
  {
    forall i | 0 <= i < b - a ensures MatchLen(p, s[a..b][i..]).None? {
      var t := s[a..b][i..];
      assert t == s[a + i..][..|t|];
      if MatchLen(p, t).Some? {
        MatchMonotone(p, t, s[a + i..]);
      }
    }
  }

  /**
   * A substitution by any pattern `q` never creates a match of a removal
   * pattern `p`, and after `Sub(p, _)` no match of `p` is left at all.
   */
  lemma {:induction false} SubKeepsNoMatch(p: Pattern, q: Pattern, s: string)
    requires p != Whitespace
    requires p == q || NoMatch(p, s)
    ensures NoMatch(p, Sub(q, s))
    decreases |s|
  {
    if s != [] {
      var r := Sub(q, s);
      assert s[0..] == s;
      match MatchLen(q, s)
      case Some(n) =>
        if p != q { NoMatchSuffix(p, s, n); }
        SubKeepsNoMatch(p, q, s[n..]);
        var rest := Sub(q, s[n..]);
        assert r == " " + rest;
        forall i | 0 <= i < |r| ensures MatchLen(p, r[i..]).None? {
          if i == 0 {
            assert r[0..] == r;
          } else {
            assert r[i..] == rest[i - 1..];
          }
        }
      case None =>
        if p != q { NoMatchSuffix(p, s, 1); }
        SubKeepsNoMatch(p, q, s[1..]);
        var rest := Sub(q, s[1..]);
        assert r == [s[0]] + rest;
        forall i | 0 <= i < |r| ensures MatchLen(p, r[i..]).None? {
          if i == 0 {
            assert r[0..] == r;
            if MatchLen(p, r).Some? {
              MatchNeedsRun(p, r);
              SubRunPrefix(q, s);
              var u := r[..RunLen(r)];
              assert u == s[..|u|];
              MatchMonotone(p, u, s);
            }
          } else {
            assert r[i..] == rest[i - 1..];
          }
        }
    }
  }

  lemma {:induction false} RunLenLower(t: string)
    ensures RunLen(Lower(t)) == RunLen(t)
    decreases |t|
  {
    if t != [] {
      LowerCharKeepsClasses(t[0]);
      assert Lower(t)[1..] == Lower(t[1..]);
      RunLenLower(t[1..]);
    }
  }

  /** Lowercasing cannot create an e-mail, mention or hashtag match. */
  lemma MatchLenLower(p: Pattern, t: string)
    requires p == Email || p == Mention || p == Hashtag
    requires MatchLen(p, Lower(t)).Some?
    ensures MatchLen(p, t).Some?
  {
    var l := Lower(t);
    match p
    case Email =>
      RunLenLower(t);
      var k :| 1 <= k < RunLen(l) - 1 && l[k] == '@';
      LowerCharKeepsClasses(t[k]);
      assert EmailAt(t);
    case Mention =>
      LowerCharKeepsClasses(t[0]);
      LowerCharKeepsClasses(t[1]);
    case Hashtag =>
      LowerCharKeepsClasses(t[0]);
      LowerCharKeepsClasses(t[1]);
  }

  lemma NoMatchLower(p: Pattern, s: string)
    requires p == Email || p == Mention || p == Hashtag
    requires NoMatch(p, s)
    ensures NoMatch(p, Lower(s))
  {
    forall i | 0 <= i < |s| ensures MatchLen(p, Lower(s)[i..]).None? {
      LowerSuffix(s, i);
      if MatchLen(p, Lower(s[i..])).Some? {
        MatchLenLower(p, s[i..]);
      }
    }
  }

  lemma SubIfKeepsNoMatch(enabled: bool, p: Pattern, q: Pattern, s: string)
    requires p != Whitespace && NoMatch(p, s)
    ensures NoMatch(p, SubIf(enabled, q, s))
  {
    if enabled { SubKeepsNoMatch(p, q, s); }
  }

  /** After the removal steps, no match of an enabled removal pattern is left. */
  lemma RemovalsNoMatch(cfg: TextPreprocessor, text: string, p: Pattern)
    requires p != Whitespace && cfg.Removes(p)
    ensures NoMatch(p, Removals(cfg, text))
  {
    var t1 := SubIf(cfg.removeUrls, Url, text);
    var t2 := SubIf(cfg.removeEmails, Email, t1);
    var t3 := SubIf(cfg.removeMentions, Mention, t2);
    match p
    case Url =>
      SubKeepsNoMatch(Url, Url, text);
      SubIfKeepsNoMatch(cfg.removeEmails, Url, Email, t1);
      SubIfKeepsNoMatch(cfg.removeMentions, Url, Mention, t2);
      SubIfKeepsNoMatch(cfg.removeHashtags, Url, Hashtag, t3);
    case Email =>
      SubKeepsNoMatch(Email, Email, t1);
      SubIfKeepsNoMatch(cfg.removeMentions, Email, Mention, t2);
      SubIfKeepsNoMatch(cfg.removeHashtags, Email, Hashtag, t3);
    case Mention =>
      SubKeepsNoMatch(Mention, Mention, t2);
      SubIfKeepsNoMatch(cfg.removeHashtags, Mention, Hashtag, t3);
    case Hashtag =>
      SubKeepsNoMatch(Hashtag, Hashtag, t3);
  }

  /**
   * With a removal enabled, its pattern matches nowhere in the output: no URL,
   * e-mail address, mention or hashtag survives.  For URLs this needs
   * lowercasing off, since lowercasing runs after the removal and turns
   * `HTTP://x` into a URL (see `LowercaseRevivesUrl`).
   */
  lemma PreprocessRemoves(cfg: TextPreprocessor, text: string, p: Pattern)
    requires p != Whitespace && cfg.Removes(p)
    requires !(cfg.lowercase && p == Url)
    ensures NoMatch(p, Cleaned(cfg, text))
    ensures NoMatch(p, Preprocess(cfg, text))
  {
    CleanedRemoves(cfg, text, p);
    var c := Cleaned(cfg, text);
    if text != [] {
      NoMatchSlice(p, c, 0, |Preprocess(cfg, text)|);
    }
  }

  lemma CleanedRemoves(cfg: TextPreprocessor, text: string, p: Pattern)
    requires p != Whitespace && cfg.Removes(p)
    requires !(cfg.lowercase && p == Url)
    ensures NoMatch(p, Cleaned(cfg, text))
  {
    var removed := Removals(cfg, text);
    RemovalsNoMatch(cfg, text, p);
    var cased := Cased(cfg, removed);
    if cfg.lowercase { NoMatchLower(p, removed); }
    SubKeepsNoMatch(p, Whitespace, cased);
    StripKeepsNoMatch(p, Collapse(cased));
  }

  lemma StripKeepsNoMatch(p: Pattern, s: string)
    requires NoMatch(p, s)
    ensures NoMatch(p, Strip(s))
  {
    StripIsSlice(s);
    if Strip(s) != [] {
      NoMatchSlice(p, s, LeadingSpaces(s), |s| - TrailingSpaces(s));
    }
  }

  // ---------------------------------------------------------------------
  // Substitution works word by word
  // ---------------------------------------------------------------------

  lemma PrefixThenNonSpaceAppend(a: string, u: string, prefix: string)
    requires a != [] && (u == [] || IsSpace(u[0]))
    requires forall i :: 0 <= i < |prefix| ==> !IsSpace(prefix[i])
    ensures PrefixThenNonSpace(a + u, prefix) <==> PrefixThenNonSpace(a, prefix)
  {
    if |prefix| < |a| {
      assert (a + u)[..|prefix|] == a[..|prefix|];
      assert (a + u)[|prefix|] == a[|prefix|];
    } else if |prefix| < |a + u| {
      assert (a + u)[|a|] == u[0];
      if |a| < |prefix| {
        assert (a + u)[..|prefix|][|a|] != prefix[|a|];
      }
    }
  }

  lemma UrlLocal(a: string, u: string)
    requires a != [] && (u == [] || IsSpace(u[0]))
    ensures UrlAt(a + u) <==> UrlAt(a)
  {
    UrlPrefixesNonSpace();
    PrefixThenNonSpaceAppend(a, u, "http://");
    PrefixThenNonSpaceAppend(a, u, "https://");
    PrefixThenNonSpaceAppend(a, u, "www.");
  }

  lemma EmailLocal(a: string, u: string)
    requires a != [] && (u == [] || IsSpace(u[0]))
    ensures EmailAt(a + u) <==> EmailAt(a)
  {
    RunLenAppend(a, u);
    if EmailAt(a + u) {
      var k :| 1 <= k < RunLen(a + u) - 1 && (a + u)[k] == '@';
      assert a[k] == '@';
    }
    if EmailAt(a) {
      var k :| 1 <= k < RunLen(a) - 1 && a[k] == '@';
      assert (a + u)[k] == '@';
    }
  }

  lemma SigilLocal(a: string, u: string, sigil: char)
    requires a != [] && (u == [] || IsSpace(u[0]))
    ensures SigilAt(a + u, sigil) <==> SigilAt(a, sigil)
    ensures SigilAt(a, sigil) ==> WordLen((a + u)[1..]) == WordLen(a[1..])
  {
    if |a| == 1 && u != [] {
      assert (a + u)[1] == u[0];
      WordCharIsNotSpace(u[0]);
    }
    DropAppend(a, u, 1);
    WordLenAppend(a[1..], u);
  }

  /** A match that starts in `a` never reaches past whitespace that follows `a`. */
  lemma MatchLocal(p: Pattern, a: string, u: string)
    requires p != Whitespace && a != [] && (u == [] || IsSpace(u[0]))
    ensures MatchLen(p, a + u) == MatchLen(p, a)
  {
    RunLenAppend(a, u);
    match p
    case Url => UrlLocal(a, u);
    case Email => EmailLocal(a, u);
    case Mention => SigilLocal(a, u, '@');
    case Hashtag => SigilLocal(a, u, '#');
  }

  // Small equations about `Sub` and concatenation, used as steps below.  The
  // sequence identities are lemmas rather than inline assertions so that each is
  // proved in a context of its own: inline, they push the proofs about `Sub`
  // (`SubAppend`, `SubRunPrefix`, `CollapseAppend`) past the resource limit.

  lemma AppendAssoc(x: string, y: string, z: string)
    ensures (x + y) + z == x + (y + z)
  {
  }

  lemma ConsParts(c: char, x: string, k: nat)
    requires k <= |x|
    ensures ([c] + x)[0] == c && ([c] + x)[1..] == x
    ensures ([c] + x)[..k + 1] == [c] + x[..k]
  {
  }

  lemma HeadTail(s: string)
    requires s != []
    ensures s == [s[0]] + s[1..]
  {
  }

  lemma DropAppend(a: string, u: string, n: nat)
    requires n <= |a|
    ensures (a + u)[n..] == a[n..] + u
  {
  }

  /** `Sub` on a string whose head is not a match keeps the head character. */
  lemma SubKeeps(p: Pattern, s: string)
    requires s != [] && MatchLen(p, s).None?
    ensures Sub(p, s) == [s[0]] + Sub(p, s[1..])
  {
  }

  /** `Sub` on a string whose head is a match replaces it by one space. */
  lemma SubReplaces(p: Pattern, s: string)
    requires s != [] && MatchLen(p, s).Some?
    ensures Sub(p, s) == " " + Sub(p, s[MatchLen(p, s).value..])
  {
  }

  lemma {:induction false} SubAppend(p: Pattern, a: string, u: string)
    requires p != Whitespace && (u == [] || IsSpace(u[0]))
    ensures Sub(p, a + u) == Sub(p, a) + Sub(p, u)
    decreases |a|
  {
    if a == [] {
      assert a + u == u;
    } else {
      MatchLocal(p, a, u);
      var m := MatchLen(p, a);
      var n := if m.Some? then m.value else 1;
      DropAppend(a, u, n);
      SubAppend(p, a[n..], u);
      if m.Some? {
        SubReplaces(p, a);
        SubReplaces(p, a + u);
        AppendAssoc(" ", Sub(p, a[n..]), Sub(p, u));
      } else {
        SubKeeps(p, a);
        SubKeeps(p, a + u);
        assert (a + u)[0] == a[0];
        AppendAssoc([a[0]], Sub(p, a[n..]), Sub(p, u));
      }
    }
  }

  /**
   * A removal works on each whitespace-separated piece on its own: the
   * separating whitespace character is kept as it is.
   */
  lemma SubSplitAtSpace(p: Pattern, a: string, c: char, b: string)
    requires p != Whitespace && IsSpace(c)
    ensures Sub(p, a + [c] + b) == Sub(p, a) + [c] + Sub(p, b)
  {
    AppendAssoc(a, [c], b);
    SubAppend(p, a, [c] + b);
    ConsParts(c, b, 0);
    SubKeeps(p, [c] + b);
    AppendAssoc(Sub(p, a), [c], Sub(p, b));
  }

  /** Text in which `p` matches nowhere passes through `Sub(p, _)` unchanged. */
  lemma {:induction false} SubWithoutMatch(p: Pattern, s: string)
    requires NoMatch(p, s)
    ensures Sub(p, s) == s
    decreases |s|
  {
    if s != [] {
      assert s[0..] == s;
      NoMatchSuffix(p, s, 1);
      SubWithoutMatch(p, s[1..]);
    }
  }

  // ---------------------------------------------------------------------
  // Strings the preprocessor leaves alone
  // ---------------------------------------------------------------------

  lemma {:induction false} CollapseSingleSpacedFixpoint(s: string)
    requires SingleSpaced(s)
    ensures Collapse(s) == s
    decreases |s|
  {
    if s != [] {
      SingleSpacedSlice(s, 1, |s|);
      if IsSpace(s[0]) {
        assert |s| > 1 ==> !IsSpace(s[1]);
        assert LeadingSpaces(s) == 1;
      }
      CollapseSingleSpacedFixpoint(s[1..]);
    }
  }

  lemma {:induction false} CollapseKeepsNoUpper(s: string)
    requires NoUpper(s)
    ensures NoUpper(Collapse(s))
    decreases |s|
  {
    if s != [] {
      var r := Collapse(s);
      match MatchLen(Whitespace, s)
      case Some(n) =>
        CollapseKeepsNoUpper(s[n..]);
        assert r == " " + Collapse(s[n..]);
        assert forall i :: 1 <= i < |r| ==> r[i] == Collapse(s[n..])[i - 1];
      case None =>
        CollapseKeepsNoUpper(s[1..]);
        assert r == [s[0]] + Collapse(s[1..]);
        assert forall i :: 1 <= i < |r| ==> r[i] == Collapse(s[1..])[i - 1];
    }
  }

  /**
   * A string already in the preprocessor's output form: single-spaced,
   * trimmed, free of every enabled removal pattern, lower-case when
   * lowercasing is on, and not longer than a truthy `max_length`.
   */
  ghost predicate Canonical(cfg: TextPreprocessor, s: string) {
    && SingleSpaced(s)
    && Trimmed(s)
    && (forall p :: p != Whitespace && cfg.Removes(p) ==> NoMatch(p, s))
    && (cfg.lowercase ==> NoUpper(s))
    && (s == [] || !cfg.Truncates() || |s| <= cfg.maxLength.value)
  }

  /** Removals leave a string alone when none of the enabled patterns matches in it. */
  lemma RemovalsFixpoint(cfg: TextPreprocessor, s: string)
    requires forall p :: p != Whitespace && cfg.Removes(p) ==> NoMatch(p, s)
    ensures Removals(cfg, s) == s
  {
    if cfg.removeUrls {
      assert cfg.Removes(Url);
      SubWithoutMatch(Url, s);
    }
    var t1 := SubIf(cfg.removeUrls, Url, s);
    assert t1 == s;
    if cfg.removeEmails {
      assert cfg.Removes(Email);
      SubWithoutMatch(Email, s);
    }
    var t2 := SubIf(cfg.removeEmails, Email, t1);
    assert t2 == s;
    if cfg.removeMentions {
      assert cfg.Removes(Mention);
      SubWithoutMatch(Mention, s);
    }
    var t3 := SubIf(cfg.removeMentions, Mention, t2);
    assert t3 == s;
    if cfg.removeHashtags {
      assert cfg.Removes(Hashtag);
      SubWithoutMatch(Hashtag, s);
    }
  }

  /** The preprocessor returns a canonical string unchanged, so every word in it survives. */
  lemma PreprocessFixpoint(cfg: TextPreprocessor, s: string)
    requires Canonical(cfg, s)
    ensures Preprocess(cfg, s) == s
  {
    if s != [] {
      RemovalsFixpoint(cfg, s);
      if cfg.lowercase { NoUpperLowerFixpoint(s); }
      assert Cased(cfg, Removals(cfg, s)) == s;
      CollapseSingleSpacedFixpoint(s);
      StripFixpoint(s);
      assert Cleaned(cfg, s) == s;
    }
  }

  /**
   * When the truncation did not cut, and lowercasing and URL removal are not
   * both on, preprocessing the output again changes nothing.
   */
  lemma PreprocessIdempotentUncut(cfg: TextPreprocessor, text: string)
    requires !(cfg.lowercase && cfg.removeUrls)
    requires Preprocess(cfg, text) == Cleaned(cfg, text)
    ensures Preprocess(cfg, Preprocess(cfg, text)) == Preprocess(cfg, text)
  {
    var r := Preprocess(cfg, text);
    PreprocessWhitespace(cfg, text);
    forall p | p != Whitespace && cfg.Removes(p) ensures NoMatch(p, r) {
      PreprocessRemoves(cfg, text, p);
    }
    if cfg.lowercase {
      var cased := Cased(cfg, Removals(cfg, text));
      LowerHasNoUpper(Removals(cfg, text));
      CollapseKeepsNoUpper(cased);
      var collapsed := Collapse(cased);
      StripIsSlice(collapsed);
    }
    assert Canonical(cfg, r);
    PreprocessFixpoint(cfg, r);
  }

  // ---------------------------------------------------------------------
  // Where idempotence fails
  // ---------------------------------------------------------------------

  /** No `@` in `s`: neither an e-mail address nor a mention can match. */
  lemma NoAtSignNoMatch(s: string)
    requires forall i :: 0 <= i < |s| ==> s[i] != '@'
    ensures NoMatch(Email, s) && NoMatch(Mention, s)
  {
    forall i | 0 <= i < |s| ensures MatchLen(Email, s[i..]).None? && MatchLen(Mention, s[i..]).None? {
      var t := s[i..];
      assert forall k :: 0 <= k < |t| ==> t[k] != '@';
    }
  }

  /** Printable ASCII without the space is never whitespace. */
  lemma PrintableSingleSpaced(s: string)
    requires forall i :: 0 <= i < |s| ==> '!' <= s[i] <= '~'
    ensures SingleSpaced(s) && Trimmed(s)
  {
  }

  /** A URL match starts with `h` or `w`: without those letters no URL can match. */
  lemma NoUrlWithoutHOrW(s: string)
    requires forall i :: 0 <= i < |s| ==> s[i] != 'h' && s[i] != 'w'
    ensures NoMatch(Url, s)
  {
    forall i | 0 <= i < |s| ensures MatchLen(Url, s[i..]).None? {
      var t := s[i..];
      assert t[0] == s[i];
      assert |t| > 4 ==> t[..4][0] == t[0];
      assert |t| > 7 ==> t[..7][0] == t[0];
      assert |t| > 8 ==> t[..8][0] == t[0];
    }
  }

  /** An upper-case scheme is not a URL for the case-sensitive pattern, so the removals keep it. */
  lemma UpperSchemeSurvivesRemovals(cfg: TextPreprocessor)
    requires !cfg.removeHashtags
    ensures Removals(cfg, "HTTP://X") == "HTTP://X"
  {
    var s := "HTTP://X";
    NoUrlWithoutHOrW(s);
    NoAtSignNoMatch(s);
    RemovalsFixpoint(cfg, s);
  }

  lemma LowerUpperScheme()
    ensures Lower("HTTP://X") == "http://x"
    ensures SingleSpaced("http://x") && Trimmed("http://x")
  {
    var l := "http://x";
    assert forall i :: 0 <= i < |l| ==> '!' <= l[i] <= '~';
    PrintableSingleSpaced(l);
  }

  lemma CleanedUpperScheme(cfg: TextPreprocessor)
    requires cfg.lowercase && !cfg.removeHashtags
    ensures Cleaned(cfg, "HTTP://X") == "http://x"
  {
    var l := "http://x";
    UpperSchemeSurvivesRemovals(cfg);
    LowerUpperScheme();
    assert Cased(cfg, Removals(cfg, "HTTP://X")) == l;
    CollapseSingleSpacedFixpoint(l);
    StripFixpoint(l);
  }

  lemma SchemeIsUrl()
    ensures MatchLen(Url, "http://x").Some?
  {
    var l := "http://x";
    assert l[..7] == "http://";
  }

  /** With lowercasing on, an upper-case scheme escapes the URL removal and then becomes a URL. */
  lemma LowercaseRevivesUrl()
    ensures Preprocess(TextPreprocessor(lowercase := true), "HTTP://X") == "http://x"
    ensures MatchLen(Url, Preprocess(TextPreprocessor(lowercase := true), "HTTP://X")).Some?
  {
    CleanedUpperScheme(TextPreprocessor(lowercase := true));
    SchemeIsUrl();
  }

  lemma CleanedSpacedPair(cfg: TextPreprocessor)
    requires !cfg.removeHashtags && !cfg.lowercase
    ensures Cleaned(cfg, "a b") == "a b"
  {
    NoUrlWithoutHOrW("a b");
    NoAtSignNoMatch("a b");
    RemovalsFixpoint(cfg, "a b");
    assert SingleSpaced("a b");
    CollapseSingleSpacedFixpoint("a b");
    StripFixpoint("a b");
  }

  lemma CleanedTrailingSpace(cfg: TextPreprocessor)
    requires !cfg.removeHashtags && !cfg.lowercase
    ensures Cleaned(cfg, "a ") == "a"
  {
    NoUrlWithoutHOrW("a ");
    NoAtSignNoMatch("a ");
    RemovalsFixpoint(cfg, "a ");
    assert SingleSpaced("a ");
    CollapseSingleSpacedFixpoint("a ");
    assert TrailingSpaces("a ") == 1;
  }

  /**
   * A cut that lands right after a space leaves a trailing space, which a
   * second pass strips: with `max_length=2`, `"a b"` becomes `"a "` and then `"a"`.
   */
  lemma TruncationBreaksIdempotence()
    ensures Preprocess(TextPreprocessor(maxLength := Some(2)), "a b") == "a "
    ensures Preprocess(TextPreprocessor(maxLength := Some(2)), "a ") == "a"
  {
    var cfg := TextPreprocessor(maxLength := Some(2));
    assert Preprocess(cfg, "a b") == "a " by {
      CleanedSpacedPair(cfg);
    }
    assert Preprocess(cfg, "a ") == "a" by {
      CleanedTrailingSpace(cfg);
    }
  }

  // ---------------------------------------------------------------------
  // Spacing and removal around plain text
  // ---------------------------------------------------------------------

  /** Text after a non-space character does not change the leading whitespace run. */
  lemma LeadingSpacesAppend(a: string, u: string)
    requires a != [] && !IsSpace(a[|a| - 1])
    ensures LeadingSpaces(a + u) == LeadingSpaces(a) < |a|
  {
    var s := a + u;
    var n := LeadingSpaces(a);
    assert forall i :: 0 <= i < |a| ==> s[i] == a[i];
    assert n < |a| && s[n] == a[n];
  }

  /** The collapse works on each side of a cut made right after a non-space character. */
  lemma {:induction false} CollapseAppend(a: string, u: string)
    requires a == [] || !IsSpace(a[|a| - 1])
    ensures Collapse(a + u) == Collapse(a) + Collapse(u)
    decreases |a|
  {
    if a == [] {
      assert a + u == u;
    } else {
      var s := a + u;
      assert s[0] == a[0];
      if IsSpace(a[0]) {
        var n := LeadingSpaces(a);
        LeadingSpacesAppend(a, u);
        SubReplaces(Whitespace, a);
        SubReplaces(Whitespace, s);
        DropAppend(a, u, n);
        CollapseAppend(a[n..], u);
        AppendAssoc(" ", Collapse(a[n..]), Collapse(u));
      } else {
        SubKeeps(Whitespace, a);
        SubKeeps(Whitespace, s);
        DropAppend(a, u, 1);
        CollapseAppend(a[1..], u);
        AppendAssoc([a[0]], Collapse(a[1..]), Collapse(u));
      }
    }
  }

  /** A whitespace run before a non-space character collapses to one space. */
  lemma CollapseSpaceRun(w: string, u: string)
    requires w != [] && forall i :: 0 <= i < |w| ==> IsSpace(w[i])
    requires u == [] || !IsSpace(u[0])
    ensures Collapse(w + u) == " " + Collapse(u)
  {
    var s := w + u;
    assert forall i :: 0 <= i < |w| ==> s[i] == w[i];
    assert |w| < |s| ==> s[|w|] == u[0];
    assert LeadingSpaces(s) == |w|;
    SubReplaces(Whitespace, s);
    assert s[|w|..] == u;
  }

  /** No match of a pattern other than whitespace starts in a whitespace run. */
  lemma NoMatchAfterSpaces(p: Pattern, w: string, c: string)
    requires p != Whitespace
    requires forall i :: 0 <= i < |w| ==> IsSpace(w[i])
    requires NoMatch(p, c)
    ensures NoMatch(p, w + c)
  {
    var s := w + c;
    forall i | 0 <= i < |s| ensures MatchLen(p, s[i..]).None? {
      if i < |w| {
        assert s[i..][0] == w[i];
      } else {
        assert s[i..] == c[i - |w|..];
      }
    }
  }

  /** Matches do not cross whitespace, so two texts without matches joined before a whitespace character have none. */
  lemma NoMatchAppend(p: Pattern, a: string, u: string)
    requires p != Whitespace && (u == [] || IsSpace(u[0]))
    requires NoMatch(p, a) && NoMatch(p, u)
    ensures NoMatch(p, a + u)
  {
    var s := a + u;
    forall i | 0 <= i < |s| ensures MatchLen(p, s[i..]).None? {
      if i < |a| {
        DropAppend(a, u, i);
        MatchLocal(p, a[i..], u);
      } else {
        assert s[i..] == u[i - |a|..];
      }
    }
  }

  /** A whitespace-free word that a URL or an e-mail match starts is replaced, through its last character, by one space. */
  lemma SubReplacesWord(p: Pattern, w: string)
    requires p == Url || p == Email
    requires forall i :: 0 <= i < |w| ==> !IsSpace(w[i])
    requires MatchLen(p, w).Some?
    ensures Sub(p, w) == " "
  {
    RunLenAtLeast(w, |w|);
    assert w[|w|..] == [];
  }

  /** Text the default options leave alone: single-spaced, trimmed, not empty, and free of URLs, e-mail addresses and mentions. */
  ghost predicate Plain(s: string) {
    && s != []
    && SingleSpaced(s) && Trimmed(s)
    && NoMatch(Url, s) && NoMatch(Email, s) && NoMatch(Mention, s)
  }

  /** The removal steps keep two plain texts joined by a whitespace run. */
  lemma RemovalsKeepGap(cfg: TextPreprocessor, a: string, gap: string, c: string)
    requires Plain(a) && Plain(c) && !cfg.removeHashtags
    requires gap != [] && forall i :: 0 <= i < |gap| ==> IsSpace(gap[i])
    ensures Removals(cfg, a + gap + c) == a + gap + c
  {
    var s := a + gap + c;
    AppendAssoc(a, gap, c);
    forall p | p != Whitespace && cfg.Removes(p) ensures NoMatch(p, s) {
      assert p == Url || p == Email || p == Mention;
      NoMatchAfterSpaces(p, gap, c);
      NoMatchAppend(p, a, gap + c);
    }
    RemovalsFixpoint(cfg, s);
  }

  /** The collapse turns the whitespace run between two plain texts into one space. */
  lemma CollapseGap(a: string, gap: string, c: string)
    requires Plain(a) && Plain(c)
    requires gap != [] && forall i :: 0 <= i < |gap| ==> IsSpace(gap[i])
    ensures Collapse(a + gap + c) == a + " " + c
  {
    AppendAssoc(a, gap, c);
    CollapseAppend(a, gap + c);
    CollapseSingleSpacedFixpoint(a);
    CollapseSpaceRun(gap, c);
    CollapseSingleSpacedFixpoint(c);
    AppendAssoc(a, " ", c);
  }

  /** With the default options, two plain texts joined by a whitespace run come out joined by one space. */
  lemma PreprocessClosesGap(a: string, gap: string, c: string)
    requires Plain(a) && Plain(c) && |a| + 1 + |c| <= 512
    requires gap != [] && forall i :: 0 <= i < |gap| ==> IsSpace(gap[i])
    ensures Preprocess(TextPreprocessor(), a + gap + c) == a + " " + c
  {
    RemovalsKeepGap(TextPreprocessor(), a, gap, c);
    PreprocessAfterRemovals(a + gap + c, a, gap, c);
  }

  /** Once the removals leave two plain texts joined by a whitespace run, the default options return them joined by one space. */
  lemma PreprocessAfterRemovals(text: string, a: string, gap: string, c: string)
    requires Plain(a) && Plain(c) && |a| + 1 + |c| <= 512
    requires gap != [] && forall i :: 0 <= i < |gap| ==> IsSpace(gap[i])
    requires Removals(TextPreprocessor(), text) == a + gap + c
    ensures Preprocess(TextPreprocessor(), text) == a + " " + c
  {
    CollapseGap(a, gap, c);
    StripFixpoint(a + " " + c);
  }

  /** Re-bracketing `a + " " + m + " " + c` at its first space. */
  lemma Regroup(a: string, m: string, c: string)
    ensures a + " " + m + " " + c == (a + " ") + (m + " " + c)
  {
    AppendAssoc(a + " " + m, " ", c);
    AppendAssoc(a + " ", m, " " + c);
    AppendAssoc(m, " ", c);
  }

  /** Substitution works separately on the parts on either side of two single spaces. */
  lemma SubAround(p: Pattern, a: string, m: string, c: string)
    requires p != Whitespace
    ensures Sub(p, a + " " + m + " " + c) == Sub(p, a) + " " + Sub(p, m) + " " + Sub(p, c)
  {
    SubSplitAtSpace(p, m, ' ', c);
    SubSplitAtSpace(p, a, ' ', m + " " + c);
    Regroup(a, m, c);
    Regroup(Sub(p, a), Sub(p, m), Sub(p, c));
  }

  /** A single space is kept by every substitution but the collapse. */
  lemma SubOfSpace(p: Pattern)
    requires p != Whitespace
    ensures Sub(p, " ") == " "
  {
    NoMatchAfterSpaces(p, " ", []);
    assert " " + [] == " ";
    SubWithoutMatch(p, " ");
  }

  /** The default removals turn a URL or an e-mail token between two plain texts into a space. */
  lemma RemovalsDropToken(p: Pattern, a: string, w: string, c: string)
    requires p == Url || p == Email
    requires Plain(a) && Plain(c)
    requires forall i :: 0 <= i < |w| ==> !IsSpace(w[i])
    requires MatchLen(p, w).Some?
    requires p == Email ==> NoMatch(Url, w)
    ensures Removals(TextPreprocessor(), a + " " + w + " " + c) == a + " " + " " + " " + c
  {
    SubWithoutMatch(Url, a);
    SubWithoutMatch(Url, c);
    SubWithoutMatch(Email, a);
    SubWithoutMatch(Email, c);
    SubWithoutMatch(Mention, a);
    SubWithoutMatch(Mention, c);
    SubOfSpace(Email);
    SubOfSpace(Mention);
    SubAround(Url, a, w, c);
    var m := Sub(Url, w);
    if p == Url {
      SubReplacesWord(Url, w);
    } else {
      SubWithoutMatch(Url, w);
      SubReplacesWord(Email, w);
    }
    assert Sub(Email, m) == " ";
    SubAround(Email, a, m, c);
    SubAround(Mention, a, " ", c);
  }

  /**
   * With the default options a URL or an e-mail address standing between two
   * plain texts disappears, and the spaces around it close up.
   */
  lemma PreprocessRemovesToken(p: Pattern, a: string, w: string, c: string)
    requires p == Url || p == Email
    requires Plain(a) && Plain(c) && |a| + 1 + |c| <= 512
    requires forall i :: 0 <= i < |w| ==> !IsSpace(w[i])
    requires MatchLen(p, w).Some?
    requires p == Email ==> NoMatch(Url, w)
    ensures Preprocess(TextPreprocessor(), a + " " + w + " " + c) == a + " " + c
  {
    RemovalsDropToken(p, a, w, c);
    assert a + " " + " " + " " + c == a + "   " + c;
    PreprocessAfterRemovals(a + " " + w + " " + c, a, "   ", c);
  }
}

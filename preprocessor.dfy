/**
 * The text preprocessor (`TextPreprocessor` in app/ml/preprocessor.py).
 *
 * Each regular expression of the class is a matcher `MatchLen(p, t)` that
 * says how long a match starting at the head of `t` is, and `Sub(p, s)` is
 * `re.sub(p, " ", s)`: it scans left to right, replaces each match by one
 * space and keeps every other character.  `Preprocess` chains the optional
 * removals, the optional lowercasing, the whitespace collapse, the strip and
 * the truncation in the order of the source.
 */
module Preprocessor {
  import opened Wrappers
  import opened Text

  // ---------------------------------------------------------------------
  // Runs at the head of a string
  // ---------------------------------------------------------------------

  /** Number of leading non-whitespace characters (what `\S+` can take). */
  function RunLen(t: string): (n: nat)
    ensures n <= |t|
    ensures forall i :: 0 <= i < n ==> !IsSpace(t[i])
    ensures n < |t| ==> IsSpace(t[n])
  {
    if t == [] || IsSpace(t[0]) then 0 else 1 + RunLen(t[1..])
  }

  /** Number of leading word characters (what `\w+` can take). */
  function WordLen(t: string): (n: nat)
    ensures n <= |t|
    ensures forall i :: 0 <= i < n ==> IsWordChar(t[i])
    ensures n < |t| ==> !IsWordChar(t[n])
  {
    if t == [] || !IsWordChar(t[0]) then 0 else 1 + WordLen(t[1..])
  }

  /** A run of `m` non-whitespace characters at the head makes `RunLen` at least `m`. */
  lemma RunLenAtLeast(t: string, m: nat)
    requires m <= |t|
    requires forall i :: 0 <= i < m ==> !IsSpace(t[i])
    ensures m <= RunLen(t)
  {
  }

  lemma RunLenAppend(a: string, u: string)
    requires u == [] || IsSpace(u[0])
    ensures RunLen(a + u) == RunLen(a)
  {
    var n := RunLen(a);
    RunLenAtLeast(a + u, n);
    if n < |a| {
      assert IsSpace((a + u)[n]);
    } else {
      assert u != [] ==> IsSpace((a + u)[n]);
    }
  }

  lemma WordLenAppend(a: string, u: string)
    requires u == [] || IsSpace(u[0])
    ensures WordLen(a + u) == WordLen(a)
  {
    var n := WordLen(a);
    assert forall i :: 0 <= i < n ==> (a + u)[i] == a[i];
    if n < |a| {
      assert !IsWordChar((a + u)[n]);
    } else if u != [] {
      assert (a + u)[n] == u[0];
      WordCharIsNotSpace(u[0]);
    }
  }

  // ---------------------------------------------------------------------
  // The five patterns (app/ml/preprocessor.py, lines 19-23)
  // ---------------------------------------------------------------------

  datatype Pattern =
    | Url        // https?://\S+|www\.\S+
    | Email      // \S+@\S+
    | Mention    // @\w+
    | Hashtag    // #\w+
    | Whitespace // \s+

  /** `t` starts with `prefix` and one more non-whitespace character follows it. */
  predicate PrefixThenNonSpace(t: string, prefix: string) {
    |prefix| < |t| && t[..|prefix|] == prefix && !IsSpace(t[|prefix|])
  }

  /** `https?://\S+|www\.\S+` matches at the head of `t`. */
  predicate UrlAt(t: string) {
    PrefixThenNonSpace(t, "http://") || PrefixThenNonSpace(t, "https://") || PrefixThenNonSpace(t, "www.")
  }

  /** `\S+@\S+` matches at the head of `t`: an `@` with non-whitespace on both sides inside the leading run. */
  predicate EmailAt(t: string) {
    exists k :: 1 <= k < RunLen(t) - 1 && t[k] == '@'
  }

  /** `<sigil>\w+` matches at the head of `t`. */
  predicate SigilAt(t: string, sigil: char) {
    2 <= |t| && t[0] == sigil && IsWordChar(t[1])
  }

  /**
   * Length of the leftmost, greedy match of `p` at the head of `t`, or `None`.
   * URLs and e-mail addresses run to the end of the non-whitespace run, mentions
   * and hashtags to the end of the word, whitespace to the end of the blank run.
   */
  function MatchLen(p: Pattern, t: string): (m: Option<nat>)
    ensures m.Some? ==> 0 < m.value <= |t|
    ensures m.Some? && p != Whitespace ==> forall i :: 0 <= i < m.value ==> !IsSpace(t[i])
    ensures m.Some? && p == Whitespace ==> forall i :: 0 <= i < m.value ==> IsSpace(t[i])
  {
    match p
    case Url => if UrlAt(t) then Some(RunLen(t)) else None
    case Email => if EmailAt(t) then Some(RunLen(t)) else None
    case Mention =>
      if SigilAt(t, '@') then (WordCharIsNotSpace(t[1]); Some(1 + WordLen(t[1..]))) else None
    case Hashtag =>
      if SigilAt(t, '#') then (WordCharIsNotSpace(t[1]); Some(1 + WordLen(t[1..]))) else None
    case Whitespace => if t != [] && IsSpace(t[0]) then Some(LeadingSpaces(t)) else None
  }

  /** `re.sub(p, " ", s)`: every match becomes a single space, every other character is kept. */
  function Sub(p: Pattern, s: string): (r: string)
    ensures |r| <= |s|
    decreases |s|
  {
    if s == [] then []
    else match MatchLen(p, s)
      case Some(n) => " " + Sub(p, s[n..])
      case None => [s[0]] + Sub(p, s[1..])
  }

  /** No match of `p` starts anywhere in `s`. */
  ghost predicate NoMatch(p: Pattern, s: string) {
    forall i :: 0 <= i < |s| ==> MatchLen(p, s[i..]).None?
  }

  // ---------------------------------------------------------------------
  // The preprocessor and its options (lines 25-40)
  // ---------------------------------------------------------------------

  /** The options fixed by `TextPreprocessor.__init__`, with the same defaults. */
  datatype TextPreprocessor = TextPreprocessor(
    lowercase: bool := false,
    removeUrls: bool := true,
    removeEmails: bool := true,
    removeMentions: bool := true,
    removeHashtags: bool := false,
    maxLength: Option<int> := Some(512))
  {
    /** Whether the removal step for `p` runs. */
    predicate Removes(p: Pattern) {
      match p
      case Url => removeUrls
      case Email => removeEmails
      case Mention => removeMentions
      case Hashtag => removeHashtags
      case Whitespace => false
    }

    /** `self.max_length` is truthy: neither `None` nor zero. */
    predicate Truncates() {
      maxLength.Some? && maxLength.value != 0
    }
  }

  function SubIf(enabled: bool, p: Pattern, s: string): string {
    if enabled then Sub(p, s) else s
  }

  /** The four optional removals, in the order URL, e-mail, mention, hashtag (lines 55-65). */
  function Removals(cfg: TextPreprocessor, text: string): string {
    var t1 := SubIf(cfg.removeUrls, Url, text);
    var t2 := SubIf(cfg.removeEmails, Email, t1);
    var t3 := SubIf(cfg.removeMentions, Mention, t2);
    SubIf(cfg.removeHashtags, Hashtag, t3)
  }

  /** The optional lowercasing (lines 67-68). */
  function Cased(cfg: TextPreprocessor, s: string): string {
    if cfg.lowercase then Lower(s) else s
  }

  /** Collapse of whitespace runs (line 71). */
  function Collapse(s: string): string {
    Sub(Whitespace, s)
  }

  /** The text after every step but the truncation (lines 55-72). */
  function Cleaned(cfg: TextPreprocessor, text: string): string {
    Strip(Collapse(Cased(cfg, Removals(cfg, text))))
  }

  /** `s[:n]` with Python's slice bounds: a negative `n` counts from the end. */
  function PyPrefix(s: string, n: int): string {
    if n >= 0 then s[..if n <= |s| then n else |s|]
    else s[..if |s| + n >= 0 then |s| + n else 0]
  }

  /** Lines 75-76: cut to `max_length` when it is truthy and the text is longer. */
  function Truncate(s: string, maxLength: Option<int>): (r: string)
    ensures |r| <= |s| && r == s[..|r|]
    ensures maxLength.Some? && maxLength.value > 0 ==> |r| <= maxLength.value
    ensures |r| < |s| ==> maxLength.Some? && maxLength.value != 0
  {
    if maxLength.Some? && maxLength.value != 0 && |s| > maxLength.value then PyPrefix(s, maxLength.value) else s
  }

  /** `TextPreprocessor.preprocess` (lines 46-79). */
  function Preprocess(cfg: TextPreprocessor, text: string): (r: string)
    ensures |r| <= |text|
    ensures cfg.maxLength.Some? && cfg.maxLength.value > 0 ==> |r| <= cfg.maxLength.value
    ensures r != [] ==> !IsSpace(r[0])
  {
    if text == [] then "" else Truncate(Cleaned(cfg, text), cfg.maxLength)
  }

  /** `TextPreprocessor.preprocess_batch` (lines 81-84). */
  function PreprocessBatch(cfg: TextPreprocessor, texts: seq<string>): (r: seq<string>)
    ensures |r| == |texts|
    ensures forall i :: 0 <= i < |texts| ==> r[i] == Preprocess(cfg, texts[i])
  {
    seq(|texts|, i requires 0 <= i < |texts| => Preprocess(cfg, texts[i]))
  }
}

/**
 * The two Python string built-ins the sender's input handling relies on:
 * `str.split(maxsplit=1)` (no separator argument) and `str.lower()`.
 */
module PyText {

  /** The characters for which Python's `str.isspace()` holds; `str.split()` splits on these. */
  predicate IsSpace(c: char) {
    || c == ' '
    || '\t' <= c <= '\r'
    || '\U{1C}' <= c <= '\U{1F}'
    || c == '\U{85}' || c == '\U{A0}' || c == '\U{1680}'
    || '\U{2000}' <= c <= '\U{200A}'
    || c == '\U{2028}' || c == '\U{2029}' || c == '\U{202F}' || c == '\U{205F}' || c == '\U{3000}'
  }

  /** Every character is whitespace (the empty string included). */
  predicate Blank(s: string) {
    forall k | 0 <= k < |s| :: IsSpace(s[k])
  }

  /** A non-empty run of non-whitespace characters: what `split()` yields as one part. */
  predicate IsWord(s: string) {
    |s| > 0 && forall k | 0 <= k < |s| :: !IsSpace(s[k])
  }

  /** Starts with a non-whitespace character (or is empty). */
  predicate StartsSolid(s: string) {
    s == [] || !IsSpace(s[0])
  }

  /** `s` without its leading whitespace. */
  function TrimStart(s: string): (r: string)
    ensures |r| <= |s|
    ensures StartsSolid(r)
    ensures r == [] <==> Blank(s)
  {
    if s != [] && IsSpace(s[0]) then TrimStart(s[1..]) else s
  }

  /** The length of the leading run of non-whitespace characters of `s`. */
  function WordLength(s: string): (n: nat)
    ensures n <= |s|
    ensures forall k | 0 <= k < n :: !IsSpace(s[k])
    ensures n == |s| || IsSpace(s[n])
  {
    if s == [] || IsSpace(s[0]) then 0 else 1 + WordLength(s[1..])
  }

  /**
   * `s.split(maxsplit=1)`: leading whitespace is dropped; the first word is cut
   * at the next whitespace; whitespace after it is dropped, and what remains (if
   * anything) is the second part, its trailing whitespace kept.
   */
  function SplitOnce(s: string): (parts: seq<string>)
    ensures |parts| <= 2
    ensures parts == [] <==> Blank(s)
    ensures |parts| >= 1 ==> IsWord(parts[0])
    ensures |parts| == 2 ==> parts[1] != [] && StartsSolid(parts[1])
  {
    var t := TrimStart(s);
    if t == [] then []
    else
      var n := WordLength(t);
      var rest := TrimStart(t[n..]);
      if rest == [] then [t[..n]] else [t[..n], rest]
  }

  lemma {:induction false} TrimStartAfterBlank(lead: string, s: string)
    requires Blank(lead) && StartsSolid(s)
    ensures TrimStart(lead + s) == s
    decreases |lead|
  {
    if lead != [] {
      assert (lead + s)[1..] == lead[1..] + s;
      TrimStartAfterBlank(lead[1..], s);
    }
  }

  lemma {:induction false} WordLengthOfWord(w: string, s: string)
    requires forall k | 0 <= k < |w| :: !IsSpace(w[k])
    requires s == [] || IsSpace(s[0])
    ensures WordLength(w + s) == |w|
    decreases |w|
  {
    if w != [] {
      assert (w + s)[1..] == w[1..] + s;
      WordLengthOfWord(w[1..], s);
    }
  }

  /** A line made of optional blanks, a word, blanks and a remainder splits into that word and that remainder. */
  lemma SplitOnceOfTwo(lead: string, word: string, gap: string, rest: string)
    requires Blank(lead) && IsWord(word) && Blank(gap) && gap != []
    requires rest != [] && StartsSolid(rest)
    ensures SplitOnce(lead + word + gap + rest) == [word, rest]
  {
    var s := lead + word + gap + rest;
    assert s == lead + (word + gap + rest);
    TrimStartAfterBlank(lead, word + gap + rest);
    var t := word + gap + rest;
    assert t == word + (gap + rest);
    WordLengthOfWord(word, gap + rest);
    assert t[|word|..] == gap + rest;
    TrimStartAfterBlank(gap, rest);
    assert t[..|word|] == word;
  }

  /** A line made of optional blanks, one word and optional blanks splits into that word alone. */
  lemma SplitOnceOfOne(lead: string, word: string, trail: string)
    requires Blank(lead) && IsWord(word) && Blank(trail)
    ensures SplitOnce(lead + word + trail) == [word]
  {
    var s := lead + word + trail;
    assert s == lead + (word + trail);
    TrimStartAfterBlank(lead, word + trail);
    var t := word + trail;
    WordLengthOfWord(word, trail);
    assert t[|word|..] == trail + [];
    TrimStartAfterBlank(trail, []);
    assert t[..|word|] == word;
  }

  /** The whitespace `split(maxsplit=1)` drops in front of the first word. */
  function LeadingBlank(s: string): (lead: string)
    ensures Blank(lead)
  {
    if s != [] && IsSpace(s[0]) then [s[0]] + LeadingBlank(s[1..]) else []
  }

  lemma {:induction false} LeadingBlankRebuilds(s: string)
    ensures s == LeadingBlank(s) + TrimStart(s)
    decreases |s|
  {
    if s != [] && IsSpace(s[0]) {
      LeadingBlankRebuilds(s[1..]);
      assert s == [s[0]] + s[1..];
    }
  }

  /** Gluing a line back from its leading blanks and the word and tail of the trimmed line. */
  lemma Glue3(s: string, lead: string, t: string, n: nat, w: string, tail: string)
    requires s == lead + t && n <= |t| && t[..n] == w && t[n..] == tail
    ensures s == lead + w + tail
  {
    assert t == t[..n] + t[n..];
  }

  lemma Glue4(s: string, lead: string, t: string, n: nat, w: string, gap: string, rest: string)
    requires s == lead + t && n <= |t| && t[..n] == w && t[n..] == gap + rest
    ensures s == lead + w + gap + rest
  {
    Glue3(s, lead, t, n, w, gap + rest);
  }

  /** The first part of a non-blank line is its first word, cut out of the trimmed line. */
  lemma SplitOnceFirst(s: string)
    requires TrimStart(s) != []
    ensures var t := TrimStart(s); var n := WordLength(t);
      && SplitOnce(s)[0] == t[..n]
      && (|SplitOnce(s)| == 1 <==> TrimStart(t[n..]) == [])
      && (|SplitOnce(s)| == 2 ==> SplitOnce(s)[1] == TrimStart(t[n..]))
  {
  }

  /** A one-part line is blanks, its word, blanks: `split(maxsplit=1)` loses only whitespace. */
  lemma SplitOnceRebuildsOne(s: string)
    requires |SplitOnce(s)| == 1
    ensures exists lead, trail :: Blank(lead) && Blank(trail) && s == lead + SplitOnce(s)[0] + trail
  {
    var t := TrimStart(s);
    var n := WordLength(t);
    var lead, gap := LeadingBlank(s), LeadingBlank(t[n..]);
    var w := SplitOnce(s)[0];
    assert s == lead + t by { LeadingBlankRebuilds(s); }
    assert t[..n] == w && t[n..] == gap by {
      SplitOnceFirst(s);
      LeadingBlankRebuilds(t[n..]);
    }
    Glue3(s, lead, t, n, w, gap);
  }

  /** A two-part line is blanks, its first word, blanks, its remainder. */
  lemma SplitOnceRebuildsTwo(s: string)
    requires |SplitOnce(s)| == 2
    ensures exists lead, gap :: Blank(lead) && Blank(gap) && gap != [] && s == lead + SplitOnce(s)[0] + gap + SplitOnce(s)[1]
  {
    var t := TrimStart(s);
    var n := WordLength(t);
    var lead, gap := LeadingBlank(s), LeadingBlank(t[n..]);
    var w, rest := SplitOnce(s)[0], SplitOnce(s)[1];
    assert s == lead + t by { LeadingBlankRebuilds(s); }
    assert t[..n] == w && t[n..] == gap + rest && gap != [] by {
      SplitOnceFirst(s);
      LeadingBlankRebuilds(t[n..]);
      assert n < |t| && IsSpace(t[n]);
      assert t[n..][0] == t[n];
    }
    Glue4(s, lead, t, n, w, gap, rest);
  }

  /** Python's `str.lower()`, restricted to the ASCII letters. */
  function LowerChar(c: char): (d: char)
    ensures 'A' <= c <= 'Z' ==> d as int == c as int + 32 && 'a' <= d <= 'z'
    ensures !('A' <= c <= 'Z') ==> d == c
    ensures IsSpace(d) <==> IsSpace(c)
  {
    if 'A' <= c <= 'Z' then (c as int + 32) as char else c
  }

  function Lower(s: string): (r: string)
    ensures |r| == |s| && forall k | 0 <= k < |s| :: r[k] == LowerChar(s[k])
  {
    seq(|s|, k requires 0 <= k < |s| => LowerChar(s[k]))
  }

  lemma LowerSuffix(s: string, i: nat)
    requires i <= |s|
    ensures Lower(s)[i..] == Lower(s[i..])
  {
  }

  lemma LowerPrefix(s: string, i: nat)
    requires i <= |s|
    ensures Lower(s)[..i] == Lower(s[..i])
  {
  }

  lemma {:induction false} LowerTrimStart(s: string)
    ensures TrimStart(Lower(s)) == Lower(TrimStart(s))
    decreases |s|
  {
    if s != [] && IsSpace(s[0]) {
      LowerSuffix(s, 1);
      LowerTrimStart(s[1..]);
    } else if s != [] {
      assert !IsSpace(Lower(s)[0]);
    }
  }

  lemma {:induction false} LowerWordLength(s: string)
    ensures WordLength(Lower(s)) == WordLength(s)
    decreases |s|
  {
    if s != [] && !IsSpace(s[0]) {
      LowerSuffix(s, 1);
      LowerWordLength(s[1..]);
    }
  }

  /** Lower-casing before splitting is the same as lower-casing each part: `lower` never creates or removes whitespace. */
  lemma SplitOnceLower(s: string)
    ensures |SplitOnce(Lower(s))| == |SplitOnce(s)|
    ensures forall k | 0 <= k < |SplitOnce(s)| :: SplitOnce(Lower(s))[k] == Lower(SplitOnce(s)[k])
  {
    var t, lt := TrimStart(s), TrimStart(Lower(s));
    assert lt == Lower(t) by { LowerTrimStart(s); }
    if t == [] {
      assert lt == [];
    } else {
      var n := WordLength(t);
      var rest := TrimStart(t[n..]);
      assert WordLength(lt) == n by { LowerWordLength(t); }
      assert lt[..n] == Lower(t[..n]) && lt[n..] == Lower(t[n..]) by {
        LowerPrefix(t, n);
        LowerSuffix(t, n);
      }
      assert TrimStart(lt[n..]) == Lower(rest) by { LowerTrimStart(t[n..]); }
      assert rest == [] <==> Lower(rest) == [];
      SplitOnceFirst(s);
      SplitOnceFirst(Lower(s));
      var parts, lowered := SplitOnce(s), SplitOnce(Lower(s));
      assert |lowered| == |parts|;
      forall k | 0 <= k < |parts| ensures lowered[k] == Lower(parts[k]) {
        if k == 0 {
          assert lowered[0] == lt[..n] && parts[0] == t[..n];
        } else {
          assert lowered[1] == TrimStart(lt[n..]) && parts[1] == rest;
        }
      }
    }
  }
}

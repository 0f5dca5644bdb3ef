/** The three string primitives the chat component relies on:
    `toLowerCase`, `includes` and `trim`. Each is given an executable
    definition and a declarative reference property it is proved against. */
module Text {

  // ---------------------------------------------------------------------
  // Lower-casing
  // ---------------------------------------------------------------------

  /** Upper-case letters of Basic Latin and Latin-1 (A-Z, À-Ö, Ø-Þ); each
      has its lower-case form exactly 0x20 code points above it. */
  predicate IsUpper(c: char) {
    ('A' <= c <= 'Z') || ('\U{00C0}' <= c <= '\U{00D6}') || ('\U{00D8}' <= c <= '\U{00DE}')
  }

  /** Lower-case letters of Basic Latin and Latin-1 (a-z, à-ö, ø-þ): the
      images of the upper-case letters above. */
  predicate IsLowerLetter(c: char) {
    ('a' <= c <= 'z') || ('\U{00E0}' <= c <= '\U{00F6}') || ('\U{00F8}' <= c <= '\U{00FE}')
  }

  /** Lower-casing one character: an upper-case letter goes to its
      lower-case partner, 0x20 code points above; every other character is
      kept. */
  function ToLowerChar(c: char): (r: char)
    ensures !IsUpper(r)
    ensures IsUpper(c) ==> IsLowerLetter(r) && r as int == c as int + 0x20
    ensures !IsUpper(c) ==> r == c
  {
    if IsUpper(c) then (c as int + 0x20) as char else c
  }

  /** Upper-casing one character, the reference inverse of `ToLowerChar`:
      a lower-case letter goes to its upper-case partner. */
  function ToUpperChar(c: char): (r: char)
    ensures !IsLowerLetter(r)
    ensures IsLowerLetter(c) ==> IsUpper(r)
    ensures !IsLowerLetter(c) ==> r == c
  {
    if IsLowerLetter(c) then (c as int - 0x20) as char else c
  }

  /** Lower-casing undoes upper-casing on the lower-case letters ... */
  lemma LowerAfterUpper(c: char)
    requires IsLowerLetter(c)
    ensures ToLowerChar(ToUpperChar(c)) == c
  {
  }

  /** ... and upper-casing undoes lower-casing on the upper-case letters: so
      "Ö" becomes "ö" and no other character. */
  lemma UpperAfterLower(c: char)
    requires IsUpper(c)
    ensures ToUpperChar(ToLowerChar(c)) == c
  {
  }

  /** `String.prototype.toLowerCase`, restricted to the letters above. */
  function ToLower(s: string): (r: string)
    ensures |r| == |s|
    ensures forall i :: 0 <= i < |s| ==> r[i] == ToLowerChar(s[i])
  {
    seq(|s|, i requires 0 <= i < |s| => ToLowerChar(s[i]))
  }

  /** A string with no upper-case letter. */
  predicate IsLower(s: string) {
    forall i :: 0 <= i < |s| ==> !IsUpper(s[i])
  }

  lemma ToLowerIsLower(s: string)
    ensures IsLower(ToLower(s))
  {
  }

  /** Lower-casing leaves lower-case text as it is; in particular it is idempotent. */
  lemma ToLowerFixesLower(s: string)
    requires IsLower(s)
    ensures ToLower(s) == s
  {
  }

  lemma ToLowerIdempotent(s: string)
    ensures ToLower(ToLower(s)) == ToLower(s)
  {
    ToLowerIsLower(s);
    ToLowerFixesLower(ToLower(s));
  }

  /** Lower-casing works character by character, so it distributes over concatenation and slicing. */
  lemma ToLowerConcat(a: string, b: string)
    ensures ToLower(a + b) == ToLower(a) + ToLower(b)
  {
  }

  lemma ToLowerSlice(s: string, i: nat, j: nat)
    requires i <= j <= |s|
    ensures ToLower(s)[i..j] == ToLower(s[i..j])
  {
  }

  // ---------------------------------------------------------------------
  // Substring containment
  // ---------------------------------------------------------------------

  /** `k` occurs in `s` starting at position `i`. */
  predicate OccursAt(s: string, k: string, i: nat) {
    i + |k| <= |s| && s[i..i + |k|] == k
  }

  /** Reference definition: `k` occurs in `s` at some position. */
  ghost predicate Contains(s: string, k: string) {
    exists i: nat :: OccursAt(s, k, i)
  }

  /** A match that is not at the front of `s` is a match in `s[1..]`. */
  lemma ContainsTail(s: string, k: string)
    requires |k| <= |s| && s[..|k|] != k
    ensures Contains(s, k) <==> Contains(s[1..], k)
  {
    if Contains(s, k) {
      var i: nat :| OccursAt(s, k, i);
      assert i != 0;
      assert s[1..][i - 1..i - 1 + |k|] == s[i..i + |k|];
      assert OccursAt(s[1..], k, i - 1);
    }
    if Contains(s[1..], k) {
      var i: nat :| OccursAt(s[1..], k, i);
      assert s[i + 1..i + 1 + |k|] == s[1..][i..i + |k|];
      assert OccursAt(s, k, i + 1);
    }
  }

  /** `String.prototype.includes`: a left-to-right scan for `k`.
      The empty string is included in every string. */
  function Includes(s: string, k: string): (b: bool)
    ensures b <==> Contains(s, k)
    decreases |s|
  {
    if |s| < |k| then false
    else if s[..|k|] == k then assert OccursAt(s, k, 0); true
    else ContainsTail(s, k); Includes(s[1..], k)
  }

  /** `keywords.some(k => s.includes(k))`. */
  function IncludesAny(s: string, keywords: seq<string>): (b: bool)
    ensures b <==> exists j :: 0 <= j < |keywords| && Contains(s, keywords[j])
  {
    if keywords == [] then false
    else Includes(s, keywords[0]) || IncludesAny(s, keywords[1..])
  }

  /** A phrase with a character that `s` lacks does not occur in `s`. */
  lemma MissingChar(s: string, k: string, c: char)
    requires c in k && c !in s
    ensures !Contains(s, k)
  {
    var m :| 0 <= m < |k| && k[m] == c;
    forall i: nat | i + |k| <= |s|
      ensures !OccursAt(s, k, i)
    {
      assert s[i..i + |k|][m] == s[i + m];
    }
  }

  /** An occurrence survives any text put around it. */
  lemma ContainsEmbedded(pre: string, k: string, post: string)
    ensures Contains(pre + k + post, k)
  {
    assert (pre + k + post)[|pre|..|pre| + |k|] == k;
    assert OccursAt(pre + k + post, k, |pre|);
  }

  // ---------------------------------------------------------------------
  // Trimming
  // ---------------------------------------------------------------------

  /** The characters `String.prototype.trim` removes: ECMAScript WhiteSpace
      (TAB, VT, FF, ZWNBSP and the space separators) and LineTerminator. */
  predicate IsWhitespace(c: char) {
    c == '\t' || c == '\n' || c == '\U{000B}' || c == '\U{000C}' || c == '\r' || c == ' '
    || c == '\U{00A0}' || c == '\U{1680}' || ('\U{2000}' <= c <= '\U{200A}')
    || c == '\U{2028}' || c == '\U{2029}' || c == '\U{202F}' || c == '\U{205F}'
    || c == '\U{3000}' || c == '\U{FEFF}'
  }

  predicate AllWhitespace(s: string) {
    forall i :: 0 <= i < |s| ==> IsWhitespace(s[i])
  }

  /** Drops the leading whitespace of `s`. */
  function TrimStart(s: string): (r: string)
    ensures |r| <= |s| && r == s[|s| - |r|..]
    ensures AllWhitespace(s[..|s| - |r|])
    ensures r == [] || !IsWhitespace(r[0])
  {
    if s != [] && IsWhitespace(s[0]) then TrimStart(s[1..]) else s
  }

  /** Drops the trailing whitespace of `s`. */
  function TrimEnd(s: string): (r: string)
    ensures |r| <= |s| && r == s[..|r|]
    ensures AllWhitespace(s[|r|..])
    ensures r == [] || !IsWhitespace(r[|r| - 1])
  {
    if s != [] && IsWhitespace(s[|s| - 1]) then TrimEnd(s[..|s| - 1]) else s
  }

  lemma {:induction false} TrimStartAllWhitespace(s: string)
    requires AllWhitespace(s)
    ensures TrimStart(s) == []
  {
    if s != [] {
      assert AllWhitespace(s[1..]) by {
        forall i | 0 <= i < |s[1..]| ensures IsWhitespace(s[1..][i]) {
          assert s[1..][i] == s[i + 1];
        }
      }
      TrimStartAllWhitespace(s[1..]);
    }
  }

  /** Trimming the end leaves nothing only when every character is whitespace. */
  lemma TrimEndEmpty(t: string)
    requires TrimEnd(t) == []
    ensures AllWhitespace(t)
  {
    assert t[0..] == t;
  }

  /** Trimming the start leaves nothing only when every character is whitespace. */
  lemma TrimStartEmpty(s: string)
    ensures TrimStart(s) == [] ==> AllWhitespace(s)
  {
    var cut := |s| - |TrimStart(s)|;
    assert AllWhitespace(s[..cut]);
    assert cut == |s| ==> s[..cut] == s;
  }

  lemma TrimBothEmptyIffAllWhitespace(s: string)
    ensures TrimEnd(TrimStart(s)) == [] <==> AllWhitespace(s)
  {
    var t := TrimStart(s);
    if TrimEnd(t) == [] {
      TrimEndEmpty(t);
      TrimStartEmpty(s);
    }
    if AllWhitespace(s) {
      TrimStartAllWhitespace(s);
    }
  }

  /** `r` occurs in `s` at position `a` with nothing but whitespace before
      and after it. */
  predicate PaddedBy(s: string, r: string, a: nat) {
    OccursAt(s, r, a) && AllWhitespace(s[..a]) && AllWhitespace(s[a + |r|..])
  }

  /** A prefix `r` of a suffix `t` of `s`, each cut off at whitespace only,
      is padded by whitespace in `s`. */
  lemma PrefixOfSuffixIsPadded(s: string, t: string, r: string)
    requires |t| <= |s| && t == s[|s| - |t|..] && AllWhitespace(s[..|s| - |t|])
    requires |r| <= |t| && r == t[..|r|] && AllWhitespace(t[|r|..])
    ensures PaddedBy(s, r, |s| - |t|)
  {
    var a := |s| - |t|;
    assert s[a..a + |r|] == t[..|r|];
    assert s[a + |r|..] == t[|r|..];
  }

  /** What is left after trimming both ends sits in `s` right after the
      leading whitespace, with only whitespace after it. */
  lemma TrimBothIsPiece(s: string)
    ensures PaddedBy(s, TrimEnd(TrimStart(s)), |s| - |TrimStart(s)|)
  {
    PrefixOfSuffixIsPadded(s, TrimStart(s), TrimEnd(TrimStart(s)));
  }

  /** `String.prototype.trim`: drops the whitespace at both ends. */
  function Trim(s: string): string {
    TrimEnd(TrimStart(s))
  }

  /** What `trim` leaves: a piece of `s` with only whitespace before and
      after it, which neither starts nor ends with whitespace. */
  lemma TrimIsPadded(s: string)
    ensures exists a: nat :: PaddedBy(s, Trim(s), a)
    ensures Trim(s) == [] || (!IsWhitespace(Trim(s)[0]) && !IsWhitespace(Trim(s)[|Trim(s)| - 1]))
  {
    var t := TrimStart(s);
    var r := TrimEnd(t);
    assert Trim(s) == r;
    TrimBothIsPiece(s);
    assert r == [] || r[0] == t[0];
  }

  /** `!s.trim()`: the input counts as empty once trimmed. */
  predicate IsBlank(s: string) {
    Trim(s) == []
  }

  /** A string is blank exactly when every character of it is whitespace. */
  lemma BlankIffAllWhitespace(s: string)
    ensures IsBlank(s) <==> AllWhitespace(s)
  {
    TrimBothEmptyIffAllWhitespace(s);
  }
}

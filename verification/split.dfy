/**
  A model of Python's `str.split()` called with no arguments: the string is
  cut into the maximal runs of non-whitespace characters, and leading,
  trailing and repeated whitespace produce no empty fields.

  `Tokens` is the functional definition. `Gaps` and `Join` describe the
  whitespace layout around the tokens, and the two round-trip lemmas
  (`DecomposeLayout`, `TokensOfLayout`) show that `Tokens` picks out exactly
  the words of the one layout a string has. `SplitWhitespace` is a scanning
  loop in the manner of CPython's `split_whitespace`, proved equal to
  `Tokens`.
 */
module Split {

  /** Python 3's `str.isspace` table: the characters `str.split()` cuts at. */
  predicate IsSpace(c: char) {
    || ('\t' <= c <= '\r')                  // tab, line feed, vertical tab, form feed, carriage return
    || ('\U{1C}' <= c <= '\U{1F}')          // file, group, record and unit separators
    || c == ' '
    || c == '\U{85}' || c == '\U{A0}' || c == '\U{1680}'
    || ('\U{2000}' <= c <= '\U{200A}')
    || c == '\U{2028}' || c == '\U{2029}' || c == '\U{202F}' || c == '\U{205F}'
    || c == '\U{3000}'
  }

  /** The table is Unicode's, not ASCII's: no-break and typographic spaces
      separate fields; zero-width and formatting characters do not. */
  lemma UnicodeSpaces()
    ensures IsSpace('\U{85}') && IsSpace('\U{A0}') && IsSpace('\U{2003}') && IsSpace('\U{3000}')
    ensures !IsSpace('\U{200B}') && !IsSpace('\U{180E}') && !IsSpace('\U{FEFF}')
  {
  }

  /** Every character is whitespace (the empty string included). */
  predicate IsBlank(s: string) {
    forall i :: 0 <= i < |s| ==> IsSpace(s[i])
  }

  /** A possible token: non-empty, with no whitespace in it. */
  predicate IsWord(s: string) {
    |s| > 0 && forall i :: 0 <= i < |s| ==> !IsSpace(s[i])
  }

  /** Length of the longest all-whitespace prefix of `s`. */
  function LeadingSpace(s: string): (n: nat)
    ensures n <= |s|
    ensures IsBlank(s[..n])
    ensures n < |s| ==> !IsSpace(s[n])
  {
    if |s| == 0 || !IsSpace(s[0]) then 0 else 1 + LeadingSpace(s[1..])
  }

  /** Length of the longest whitespace-free prefix of `s`. */
  function LeadingWord(s: string): (n: nat)
    ensures n <= |s|
    ensures forall i :: 0 <= i < n ==> !IsSpace(s[i])
    ensures n < |s| ==> IsSpace(s[n])
  {
    if |s| == 0 || IsSpace(s[0]) then 0 else 1 + LeadingWord(s[1..])
  }

  /** The result of `s.split()`: the maximal runs of non-whitespace, in order. */
  function Tokens(s: string): (r: seq<string>)
    ensures forall k :: 0 <= k < |r| ==> IsWord(r[k])
    decreases |s|
  {
    var a := LeadingSpace(s);
    if a == |s| then []
    else
      var rest := s[a..];
      var n := LeadingWord(rest);
      [rest[..n]] + Tokens(rest[n..])
  }

  /** The whitespace runs around the tokens: before the first, between
      consecutive ones, and after the last. */
  function Gaps(s: string): (g: seq<string>)
    ensures |g| == |Tokens(s)| + 1
    decreases |s|
  {
    var a := LeadingSpace(s);
    if a == |s| then [s]
    else
      var rest := s[a..];
      var n := LeadingWord(rest);
      [s[..a]] + Gaps(rest[n..])
  }

  /** Interleaves gaps and tokens: `g[0] + t[0] + g[1] + ... + t[k-1] + g[k]`. */
  function Join(g: seq<string>, t: seq<string>): string
    requires |g| == |t| + 1
  {
    if t == [] then g[0] else g[0] + t[0] + Join(g[1..], t[1..])
  }

  /** A well-formed layout: words separated by whitespace, where only the
      first and last gaps may be empty. */
  predicate IsLayout(g: seq<string>, t: seq<string>) {
    && |g| == |t| + 1
    && (forall i :: 0 <= i < |g| ==> IsBlank(g[i]))
    && (forall k :: 0 <= k < |t| ==> IsWord(t[k]))
    && (forall i :: 0 < i < |t| ==> g[i] != [])
  }

  /** `LeadingSpace` is the only length with its two defining properties. */
  lemma {:induction false} LeadingSpaceIs(s: string, k: nat)
    requires k <= |s| && IsBlank(s[..k])
    requires k < |s| ==> !IsSpace(s[k])
    ensures LeadingSpace(s) == k
    decreases k
  {
    if k > 0 {
      assert s[..k][0] == s[0];
      assert s[1..][..k - 1] == s[..k][1..];
      LeadingSpaceIs(s[1..], k - 1);
    }
  }

  /** `LeadingWord` is the only length with its two defining properties. */
  lemma {:induction false} LeadingWordIs(s: string, k: nat)
    requires k <= |s|
    requires forall i :: 0 <= i < k ==> !IsSpace(s[i])
    requires k < |s| ==> IsSpace(s[k])
    ensures LeadingWord(s) == k
    decreases k
  {
    if k > 0 {
      assert !IsSpace(s[0]);
      assert forall i :: 0 <= i < k - 1 ==> s[1..][i] == s[i + 1];
      LeadingWordIs(s[1..], k - 1);
    }
  }

  /** Tokens of a string that is whitespace only: none. */
  lemma TokensOfBlank(s: string)
    requires IsBlank(s)
    ensures Tokens(s) == [] && Gaps(s) == [s]
  {
    LeadingSpaceIs(s, |s|);
  }

  /** `s.split()` is empty exactly when `s` is all whitespace. */
  lemma TokensEmptyIffBlank(s: string)
    ensures Tokens(s) == [] <==> IsBlank(s)
  {
    var a := LeadingSpace(s);
    if a == |s| {
      assert s[..a] == s;
    } else {
      assert !IsSpace(s[a]);
    }
  }

  /** Cutting a string at its tokens and gluing it back gives the string;
      the pieces form a well-formed layout. */
  lemma DecomposeLayout(s: string)
    ensures IsLayout(Gaps(s), Tokens(s))
    ensures Join(Gaps(s), Tokens(s)) == s
  {
    GapsAndTokensFormLayout(s);
    GapsAndTokensJoinToString(s);
  }

  lemma {:induction false} GapsAndTokensFormLayout(s: string)
    ensures IsLayout(Gaps(s), Tokens(s))
    decreases |s|
  {
    var a := LeadingSpace(s);
    if a == |s| {
      assert s[..a] == s;
    } else {
      var rest := s[a..];
      var n := LeadingWord(rest);
      var tail := rest[n..];
      var g, t := Gaps(tail), Tokens(tail);
      assert Tokens(s) == [rest[..n]] + t && Gaps(s) == [s[..a]] + g by {
        Unfold(s);
      }
      GapsAndTokensFormLayout(tail);
      GapAfterWord(tail);
      LayoutCons(s[..a], rest[..n], g, t);
    }
  }

  lemma {:induction false} GapsAndTokensJoinToString(s: string)
    ensures Join(Gaps(s), Tokens(s)) == s
    decreases |s|
  {
    var a := LeadingSpace(s);
    if a == |s| {
      assert s[..a] == s;
    } else {
      var rest := s[a..];
      var n := LeadingWord(rest);
      var tail := rest[n..];
      var g, t := Gaps(tail), Tokens(tail);
      assert Tokens(s) == [rest[..n]] + t && Gaps(s) == [s[..a]] + g by {
        Unfold(s);
      }
      GapsAndTokensJoinToString(tail);
      JoinCons(s[..a], rest[..n], g, t);
      ConcatSlices(s, a);
      ConcatSlices(rest, n);
      ConcatAssoc(s[..a], rest[..n], tail);
    }
  }

  /** What follows a token starts with whitespace, so when another token
      comes, the gap before it is not empty. */
  lemma GapAfterWord(tail: string)
    requires tail != [] ==> IsSpace(tail[0])
    ensures Tokens(tail) != [] ==> Gaps(tail)[0] != []
  {
    if Tokens(tail) != [] {
      TokensEmptyIffBlank(tail);
      assert LeadingSpace(tail) > 0;
      Unfold(tail);
    }
  }

  /** A gap and a word in front of a layout extend it. */
  lemma LayoutCons(gap: string, word: string, g: seq<string>, t: seq<string>)
    requires IsBlank(gap) && IsWord(word) && IsLayout(g, t)
    requires t != [] ==> g[0] != []
    ensures IsLayout([gap] + g, [word] + t)
  {
    var g', t' := [gap] + g, [word] + t;
    assert forall i :: 0 < i < |g'| ==> g'[i] == g[i - 1];
    assert forall k :: 0 < k < |t'| ==> t'[k] == t[k - 1];
  }

  lemma JoinCons(gap: string, word: string, g: seq<string>, t: seq<string>)
    requires |g| == |t| + 1
    ensures Join([gap] + g, [word] + t) == gap + word + Join(g, t)
  {
    assert ([gap] + g)[1..] == g;
    assert ([word] + t)[1..] == t;
  }

  /** A word preceded by whitespace and followed by whitespace (or nothing)
      is the first token; its leading whitespace is the first gap. */
  lemma TokensCons(gap: string, word: string, rest: string)
    requires IsBlank(gap) && IsWord(word)
    requires rest != [] ==> IsSpace(rest[0])
    ensures Tokens(gap + word + rest) == [word] + Tokens(rest)
    ensures Gaps(gap + word + rest) == [gap] + Gaps(rest)
  {
    var w := word + rest;
    var s := gap + w;
    assert gap + word + rest == s;
    SliceConcat(gap, w);
    assert !IsSpace(s[|gap|]) by {
      assert s[|gap|] == word[0];
    }
    LeadingSpaceIs(s, |gap|);
    LeadingWordOfWord(word, rest);
    SliceConcat(word, rest);
    Unfold(s);
  }

  /** The two halves of a concatenation, cut where they were joined. */
  lemma SliceConcat<T>(a: seq<T>, b: seq<T>)
    ensures (a + b)[..|a|] == a && (a + b)[|a|..] == b
  {
  }

  /** Cutting a concatenation inside its first part. */
  lemma SliceOfConcat<T>(x: seq<T>, y: seq<T>, i: nat)
    requires i <= |x|
    ensures (x + y)[..i] == x[..i] && (x + y)[i..] == x[i..] + y
  {
  }

  /** A sequence cut in two and joined again. */
  lemma ConcatSlices<T>(s: seq<T>, i: nat)
    requires i <= |s|
    ensures s[..i] + s[i..] == s
  {
  }

  lemma ConcatAssoc<T>(a: seq<T>, b: seq<T>, c: seq<T>)
    ensures a + (b + c) == a + b + c
  {
  }

  lemma HeadTail<T>(s: seq<T>)
    requires s != []
    ensures s == [s[0]] + s[1..]
  {
  }

  lemma LeadingWordOfWord(word: string, rest: string)
    requires IsWord(word)
    requires rest != [] ==> IsSpace(rest[0])
    ensures LeadingWord(word + rest) == |word|
  {
    var w := word + rest;
    assert forall i :: 0 <= i < |word| ==> w[i] == word[i];
    if rest != [] {
      assert w[|word|] == rest[0];
    }
    LeadingWordIs(w, |word|);
  }

  /** One step of `Tokens` and `Gaps` on a string that is not all whitespace. */
  lemma Unfold(s: string)
    requires LeadingSpace(s) < |s|
    ensures var a := LeadingSpace(s); var n := LeadingWord(s[a..]);
      && Tokens(s) == [s[a..][..n]] + Tokens(s[a..][n..])
      && Gaps(s) == [s[..a]] + Gaps(s[a..][n..])
  {
  }

  /** Splitting a well-formed layout recovers its words and its gaps. */
  lemma {:induction false} TokensOfLayout(g: seq<string>, t: seq<string>)
    requires IsLayout(g, t)
    ensures Tokens(Join(g, t)) == t
    ensures Gaps(Join(g, t)) == g
    decreases |t|
  {
    if t == [] {
      TokensOfBlank(g[0]);
    } else {
      var g', t' := g[1..], t[1..];
      var rest := Join(g', t');
      LayoutTail(g, t);
      TokensOfLayout(g', t');
      if |t| > 1 {
        JoinHead(g', t');
        assert rest[0] == g'[0][0];
      }
      TokensCons(g[0], t[0], rest);
      HeadTail(t);
      HeadTail(g);
    }
  }

  /** Dropping the first gap and word of a layout leaves a layout. */
  lemma LayoutTail(g: seq<string>, t: seq<string>)
    requires IsLayout(g, t) && t != []
    ensures IsLayout(g[1..], t[1..])
  {
    var g', t' := g[1..], t[1..];
    assert forall i :: 0 <= i < |g'| ==> g'[i] == g[i + 1];
    assert forall k :: 0 <= k < |t'| ==> t'[k] == t[k + 1];
    forall i | 0 < i < |t'| ensures g'[i] != [] {
      assert g'[i] == g[i + 1];
    }
  }

  /** A joined layout starts with its first gap. */
  lemma JoinHead(g: seq<string>, t: seq<string>)
    requires |g| == |t| + 1
    ensures |g[0]| <= |Join(g, t)| && Join(g, t)[..|g[0]|] == g[0]
  {
    if t != [] {
      assert Join(g, t) == g[0] + (t[0] + Join(g[1..], t[1..]));
    }
  }

  /** Whitespace in front of a string does not change its tokens. */
  lemma {:induction false} TokensIgnoreLeadingSpace(pre: string, s: string)
    requires IsBlank(pre)
    ensures Tokens(pre + s) == Tokens(s)
    decreases |pre|
  {
    if pre == [] {
      assert pre + s == s;
    } else {
      var s' := pre + s;
      assert s'[0] == pre[0];
      TokensDropSpace(s');
      assert s'[1..] == pre[1..] + s;
      TokensIgnoreLeadingSpace(pre[1..], s);
    }
  }

  /** A leading whitespace character is not part of any token. */
  lemma TokensDropSpace(s: string)
    requires s != [] && IsSpace(s[0])
    ensures Tokens(s) == Tokens(s[1..])
  {
    var a := LeadingSpace(s);
    var a' := LeadingSpace(s[1..]);
    assert a == 1 + a';
    assert s[a..] == s[1..][a'..];
  }

  /** Whitespace after a string does not change its tokens; in particular
      the line break `readlines` leaves on a line is never part of a token. */
  lemma {:induction false} TokensIgnoreTrailingSpace(s: string, post: string)
    requires IsBlank(post)
    ensures Tokens(s + post) == Tokens(s)
    decreases |s|
  {
    var a := LeadingSpace(s);
    var sp := s + post;
    if a == |s| {
      assert IsBlank(sp) by {
        assert s[..a] == s;
        forall i | 0 <= i < |sp| ensures IsSpace(sp[i]) {
          if i < |s| { assert sp[i] == s[..a][i]; } else { assert sp[i] == post[i - |s|]; }
        }
      }
      TokensOfBlank(sp);
      TokensOfBlank(s);
    } else {
      var rest := s[a..];
      var n := LeadingWord(rest);
      assert LeadingSpace(sp) == a by {
        SliceOfConcat(s, post, a);
        assert sp[a] == s[a];
        LeadingSpaceIs(sp, a);
      }
      SliceOfConcat(s, post, a);
      assert LeadingWord(rest + post) == n by {
        if n < |rest| {
          assert (rest + post)[n] == rest[n];
        } else if post != [] {
          assert (rest + post)[n] == post[0];
        }
        LeadingWordIs(rest + post, n);
      }
      SliceOfConcat(rest, post, n);
      Unfold(s);
      Unfold(sp);
      TokensIgnoreTrailingSpace(rest[n..], post);
    }
  }

  /** A scanning loop in the manner of CPython's `split_whitespace`: skip
      whitespace, then take the next run of non-whitespace, until the string
      ends. */
  method SplitWhitespace(s: string) returns (r: seq<string>)
    ensures r == Tokens(s)
  {
    r := [];
    var i := 0;
    while i < |s|
      invariant 0 <= i <= |s|
      invariant r + Tokens(s[i..]) == Tokens(s)
      decreases |s| - i
    {
      if IsSpace(s[i]) {
        TokensSkipSpace(s, i);
        i := i + 1;
      } else {
        var j := ScanWord(s, i);
        TokensTakeWord(s, i, j);
        r := r + [s[i..j]];
        i := j;
      }
    }
    assert Tokens(s[i..]) == [] by {
      TokensOfBlank(s[i..]);
    }
  }

  /** The inner loop: the end of the run of non-whitespace starting at `i`. */
  method ScanWord(s: string, i: nat) returns (j: nat)
    requires i < |s|
    ensures i <= j <= |s|
    ensures j - i == LeadingWord(s[i..])
  {
    j := i;
    while j < |s| && !IsSpace(s[j])
      invariant i <= j <= |s|
      invariant forall k :: i <= k < j ==> !IsSpace(s[k])
      decreases |s| - j
    {
      j := j + 1;
    }
    LeadingWordIs(s[i..], j - i);
  }

  /** A whitespace character in front of the unscanned part is skipped. */
  lemma TokensSkipSpace(s: string, i: nat)
    requires i < |s| && IsSpace(s[i])
    ensures Tokens(s[i..]) == Tokens(s[i + 1..])
  {
    assert s[i..][1..] == s[i + 1..];
    TokensDropSpace(s[i..]);
  }

  /** A maximal run of non-whitespace in front of the unscanned part is the next token. */
  lemma TokensTakeWord(s: string, i: nat, j: nat)
    requires i < j <= |s| && j - i == LeadingWord(s[i..])
    ensures Tokens(s[i..]) == [s[i..j]] + Tokens(s[j..])
  {
    var w := s[i..j];
    assert s[i..] == [] + w + s[j..];
    assert w[0] == s[i];
    assert !IsSpace(w[0]);
    assert IsWord(w) by {
      forall k | 0 <= k < |w| ensures !IsSpace(w[k]) {
        assert w[k] == s[i..][k];
      }
    }
    if j < |s| {
      assert s[j..][0] == s[i..][j - i];
    }
    TokensCons([], w, s[j..]);
  }
}

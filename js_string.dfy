/**
 * The JavaScript string primitives that class-name assembly relies on:
 * the whitespace class shared by the regular expression `\s` and
 * `String.prototype.trim`, trimming, `join`, `split(/\s+/)`, and a
 * reference definition of the whitespace-separated tokens of a string.
 */
module JsString {

  /** ECMAScript WhiteSpace and LineTerminator code points: the set matched by `\s` and removed by `trim()`. */
  const WhitespaceChars: string :=
    "\t\n\U{B}\U{C}\r\U{A0}\U{1680}\U{2000}\U{2001}\U{2002}\U{2003}\U{2004}\U{2005}\U{2006}"
    + "\U{2007}\U{2008}\U{2009}\U{200A}\U{2028}\U{2029}\U{202F}\U{205F}\U{3000}\U{FEFF} "

  /** `c` is one of the first `k` characters of WhitespaceChars. */
  predicate AmongFirst(c: char, k: nat)
    requires k <= |WhitespaceChars|
  {
    k > 0 && (WhitespaceChars[k - 1] == c || AmongFirst(c, k - 1))
  }

  /**
   * Whitespace in the sense of `\s` and `trim()`. The search runs from the
   * back of WhitespaceChars, so the common case, the space, is found first.
   */
  predicate IsWs(c: char) {
    AmongFirst(c, |WhitespaceChars|)
  }

  lemma SpaceIsWs()
    ensures IsWs(' ')
  {
    assert WhitespaceChars[|WhitespaceChars| - 1] == ' ';
  }

  /** The search agrees with membership in the character list. */
  lemma {:induction false} AmongFirstIsMembership(c: char, k: nat)
    requires k <= |WhitespaceChars|
    ensures AmongFirst(c, k) <==> c in WhitespaceChars[..k]
  {
    if k > 0 {
      AmongFirstIsMembership(c, k - 1);
      assert WhitespaceChars[..k] == WhitespaceChars[..k - 1] + [WhitespaceChars[k - 1]];
    }
  }

  lemma IsWsIsMembership(c: char)
    ensures IsWs(c) <==> c in WhitespaceChars
  {
    AmongFirstIsMembership(c, |WhitespaceChars|);
    assert WhitespaceChars[..|WhitespaceChars|] == WhitespaceChars;
  }

  /** No character of `s` is whitespace. */
  predicate WsFree(s: string) {
    forall i :: 0 <= i < |s| ==> !IsWs(s[i])
  }

  /** Every character of `s` is whitespace. */
  predicate AllWs(s: string) {
    forall i :: 0 <= i < |s| ==> IsWs(s[i])
  }

  /** A class token: non-empty and free of whitespace. */
  predicate IsToken(t: string) {
    t != [] && WsFree(t)
  }

  /** A non-empty string of lower-case letters, digits, dashes and commas is a class token. */
  lemma PlainIsToken(t: string)
    requires t != []
    requires forall i :: 0 <= i < |t| ==> 'a' <= t[i] <= 'z' || '0' <= t[i] <= '9' || t[i] == '-' || t[i] == ','
    ensures IsToken(t)
  {
    forall i | 0 <= i < |t| ensures !IsWs(t[i]) {
      IsWsIsMembership(t[i]);
    }
  }

  predicate AllTokens(ts: seq<string>) {
    forall t :: t in ts ==> IsToken(t)
  }

  /** Neither end of `s` is whitespace. */
  predicate Trimmed(s: string) {
    s != [] ==> !IsWs(s[0]) && !IsWs(s[|s| - 1])
  }

  /**
   * Canonical class string: trimmed, every whitespace character is a plain
   * space, and no two whitespace characters are adjacent.
   */
  predicate IsNormal(s: string) {
    && Trimmed(s)
    && (forall i :: 0 <= i < |s| && IsWs(s[i]) ==> s[i] == ' ')
    && (forall i, j :: 0 <= i < |s| && 0 <= j < |s| && j == i + 1 ==> !IsWs(s[i]) || !IsWs(s[j]))
  }

  /** `s.trimStart()`: what is left after the leading whitespace run. */
  function TrimStart(s: string): (r: string)
    ensures |r| <= |s|
    ensures r == [] || !IsWs(r[0])
  {
    if s == [] || !IsWs(s[0]) then s else TrimStart(s[1..])
  }

  /** `s.trimEnd()`: what is left after the trailing whitespace run. */
  function TrimEnd(s: string): (r: string)
    ensures |r| <= |s|
    ensures r == [] || !IsWs(r[|r| - 1])
    ensures r != [] ==> r[0] == s[0]
  {
    if s == [] || !IsWs(s[|s| - 1]) then s else TrimEnd(s[..|s| - 1])
  }

  /** `s.trim()`. */
  function Trim(s: string): (r: string)
    ensures Trimmed(r)
  {
    TrimEnd(TrimStart(s))
  }

  /** `ps.join(sep)`. */
  function Join(ps: seq<string>, sep: string): string
  {
    if ps == [] then "" else if |ps| == 1 then ps[0] else ps[0] + sep + Join(ps[1..], sep)
  }

  /** The longest prefix of `s` that holds no whitespace. */
  function Word(s: string): (w: string)
    ensures |w| <= |s|
    ensures s != [] && !IsWs(s[0]) ==> w != []
  {
    if s == [] || IsWs(s[0]) then [] else [s[0]] + Word(s[1..])
  }

  /**
   * `s.split(/\s+/)`: the pieces between maximal whitespace runs, including
   * the empty piece before leading and after trailing whitespace.
   */
  function SplitWs(s: string): (ps: seq<string>)
    decreases |s|
  {
    var w := Word(s);
    var rest := s[|w|..];
    if rest == [] then [w] else [w] + SplitWs(TrimStart(rest))
  }

  /**
   * Reference definition of the tokens of `s`: its maximal non-empty runs
   * of non-whitespace characters, left to right.
   */
  function Tokens(s: string): (ts: seq<string>)
    decreases |s|
  {
    var t := TrimStart(s);
    if t == [] then [] else var w := Word(t); [w] + Tokens(t[|w|..])
  }

  /** The tokens of each string in `ps`, concatenated in order. */
  function TokensOfAll(ps: seq<string>): seq<string>
  {
    if ps == [] then [] else Tokens(ps[0]) + TokensOfAll(ps[1..])
  }

  // ---------------------------------------------------------------------
  // What trimming and Word take away

  /** trimStart removes exactly a whitespace prefix. */
  lemma {:induction false} TrimStartSpec(s: string)
    ensures s == s[..|s| - |TrimStart(s)|] + TrimStart(s)
    ensures AllWs(s[..|s| - |TrimStart(s)|])
    decreases |s|
  {
    if s != [] && IsWs(s[0]) {
      TrimStartSpec(s[1..]);
      var k := |s| - |TrimStart(s)|;
      assert s[..k] == [s[0]] + s[1..][..k - 1];
    }
  }

  /** trimEnd removes exactly a whitespace suffix. */
  lemma {:induction false} TrimEndSpec(s: string)
    ensures s == TrimEnd(s) + s[|TrimEnd(s)|..]
    ensures AllWs(s[|TrimEnd(s)|..])
    decreases |s|
  {
    if s != [] && IsWs(s[|s| - 1]) {
      var p := s[..|s| - 1];
      TrimEndSpec(p);
      var k := |TrimEnd(s)|;
      assert s[k..] == p[k..] + [s[|s| - 1]];
    }
  }

  /** Word takes exactly the maximal whitespace-free prefix. */
  lemma {:induction false} WordSpec(s: string)
    ensures s == Word(s) + s[|Word(s)|..]
    ensures WsFree(Word(s))
    ensures |Word(s)| == |s| || IsWs(s[|Word(s)|])
    decreases |s|
  {
    if s != [] && !IsWs(s[0]) {
      WordSpec(s[1..]);
    }
  }

  lemma WordOfWsFree(s: string)
    requires WsFree(s)
    ensures Word(s) == s
  {
    WordSpec(s);
  }

  lemma TrimmedTrimIsIdentity(s: string)
    requires Trimmed(s)
    ensures Trim(s) == s
  {
  }

  // ---------------------------------------------------------------------
  // Algebra of Tokens

  /** Every token is non-empty and free of whitespace. */
  lemma {:induction false} TokensAreTokens(s: string)
    ensures AllTokens(Tokens(s))
    decreases |s|
  {
    var t := TrimStart(s);
    if t != [] {
      var w := Word(t);
      WordSpec(t);
      TokensAreTokens(t[|w|..]);
      assert Tokens(s) == [w] + Tokens(t[|w|..]);
    }
  }

  lemma TokensTrimStart(s: string)
    ensures Tokens(TrimStart(s)) == Tokens(s)
  {
    assert TrimStart(TrimStart(s)) == TrimStart(s);
  }

  lemma {:induction false} TrimStartConcat(a: string, b: string)
    ensures TrimStart(a + b) == if TrimStart(a) == [] then TrimStart(b) else TrimStart(a) + b
  {
    if a == [] {
      assert a + b == b;
    } else if IsWs(a[0]) {
      assert (a + b)[1..] == a[1..] + b;
      TrimStartConcat(a[1..], b);
    }
  }

  lemma {:induction false} WordConcat(a: string, b: string)
    requires b == [] || IsWs(b[0])
    ensures Word(a + b) == Word(a)
  {
    if a == [] {
      assert a + b == b;
    } else if !IsWs(a[0]) {
      assert (a + b)[1..] == a[1..] + b;
      WordConcat(a[1..], b);
    }
  }

  lemma ConsAssoc<T>(w: T, x: seq<T>, y: seq<T>)
    ensures [w] + (x + y) == ([w] + x) + y
  {
  }

  lemma SliceConcat(x: string, b: string, k: nat)
    requires k <= |x|
    ensures (x + b)[k..] == x[k..] + b
  {
  }

  lemma TokensAllWs(s: string)
    requires AllWs(s)
    ensures Tokens(s) == []
  {
    TrimStartSpec(s);
  }

  lemma TokensConcatBlank(a: string, b: string)
    requires TrimStart(a) == []
    ensures Tokens(a + b) == Tokens(a) + Tokens(b)
  {
    TrimStartConcat(a, b);
    TokensTrimStart(b);
    TokensTrimStart(a + b);
  }

  lemma TokensConcatWord(a: string, b: string, t: string, w: string)
    requires b == [] || IsWs(b[0])
    requires t == TrimStart(a) && t != [] && w == Word(t)
    requires Tokens(t[|w|..] + b) == Tokens(t[|w|..]) + Tokens(b)
    ensures Tokens(a + b) == Tokens(a) + Tokens(b)
  {
    var x, y := Tokens(t[|w|..]), Tokens(b);
    assert Tokens(a) == [w] + x;
    assert Tokens(a + b) == [w] + (x + y) by {
      TrimStartConcat(a, b);
      WordConcat(t, b);
      SliceConcat(t, b, |w|);
    }
    ConsAssoc(w, x, y);
  }

  /** Whitespace at the joint separates tokens: the tokens of the parts are the tokens of the whole. */
  lemma {:induction false} TokensConcat(a: string, b: string)
    requires b == [] || IsWs(b[0])
    ensures Tokens(a + b) == Tokens(a) + Tokens(b)
    decreases |a|
  {
    var t := TrimStart(a);
    if t == [] {
      TokensConcatBlank(a, b);
    } else {
      var w := Word(t);
      TokensConcat(t[|w|..], b);
      TokensConcatWord(a, b, t, w);
    }
  }

  /** Trimming the ends never changes the tokens. */
  lemma TokensTrim(s: string)
    ensures Tokens(Trim(s)) == Tokens(s)
  {
    var t := TrimStart(s);
    var r := TrimEnd(t);
    TrimEndSpec(t);
    TokensConcat(r, t[|r|..]);
    TokensAllWs(t[|r|..]);
    TokensTrimStart(s);
  }

  lemma TokensOfToken(t: string)
    requires IsToken(t)
    ensures Tokens(t) == [t]
  {
    WordOfWsFree(t);
    assert t[|t|..] == [];
  }

  lemma TokensSpaceBefore(s: string)
    ensures Tokens(" " + s) == Tokens(s)
  {
    TokensTrimStart(" " + s);
    TokensTrimStart(s);
    TrimStartConcat(" ", s);
  }

  lemma TokensJoinStep(p: string, j: string)
    ensures Tokens(p + " " + j) == Tokens(p) + Tokens(j)
  {
    assert p + " " + j == p + (" " + j);
    SpaceIsWs();
    TokensConcat(p, " " + j);
    TokensSpaceBefore(j);
  }

  /** A string of plain spaces is all whitespace. */
  lemma SpacesAreWs(g: string)
    requires forall i :: 0 <= i < |g| ==> g[i] == ' '
    ensures AllWs(g)
  {
    SpaceIsWs();
  }

  lemma {:induction false} BlankTrimStart(g: string)
    requires AllWs(g)
    ensures TrimStart(g) == []
    decreases |g|
  {
    if g != [] {
      assert IsWs(g[0]);
      assert AllWs(g[1..]) by {
        forall i | 0 <= i < |g[1..]| ensures IsWs(g[1..][i]) {
          assert g[1..][i] == g[i + 1];
        }
      }
      BlankTrimStart(g[1..]);
    }
  }

  /** A non-empty whitespace run between two strings separates their tokens. */
  lemma TokensGap(p: string, g: string, j: string)
    requires g != [] && AllWs(g)
    ensures Tokens(p + g + j) == Tokens(p) + Tokens(j)
  {
    assert p + g + j == p + (g + j);
    assert (g + j)[0] == g[0];
    TokensConcat(p, g + j);
    BlankTrimStart(g);
    TokensConcatBlank(g, j);
    TokensAllWs(g);
  }

  /** Whitespace before a string contributes no tokens. */
  lemma TokensBlankBefore(g: string, j: string)
    requires AllWs(g)
    ensures Tokens(g + j) == Tokens(j)
  {
    BlankTrimStart(g);
    TokensConcatBlank(g, j);
    TokensAllWs(g);
  }

  /** Whitespace after a string contributes no tokens. */
  lemma TokensBlankAfter(p: string, g: string)
    requires AllWs(g)
    ensures Tokens(p + g) == Tokens(p)
  {
    TokensConcat(p, g);
    TokensAllWs(g);
    assert Tokens(p) + [] == Tokens(p);
  }

  /** Joining with one space neither merges nor splits tokens. */
  lemma {:induction false} TokensJoin(ps: seq<string>)
    ensures Tokens(Join(ps, " ")) == TokensOfAll(ps)
  {
    if |ps| == 1 {
      assert TokensOfAll(ps[1..]) == [];
    } else if |ps| > 1 {
      TokensJoin(ps[1..]);
      TokensJoinStep(ps[0], Join(ps[1..], " "));
    }
  }

  lemma {:induction false} TokensOfAllTokens(ts: seq<string>)
    requires AllTokens(ts)
    ensures TokensOfAll(ts) == ts
  {
    if ts != [] {
      assert ts[0] in ts;
      TokensOfToken(ts[0]);
      assert AllTokens(ts[1..]) by {
        forall t | t in ts[1..] ensures IsToken(t) { assert t in ts; }
      }
      TokensOfAllTokens(ts[1..]);
    }
  }

  /** Splitting a space-joined token list recovers the list. */
  lemma JoinTokensRoundTrip(ts: seq<string>)
    requires AllTokens(ts)
    ensures Tokens(Join(ts, " ")) == ts
  {
    TokensJoin(ts);
    TokensOfAllTokens(ts);
  }

  /** The space-join of a token, a space and a non-empty normal string is normal. */
  lemma NormalJoinStep(t: string, j: string)
    requires IsToken(t) && IsNormal(j) && j != []
    ensures IsNormal(t + " " + j)
  {
    var s := t + " " + j;
    SpaceIsWs();
    forall i | 0 <= i < |s| && IsWs(s[i]) ensures s[i] == ' ' {
      if i > |t| {
        assert s[i] == j[i - |t| - 1];
      }
    }
    forall i, k | 0 <= i < |s| && 0 <= k < |s| && k == i + 1 ensures !IsWs(s[i]) || !IsWs(s[k]) {
      if i > |t| {
        assert s[i] == j[i - |t| - 1] && s[k] == j[k - |t| - 1];
      } else if i == |t| {
        assert s[k] == j[0];
      } else if i < |t| {
        assert s[i] == t[i];
      }
    }
  }

  /** A space-joined list of tokens is in canonical form. */
  lemma {:induction false} JoinTokensNormal(ts: seq<string>)
    requires AllTokens(ts)
    ensures IsNormal(Join(ts, " "))
    ensures ts != [] ==> Join(ts, " ") != []
  {
    if ts != [] {
      assert ts[0] in ts;
    }
    if |ts| > 1 {
      assert AllTokens(ts[1..]) by {
        forall t | t in ts[1..] ensures IsToken(t) { assert t in ts; }
      }
      JoinTokensNormal(ts[1..]);
      NormalJoinStep(ts[0], Join(ts[1..], " "));
    }
  }

  /** In a normal string, a whitespace character is a space followed by a normal tail. */
  lemma NormalTail(s: string, k: nat)
    requires IsNormal(s) && k < |s| && IsWs(s[k])
    ensures k + 1 < |s| && s[k] == ' ' && IsNormal(s[k + 1..])
  {
    var tail := s[k + 1..];
    assert k + 1 < |s|;
    assert !IsWs(s[k + 1]);
    forall i | 0 <= i < |tail| && IsWs(tail[i]) ensures tail[i] == ' ' {
      assert tail[i] == s[k + 1 + i];
    }
    forall i, j | 0 <= i < |tail| && 0 <= j < |tail| && j == i + 1 ensures !IsWs(tail[i]) || !IsWs(tail[j]) {
      assert tail[i] == s[k + 1 + i] && tail[j] == s[k + 1 + j];
    }
  }

  lemma SplitAtSpace(s: string, w: string, r: string)
    requires s == w + r && r != [] && r[0] == ' '
    ensures s == w + " " + r[1..]
  {
    assert r == " " + r[1..];
  }

  /** One step of NormalIsJoinOfTokens: a normal string with more than one token. */
  lemma NormalTokensStep(s: string, w: string)
    requires IsNormal(s) && s != [] && w == Word(s) && |w| < |s|
    ensures |w| + 1 < |s| && IsNormal(s[|w| + 1..])
    ensures s == w + " " + s[|w| + 1..]
    ensures Tokens(s) == [w] + Tokens(s[|w| + 1..])
  {
    WordSpec(s);
    assert IsToken(w);
    NormalTail(s, |w|);
    SplitAtSpace(s, w, s[|w|..]);
    TokensJoinStep(w, s[|w| + 1..]);
    TokensOfToken(w);
  }

  /** A string that is one whole word has itself as its only token. */
  lemma SingleWord(s: string)
    requires s != [] && |Word(s)| == |s|
    ensures Tokens(s) == [s]
  {
    WordSpec(s);
    assert Word(s) == s;
    TokensOfToken(s);
  }

  lemma JoinCons(w: string, tt: seq<string>, sep: string)
    requires tt != []
    ensures Join([w] + tt, sep) == w + sep + Join(tt, sep)
  {
    assert ([w] + tt)[1..] == tt;
  }

  /** A string in canonical form is the space-join of its own tokens. */
  lemma {:induction false} NormalIsJoinOfTokens(s: string)
    requires IsNormal(s)
    ensures Join(Tokens(s), " ") == s
    decreases |s|
  {
    if s != [] {
      var w := Word(s);
      if |w| < |s| {
        NormalTokensStep(s, w);
        var tail := s[|w| + 1..];
        NormalIsJoinOfTokens(tail);
        var tt := Tokens(tail);
        assert tt != [];
        JoinCons(w, tt, " ");
      } else {
        SingleWord(s);
      }
    }
  }
}

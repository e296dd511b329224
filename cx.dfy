/**
 * `cx(...parts)`: the class-name joiner. Each argument contributes a list
 * of pieces (an array argument its truthy elements, stringified; a string
 * argument itself; any other argument its string form when truthy), the
 * pieces are joined with single spaces and only the two ends are trimmed.
 */
module ClassJoin {
  import opened JsString
  import opened JsValue

  /** `es.filter(Boolean)`: the truthy elements, in order. */
  function FilterTruthy(es: seq<Value>): (r: seq<Value>)
    ensures |r| <= |es|
  {
    if es == [] then []
    else (if Truthy(es[0]) then [es[0]] else []) + FilterTruthy(es[1..])
  }

  /** `es.map((x) => String(x))`. */
  function StringifyAll(es: seq<Value>): (r: seq<string>)
    ensures |r| == |es|
  {
    if es == [] then [] else [ToString(es[0])] + StringifyAll(es[1..])
  }

  /** The filter keeps exactly the truthy elements. */
  lemma {:induction false} FilterTruthySpec(es: seq<Value>)
    ensures forall x :: x in FilterTruthy(es) <==> x in es && Truthy(x)
  {
    if es != [] {
      FilterTruthySpec(es[1..]);
      assert es == [es[0]] + es[1..];
    }
  }

  /** Element `i` of the mapped list is the string form of element `i`. */
  lemma {:induction false} StringifyAllSpec(es: seq<Value>)
    ensures forall i :: 0 <= i < |es| ==> StringifyAll(es)[i] == ToString(es[i])
  {
    if es != [] {
      StringifyAllSpec(es[1..]);
    }
  }

  /** The filter works element by element: nothing for `[]`, and a single element kept exactly when truthy. */
  lemma FilterTruthyUnits(x: Value)
    ensures FilterTruthy([]) == []
    ensures FilterTruthy([x]) == if Truthy(x) then [x] else []
  {
    assert [x][1..] == [];
  }

  /** Filtering a concatenation filters each part and keeps them in order, duplicates included. */
  lemma {:induction false} FilterTruthyConcat(a: seq<Value>, b: seq<Value>)
    ensures FilterTruthy(a + b) == FilterTruthy(a) + FilterTruthy(b)
  {
    if a == [] {
      assert a + b == b;
    } else {
      var ab := a + b;
      var head := if Truthy(a[0]) then [a[0]] else [];
      assert ab[0] == a[0];
      assert ab[1..] == a[1..] + b;
      FilterTruthyConcat(a[1..], b);
      assert FilterTruthy(ab) == head + FilterTruthy(a[1..] + b);
      assert FilterTruthy(a) == head + FilterTruthy(a[1..]);
      assert head + (FilterTruthy(a[1..]) + FilterTruthy(b)) == (head + FilterTruthy(a[1..])) + FilterTruthy(b);
    }
  }

  /** Mapping a concatenation maps each part and keeps them in order. */
  lemma {:induction false} StringifyAllConcat(a: seq<Value>, b: seq<Value>)
    ensures StringifyAll(a + b) == StringifyAll(a) + StringifyAll(b)
  {
    if a == [] {
      assert a + b == b;
    } else {
      var ab := a + b;
      assert ab[0] == a[0];
      assert ab[1..] == a[1..] + b;
      StringifyAllConcat(a[1..], b);
      assert StringifyAll(ab) == [ToString(a[0])] + StringifyAll(a[1..] + b);
    }
  }

  /** The pieces one argument of `cx` contributes. */
  function Pieces(p: Value): seq<string>
  {
    match p
    case Arr(es) => StringifyAll(FilterTruthy(es))
    case Str(s) => [s]
    case _ => if Truthy(p) then [ToString(p)] else []
  }

  /** `parts.flatMap(Pieces)`. */
  function FlatPieces(parts: seq<Value>): seq<string>
  {
    if parts == [] then [] else Pieces(parts[0]) + FlatPieces(parts[1..])
  }

  /** `cx(...parts)`. */
  function Cx(parts: seq<Value>): (r: string)
    ensures Trimmed(r)
  {
    Trim(Join(FlatPieces(parts), " "))
  }

  /** An argument that contributes nothing: an array of falsy values, or a falsy non-string. */
  predicate Dropped(p: Value) {
    match p
    case Arr(es) => forall x :: x in es ==> !Truthy(x)
    case Str(_) => false
    case _ => !Truthy(p)
  }

  // ---------------------------------------------------------------------
  // What each argument contributes

  /** `Join` of three pieces puts one space between neighbours. */
  lemma JoinThree(a: string, m: string, b: string)
    ensures Join([a, m, b], " ") == a + " " + m + " " + b
  {
    assert [a, m, b][1..] == [m, b];
    assert [m, b][1..] == [b];
    assert Join([m, b], " ") == m + " " + b;
    assert Join([a, m, b], " ") == a + " " + (m + " " + b);
    assert a + " " + (m + " " + b) == a + " " + m + " " + b;
  }

  /** A string that starts and ends with a class token has no whitespace at either end. */
  lemma FramedIsTrimmed(a: string, m: string, b: string)
    requires IsToken(a) && IsToken(b)
    ensures Trimmed(a + m + b)
  {
    var r := a + m + b;
    assert r[0] == a[0];
    assert r[|r| - 1] == b[|b| - 1];
  }

  /**
   * A string argument is one piece, kept exactly as given: between two class
   * tokens it appears verbatim, so an empty string leaves two spaces and a
   * string with inner spaces keeps them.
   */
  lemma StringArgumentVerbatim(a: string, s: string, b: string)
    requires IsToken(a) && IsToken(b)
    ensures Pieces(Str(s)) == [s]
    ensures Cx([Str(a), Str(s), Str(b)]) == a + " " + s + " " + b
  {
    var parts := [Str(a), Str(s), Str(b)];
    assert FlatPieces(parts) == [a, s, b] by {
      assert FlatPieces(parts[2..]) == [b];
      assert FlatPieces(parts[1..]) == [s, b];
    }
    JoinThree(a, s, b);
    FramedIsTrimmed(a, " " + s + " ", b);
    assert a + " " + s + " " + b == a + (" " + s + " ") + b;
    CxKeepsInterior(parts);
  }

  /** An array argument contributes the string form of its truthy elements, in order. */
  lemma ArrayArgumentPieces(es: seq<Value>)
    ensures |Pieces(Arr(es))| <= |es|
    ensures forall t :: t in Pieces(Arr(es)) <==> exists x :: x in es && Truthy(x) && t == ToString(x)
  {
    var kept := FilterTruthy(es);
    FilterTruthySpec(es);
    StringifyAllSpec(kept);
    forall t | t in Pieces(Arr(es)) ensures exists x :: x in es && Truthy(x) && t == ToString(x) {
      var i :| 0 <= i < |kept| && StringifyAll(kept)[i] == t;
      assert kept[i] in kept;
    }
    forall t | exists x :: x in es && Truthy(x) && t == ToString(x) ensures t in Pieces(Arr(es)) {
      var x :| x in es && Truthy(x) && t == ToString(x);
      var i :| 0 <= i < |kept| && kept[i] == x;
      assert StringifyAll(kept)[i] == t;
    }
  }

  /** The pieces of an array argument, element by element: none for `[]`, one for a truthy element. */
  lemma ArrayPiecesUnits(x: Value)
    ensures Pieces(Arr([])) == []
    ensures Pieces(Arr([x])) == if Truthy(x) then [ToString(x)] else []
  {
    FilterTruthyUnits(x);
  }

  /** The pieces of an array argument that is a concatenation are those of each part, in order. */
  lemma ArrayPiecesConcat(a: seq<Value>, b: seq<Value>)
    ensures Pieces(Arr(a + b)) == Pieces(Arr(a)) + Pieces(Arr(b))
  {
    FilterTruthyConcat(a, b);
    StringifyAllConcat(FilterTruthy(a), FilterTruthy(b));
  }

  /**
   * Any other argument contributes its string form exactly when it is truthy:
   * between two class tokens it leaves that string between single spaces, or
   * nothing at all, not even an extra space.
   */
  lemma ScalarArgumentPieces(a: string, p: Value, b: string)
    requires !p.Arr? && !p.Str?
    requires IsToken(a) && IsToken(b)
    ensures !Truthy(p) <==> Pieces(p) == []
    ensures Cx([Str(a), p, Str(b)])
         == if Truthy(p) then a + " " + ToString(p) + " " + b else a + " " + b
  {
    var parts := [Str(a), p, Str(b)];
    assert FlatPieces(parts[2..]) == [b];
    if Truthy(p) {
      assert FlatPieces(parts) == [a, ToString(p), b] by {
        assert FlatPieces(parts[1..]) == [ToString(p), b];
      }
      JoinThree(a, ToString(p), b);
      FramedIsTrimmed(a, " " + ToString(p) + " ", b);
      assert a + " " + ToString(p) + " " + b == a + (" " + ToString(p) + " ") + b;
    } else {
      assert FlatPieces(parts) == [a, b] by {
        assert FlatPieces(parts[1..]) == [b];
      }
      assert [a, b][1..] == [b];
      FramedIsTrimmed(a, " ", b);
    }
    CxKeepsInterior(parts);
  }

  lemma {:induction false} AllFalsyFilteredOut(es: seq<Value>)
    requires forall x :: x in es ==> !Truthy(x)
    ensures FilterTruthy(es) == []
  {
    if es != [] {
      assert es[0] in es;
      assert forall x :: x in es[1..] ==> x in es;
      AllFalsyFilteredOut(es[1..]);
    }
  }

  lemma DroppedContributesNothing(p: Value)
    requires Dropped(p)
    ensures Pieces(p) == []
  {
    if p.Arr? {
      AllFalsyFilteredOut(p.elems);
    }
  }

  /** Pieces of consecutive argument lists follow each other in argument order. */
  lemma {:induction false} FlatPiecesConcat(x: seq<Value>, y: seq<Value>)
    ensures FlatPieces(x + y) == FlatPieces(x) + FlatPieces(y)
  {
    if x == [] {
      assert x + y == y;
    } else {
      var xy := x + y;
      assert xy[0] == x[0] && xy[1..] == x[1..] + y;
      FlatPiecesConcat(x[1..], y);
      assert FlatPieces(xy) == Pieces(x[0]) + (FlatPieces(x[1..]) + FlatPieces(y));
    }
  }

  lemma {:induction false} TokensOfAllConcat(x: seq<string>, y: seq<string>)
    ensures TokensOfAll(x + y) == TokensOfAll(x) + TokensOfAll(y)
  {
    if x == [] {
      assert x + y == y;
    } else {
      var xy := x + y;
      assert xy[0] == x[0] && xy[1..] == x[1..] + y;
      TokensOfAllConcat(x[1..], y);
      assert TokensOfAll(xy) == Tokens(x[0]) + (TokensOfAll(x[1..]) + TokensOfAll(y));
    }
  }

  // ---------------------------------------------------------------------
  // The joined result

  /** The classes of `cx(...parts)` are the classes of its pieces, in argument order. */
  lemma CxTokens(parts: seq<Value>)
    ensures Tokens(Cx(parts)) == TokensOfAll(FlatPieces(parts))
  {
    TokensTrim(Join(FlatPieces(parts), " "));
    TokensJoin(FlatPieces(parts));
  }

  /** The classes of `cx(...x, ...y)` are those of `cx(...x)` followed by those of `cx(...y)`. */
  lemma CxTokensConcat(x: seq<Value>, y: seq<Value>)
    ensures Tokens(Cx(x + y)) == Tokens(Cx(x)) + Tokens(Cx(y))
  {
    CxTokens(x + y);
    CxTokens(x);
    CxTokens(y);
    FlatPiecesConcat(x, y);
    TokensOfAllConcat(FlatPieces(x), FlatPieces(y));
  }

  /** Trimming touches only the ends: when the joined pieces have none to remove, `cx` is the join. */
  lemma CxKeepsInterior(parts: seq<Value>)
    requires Trimmed(Join(FlatPieces(parts), " "))
    ensures Cx(parts) == Join(FlatPieces(parts), " ")
  {
    TrimmedTrimIsIdentity(Join(FlatPieces(parts), " "));
  }

  /** When every piece is a class token, `cx` separates them by exactly one space. */
  lemma CxOfTokens(parts: seq<Value>)
    requires AllTokens(FlatPieces(parts))
    ensures Cx(parts) == Join(FlatPieces(parts), " ")
  {
    JoinTokensNormal(FlatPieces(parts));
    CxKeepsInterior(parts);
  }

  /** ... and the result is then in canonical form, with the pieces as its classes. */
  lemma CxOfTokensNormal(parts: seq<Value>)
    requires AllTokens(FlatPieces(parts))
    ensures IsNormal(Cx(parts))
    ensures Tokens(Cx(parts)) == FlatPieces(parts)
  {
    CxOfTokens(parts);
    JoinTokensNormal(FlatPieces(parts));
    JoinTokensRoundTrip(FlatPieces(parts));
  }

  /** `cx(nothing, c)` is `c` itself when `c` has no whitespace at its ends. */
  lemma CxNullishThenNormal(v: Value, c: string)
    requires IsNullish(v) && Trimmed(c)
    ensures Cx([v, Str(c)]) == c
  {
    var parts := [v, Str(c)];
    assert FlatPieces(parts) == [c] by {
      assert FlatPieces(parts[1..]) == [c];
    }
    CxKeepsInterior(parts);
  }

  /** The classes of `cx(a, c)` for two strings are those of `a` followed by those of `c`. */
  lemma CxPairTokens(a: string, c: string)
    ensures Tokens(Cx([Str(a), Str(c)])) == Tokens(a) + Tokens(c)
  {
    var parts := [Str(a), Str(c)];
    CxTokens(parts);
    assert FlatPieces(parts) == [a, c] by {
      assert FlatPieces(parts[1..]) == [c];
    }
    assert [a, c][1..] == [c];
    assert TokensOfAll([c]) == Tokens(c) + [];
  }

  /** `cx(a, b)` for two class tokens puts one space between them. */
  lemma CxTwoTokens(a: string, b: string)
    requires IsToken(a) && IsToken(b)
    ensures Cx([Str(a), Str(b)]) == a + " " + b
  {
    var parts := [Str(a), Str(b)];
    assert FlatPieces(parts) == [a, b] by {
      assert FlatPieces(parts[1..]) == [b];
    }
    assert AllTokens([a, b]);
    CxOfTokens(parts);
    assert [a, b][1..] == [b];
  }

  /** If every argument is dropped, the result is the empty string. */
  lemma {:induction false} CxAllDropped(parts: seq<Value>)
    requires forall p :: p in parts ==> Dropped(p)
    ensures FlatPieces(parts) == []
    ensures Cx(parts) == ""
  {
    if parts != [] {
      assert parts[0] in parts;
      DroppedContributesNothing(parts[0]);
      CxAllDropped(parts[1..]);
    }
  }

  // ---------------------------------------------------------------------
  // Concrete cases

  /** `cx` of arguments whose pieces are known class tokens. */
  lemma CxOfTokenList(parts: seq<Value>, ts: seq<string>)
    requires FlatPieces(parts) == ts && AllTokens(ts)
    ensures Cx(parts) == Join(ts, " ")
  {
    CxOfTokens(parts);
  }

  lemma PlainPieces()
    ensures FlatPieces([Str("a"), Str("b"), Str("c")]) == ["a", "b", "c"]
  {
    var parts := [Str("a"), Str("b"), Str("c")];
    assert FlatPieces(parts[2..]) == ["c"];
    assert FlatPieces(parts[1..]) == ["b", "c"];
  }

  lemma LetterTokens()
    ensures IsToken("a") && IsToken("b") && IsToken("c")
  {
    PlainIsToken("a");
    PlainIsToken("b");
    PlainIsToken("c");
  }

  /** `cx("a", "b", "c")` is `"a b c"`. */
  lemma CxPlainStrings()
    ensures Cx([Str("a"), Str("b"), Str("c")]) == "a b c"
  {
    PlainPieces();
    LetterTokens();
    assert Join(["a", "b", "c"], " ") == "a b c";
    CxOfTokenList([Str("a"), Str("b"), Str("c")], ["a", "b", "c"]);
  }

  lemma MixedPieces()
    ensures FlatPieces([Str("a"), Arr([Str("b"), Bool(false), Null]), Undefined, Num(0), Str("c")]) == ["a", "b", "c"]
  {
    var parts := [Str("a"), Arr([Str("b"), Bool(false), Null]), Undefined, Num(0), Str("c")];
    assert FilterTruthy([Str("b"), Bool(false), Null]) == [Str("b")] by {
      assert FilterTruthy([Str("b"), Bool(false), Null][1..]) == [];
    }
    assert FlatPieces(parts[4..]) == ["c"];
    assert FlatPieces(parts[3..]) == ["c"];
    assert FlatPieces(parts[2..]) == ["c"];
    assert FlatPieces(parts[1..]) == ["b", "c"];
  }

  /** `cx("a", ["b", false, null], undefined, 0 && "x", "c")` is `"a b c"`. */
  lemma CxFalsyDropped()
    ensures Cx([Str("a"), Arr([Str("b"), Bool(false), Null]), Undefined, Num(0), Str("c")]) == "a b c"
  {
    MixedPieces();
    LetterTokens();
    assert Join(["a", "b", "c"], " ") == "a b c";
    CxOfTokenList([Str("a"), Arr([Str("b"), Bool(false), Null]), Undefined, Num(0), Str("c")], ["a", "b", "c"]);
  }

  lemma ScalarPieces()
    ensures FlatPieces([Str("a"), Num(2), Bool(true)]) == ["a", "2", "true"]
  {
    var parts := [Str("a"), Num(2), Bool(true)];
    assert ToString(Num(2)) == "2";
    assert FlatPieces(parts[2..]) == ["true"];
    assert FlatPieces(parts[1..]) == ["2", "true"];
  }

  lemma ScalarTokens()
    ensures IsToken("2") && IsToken("true")
  {
    PlainIsToken("2");
    PlainIsToken("true");
  }

  /** `cx("a", 2, true)` is `"a 2 true"`. */
  lemma CxScalars()
    ensures Cx([Str("a"), Num(2), Bool(true)]) == "a 2 true"
  {
    ScalarPieces();
    LetterTokens();
    ScalarTokens();
    assert Join(["a", "2", "true"], " ") == "a 2 true";
    CxOfTokenList([Str("a"), Num(2), Bool(true)], ["a", "2", "true"]);
  }

  lemma EmptyStringPieces()
    ensures FlatPieces([Str("a"), Str(""), Str("b")]) == ["a", "", "b"]
    ensures Join(["a", "", "b"], " ") == "a  b" && Trimmed("a  b")
  {
    var parts := [Str("a"), Str(""), Str("b")];
    assert FlatPieces(parts[2..]) == ["b"];
    assert FlatPieces(parts[1..]) == ["", "b"];
    PlainIsToken("a");
    PlainIsToken("b");
  }

  /** An empty string argument is kept, leaving a double space inside the result. */
  lemma CxEmptyStringKept()
    ensures Cx([Str("a"), Str(""), Str("b")]) == "a  b"
  {
    EmptyStringPieces();
    CxKeepsInterior([Str("a"), Str(""), Str("b")]);
  }

  lemma EmptyInArrayPieces()
    ensures FlatPieces([Str("a"), Arr([Str("")]), Str("b")]) == ["a", "b"]
    ensures AllTokens(["a", "b"]) && Join(["a", "b"], " ") == "a b"
  {
    var parts := [Str("a"), Arr([Str("")]), Str("b")];
    assert FlatPieces(parts[2..]) == ["b"];
    assert FilterTruthy([Str("")]) == [];
    assert FlatPieces(parts[1..]) == ["b"];
    PlainIsToken("a");
    PlainIsToken("b");
  }

  /** An empty string inside an array is falsy and dropped, so no double space appears. */
  lemma CxEmptyStringInArrayDropped()
    ensures Cx([Str("a"), Arr([Str("")]), Str("b")]) == "a b"
  {
    EmptyInArrayPieces();
    CxOfTokenList([Str("a"), Arr([Str("")]), Str("b")], ["a", "b"]);
  }

  lemma NestedPieces()
    ensures FlatPieces([Arr([Arr([Str("a"), Str("b")])])]) == ["a,b"]
    ensures AllTokens(["a,b"]) && Join(["a,b"], " ") == "a,b"
  {
    var inner := Arr([Str("a"), Str("b")]);
    assert ElementStrings([Str("a"), Str("b")]) == ["a", "b"] by {
      assert ElementStrings([Str("b")]) == ["b"];
    }
    assert ToString(inner) == "a,b";
    assert FilterTruthy([inner]) == [inner];
    PlainIsToken("a,b");
  }

  /** Only one level of arrays is flattened: a nested array is stringified with commas. */
  lemma CxNestedArrayStringified()
    ensures Cx([Arr([Arr([Str("a"), Str("b")])])]) == "a,b"
  {
    NestedPieces();
    CxOfTokenList([Arr([Arr([Str("a"), Str("b")])])], ["a,b"]);
  }
}

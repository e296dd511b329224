/**
 * `compileClasses(strings, exprs, props)`: evaluation of a tagged class
 * template. The literal chunks are concatenated with the text of the slot
 * that follows each of them, and the result is normalised to a canonical
 * class string: split on whitespace runs, trim, drop empty pieces, join
 * with one space.
 */
module CompileClasses {
  import opened JsString
  import opened JsValue

  /** A template slot: a literal value, or a function of the props. */
  datatype Slot = Lit(v: Value) | Fn(f: Props -> Value)

  /** The value a slot yields for `props`. */
  function SlotValue(slot: Slot, props: Props): Value
  {
    match slot
    case Lit(v) => v
    case Fn(f) => f(props)
  }

  /** `out += value ?? ""`: nullish gives nothing, anything else its string form. */
  function SlotText(slot: Slot, props: Props): string
  {
    var v := SlotValue(slot, props);
    if IsNullish(v) then "" else ToString(v)
  }

  /** The text chunk `i` contributes, including the slot that follows it when there is one. */
  function Step(chunks: seq<string>, slots: seq<Slot>, props: Props, i: nat): string
    requires i < |chunks|
  {
    chunks[i] + (if i < |slots| then SlotText(slots[i], props) else "")
  }

  /** The value of `out` after the `forEach` callback has run for the first `n` chunks. */
  function Assembled(chunks: seq<string>, slots: seq<Slot>, props: Props, n: nat): string
    requires n <= |chunks|
  {
    if n == 0 then "" else Assembled(chunks, slots, props, n - 1) + Step(chunks, slots, props, n - 1)
  }

  /**
   * Reference reading of the template, from the front: the first chunk, the
   * first slot's text if there is a slot, then the rest of the template.
   */
  function Template(chunks: seq<string>, slots: seq<Slot>, props: Props): string
  {
    if chunks == [] then ""
    else chunks[0] + (if slots != [] then SlotText(slots[0], props) else "")
         + Template(chunks[1..], if slots != [] then slots[1..] else [], props)
  }

  /** `ps.map((s) => s.trim())`. */
  function MapTrim(ps: seq<string>): (r: seq<string>)
    ensures |r| == |ps|
  {
    if ps == [] then [] else [Trim(ps[0])] + MapTrim(ps[1..])
  }

  /** `ps.filter(Boolean)` on strings: drops the empty ones. */
  function FilterNonEmpty(ps: seq<string>): (r: seq<string>)
    ensures |r| <= |ps|
  {
    if ps == [] then [] else (if ps[0] != "" then [ps[0]] else []) + FilterNonEmpty(ps[1..])
  }

  /** The normalisation pipeline `s.split(/\s+/).map(trim).filter(Boolean).join(" ")`. */
  function Normalize(s: string): string
  {
    Join(FilterNonEmpty(MapTrim(SplitWs(s))), " ")
  }

  /** What `compileClasses` returns, as a function of its arguments. */
  function Compiled(chunks: seq<string>, slots: seq<Slot>, props: Props): string
  {
    Normalize(Template(chunks, slots, props))
  }

  // ---------------------------------------------------------------------
  // The loop

  /** `compileClasses(strings, exprs, props)`. */
  method Compile(chunks: seq<string>, slots: seq<Slot>, props: Props) returns (r: string)
    ensures r == Compiled(chunks, slots, props)
    ensures IsNormal(r)
    ensures Tokens(r) == Tokens(Template(chunks, slots, props))
  {
    var out := "";
    for i := 0 to |chunks|
      invariant out == Assembled(chunks, slots, props, i)
    {
      out := out + chunks[i];
      if i < |slots| {
        out := out + SlotText(slots[i], props);
      }
    }
    AssembledIsTemplate(chunks, slots, props);
    r := Normalize(out);
    CompiledSpec(chunks, slots, props);
  }

  /** The compiled class string is canonical and keeps the template's tokens in order. */
  lemma CompiledSpec(chunks: seq<string>, slots: seq<Slot>, props: Props)
    ensures IsNormal(Compiled(chunks, slots, props))
    ensures Tokens(Compiled(chunks, slots, props)) == Tokens(Template(chunks, slots, props))
  {
    NormalizeSpec(Template(chunks, slots, props));
  }

  // ---------------------------------------------------------------------
  // The accumulated string

  lemma {:induction false} TemplateSplit(chunks: seq<string>, slots: seq<Slot>, props: Props, n: nat)
    requires n < |chunks|
    ensures Template(chunks[..n + 1], slots, props) == Template(chunks[..n], slots, props) + Step(chunks, slots, props, n)
    decreases n
  {
    if n == 0 {
      assert chunks[..1][1..] == [];
    } else {
      var rest := if slots != [] then slots[1..] else [];
      assert chunks[..n + 1][1..] == chunks[1..][..n];
      assert chunks[..n][1..] == chunks[1..][..n - 1];
      var head := chunks[0] + (if slots != [] then SlotText(slots[0], props) else "");
      assert Template(chunks[..n + 1], slots, props) == head + Template(chunks[1..][..n], rest, props);
      assert Template(chunks[..n], slots, props) == head + Template(chunks[1..][..n - 1], rest, props);
      TemplateSplit(chunks[1..], rest, props, n - 1);
      if n < |slots| {
        assert rest[n - 1] == slots[n];
      }
      assert Step(chunks[1..], rest, props, n - 1) == Step(chunks, slots, props, n);
    }
  }

  /** The left-to-right accumulation of the loop spells out the template read from the front. */
  lemma {:induction false} AssembledPrefix(chunks: seq<string>, slots: seq<Slot>, props: Props, n: nat)
    requires n <= |chunks|
    ensures Assembled(chunks, slots, props, n) == Template(chunks[..n], slots, props)
    decreases n
  {
    if n > 0 {
      AssembledPrefix(chunks, slots, props, n - 1);
      TemplateSplit(chunks, slots, props, n - 1);
    }
  }

  lemma AssembledIsTemplate(chunks: seq<string>, slots: seq<Slot>, props: Props)
    ensures Assembled(chunks, slots, props, |chunks|) == Template(chunks, slots, props)
  {
    AssembledPrefix(chunks, slots, props, |chunks|);
    assert chunks[..|chunks|] == chunks;
  }

  /** Slots beyond the last chunk are never read. */
  lemma {:induction false} ExtraSlotsIgnored(chunks: seq<string>, slots: seq<Slot>, props: Props)
    requires |slots| >= |chunks|
    ensures Template(chunks, slots, props) == Template(chunks, slots[..|chunks|], props)
  {
    if chunks != [] {
      var short := slots[..|chunks|];
      assert short[0] == slots[0];
      assert short[1..] == slots[1..][..|chunks| - 1];
      ExtraSlotsIgnored(chunks[1..], slots[1..], props);
    }
  }

  /** With one slot fewer than chunks, the last chunk is appended with no slot after it. */
  lemma LastChunkHasNoSlot(chunks: seq<string>, slots: seq<Slot>, props: Props)
    requires |chunks| == |slots| + 1
    ensures Template(chunks, slots, props)
         == Template(chunks[..|slots|], slots, props) + chunks[|slots|]
  {
    TemplateSplit(chunks, slots, props, |slots|);
    assert chunks[..|slots| + 1] == chunks;
  }

  /** Without slots the template is the plain concatenation of its chunks. */
  lemma {:induction false} NoSlotsIsConcat(chunks: seq<string>, props: Props)
    ensures Template(chunks, [], props) == Concat(chunks)
  {
    if chunks != [] {
      NoSlotsIsConcat(chunks[1..], props);
    }
  }

  function Concat(ps: seq<string>): string
  {
    if ps == [] then "" else ps[0] + Concat(ps[1..])
  }

  /** A nullish slot value contributes nothing; every other value, `0` and `false` included, its string form. */
  lemma SlotTextCases(props: Props, f: Props -> Value)
    ensures SlotText(Lit(Null), props) == "" && SlotText(Lit(Undefined), props) == ""
    ensures SlotText(Lit(Bool(false)), props) == "false"
    ensures SlotText(Lit(Num(0)), props) == "0"
    ensures SlotText(Fn(f), props) == if IsNullish(f(props)) then "" else ToString(f(props))
  {
  }

  // ---------------------------------------------------------------------
  // Normalisation

  /** Every piece of `split(/\s+/)` is free of whitespace. */
  lemma {:induction false} SplitPiecesWsFree(s: string)
    ensures forall p :: p in SplitWs(s) ==> WsFree(p)
    decreases |s|
  {
    var w := Word(s);
    WordSpec(s);
    var rest := s[|w|..];
    if rest != [] {
      SplitPiecesWsFree(TrimStart(rest));
    }
  }

  lemma {:induction false} MapTrimWsFree(ps: seq<string>)
    requires forall p :: p in ps ==> WsFree(p)
    ensures MapTrim(ps) == ps
  {
    if ps != [] {
      assert ps[0] in ps;
      assert forall p :: p in ps[1..] ==> p in ps;
      MapTrimWsFree(ps[1..]);
    }
  }

  /** Dropping the empty pieces of `split(/\s+/)` leaves exactly the tokens. */
  lemma {:induction false} SplitFilterIsTokens(s: string)
    ensures FilterNonEmpty(SplitWs(s)) == Tokens(s)
    decreases |s|
  {
    var w := Word(s);
    WordSpec(s);
    var rest := s[|w|..];
    if s == [] {
    } else if IsWs(s[0]) {
      assert w == [] && rest == s;
      SplitFilterIsTokens(TrimStart(s));
      TokensTrimStart(s);
    } else if rest == [] {
      assert TrimStart(s) == s;
      assert s[|w|..] == [];
    } else {
      assert TrimStart(s) == s;
      SplitFilterIsTokens(TrimStart(rest));
      TokensTrimStart(rest);
    }
  }

  /** The pipeline joins the tokens of its input with single spaces. */
  lemma NormalizeIsJoinOfTokens(s: string)
    ensures Normalize(s) == Join(Tokens(s), " ")
  {
    SplitPiecesWsFree(s);
    MapTrimWsFree(SplitWs(s));
    SplitFilterIsTokens(s);
  }

  /** The result has exactly the tokens of the input, in order. */
  lemma NormalizeTokens(s: string)
    ensures Tokens(Normalize(s)) == Tokens(s)
  {
    NormalizeIsJoinOfTokens(s);
    TokensAreTokens(s);
    JoinTokensRoundTrip(Tokens(s));
  }

  /** The result is in canonical form and has exactly the tokens of the input, in order. */
  lemma NormalizeSpec(s: string)
    ensures IsNormal(Normalize(s))
    ensures Tokens(Normalize(s)) == Tokens(s)
  {
    NormalizeIsJoinOfTokens(s);
    TokensAreTokens(s);
    JoinTokensNormal(Tokens(s));
    NormalizeTokens(s);
  }

  /** A string already in canonical form is left unchanged. */
  lemma NormalizeFixesNormal(s: string)
    requires IsNormal(s)
    ensures Normalize(s) == s
  {
    NormalizeIsJoinOfTokens(s);
    NormalIsJoinOfTokens(s);
  }

  /** Normalising twice is normalising once. */
  lemma NormalizeIdempotent(s: string)
    ensures Normalize(Normalize(s)) == Normalize(s)
  {
    NormalizeSpec(s);
    NormalizeFixesNormal(Normalize(s));
  }

  /** Two strings normalise alike exactly when they have the same tokens. */
  lemma NormalizeSameTokens(s: string, t: string)
    ensures Normalize(s) == Normalize(t) <==> Tokens(s) == Tokens(t)
  {
    NormalizeTokens(s);
    NormalizeTokens(t);
    NormalizeIsJoinOfTokens(s);
    NormalizeIsJoinOfTokens(t);
  }

  /** A single chunk already in canonical form, with no slots, compiles to itself. */
  lemma CompileNormalChunk(c: string, props: Props)
    requires IsNormal(c)
    ensures Compiled([c], [], props) == c
  {
    assert Template([c], [], props) == c;
    NormalizeFixesNormal(c);
  }

  // ---------------------------------------------------------------------
  // Concrete cases

  lemma NormalizeOfTokens(s: string, ts: seq<string>)
    requires Tokens(s) == ts
    ensures Normalize(s) == Join(ts, " ")
  {
    NormalizeIsJoinOfTokens(s);
  }

  /** A template that spells a list of class tokens with single spaces compiles to exactly that spelling. */
  lemma CompiledOfJoin(chunks: seq<string>, slots: seq<Slot>, props: Props, ts: seq<string>)
    requires AllTokens(ts)
    requires Template(chunks, slots, props) == Join(ts, " ")
    ensures Compiled(chunks, slots, props) == Join(ts, " ")
  {
    TokensJoin(ts);
    TokensOfAllTokens(ts);
    NormalizeOfTokens(Join(ts, " "), ts);
  }

  /** A template that is a single class token, with no slots, compiles to that token. */
  lemma CompiledSingleToken(t: string, props: Props)
    requires IsToken(t)
    ensures Compiled([t], [], props) == t
  {
    OneChunkTemplate(t, props);
    JoinTokensNormal([t]);
    assert Join([t], " ") == t;
    NormalizeFixesNormal(t);
  }

  lemma TwoWordsPadded(g1: string, a: string, g2: string, b: string, g3: string)
    requires AllWs(g1) && AllWs(g3) && g2 != [] && AllWs(g2)
    requires IsToken(a) && IsToken(b)
    ensures Tokens(g1 + (a + g2 + (b + g3))) == [a, b]
  {
    TokensBlankBefore(g1, a + g2 + (b + g3));
    TokensGap(a, g2, b + g3);
    TokensBlankAfter(b, g3);
    TokensOfToken(a);
    TokensOfToken(b);
  }

  lemma PaddedParts()
    ensures AllWs("  ") && AllWs("    ") && AllWs("   ")
    ensures IsToken("p-4") && IsToken("rounded")
  {
    SpacesAreWs("  ");
    SpacesAreWs("    ");
    SpacesAreWs("   ");
    PlainIsToken("p-4");
    PlainIsToken("rounded");
  }

  lemma PaddedSpelling()
    ensures "  p-4    rounded   " == "  " + ("p-4" + "    " + ("rounded" + "   "))
    ensures Join(["p-4", "rounded"], " ") == "p-4 rounded"
  {
  }

  lemma PaddedTokens()
    ensures Tokens("  p-4    rounded   ") == ["p-4", "rounded"]
  {
    PaddedParts();
    TwoWordsPadded("  ", "p-4", "    ", "rounded", "   ");
    PaddedSpelling();
  }

  lemma OneChunkTemplate(c: string, props: Props)
    ensures Template([c], [], props) == c
  {
    assert [c][1..] == [];
  }

  /** `compileClasses(["  p-4    rounded   "], [], {})` is `"p-4 rounded"`. */
  lemma CompilePadded()
    ensures Compiled(["  p-4    rounded   "], [], map[]) == "p-4 rounded"
  {
    OneChunkTemplate("  p-4    rounded   ", map[]);
    PaddedTokens();
    NormalizeOfTokens("  p-4    rounded   ", ["p-4", "rounded"]);
    PaddedSpelling();
  }

  /** The slot of the prop-dependent example: two class lists chosen by `primary`. */
  function PrimarySlot(): Slot
  {
    Fn((p: Props) => if Truthy(Get(p, "primary")) then Str("text-white bg-blue-600") else Str("text-black bg-gray-100"))
  }

  lemma PrimarySlotText(b: bool)
    ensures SlotText(PrimarySlot(), map["primary" := Bool(b)])
         == if b then "text-white bg-blue-600" else "text-black bg-gray-100"
  {
    assert Get(map["primary" := Bool(b)], "primary") == Bool(b);
  }

  /** Two chunks around one slot, with no separator added on either side of the slot. */
  lemma TwoChunkTemplate(a: string, b: string, slot: Slot, props: Props)
    ensures Template([a, b], [slot], props) == a + SlotText(slot, props) + b
  {
    assert [a, b][1..] == [b];
    assert [slot][1..] == [];
    OneChunkTemplate(b, props);
  }

  lemma ThreeWordTokens(a: string, b: string, c: string)
    requires IsToken(a) && IsToken(b) && IsToken(c)
    ensures Tokens(a + " " + (b + " " + c) + " ") == [a, b, c]
  {
    SpacesAreWs(" ");
    TokensBlankAfter(a + " " + (b + " " + c), " ");
    TokensGap(a, " ", b + " " + c);
    TokensGap(b, " ", c);
    TokensOfToken(a);
    TokensOfToken(b);
    TokensOfToken(c);
  }

  lemma PrimaryParts()
    ensures IsToken("base") && IsToken("text-white") && IsToken("bg-blue-600")
    ensures IsToken("text-black") && IsToken("bg-gray-100")
  {
    PlainIsToken("base");
    PlainIsToken("text-white");
    PlainIsToken("bg-blue-600");
    PlainIsToken("text-black");
    PlainIsToken("bg-gray-100");
  }

  lemma BlueSpelling()
    ensures "base " + "text-white bg-blue-600" + " " == "base" + " " + ("text-white" + " " + "bg-blue-600") + " "
  {
  }

  lemma GreySpelling()
    ensures "base " + "text-black bg-gray-100" + " " == "base" + " " + ("text-black" + " " + "bg-gray-100") + " "
  {
  }

  lemma BlueJoin()
    ensures Join(["base", "text-white", "bg-blue-600"], " ") == "base text-white bg-blue-600"
  {
  }

  lemma GreyJoin()
    ensures Join(["base", "text-black", "bg-gray-100"], " ") == "base text-black bg-gray-100"
  {
  }

  /** With `primary` set, the function slot contributes the blue classes. */
  lemma CompilePrimary()
    ensures Compiled(["base ", " "], [PrimarySlot()], map["primary" := Bool(true)]) == "base text-white bg-blue-600"
  {
    PrimarySlotText(true);
    TwoChunkTemplate("base ", " ", PrimarySlot(), map["primary" := Bool(true)]);
    PrimaryParts();
    ThreeWordTokens("base", "text-white", "bg-blue-600");
    BlueSpelling();
    BlueJoin();
    NormalizeOfTokens("base " + "text-white bg-blue-600" + " ", ["base", "text-white", "bg-blue-600"]);
  }

  /** With `primary` false, the function slot contributes the grey classes. */
  lemma CompileNotPrimary()
    ensures Compiled(["base ", " "], [PrimarySlot()], map["primary" := Bool(false)]) == "base text-black bg-gray-100"
  {
    PrimarySlotText(false);
    TwoChunkTemplate("base ", " ", PrimarySlot(), map["primary" := Bool(false)]);
    PrimaryParts();
    ThreeWordTokens("base", "text-black", "bg-gray-100");
    GreySpelling();
    GreyJoin();
    NormalizeOfTokens("base " + "text-black bg-gray-100" + " ", ["base", "text-black", "bg-gray-100"]);
  }
}

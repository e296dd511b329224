# styled-tailwind, modelled in Dafny

styled-tailwind is a small React helper. `styled.div\`…\`` or `styled(Comp)\`…\`` builds a
component whose class names come from a tagged template of Tailwind classes. The template's
slots may be literal values or functions of the component's props. This project models the
three pieces of logic behind that and proves their properties:

- `cx` (`ClassJoin`, `cx.dfy`) joins class names. It flattens one level of array arguments
  and drops falsy array elements. String arguments are kept verbatim. Other arguments are
  stringified when truthy and dropped when falsy. The pieces are joined with single spaces
  and the result is trimmed.
- `compileClasses` (`CompileClasses`, `compile_classes.dfy`) builds the template text. Its
  `forEach` loop appends each chunk and then the chunk's slot, if there is one; a slot whose
  value is `null` or `undefined` adds nothing. The loop is a method with a loop invariant.
  The text is then normalised into a token string: split on whitespace runs, trim each
  piece, drop empty pieces and rejoin with one space. The model follows the same pipeline
  and relates it to a reference tokeniser, `JsString.Tokens`.
- The render rule of `styled` (`Styled`, `styled.dfy`) works as follows:
  - it separates `className` and `as` from the props;
  - it picks the element type with `as ?? Comp`;
  - it compiles the template against the remaining props plus `className`;
  - it merges classes with `cx(className, computed)`;
  - it forwards the other props and the ref.

  The same file also models the `displayName` that `styledTemplate` assigns and the two
  traps of the `styled` proxy.

Two support modules hold the JavaScript semantics the code relies on:

- `JsString` (`js_string.dfy`):
  - the ECMAScript whitespace set used by `\s` and `String.prototype.trim`;
  - `trim`, `split(/\s+/)` (with the empty first and last pieces it yields) and `join`;
  - the reference tokeniser and its algebra, including the round trip between tokens and
    their single-space spelling.
- `JsValue` (`js_value.dfy`):
  - the JavaScript values that reach these helpers;
  - `Boolean(v)` (truthiness), and `??`, which replaces only `null` and `undefined`;
  - `String(v)` for integers (spelled out in full decimal), booleans, `null`, `undefined`,
    arrays and plain objects.

Two places where the code's behaviour is easy to misread, modelled as the code does it:

- A slot's declared type admits `false` (src/compileClasses.ts:9-10, src/styled.tsx:20-21),
  as the `cond && "cls"` idiom produces. Yet src/compileClasses.ts:19 replaces only `null`
  and `undefined` with `""`. So a slot holding `false` adds the token `"false"`, and one
  holding `0` adds `"0"` (`CompileClasses.SlotTextCases`).
- src/styled.tsx:29 picks the element type with `as ?? Comp`. Any `as` that is not `null` or
  `undefined`, the empty string included, becomes the element type (`Styled.RenderType`).

## Model

| member | source | states |
|---|---|---|
| JsString.Trim | src/cx.ts:10 | the result of `trim` has no whitespace at either end |
| JsString.TrimmedTrimIsIdentity | src/cx.ts:10 | `trim` leaves a string that has no whitespace at either end unchanged |
| JsString.TokensTrim | src/compileClasses.ts:25 | trimming never changes the whitespace-separated tokens of a string |
| JsString.TokensAreTokens | src/compileClasses.ts:24-26 | every token of a string is non-empty and holds no whitespace |
| JsString.TokensConcat | src/compileClasses.ts:24 | when the second string starts with whitespace, the tokens of a concatenation are the tokens of each part in order |
| JsString.TokensJoin | src/cx.ts:9 | the tokens of a space-joined list are the tokens of its elements, concatenated in order |
| JsString.JoinTokensRoundTrip | src/compileClasses.ts:24-27 | splitting a space-joined list of tokens gives back the list |
| JsString.JoinTokensNormal | src/compileClasses.ts:27 | joining tokens with one space gives a string in normal form, which is non-empty when the list is |
| JsString.NormalIsJoinOfTokens | src/compileClasses.ts:24-27 | a string in normal form is the space-join of its own tokens |
| JsValue.NatToString | src/cx.ts:5 | the decimal spelling of a number is non-empty, all digits and has no leading zero |
| JsValue.NatToStringRoundTrip | src/cx.ts:5 | reading the decimal spelling back gives the number |
| JsValue.IntToStringIsToken | src/cx.ts:7 | a stringified integer is a single class token |
| JsValue.SingletonArrayString | src/cx.ts:5 | a one-element array stringifies like its element, or as `""` when that element is `null`/`undefined` |
| ClassJoin.FilterTruthySpec | src/cx.ts:5 | a value survives `filter(Boolean)` if and only if it is a truthy element of the array |
| ClassJoin.FilterTruthyUnits | src/cx.ts:5 | `filter(Boolean)` of `[]` is `[]`, and of `[x]` is `[x]` when `x` is truthy and `[]` otherwise |
| ClassJoin.FilterTruthyConcat | src/cx.ts:5 | filtering a concatenation filters each part and concatenates the results, so order and duplicates are kept |
| ClassJoin.StringifyAllConcat | src/cx.ts:5 | `map(String)` of a concatenation is the concatenation of the mapped parts |
| ClassJoin.StringifyAllSpec | src/cx.ts:5 | `map(String)` stringifies each element in place |
| ClassJoin.ArrayArgumentPieces | src/cx.ts:5 | a string is a piece of an array argument if and only if it is the string form of a truthy element, and there are never more pieces than elements |
| ClassJoin.ArrayPiecesUnits | src/cx.ts:5 | an empty array contributes nothing, and a one-element array contributes the element's string exactly when the element is truthy |
| ClassJoin.ArrayPiecesConcat | src/cx.ts:5 | the pieces of an array are those of its first part followed by those of the rest, so element order and duplicates are kept |
| ClassJoin.StringArgumentVerbatim | src/cx.ts:6 | for every string `s`, `cx(a, s, b)` with class tokens `a`, `b` is `a + " " + s + " " + b`: `s` is neither filtered nor trimmed, so `""` leaves two spaces |
| ClassJoin.ScalarArgumentPieces | src/cx.ts:7 | for a non-string, non-array `p` and class tokens `a`, `b`, `cx(a, p, b)` is `a + " " + String(p) + " " + b` when `p` is truthy and `a + " " + b` when it is falsy; `p` adds no piece exactly when falsy |
| ClassJoin.DroppedContributesNothing | src/cx.ts:5-7 | an argument that is falsy and not a string, or an array with no truthy element, contributes no piece |
| ClassJoin.Cx | src/cx.ts:2-11 | the result of `cx` has no whitespace at either end |
| ClassJoin.CxTokens | src/cx.ts:3-10 | the tokens of `cx(...)` are the tokens of the surviving pieces, in argument order |
| ClassJoin.CxTokensConcat | src/cx.ts:3-10 | the tokens of `cx(...x, ...y)` are those of `cx(...x)` followed by those of `cx(...y)` |
| ClassJoin.CxKeepsInterior | src/cx.ts:9-10 | when the joined pieces have no outer whitespace, `cx` is exactly their space-join, so interior spacing is kept |
| ClassJoin.CxOfTokens | src/cx.ts:9-10 | when every piece is a token, `cx` is the space-join of the pieces |
| ClassJoin.CxOfTokensNormal | src/cx.ts:9-10 | when every piece is a token, `cx` is in normal form and its tokens are the pieces |
| ClassJoin.CxNullishThenNormal | src/cx.ts:6-10 | `cx(null or undefined, c)` is `c` when `c` has no outer whitespace |
| ClassJoin.CxPairTokens | src/cx.ts:6-10 | the tokens of `cx(a, c)` for strings are those of `a` followed by those of `c` |
| ClassJoin.CxTwoTokens | src/cx.ts:6-10 | `cx(a, b)` for two tokens is `a`, one space, `b` |
| ClassJoin.CxAllDropped | src/cx.ts:7-10 | when every argument is dropped, no piece survives and the result is `""` |
| ClassJoin.CxPlainStrings | tests/cx.test.ts:5-6 | `cx("a", "b", "c")` is `"a b c"` |
| ClassJoin.CxFalsyDropped | tests/cx.test.ts:9-10 | `cx("a", ["b", false, null], undefined, 0, "c")` is `"a b c"` |
| ClassJoin.CxScalars | tests/cx.test.ts:13-14 | `cx("a", 2, true)` is `"a 2 true"` |
| ClassJoin.CxEmptyStringKept | src/cx.ts:6 | an empty string argument is kept, so `cx("a", "", "b")` is `"a  b"` with two spaces |
| ClassJoin.CxEmptyStringInArrayDropped | src/cx.ts:5 | an empty string inside an array is dropped, so `cx("a", [""], "b")` is `"a b"` |
| ClassJoin.CxNestedArrayStringified | src/cx.ts:5 | only one level is flattened: `cx([["a", "b"]])` is `"a,b"` |
| CompileClasses.SlotTextCases | src/compileClasses.ts:19 | literal `null`/`undefined` add nothing, `false` adds `"false"`, `0` adds `"0"`, and a function slot is applied to the props |
| CompileClasses.Compile | src/compileClasses.ts:14-27 | the loop builds the template text; the result is the normalised text, is in normal form, and has the same tokens as the text |
| CompileClasses.AssembledIsTemplate | src/compileClasses.ts:15-21 | the left-to-right accumulation equals the chunk-by-chunk template text |
| CompileClasses.TemplateSplit | src/compileClasses.ts:15-21 | the text of the first n+1 chunks is the text of the first n plus chunk n and its slot |
| CompileClasses.ExtraSlotsIgnored | src/compileClasses.ts:17 | slots beyond the last chunk are never used |
| CompileClasses.LastChunkHasNoSlot | src/compileClasses.ts:15-20 | with one chunk more than slots, the text is the text of the other chunks followed directly by the last chunk, with no slot text after it |
| CompileClasses.NoSlotsIsConcat | src/compileClasses.ts:15-20 | with no slots, the text is the chunks concatenated |
| CompileClasses.SplitPiecesWsFree | src/compileClasses.ts:24 | no piece of `split(/\s+/)` contains whitespace |
| CompileClasses.MapTrimWsFree | src/compileClasses.ts:25 | trimming whitespace-free pieces changes nothing |
| CompileClasses.SplitFilterIsTokens | src/compileClasses.ts:24-26 | the non-empty pieces of `split(/\s+/)` are exactly the tokens, in order |
| CompileClasses.NormalizeIsJoinOfTokens | src/compileClasses.ts:23-27 | normalisation is the space-join of the tokens |
| CompileClasses.NormalizeSpec | src/compileClasses.ts:23-27 | normalisation yields normal form and keeps every token, in order, with duplicates |
| CompileClasses.NormalizeFixesNormal | src/compileClasses.ts:23-27 | normalisation leaves a normal string unchanged |
| CompileClasses.NormalizeIdempotent | src/compileClasses.ts:23-27 | normalising twice is normalising once |
| CompileClasses.NormalizeSameTokens | src/compileClasses.ts:23-27 | two texts normalise alike if and only if they have the same tokens |
| CompileClasses.CompiledSpec | src/compileClasses.ts:14-27 | the compiled string is normal and has the template text's tokens |
| CompileClasses.CompileNormalChunk | src/compileClasses.ts:14-27 | a single normal chunk with no slots compiles to itself |
| CompileClasses.CompiledOfJoin | src/compileClasses.ts:23-27 | a template text that is a single-space spelling of tokens compiles to that spelling |
| CompileClasses.CompilePadded | tests/compileClasses.test.ts:5-7 | `"  p-4    rounded   "` compiles to `"p-4 rounded"` |
| CompileClasses.CompilePrimary | tests/compileClasses.test.ts:10-20 | chunks `["base ", " "]` with the `primary` slot give `"base text-white bg-blue-600"` for `primary: true` |
| CompileClasses.CompileNotPrimary | tests/compileClasses.test.ts:10-20 | the same template gives `"base text-black bg-gray-100"` for `primary: false` |
| Styled.Rest | src/styled.tsx:26 | `rest` holds exactly the props other than `className` and `as`, each with its original value |
| Styled.StyledComponent.Render | src/styled.tsx:25-44 | the element carries the given ref, never an `as` prop, and always a `className` prop |
| Styled.RenderType | src/styled.tsx:29 | the element type is `as` unless it is `null`/`undefined`, and the wrapped type otherwise; it depends only on `as` and the wrapped type, never on the template, the other props or the ref |
| Styled.RenderForwardsRest | src/styled.tsx:26-41 | every prop other than `className` and `as` reaches the element unchanged, no other prop is added, and `as` is dropped |
| Styled.ContextContents | src/styled.tsx:30-37 | the template sees the caller's `className` and every other prop, but not `as` |
| Styled.AsOnlyChangesType | src/styled.tsx:29-42 | changing `as` changes neither the template context nor the element's props |
| Styled.RenderMerge | src/styled.tsx:42 | with an incoming string `className`, the element's classes are the incoming ones followed by the computed ones |
| Styled.RenderNoIncoming | src/styled.tsx:30-42 | with no incoming `className`, the element's `className` is exactly the compiled classes |
| Styled.RenderSingleToken | src/styled.tsx:30-42 | a one-token template with no incoming `className` renders that token |
| Styled.RenderMergedToken | src/styled.tsx:42 | a one-token template with a one-token incoming `className` renders the incoming token, a space, then the template's |
| Styled.RenderOfJoin | src/styled.tsx:30-42 | a template whose text spells tokens with single spaces renders that spelling when no `className` comes in |
| Styled.RenderOneChunk | src/styled.tsx:30-42 | a one-chunk template spelling class tokens with single spaces renders that chunk when no `className` comes in |
| Styled.StyledTemplate | src/styled.tsx:25-53 | the new component wraps the factory's type and template, and its `displayName` is `styled(<base name>)` |
| Styled.BaseNameCases | src/styled.tsx:47-50 | for every wrapped type, the base name is the tag itself, else a non-empty string `displayName`, else (when `displayName` is falsy) a non-empty string `name`, else (when both are falsy) `"Component"` |
| Styled.TextareaDisplayName | tests/styled.test.tsx:85-87 | a component whose `displayName` is `"Textarea"` is shown as `styled(Textarea)` |
| Styled.FancyDisplayName | src/styled.tsx:50 | an empty `displayName` falls back to `name`; an empty or absent `displayName` together with an empty or absent `name` falls back to `"Component"` |
| Styled.ProxyGet | src/styled.tsx:69-74 | a string key gives the factory for that tag, and any other key gives `undefined` |
| Styled.ProxyApply | src/styled.tsx:75-78 | a call gives the factory for its first argument |
| Styled.ProxyFormsAgree | src/styled.tsx:68-79 | `styled.tag` and `styled("tag")` give the same factory |
| Styled.ProxyApplyFirstOnly | src/styled.tsx:76 | arguments after the first are ignored |
| Styled.MyDivRender | tests/styled.test.tsx:6-13 | `styled.div\`bg-blue\`` with `children: "hello"` renders a `div` with that child and class `"bg-blue"` |
| Styled.MyDivMerged | tests/styled.test.tsx:15-19 | the same component with `className: "mt-2"` has class `"mt-2 bg-blue"` |
| Styled.BoxRender | tests/styled.test.tsx:23-36 | for any props without an incoming `className`, the `primary` template gives `"p-4 bg-blue-600 text-white"` when `primary` is truthy and `"p-4 bg-gray-100"` otherwise |
| Styled.BoxCases | tests/styled.test.tsx:23-36 | `primary: true` gives the blue classes, and leaving `primary` out gives the grey one |
| Styled.FancyRender | tests/styled.test.tsx:49-58 | `styled(Fancy)\`border p-2 shadow\`` renders `Fancy` itself, forwards `title`, and has class `"border p-2 shadow"` |
| Styled.PolyRender | tests/styled.test.tsx:62-69 | `as: "a"` renders an `a`, keeps `href` and `children`, drops `as`, and keeps the template's class |
| Styled.TextareaRender | tests/styled.test.tsx:87-93 | `styled(Textarea)\`bg-green-500\`` with `className: "mt-3"` renders `Textarea` with class `"mt-3 bg-green-500"` |

## Left out

- React itself is not part of this model: `forwardRef`, JSX element creation and reconciliation. A rendered element is a record of type, props and ref, and the ref is an opaque value.
- The `Proxy` object's own mechanics are not modelled, only its `get` and `apply` traps as two functions. Property keys are either strings or symbols.
- TypeScript's type-level declarations (`StyledTag`, `StyledNamespace`, generic constraints) have no run-time behaviour and are not modelled.
- Numbers are integers. Floating point, `NaN`, `Infinity` and `-0` are not modelled.
- JsValue.IntToString: integers are unbounded and always spelled in full decimal. JavaScript numbers above 2^53 are not exact, and from 10^21 on `String` uses exponent notation (`"1e+21"`); neither is modelled.
- Function values are not modelled as such. A component that is a function (such as `Fancy` in the styled tests) is an object value, so where the source would print a function's source text the model prints `"[object Object]"`.
- Symbols and `bigint` are not modelled as values. A plain object stringifies as `[object Object]`, and objects are told apart by identity alone.
- Slot functions are total: an exception thrown by one is not modelled.
- `Styled.ProxyApply`: a call with no arguments gives no factory here. In the source it gives a factory over `undefined`, which fails only when it is used.
- `Styled.StyledTemplate`: the `forwardRef` wrapper object is a class instance whose only mutable field is `displayName`. React's own fields on that object are not modelled.
- The whitespace set of `\s` and `trim` is the ECMAScript WhiteSpace and LineTerminator set, written out as a character list. Unicode category lookup beyond that list is not modelled.

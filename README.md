# tracery-go in Dafny

A model of the core of tracery-go, a generative text grammar. A template such as
`[x:a,b]#x.capitalise# and #x#` is scanned into tokens, parsed into an operation tree
(Literal, Concat, Push, Pop, Select, Symbol with modifier calls) and resolved against a
grammar: per-key stacks of rules, a registry of modifiers and a random source.

Modules, following the Go packages:

- `Scan` (scan.go) holds the scanner's state machine. It is a `Scanner` class with the
  fields of the Go struct, with `Peek`, `Next`, `lexAny` and `lexChar` as methods. Each
  method is proved against the pure token-stream specification `Lex`. `ScanFacts`
  proves properties of that specification:
  - every token is well formed;
  - backslash escapes behave as the code handles them;
  - without backslashes, the token values put back together give the input;
  - scanning a suffix gives the suffix's tokens.
- `Parse` (parse/parse.go) gives each parsing routine of the Go package as a method
  over a `Scanner` and as a pure function over the token list. Each method is proved
  equal to its function. `ParseFacts` derives the shapes the parser recognises:
  - literal runs;
  - `[k:v]`, `[k:a,b,c]` and `[k:POP]`;
  - `#k#`, `.name` and `name()`;
  - the wrapping `Strings` does.
- `TagFacts` derives the shape of a tag's modifier calls: `name(p1,...,pn)` has one
  parameter per part, each the parse of its text, and `#k.m1.m2(...)#` keeps its calls
  in source order. `ParamTag` carries `#k.m(p,q)#`, `#k.a.b(p,q)#` and parse_test.go's
  `#sym.mod(par,am)#` through scanning and parsing.
- `Ops` is the operation tree.
- `Context` is the context half of grammar.go: a `Grammar` class whose `value` field
  maps each key to its stack. Its methods are proved against pure store functions.
- `Exec` (exec/*.go) is resolution. `Eval` is a pure specification, and
  `Resolve`/`ResolveConcat`/... are the methods that update a `Grammar` in place,
  proved to agree with `Eval`. `ExecFacts` proves the resolution properties:
  - left-to-right side effects;
  - a pushed value is drawn once;
  - the pop floor;
  - a Select evaluates only the drawn alternative;
  - the unbound-symbol and unknown-modifier markers;
  - no index panic for the trees the parser builds.
- `Modifiers` (tracery.go) is `ModifierFn`.
- `English` (modifiers/en/basic.go) is the three English modifiers.
- `GoStrings` holds `strings.Join` and `strings.Replace` as the core uses them.
- `Tracery` (grammar.go) is `Flatten` and `PushRules`.
- `Scenarios` carries templates from grammar_test.go through scanning, parsing and
  resolution. It states their outputs for any plain key and value, such as
  `[k:c]#k#[k:POP]#k#[k:POP]#k#` with `a`, `b` pushed giving `cba`.
- `Interleaving` carries the `212` test of grammar_test.go: `y` holds `[y:#x#]#x#`,
  `x` holds `[x:1]#y#[x:2]`, and `#y##y##x#` gives `212`. It is stated for any
  distinct plain keys and texts, then for the test's own strings.
- `EscapedComma` follows parse_test.go's `[act:lit\,eral]` through scanning and parsing:
  the escaped comma is part of a Word, so the action holds one literal, `lit,eral`.
- `EmptyKey` follows parse_test.go's `[:lit]`: the key token and the colon are taken
  unchecked, so the colon becomes the key and the value is the empty literal.
- `FixedDraw` carries the rule-select test of grammar_test.go: `[y:a,b,c]` pushed
  under `x`, and `#x##y#` flattened twice with fixed draws.

How the model differs from the code:

- The Go parser loops forever on an unterminated `[`, `#` or `(`: `Next` keeps
  returning EOF. The model returns `Fail(Unterminated)` instead.
- A self-referential grammar recurses in Go until the stack overflows. Here every
  Symbol lookup spends one unit of `fuel`, and running out gives `Fail(OutOfFuel)`.
- A Select whose drawn index is out of range panics in Go. Here it gives
  `Fail(IndexPanic)`.
- Strings are sequences of code points.

## Model

| member | source | states |
|---|---|---|
| Scan.ControlType | scan.go:126-159 | no ensures; the body is the definition: the eight control characters `#[]():,.` and the token type each is emitted as, nothing for any other code point |
| Scan.IsSpace | scan.go:162 | no ensures; the body is the definition: `unicode.IsSpace`, the Latin-1 spaces and the White_Space code points above Latin-1 |
| Scan.Classify | scan.go:126-167 | no ensures; the body is the definition: the class of a lone code point in lexAny's switch, control type first, then space, then backslash, then Word |
| Scan.Emitted | scan.go:99-112 | no ensures; the body is the definition: what `emit(t)` appends for the raw text, a Word losing every backslash and dropped when empty |
| Scan.LexFrom | scan.go:114-197 | no ensures; the body is the definition: the Word up to where `lexAny` stops, then `lexChar`'s one-code-point token and the tokens after it; its properties are the ScanFacts lemmas |
| Scan.Lex | scan.go:60-84 | no ensures; the body is the definition: the tokens `Next` returns from a new scanner before EOF; every `Scanner` method is proved against it |
| Scan.ScanRun | scan.go:114-181 | where `lexAny` stops: never before the start nor past the end; it ends only at the end of input; it hands over to `lexChar` only in front of a code point that is not Word text |
| Scan.Scanner.constructor | scan.go:60-62 | a new scanner starts in `lexAny` with nothing emitted; the tokens it will hand out are exactly `Lex(input)` |
| Scan.Scanner.Peek | scan.go:64-74 | returns the head of the remaining token stream (EOF once exhausted), running state functions as needed, without consuming anything |
| Scan.Scanner.Next | scan.go:76-84 | returns the head of the remaining stream and removes it; past the end the stream stays empty and EOF is returned again |
| Scan.Scanner.NextRune | scan.go:86-93 | the code point at `end` with size 1, or eof (size unchanged) at the end of input |
| Scan.Scanner.Consume | scan.go:94-97 | `end` advances by `size` and `size` is reset |
| Scan.Scanner.Emit | scan.go:99-112 | appends the text between `start` and `end` as a token; a Word loses every backslash, and an empty Word is dropped; `start` moves to `end` |
| Scan.Scanner.LexAny | scan.go:114-189 | advances to where `ScanRun` stops, emits the run as a Word, and returns `lexChar(t)` for the stopping code point or nil at the end |
| Scan.Scanner.LexChar | scan.go:191-197 | consumes one code point, emits it with type `t` and returns `lexAny` |
| ScanFacts.EmittedWordWellFormed | scan.go:99-108 | an emitted Word is never empty, holds no backslash and is no longer than its raw text |
| ScanFacts.ScanRunStopsAtClass | scan.go:126-175 | the type handed to `lexChar` is the class of the code point `lexAny` stopped at |
| ScanFacts.LexFromWellFormed | scan.go:99-197 | every token emitted from any position is well formed |
| ScanFacts.LexWellFormed | scan.go:99-197 | every token of an input is well formed and none is EOF or Error, so the scanner never fails |
| ScanFacts.LexFromTextLength | scan.go:99-112 | the token values from a position are together no longer than the input left |
| ScanFacts.LexTextLength | scan.go:99-112 | the token values are together no longer than the input |
| ScanFacts.LexFromStep | scan.go:114-197 | one round of the scanner: the Word up to where `lexAny` stops, then the single-code-point token, then the rest |
| ScanFacts.TextOfEmitted | scan.go:99-112 | without a backslash an emit keeps its raw text verbatim |
| ScanFacts.RoundTripStep | scan.go:99-197 | one scanner round preserves the round trip: the token values from a position give back the input from there |
| ScanFacts.RoundTripLast | scan.go:114-189 | the last round, ending the input, gives back the rest of the input |
| ScanFacts.LexFromRoundTrip | scan.go:99-197 | without backslashes, the token values from any position put back together give the rest of the input |
| ScanFacts.LexRoundTrip | scan.go:99-197 | without backslashes, the token values put back together give the input |
| ScanFacts.ScanRunShift | scan.go:114-181 | where `lexAny` stops depends only on the input from its start position on |
| ScanFacts.LexFromStepAt | scan.go:114-197 | a scanner round stated at explicit positions |
| ScanFacts.StepInSuffix | scan.go:114-197 | a scanner round inside a suffix of the input, in positions of the whole input |
| ScanFacts.LastInSuffix | scan.go:114-189 | the last scanner round inside a suffix of the input |
| ScanFacts.ShiftStep | scan.go:114-197 | scanning a string and scanning its suffix agree across one round |
| ScanFacts.ShiftLast | scan.go:114-189 | scanning a string and scanning its suffix agree on the last round |
| ScanFacts.ShiftAll | scan.go:114-197 | scanning a string from a position agrees with scanning its suffix |
| ScanFacts.LexFromShift | scan.go:114-197 | the tokens from a position are the tokens of a suffix from the shifted position |
| ScanFacts.LexFromSuffix | scan.go:114-197 | the tokens from a position are the tokens of the input's suffix from there |
| ScanFacts.ScanRunSkipsWord | scan.go:178-179 | an ordinary code point is consumed and the run continues |
| ScanFacts.ScanRunSkipsEscape | scan.go:167-177 | a backslash before anything but a backslash consumes both code points and the run continues |
| ScanFacts.ScanRunStopsAtControl | scan.go:126-164 | the run stops in front of a control character or whitespace and hands over its class |
| ScanFacts.ScanRunStopsAtBackStroke | scan.go:167-175 | on `\\` the run stops at the second backslash and hands over BackStroke |
| ScanFacts.ScanRunOverText | scan.go:118-181 | the run goes straight through text made of ordinary code points and escapes |
| ScanFacts.LexRunThen | scan.go:114-197 | text followed by a control character scans to the text's Word, that character's token, and the tokens of the rest |
| ScanFacts.LexRunEnd | scan.go:114-189 | text that ends the input scans to one Word, or to nothing when it is empty after unescaping |
| ScanFacts.LexRunThenBackStroke | scan.go:167-175 | text followed by `\\` scans to the text's Word, a BackStroke token with value `\`, then the rest |
| ScanFacts.LexSingle | scan.go:126-197 | each control character and each whitespace code point on its own is one token of its class |
| ScanFacts.LexEscapedBackslash | scan.go:172-175 | `\\` is one BackStroke token with value `\` |
| ScanFacts.LexEscapedChar | scan.go:167-177 | a backslash before any other code point gives that code point as Word text |
| ScanFacts.LexDanglingBackslash | scan.go:167-171 | a backslash at the end of the input is dropped |
| ScanFacts.LexPlainWord | scan.go:178-186 | text without control characters, whitespace or backslashes is one Word |
| Parse.Sequence | parse/parse.go:30-36 | wrapping parsed operations (empty literal, the single operation, or a Concat) keeps every Select with at least two alternatives |
| Parse.Choice | parse/parse.go:92-99 | wrapping alternatives (empty literal, the single one, or a Select) keeps every Select with at least two alternatives |
| Parse.TailFacts | scan.go:76-84 | `Next` keeps the stream well formed and shortens its text; `Peek` gives EOF exactly on an exhausted stream |
| Parse.ParseDoc | parse/parse.go:10-37 | a parsed template only has Selects with at least two alternatives; the only failure is an unterminated construct |
| Parse.DocLoop | parse/parse.go:14-29 | the main loop keeps Selects wide; the only failure is an unterminated construct |
| Parse.ActionOf | parse/parse.go:60-100 | on success the rest of the stream is strictly shorter and well formed and Selects are wide; it fails only when unterminated |
| Parse.ActionLoop | parse/parse.go:71-99 | the same guarantees for the alternative-gathering loop |
| Parse.TagOf | parse/parse.go:102-125 | on success the rest is strictly shorter and well formed and modifier parameters have wide Selects; it fails only when unterminated |
| Parse.TagLoop | parse/parse.go:110-124 | the same guarantees for the loop up to the closing `#` |
| Parse.ModifierOf | parse/parse.go:127-157 | on success the rest is no longer and well formed and the parameters have wide Selects; it fails only when unterminated |
| Parse.ParenLoop | parse/parse.go:139-156 | the same guarantees for the parameter loop up to `)` |
| Parse.LiteralOf | parse/parse.go:159-181 | the result is a Literal; it consumes at least one token unless the head is `[`, `#`, EOF or Error |
| Parse.LiteralLoop | parse/parse.go:163-178 | the same guarantees for the loop that gathers the literal's tokens |
| Parse.StringsOf | parse/parse.go:42-58 | no ensures; the body is the definition: the inputs' parses wrapped by `Choice`, or the first fault; its shape is `StringsShape` |
| Parse.ParseAll | parse/parse.go:45-48 | every input parses, one operation per input |
| Parse.String | parse/parse.go:10-37 | the template is scanned and parsed with a `Scanner`; the result is `ParseDoc(input)` |
| Parse.ParseAllEach | parse/parse.go:45-48 | each operation `ParseAll` returns is the parse of the input at its position |
| Parse.Strings | parse/parse.go:42-58 | every input is parsed with `String` in order and the results are wrapped |
| Parse.ParseAction | parse/parse.go:60-100 | consumes an action from the scanner; the result and the remaining stream are those of `ActionOf` |
| Parse.ParseTag | parse/parse.go:102-125 | consumes a tag; the result and the remaining stream are those of `TagOf` |
| Parse.ParseModifier | parse/parse.go:127-157 | consumes a modifier call; the result and the remaining stream are those of `ModifierOf` |
| Parse.ParseLiteral | parse/parse.go:159-181 | consumes a literal run; the result and the remaining stream are those of `LiteralOf` |
| ParseFacts.LiteralRun | parse/parse.go:159-181 | a literal takes every token up to the first `[`, `#` or end, and its text is the values joined |
| ParseFacts.LexEmpty | scan.go:114-124 | the empty input scans to no tokens |
| ParseFacts.ParseEmpty | parse/parse.go:30-32 | the empty template parses to the empty literal |
| ParseFacts.DocOfLiteralRun | parse/parse.go:14-29 | a stream with no `[` or `#` is collected as a single literal of its whole text |
| ParseFacts.NoStopTokens | scan.go:126-133 | text without `[`, `#` or backslash scans to no token that stops a literal |
| ParseFacts.PlainTextIsLiteral | parse/parse.go:10-37 | text without `[`, `#` or backslash parses to a literal of exactly that text |
| ParseFacts.ActionLoopJoin | parse/parse.go:70-90 | the action loop depends on the parts gathered so far only through their concatenation |
| ParseFacts.ActionLoopCons | parse/parse.go:90 | an ordinary token inside an action appends its value to the parts |
| ParseFacts.RunGatheredAll | parse/parse.go:71-90 | a run of ordinary tokens inside an action is gathered as text |
| ParseFacts.ActionRun | parse/parse.go:71-90 | a run of ordinary tokens inside an action is gathered as text, the parts so far joined in front |
| ParseFacts.CloseStep | parse/parse.go:73-77 | `]` parses the gathered text as a template and returns a Push of the alternatives |
| ParseFacts.CommaStep | parse/parse.go:83-87 | `,` parses the gathered text as one alternative and starts the next one empty |
| ParseFacts.LastAlternative | parse/parse.go:71-99 | a last alternative closed by `]` is parsed and added to the Push |
| ParseFacts.NextAlternative | parse/parse.go:71-91 | an alternative followed by `,` is parsed and gathering starts again |
| ParseFacts.ParseAllStep | parse/parse.go:45-48 | `ParseAll` fails at the first input that fails, and otherwise puts the first parse in front of the others |
| ParseFacts.AlternativesBase | parse/parse.go:71-99 | a single alternative up to `]` is a Push of its parse |
| ParseFacts.AlternativesStep | parse/parse.go:71-99 | one more alternative in front of the rest adds its parse in front |
| ParseFacts.ActionAlternatives | parse/parse.go:71-99 | comma-separated alternatives up to `]` become a Push of their parses, in order |
| ParseFacts.ActionOfHead | parse/parse.go:60-68 | `[`, the key token and `:` are consumed without inspection, then the loop runs |
| ParseFacts.SimpleAction | parse/parse.go:60-100 | `[k:v]` is a Push of `k` with the parse of `v`'s text |
| ParseFacts.ActionWithAlternatives | parse/parse.go:60-100 | `[k:a,b,...]` is a Push of `k` with the parses of the alternatives; two or more become a Select in order |
| ParseFacts.PopAction | parse/parse.go:78-82 | a `POP` word inside an action makes it a Pop of the key, discarding what came before, and consumes one more token |
| ParseFacts.TagSkips | parse/parse.go:110-122 | inside a tag, tokens other than `#` and `.` are skipped |
| ParseFacts.SimpleTag | parse/parse.go:102-125 | `#k#` is a Symbol of `k` without modifiers |
| ParseFacts.ModifierWithoutParams | parse/parse.go:115-132 | `.name` not followed by `(` adds a modifier call without parameters |
| ParseFacts.EmptyParens | parse/parse.go:127-157 | `name()` is a call with exactly one parameter, the empty literal |
| ParseFacts.StringsShape | parse/parse.go:42-58 | `Strings` gives the empty literal for no input, the parse itself for one, and a Select of the parses in order for more; it fails exactly when an input fails |
| TagFacts.ParenLoopJoin | parse/parse.go:138-153 | the parameter loop depends on the parts gathered so far only through their joined text |
| TagFacts.ParamRun | parse/parse.go:139-154 | tokens other than `)` and `,` inside a parameter list are gathered verbatim as the current parameter's text |
| TagFacts.ParamsBase | parse/parse.go:140-145 | `)` ends the list: the gathered text is parsed as a template and becomes the last parameter |
| TagFacts.ParamComma | parse/parse.go:146-151 | `,` parses the gathered text as one parameter and starts the next one empty |
| TagFacts.ParamsStep | parse/parse.go:139-154 | one parameter followed by `,` adds its parse in front of the parses of the parameters after it |
| TagFacts.ParenParams | parse/parse.go:139-156 | a list of n comma-separated parts up to `)` is a call with n parameters, the parses of the parts' texts in order, or the fault of the first that does not parse |
| TagFacts.ModifierOfHead | parse/parse.go:127-134 | after the name and `(` a modifier call is its parameter loop |
| TagFacts.CallParams | parse/parse.go:142-156 | the call built from parsed parts has the name, one parameter per part, and parameter i is the parse of part i |
| TagFacts.ModifierWithParams | parse/parse.go:127-157 | `name(p1,...,pn)` is a call of `name` whose n parameters are the parses of the parts' texts, in source order |
| TagFacts.CallOfWide | parse/parse.go:142-147 | a parameter of a call that parses has only Selects with at least two alternatives |
| TagFacts.ChainTokensFacts | parse/parse.go:110-122 | a modifier chain closed by `#` is well formed and never puts `(` right after a bare name |
| TagFacts.ParamsCallStep | parse/parse.go:115-118 | `.name(...)` inside a tag adds the call with its parameters' parses and the tag loop goes on after `)` |
| TagFacts.ChainStep | parse/parse.go:115-118 | one `.name` or `.name(...)` inside a tag adds its call and the tag loop goes on after it |
| TagFacts.ChainEnd | parse/parse.go:112-114 | the closing `#` ends the tag with the calls gathered so far |
| TagFacts.PrefixCall | parse/parse.go:110-124 | a call in front of the rest of a tag is put in front of the rest's calls |
| TagFacts.ChainLoop | parse/parse.go:110-124 | the tag loop over a chain of calls and `#` collects the calls in source order |
| TagFacts.ChainCons | parse/parse.go:110-122 | a chain with one more call in front has that call's tokens and that call first |
| TagFacts.TagWithModifiers | parse/parse.go:102-125 | `#k.m1.m2(...)#` is a Symbol of `k` with the calls in source order, each holding its parameters' parses; it fails only on a parameter that fails |
| TagFacts.CallsInOrder | parse/parse.go:116-117 | the i-th call of a parsed chain is the call of the i-th piece of syntax |
| ParamTag.LexParams | scan.go:126-186 | `p,q)#` scans to the Word `p`, a Comma, the Word `q`, `)` and `#` |
| ParamTag.LexModCall | scan.go:126-186 | `m(p,q)#` scans to the Word `m`, `(` and the parameters' tokens |
| ParamTag.LexKey | scan.go:126-186 | `#k.` scans to `#`, the Word `k` and `.` in front of the rest |
| ParamTag.LexCall | scan.go:114-197 | `#k.m(p,q)#` scans to its ten tokens |
| ParamTag.LexChain | scan.go:114-197 | `#k.a.b(p,q)#` scans to its twelve tokens |
| ParamTag.ParamCall | parse/parse.go:127-157 | `.m(p,q)` for plain words is the call of `m` with the literals `p` and `q` |
| ParamTag.DottedChain | parse/parse.go:110-157 | `.a.b(p,q)` is the call of `a` without parameters followed by the call of `b` with `p` and `q` |
| ParamTag.DocOfTag | parse/parse.go:14-36 | a template that is one closed tag parses to that tag's operation |
| ParamTag.ParseCall | parse/parse.go:10-157 | `#k.m(p,q)#` parses to a Symbol of `k` calling `m` with the literals `p` and `q`, in order |
| ParamTag.ParseChain | parse/parse.go:10-157 | `#k.a.b(p,q)#` parses to a Symbol of `k` with a call of `a` without parameters, then a call of `b` with `p` and `q` |
| ParamTag.ParamsTest | parse/parse_test.go:73 | `#sym.mod(par,am)#` parses to a Symbol of `sym` calling `mod` with the literals `par` and `am` |
| Context.Top | grammar.go:52-58 | no ensures; the body is the definition: the last rule of the key's stack, None when the key is unbound; its properties are `PushedFacts` and `PopAfterPush` |
| Context.Pushed | grammar.go:59-66 | no ensures; the body is the definition: the stack with the value appended, or a new one-rule stack; its properties are `PushedFacts` |
| Context.Popped | grammar.go:67-76 | no ensures; the body is the definition: the stack without its last rule, unchanged when the key is unbound or holds one rule; its properties are `PoppedFacts` |
| Context.PushedFacts | grammar.go:59-66 | a push appends to the key's stack (starting one if needed), makes the value the top and leaves other keys alone |
| Context.PoppedFacts | grammar.go:67-76 | a pop drops the top unless the key is unbound or has one entry, never empties a stack and leaves other keys alone |
| Context.PopAfterPush | grammar.go:59-76 | a pop undoes a push on a bound key; on a fresh key the first push is a floor that stays |
| Context.Grammar.constructor | grammar.go:17-26 | a new grammar has no rules and no modifiers and uses the given random source |
| Context.Grammar.Lookup | grammar.go:52-58 | returns the top of the key's stack, and nothing exactly when the key is unbound |
| Context.Grammar.Push | grammar.go:59-66 | the stacks become `Pushed(old, key, op)` |
| Context.Grammar.Pop | grammar.go:67-76 | the stacks become `Popped(old, key)` |
| Context.Grammar.Intn | grammar.go:77-79 | returns the random source's draw for `n` |
| Context.Grammar.LookupModifier | grammar.go:81-84 | finds a modifier exactly when one is registered under the name |
| Context.Grammar.AddModifier | grammar.go:42-44 | registers the modifier under the name, replacing any earlier one |
| Context.Grammar.AddModifyFunc | grammar.go:46-48 | registers a plain function as a modifier under the name |
| Modifiers.ModifierFn.Modify | tracery.go:9-14 | a nil function returns the value unchanged; otherwise the function's result |
| Modifiers.NilIgnoresParams | tracery.go:10-12 | a nil modifier ignores its parameters |
| Exec.Unbound | exec/symbol.go:37 | no ensures; the body is the definition: `((key))`, what an unbound symbol resolves to; its use is `UnboundSymbol` |
| Exec.UnknownModifier | exec/symbol.go:45 | no ensures; the body is the definition: `((.name))`, what an unregistered modifier appends; its use is `UnknownModifierSkipsParams` |
| Exec.Eval | grammar.go:59-76 | resolution never empties a stack and never unbinds a key |
| Exec.EvalList | exec/concat.go:16-22 | resolving a list gives one text per operation and never empties a stack |
| Exec.EvalMods | exec/symbol.go:42-55 | applying modifier calls never empties a stack and never unbinds a key |
| Exec.Resolve | exec/exec.go:3-5 | resolving any operation in place leaves the result and stacks that `Eval` specifies |
| Exec.ResolveLiteral | exec/literal.go:13-15 | a literal resolves to its own text |
| Exec.ResolveConcat | exec/concat.go:16-22 | the children are resolved left to right in place; the joined text and the final stacks are as `Eval` specifies |
| Exec.ResolvePush | exec/push.go:14-18 | the value is resolved first, then its text is pushed as a literal, and the empty text is returned |
| Exec.ResolvePop | exec/pop.go:13-16 | returns the empty text and the stacks become `Popped(old, key)` |
| Exec.ResolveSelect | exec/select.go:13-16 | draws one index and resolves only that alternative |
| Exec.ResolveSymbol | exec/symbol.go:34-58 | looks the key up, resolves its top, then applies each modifier in order with its parameters resolved in place |
| ExecFacts.EvalListAppend | exec/concat.go:17-20 | resolving `a + b` resolves `a`, then `b` against the stacks `a` left |
| ExecFacts.ConcatSequential | exec/concat.go:16-22 | a Concat of `a + b` outputs `a`'s text then `b`'s, with `b` seeing `a`'s side effects |
| ExecFacts.ReadLiteral | exec/symbol.go:34-41 | a symbol whose top is a literal reads its text and changes nothing |
| ExecFacts.PushThenReadTwice | exec/push.go:14-18 | a pushed value is resolved once: reading the key twice gives that same text twice |
| ExecFacts.PushThenPop | exec/pop.go:13-16 | a push followed by a pop on a bound key leaves only the value's own side effects |
| ExecFacts.PopFloor | grammar.go:67-73 | a pop on an unbound key or a one-entry stack changes nothing and outputs nothing |
| ExecFacts.SelectDraw | exec/select.go:13-16 | a Select's result depends only on the drawn alternative; an out-of-range draw panics |
| ExecFacts.UnboundSymbol | exec/symbol.go:35-38 | an unbound symbol gives `((key))` whatever its modifiers, and changes nothing |
| ExecFacts.UnknownModifierSkipsParams | exec/symbol.go:43-47 | an unregistered modifier appends `((.name))` and never resolves its parameters |
| ExecFacts.EvalListLiterals | exec/symbol.go:49-52 | literal parameters resolve to their texts and change nothing |
| ExecFacts.ModifiersFold | exec/symbol.go:42-55 | with literal parameters, the modifier chain is a left fold over the calls in source order |
| ExecFacts.EvalFuel | exec/symbol.go:34-40 | a resolution that did not run out of fuel gives the same result with more fuel |
| ExecFacts.EvalListFuel | exec/concat.go:16-22 | the same for a list of operations |
| ExecFacts.EvalModsFuel | exec/symbol.go:42-55 | the same for a modifier chain |
| ExecFacts.EvalNoPanic | exec/select.go:13-16 | when the random source stays in range and every Select has alternatives, resolution never indexes out of range, and pushed values keep that property |
| ExecFacts.EvalListNoPanic | exec/concat.go:16-22 | the same for a list of operations |
| ExecFacts.EvalModsNoPanic | exec/symbol.go:49-54 | the same for modifier parameters |
| Tracery.Render | grammar.go:29-32 | `Flatten` never empties a stack or unbinds a key; an unterminated template changes nothing |
| Tracery.PushAll | grammar.go:35-40 | pushing rules in turn never empties a stack |
| Tracery.PushAllFacts | grammar.go:35-40 | after pushing the rules, the key's stack is the old one with the rules on top in order, the last on top, other keys untouched |
| Tracery.PushAllWide | grammar.go:35-40 | pushing parsed rules keeps every stored Select with alternatives |
| Tracery.ParsedPrefix | grammar.go:36-39 | the parses of the inputs up to the first that fails never have a narrow Select |
| Tracery.ParsedPrefixFacts | grammar.go:36-39 | the prefix holds the parses of the inputs in order and stops exactly at the first failing input |
| Tracery.Flatten | grammar.go:29-32 | parses the template, resolves it in place on the grammar, and returns what `Render` specifies |
| Tracery.PushRules | grammar.go:35-40 | each input is parsed and pushed in turn; an error is reported exactly when some input fails to parse |
| Tracery.PlainTemplate | grammar.go:29-32 | a template without `[`, `#` or backslash flattens to itself and changes nothing |
| Tracery.RenderNoPanic | grammar.go:29-32 | with an in-range random source, `Flatten` never indexes out of range |
| Tracery.RenderFuel | grammar.go:29-32 | a result reached without running out of fuel is the result for any larger fuel |
| Tracery.PushedRulesNoPanic | grammar.go:35-40 | a grammar whose rules came through `PushRules` never panics on `Flatten` |
| Tracery.PushRulesTop | grammar.go:35-40 | after `PushRules` succeeds, the key reads the last rule given |
| English.IsVowel | modifiers/en/basic.go:8-10 | no ensures; the body is the definition: only the five lower-case vowels |
| English.UpperRune | modifiers/en/basic.go:27 | no ensures; the body is the definition: the upper-case mapping of one code point for ASCII and Latin-1, as Left out admits; its property is `UpperRuneIdempotent` |
| English.UpperRuneIdempotent | modifiers/en/basic.go:27 | upper-casing a code point twice is upper-casing it once, which `CapitaliseIdempotent` rests on |
| English.AppendIndefArticle | modifiers/en/basic.go:12-23 | empty stays empty; otherwise the value is kept and prefixed with `an ` exactly when its first code point is a lower-case vowel, and `a ` otherwise |
| English.CapitaliseFirst | modifiers/en/basic.go:25-28 | the length is kept, the first code point is upper-cased and the rest is kept |
| English.CapitaliseIdempotent | modifiers/en/basic.go:25-28 | capitalising twice is capitalising once |
| English.Replace | modifiers/en/basic.go:30-33 | every occurrence of the first parameter is replaced by the second (split-and-join); no occurrence leaves the value unchanged; an empty search gives the replacement, then each code point followed by the replacement, with length `|input| + (|input|+1)*|replacement|` |
| English.ReplaceFacts | modifiers/en/basic.go:32 | the same facts about `strings.Replace` with no limit |
| English.EmptySearchLength | modifiers/en/basic.go:32 | an empty search adds the replacement `|s| + 1` times: the result's length is `|s| + (|s|+1)*|replacement|` |
| GoStrings.EmptySearchSpread | modifiers/en/basic.go:32 | an empty search puts the replacement before every code point and once more at the end: the replacement, then each code point followed by the replacement |
| English.ArticleApple | modifiers/en/basic_test.go:11 | `apple` becomes `an apple` |
| English.ArticleOneYearOld | modifiers/en/basic_test.go:16 | `one-year-old ham` becomes `an one-year-old ham`, as the code does |
| English.ArticleUnited | modifiers/en/basic_test.go:17 | `united group` becomes `an united group`, as the code does |
| English.ArticleConsonantExamples | modifiers/en/basic_test.go:19-24 | `helicopter`, `hour nap` and `kiwi 🥝` get `a ` |
| English.ArticleOtherExamples | modifiers/en/basic_test.go:10-23 | the empty value stays empty; `7` and `🥝` get `a ` |
| English.CapitaliseExamples | modifiers/en/basic_test.go:40-43 | the four capitalisation cases of the tests |
| English.ReplaceExamples | modifiers/en/basic_test.go:61-63 | the three replace cases of the tests |
| GoStrings.Join | parse/parse.go:179 | `strings.Join(parts, "")`: the parts one after another, its length the sum of theirs |
| GoStrings.ReplaceAll | modifiers/en/basic.go:32 | no ensures; the body is the definition of `strings.Replace` with no limit; its properties are `ReplaceAllIsSplitJoin`, `ReplaceAllAbsent`, `EmptySearchSpread` and `ReplaceCharByNothing` |
| GoStrings.Split | modifiers/en/basic.go:32 | splitting on a non-empty separator gives at least one piece |
| GoStrings.ReplaceAllIsSplitJoin | modifiers/en/basic.go:32 | replacing a non-empty search string is splitting on it and joining with the replacement |
| GoStrings.ReplaceAllAbsent | modifiers/en/basic.go:32 | replacing a search string that does not occur changes nothing |
| GoStrings.ReplaceCharByNothing | scan.go:103 | removing every backslash leaves none, never lengthens the text, and changes nothing when there is none |
| Scenarios.LexControlThen | scan.go:126-164 | a control character at the front is a token of its own, then the rest is scanned |
| Scenarios.LexWordThen | scan.go:178-186 | a plain word then a control character scan to a Word and that character's token |
| Scenarios.LexAction | scan.go:114-197 | `[k:v]` scans to five tokens |
| Scenarios.LexTag | scan.go:114-197 | `#k#` scans to three tokens |
| Scenarios.LexPiece | scan.go:114-197 | each simple piece (`[k:v]`, `[k:POP]`, `#k#`) scans to its tokens |
| Scenarios.LexTemplate | scan.go:114-197 | a template of simple pieces scans to their tokens in order |
| Scenarios.DocStep | parse/parse.go:14-29 | an action or tag at the front of the main loop adds its operation |
| Scenarios.DocAssign | parse/parse.go:60-100 | `[k:v]` in the main loop adds `Push(k, Literal(v))` |
| Scenarios.DocDrop | parse/parse.go:78-82 | `[k:POP]` in the main loop adds `Pop(k)` |
| Scenarios.DocRead | parse/parse.go:102-125 | `#k#` in the main loop adds `Symbol(k)` |
| Scenarios.DocPiece | parse/parse.go:14-29 | one simple piece at the front of the main loop adds its operation |
| Scenarios.DocTemplate | parse/parse.go:14-29 | the main loop over simple pieces collects their operations in order |
| Scenarios.ParseTemplate | parse/parse.go:10-37 | a template of simple pieces parses to the wrapped sequence of their operations |
| Scenarios.StepPiece | exec/push.go:14-18 | reference reading of one piece over stacks of literals: assign pushes, pop pops with the floor, read gives the top or the unbound marker |
| Scenarios.Simulate | exec/concat.go:16-22 | reference reading of a template of pieces in order, one text per piece |
| Scenarios.EvalPiece | exec/symbol.go:34-41 | resolving a piece's operation is its reference reading |
| Scenarios.EvalTemplate | exec/concat.go:16-22 | resolving a template's operations in order is its reference reading |
| Scenarios.RenderTemplate | grammar.go:29-32 | flattening a template of simple pieces gives the joined reference texts and the reference stacks |
| Scenarios.ReadAfterAssign | grammar_test.go:69-76 | `[k:v]#k#` flattens to `v` and leaves `v` pushed |
| Scenarios.ReadBeforeAndAfterAssign | grammar_test.go:87-94 | `#k#[k:v]#k#` on an unbound key flattens to `((k))v` |
| Scenarios.SimulateAppend | exec/concat.go:16-22 | reading pieces one after the other is reading them together |
| Scenarios.SimulateAssignReadPop | exec/pop.go:13-16 | assign, read and pop reads the assigned text and leaves the stacks as they were |
| Scenarios.SimulateReadPopRead | grammar.go:67-76 | on a two-entry stack, read, pop and read sees the top, then the entry below |
| Scenarios.SimulateUncovers | grammar_test.go:192 | the reference reading of the pop test |
| Scenarios.PopUncovers | grammar_test.go:188-197 | with `a`, `b` stacked, `[k:c]#k#[k:POP]#k#[k:POP]#k#` gives `cba` and leaves only `a` |
| Scenarios.PopKeepsLast | grammar_test.go:198-206 | with only `a` stacked, `#k#[k:POP]#k#` gives `aa` and changes nothing |
| Scenarios.PushPlainRules | grammar.go:35-40 | rules written as plain words parse to their literals and are pushed in order |
| Scenarios.FreshTwoRules | grammar_test.go:190-191 | a fresh grammar given two plain rules holds their two literals in order |
| Scenarios.PopTest | grammar_test.go:189-197 | the pop test end to end, from a fresh grammar with `a`, `b` pushed by `PushRules` |
| Interleaving.ReadRule | exec/symbol.go:34-40 | a symbol without modifiers outputs what its top rule outputs, with one unit of fuel less, and keeps that rule's stack changes |
| Interleaving.PushText | exec/push.go:14-18 | a push outputs nothing and pushes its value's text, as a literal, onto the stacks its value left |
| Interleaving.EvalPair | exec/concat.go:16-22 | two operations in a row: their outputs joined; the second sees the stacks the first left |
| Interleaving.EvalTriple | exec/concat.go:16-22 | three operations in a row: their outputs joined, each seeing the stacks the one before left |
| Interleaving.InnerY | grammar_test.go:168-172 | with `one` on top of `x`, `y`'s rule pushes `one` onto `y` and outputs `one` |
| Interleaving.RunX | grammar_test.go:166-175 | `x`'s rule outputs `one` and leaves `one` then `two` pushed onto `x` and `one` onto `y` |
| Interleaving.OuterY | grammar_test.go:166-178 | the first read of `y` outputs `two` and leaves `one` on top of `y` and `two` on top of `x` |
| Interleaving.InterleavedEval | grammar_test.go:159-185 | with `y`'s and `x`'s rules stacked, `#y##y##x#` resolves to `two`, `one`, `two` |
| Interleaving.LexTagAlone | scan.go:114-181 | `#x#` scans to `#`, the word, `#` |
| Interleaving.LexCloseTag | scan.go:114-181 | `]#x#` scans to `]` followed by the tag's tokens |
| Interleaving.LexTwoTags | scan.go:114-181 | `#x#]#x#` scans to both tags' tokens around `]` |
| Interleaving.LexY | scan.go:114-181 | `[y:#x#]#x#` scans to its ten tokens |
| Interleaving.ParseRead | parse/parse.go:102-125 | `#x#` alone parses to a read of `x` |
| Interleaving.ActionY | parse/parse.go:60-100 | the action `[y:#x#]` parses to a push of a read of `x`, leaving the trailing tag's tokens |
| Interleaving.DocPushY | parse/parse.go:14-29 | the main loop over `[y:#x#]#x#` first collects the push |
| Interleaving.DocReadY | parse/parse.go:14-29 | then collects the read of `x` and reaches the end |
| Interleaving.ParseY | parse/parse.go:10-37 | `[y:#x#]#x#` parses to the push followed by the read |
| Interleaving.ParseX | parse/parse.go:10-37 | `[x:one]#y#[x:two]` parses to the two pushes around the read of `y` |
| Interleaving.SinglePrefix | grammar.go:35-40 | a single rule that parses is pushed as its parse |
| Interleaving.InterleavedStore | grammar.go:35-40 | pushing the two rules onto a fresh grammar stacks exactly their parses under `y` and `x` |
| Interleaving.InterleavedRules | grammar_test.go:159-185 | for any distinct plain keys and plain texts, the test's grammar flattens `#y##y##x#` to `two`, `one`, `two` |
| Interleaving.InterleavingTest | grammar_test.go:159-185 | the test with its own strings flattens `#y##y##x#` to `212` |
| EscapedComma.PlainThenEscaped | scan.go:166-179 | ordinary code points in front of escaped text keep `lexAny` in one run, and dropping the backslashes leaves them as they were |
| EscapedComma.EscapedValueText | scan.go:99-112 | `a\,b` is one escaped run, and the Word emitted for it is `a,b` |
| EscapedComma.LexEscaped | scan.go:114-189 | `[k:a\,b]` scans to `[`, `k`, `:`, the Word `a,b` and `]`: the escaped comma is no Comma token |
| EscapedComma.JoinedValue | parse/parse.go:159-181 | the Word `a,b` is action text, and parsed again on its own it is the one literal `a,b`: a literal run keeps commas |
| EscapedComma.ActionEscaped | parse/parse.go:71-99 | the action gathers the single Word and pushes the literal its text parses to, leaving nothing |
| EscapedComma.ParseEscaped | parse/parse.go:60-100 | `[k:a\,b]` parses to a push of the literal `a,b`, not a Select of `a` and `b` |
| EmptyKey.LexKeyless | scan.go:114-197 | `[:v]` scans to `[`, `:`, the Word `v` and `]` |
| EmptyKey.ActionKeyless | parse/parse.go:60-91 | over those tokens the action takes `:` as the key, consumes `v` as the colon unchecked, and `]` closes an empty value: a Push onto `:` of the empty literal |
| EmptyKey.ParseKeyless | parse/parse.go:10-91 | for any plain word `v`, `[:v]` parses to a Push onto the key `:` of the empty literal |
| EmptyKey.KeylessTest | parse/parse_test.go:118 | `[:lit]` parses to a Push onto `:` of the empty literal, where the test expects a Push onto `""` of `lit` |
| EscapedComma.EscapedCommaTest | parse/parse_test.go:120 | `[act:lit\,eral]` parses to a push of `lit,eral` onto `act` |
| FixedDraw.LexWordBefore | scan.go:114-189 | a plain word then a control character scan to the Word, that character's token, then the rest scanned afresh |
| FixedDraw.LexAlternatives | scan.go:114-189 | `a,b,c]` scans to the three Words with a Comma between each, then `]` |
| FixedDraw.LexChoice | scan.go:114-189 | `[y:a,b,c]` scans to its nine tokens |
| FixedDraw.PlainLiteral | parse/parse.go:159-181 | a plain word parsed on its own is its literal |
| FixedDraw.ParseChoices | parse/parse.go:74-86 | the three alternatives' texts parse, in order, to their literals |
| FixedDraw.ActionChoice | parse/parse.go:71-99 | the action `[y:a,b,c]` is a push onto `y` of a Select of the three literals in source order |
| FixedDraw.ParseChoice | parse/parse.go:60-100 | `[y:a,b,c]` parses to that push |
| FixedDraw.ChoiceStore | grammar.go:35-40 | `PushRules(x, "[y:a,b,c]")` on a fresh grammar leaves only that push, under `x` |
| FixedDraw.ReadPair | parse/parse.go:102-125 | `#x##y#` parses to the two reads in order |
| FixedDraw.DrawThenRead | exec/select.go:13-16 | reading `x` draws once with `Intn(3)`, pushes the drawn text onto `y` and outputs nothing; reading `y` gives the drawn text; `x`'s rule is unchanged |
| FixedDraw.DrawnAtPush | grammar_test.go:213-228 | for any in-range draws, one `Flatten("#x##y#")` gives the first draw's alternative and a second one, on the stacks the first left, gives the second draw's |
| FixedDraw.RuleSelectTest | grammar_test.go:213-228 | with `Rand` giving 0 the template gives `a`; then with `Rand` giving 2 it gives `c` |

## Left out

- cmd/tracery/main.go is not modelled: it is the command-line entry point and does file I/O.
- rule_set.go is not modelled: it loads a JSON rule set into a grammar.
- parse.go and rules.go are not modelled: they are the root package's older parser.
- Scan.Scanner.NextRune: Go decodes UTF-8 here. The model works on code points, so
  every rune has size 1, and invalid UTF-8 is not modelled.
- Context.Grammar.constructor: Go seeds a `math/rand` source from the clock. The model
  takes the random source as a parameter.
- Context.Grammar.Intn: the random source (`Context.Env`'s `rand` and the `Grammar`'s
  `Rand` field) is a pure function of the bound, so every draw with the same bound
  gives the same index, within one `Flatten` and across `Flatten`s that share it. Go's
  `r.Intn` from `NewGrammar` (grammar.go:17-26) advances a stream, and its successive
  draws are independent. For example, `[a,b]` drawn twice in one template never gives
  `ab` in the model. `ExecFacts.SelectDraw`, `EvalNoPanic`, `Tracery.RenderNoPanic` and
  the fixed-draw test hold for such memoryless sources only. A test source that returns
  fixed values per bound, as grammar_test.go's `Rand` does, is modelled exactly.
- English.CapitaliseFirst: `unicode.ToUpper` is written out only for ASCII and Latin-1
  letters. Other code points are left unchanged.
- Context.Grammar.AddModifyFunc: grammar.go:47 and grammar_test.go:279 and :293 wrap
  the function with `ModifierFunc`, a type none of the modelled files define. The model
  takes it to be tracery.go's `ModifierFn`, a function of the value and parameters.
- English.Replace: it requires two parameters. Go indexes `params[1]` and panics with
  fewer.
- Exec.Eval: self-referential grammars are cut off by `fuel` with `Fail(OutOfFuel)`,
  where Go recurses until the stack overflows. `EvalFuel` shows that extra fuel never
  changes a result reached without running out.
- Exec.Eval: a nil `Modifier` interface value in the registry is not modelled. It
  would panic in Go. `ModifierFn` with a nil function is modelled, and returns the
  value.
- Parse.ParseDoc: on an unterminated `[`, `#` or `(` Go loops forever. The model
  gives `Fail(Unterminated)`.
- Tracery.PushRules: it stops at the first input that fails to parse and reports the
  fault. In Go the unterminated input never returns.
- exec/exec.go holds only the interfaces `Operation`, `Modifier` and `Context`. They
  are the datatype `Op`, `ModifierFn` and the `Grammar` class.
- Parse.ActionOf: parse/parse_test.go:118 expects `[:lit]` to give a Push onto `""` of
  `lit`. `parseAction` (parse/parse.go:60-67) takes the token after `[` as the key and
  the one after that as the colon without looking at them. The model follows the code,
  which gives a Push onto the key `:` of the empty literal (`EmptyKey.KeylessTest`).
- modifiers/en/basic_test.go expects `a one-year-old ham`, `a united group` and
  `an hour nap` (lines 16, 17 and 20). `AppendIndefArticle` checks only whether the
  first code point is a lower-case vowel. The model follows the code, which gives
  `an one-year-old ham`, `an united group` and `a hour nap`.
- scan_test.go names the text token type `Text`. The code calls it `Word`, and the
  model follows the code.

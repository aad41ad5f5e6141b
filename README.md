# JNI binding generator — a Dafny model

This project models the code generator in the `tool` package of a Go JNI binding library. The generator works like this:

- It reads the C declarations of the JNIEnv function table, written as `ret (JNICALL *Name)(params);`. These are the functions listed in chapter 4, "JNI Functions", of the Java Native Interface Specification.
- It parses them into method records.
- It emits one Go source file containing:
  - a fixed preamble;
  - one commented-out C stub per method, for cgo;
  - a fixed middle block;
  - one Go method per function, on the `Env` type;
  - a fixed epilogue.
- Two constant name lists suppress some stubs and some bindings.

The model has five modules, one file each:

- `Text` (`text.dfy`): the text operations the generator relies on.
  - The scanners for the regexes `^\w+` and `\s`.
  - `unicode.IsSpace` and the `TrimLeft`/`TrimSpace` trims.
  - `strings.Split` and a join.
  - The comma-list loop shape shared by all parameter renderers.
  - `bytes.Buffer` as a class whose `Write` appends.
- `Entity` (`entity.dfy`): `cType`, `param` and `method` as datatypes.
  - The C and Go renderers of types, parameters, argument lists and return conversions, as functions.
  - The list builders (`paramList`, `callList`, `prepareReturn`) as methods with loops, proved equal to those functions.
- `Parser` (`parser.dfy`): the cursor parser, as functions returning a value together with the rest of the input, or an error.
  - The parameter loop and the declaration-list loop, as methods proved equal to those functions.
  - A printer of declarations, with round-trip lemmas.
- `Skip` (`skip.dfy`): the two suppression lists and the membership scan.
- `Gen` (`gen.dfy`): the emitter.
  - `generateFuncCode` and `generateGoFuncCode` append to a shared `Buffer`.
  - `generateCode` fills the buffer in two loops.
  - Each is proved to write exactly the text given by a specification function (`CFuncOutput`, `GoFuncOutput`, `OutputText`). The lemmas state what that text looks like.

Modelling conventions:

- Input text is `string` (a sequence of Unicode scalar values, i.e. well-formed UTF-8). As a result, the byte-level test `unicode.IsSpace(rune(code[0]))` on the first byte is exactly an ASCII-space test (`IsAsciiSpace`).
- Go index panics in the parser become the error `OutOfRange`. A panic in the list parser ends the whole run; the model records this as the outcome `Crashed(segment)`.
- Go index panics in the renderers and the emitter become preconditions. For example, `params[0]` on a method without parameters gives the precondition `CStubDefined(m)`.

## Model

| member | source | states |
|---|---|---|
| Text.WordLen | tool/parser.go:12 | the length of the longest prefix made of word characters `[0-9A-Za-z_]`, i.e. the match of `^\w+` |
| Text.RegexSpaceLen | tool/parser.go:14 | the length of the longest prefix of `\s` characters (tab, newline, form feed, carriage return, space) |
| Text.TrimLeft | tool/parser.go:19 | the trimmed text is no longer than the input and does not start with a Unicode space |
| Text.TrimLeftRemovesSpaces | tool/parser.go:19 | the trimmed text is a suffix of the input and every character removed is a space |
| Text.TrimLeftSkipsSpaces | tool/parser.go:42 | spaces in front of a text do not change what the trim leaves |
| Text.TrimRight | tool/parser.go:150 | a prefix of the input whose last character is not a space, with only spaces removed |
| Text.TrimSpace | tool/parser.go:150 | neither end of the result is a space, and a text with no surrounding space is unchanged |
| Text.TrimSpaceRemovesSpaces | tool/parser.go:150 | the result is a contiguous part of the input, and everything removed before and after it is space |
| Text.Split | tool/parser.go:147 | at least one piece, and no piece contains the separator |
| Text.SplitJoin | tool/parser.go:147 | splitting separator-free pieces joined by the separator gives the pieces back |
| Text.SplitAppend | tool/parser.go:147 | splitting two texts joined by one separator is splitting each of them |
| Text.CommaListIsJoin | tool/entity.go:307-321 | when the first entry is not elided, the loop writes the non-empty entries joined by `, ` |
| Text.CommaListOfNonEmpty | tool/entity.go:307-321 | with no entry elided, the loop writes all entries joined by `, ` |
| Text.ElidedFirstEntryLeavesSeparator | tool/entity.go:308-319 | the separator is tied to the index, so an elided first entry leaves a leading `, ` |
| Text.Buffer.constructor | tool/gen.go:13 | a new buffer is empty |
| Text.Buffer.Write | tool/gen.go:345 | a write appends its text to the buffer |
| Entity.IsVoid | tool/entity.go:22-24 | a type is void exactly when it is a non-pointer named `void`; its renderings are stated by ReturnTypeAgreement |
| Entity.HasRetVal | tool/entity.go:262-264 | a method has a result exactly when its return type is not void; ReturnTypeAgreement ties this to both renderings |
| Entity.GoRetVal | tool/entity.go:266-272 | the Go result type after a space, or nothing for a void method, as the binding header uses it (GoFuncReceiver, ReturnTypeAgreement) |
| Entity.CTypeDesc | tool/entity.go:36-42 | the C type text; its shape (the name, ` *` exactly for a pointer, no `const`) is stated by CTypeDescShape |
| Entity.GoTypeDesc | tool/entity.go:46-106 | the Go type text; its tables and fallbacks are stated by GoTypeDescPointerTable, GoTypeDescValueTable and HandleTypeNames |
| Entity.CTypeDescShape | tool/entity.go:36-42 | the C type text ignores `const` and the variadic mark, starts with the type name and ends in ` *` when the type is a pointer |
| Entity.GoTypeDescPointerTable | tool/entity.go:47-61 | a pointer's Go type is `Env`/`VM`/`unsafe.Pointer`/`string` for `JNIEnv`/`JavaVM`/`void`/`char` and `*C.<name>` for any other name |
| Entity.GoTypeDescValueTable | tool/entity.go:61-105 | a non-pointer's Go type is the fixed table (`""` for void, Go scalars for primitives, `J…` handles) and `C.<name>` outside it |
| Entity.HandleTypeNames | tool/entity.go:90-97 | every reference and ID type `jX` is rendered `JX`, the name without its leading `j` |
| Entity.ReturnTypeAgreement | tool/entity.go:262-272 | a method has no result exactly when its C return type is `void` and exactly when its Go result type is empty |
| Entity.CParamDesc | tool/entity.go:124-130 | a C parameter entry is empty exactly for the `jboolean *isCopy` flag |
| Entity.CCallDesc | tool/entity.go:132-138 | the C call passes `NULL` exactly in place of the isCopy flag and the parameter's own name otherwise |
| Entity.GoParamDesc | tool/entity.go:142-148 | a Go parameter entry is empty exactly for the isCopy flag |
| Entity.GoSliceParamDesc | tool/entity.go:150-180 | a buffer parameter as a Go slice of its element type; the table is stated by SliceParamTable |
| Entity.GoSliceWrapper | tool/entity.go:182-211 | the helper that hands a Go slice to C; the table is stated by SliceParamTable |
| Entity.SliceParamTable | tool/entity.go:150-211 | a primitive buffer pointer is a Go slice of the element type and has its matching array helper; any other parameter renders as usual and has no helper |
| Entity.GoCallDesc | tool/entity.go:213-253 | a Go argument is empty exactly for the isCopy flag (for a named parameter) |
| Entity.GoCallDescConvertsBack | tool/entity.go:213-253 | each Go argument is converted back to the declared C type: a cast for scalars and handles, via unsafe.Pointer for IDs, via cbool for bool, via the `cstr_` copy for strings, via unsafe.Pointer to `*C.JNIEnv`/`*C.JavaVM` for the environment and the VM; a `void *`, a `jboolean *` not named isCopy and any parameter whose Go type is its cgo type are passed unchanged |
| Entity.IsVarArgs | tool/entity.go:274-276 | the last parameter is the variadic entry; such methods leave no trace (UnsupportedIsInvisible) |
| Entity.IsVaList | tool/entity.go:278-286 | true exactly when some parameter has type name `va_list` |
| Entity.IsArrayRegion | tool/entity.go:356-358 | the name starts with `Get` or `Set` and ends with `ArrayRegion`; the rewriting is stated by ArrayRegionSignature and ArrayRegionCall |
| Entity.IsCallFunc | tool/entity.go:360-365 | the name starts with `Call` or `New`, ends with `A`, and the last parameter is a `jvalue *`; the rewriting is stated by CallFuncRendering |
| Entity.CBeforeReturn | tool/entity.go:346-352 | the call expression is prefixed by `(<C type>) ` exactly when the return type is const, and is unchanged otherwise |
| Entity.GoBeforeReturn | tool/entity.go:448-494 | the conversion of the C result to the Go result type; its cases are stated by GoReturnConverts and GoReturnSpecialCases |
| Entity.GoReturnConverts | tool/entity.go:461-490 | a scalar or handle result is converted to the Go result type of the signature, an ID through unsafe.Pointer |
| Entity.GoReturnSpecialCases | tool/entity.go:448-494 | a bool result is compared with JNI_FALSE, a string result goes through C.GoString, and a result whose Go type is its cgo type is returned unchanged |
| Entity.WriteEntries | tool/entity.go:307-321 | the shared loop writes the comma list of the rendered entries, skipping empty ones |
| Entity.CParamList | tool/entity.go:302-322 | writes the C parameter list of the stub head, `void` for no parameters |
| Entity.CCallList | tool/entity.go:324-344 | writes the C argument list of the stub's call |
| Entity.GoParamList | tool/entity.go:367-404 | writes the Go parameter list of the binding |
| Entity.GoCallList | tool/entity.go:406-446 | writes the Go argument list of the binding's call |
| Entity.PrepareReturn | tool/entity.go:497-503 | appends the C string copy and free lines for every `char *` parameter, in order |
| Entity.CSignatureOmitsIsCopy | tool/entity.go:302-322 | the C signature is the parameters other than the isCopy flag, joined by `, ` |
| Entity.CCallPassesNull | tool/entity.go:324-344 | the C call has one argument per parameter, with `NULL` where the isCopy flag is |
| Entity.GoSignatureOmitsIsCopy | tool/entity.go:142-148 | the Go signature is the parameters after the receiver, without the isCopy flag, joined by `, ` |
| Entity.GoCallOmitsIsCopy | tool/entity.go:225-228 | the Go call is the converted arguments with nothing for the isCopy flag |
| Entity.ArrayRegionSignature | tool/entity.go:375-401 | an array-region accessor's Go signature is the parameters between the receiver and the count, then the buffer as a slice |
| Entity.ArrayRegionCall | tool/entity.go:414-440 | an array-region call keeps the declaration's arity, with the start index followed by `C.jsize(len(buf))` and the slice helper applied to the buffer |
| Entity.CallFuncRendering | tool/entity.go:360-442 | a `…A` call function takes `name ...Jvalue` in place of the `jvalue *` array and passes `cvals(name)` to C |
| Entity.CStringPrelude | tool/entity.go:497-503 | the copy and free lines of the `char *` parameters; stated by PrepareReturn, CStringPreludeEmpty, CStringPreludeAppend and GoFuncCopiesStrings |
| Entity.CStringPreludeEmpty | tool/entity.go:497-503 | the binding's string prologue is empty exactly when no parameter is a `char *` |
| Entity.CStringPreludeAppend | tool/entity.go:497-503 | the prologue of two parameter runs is the two prologues in order |
| Parser.SkipSeparator | tool/parser.go:17-22 | the result is no longer than the input, and when anything was removed it does not start with a space |
| Parser.SkipSeparatorRemoves | tool/parser.go:17-22 | after a leading comma or ASCII space, exactly that character and the run of spaces after it are removed; any other text is kept whole |
| Parser.ParsePointer | tool/parser.go:57-66 | on success the type is the given name and constness, a pointer exactly when a `*` came next, and no second `*` follows |
| Parser.ParseIdentifier | tool/parser.go:16-69 | on success the input shrinks, and the type is either the bare variadic mark or a named type not followed by `*` |
| Parser.ParseNamedType | tool/parser.go:31-58 | on success the type name is a word and no `*` is left in front |
| Parser.ParseConstType | tool/parser.go:40-58 | on success the type is const with a word as its name |
| Parser.ParseFuncPointerName | tool/parser.go:71-83 | on success the name is a word inside `(JNICALL`; without that prefix the result is the missing-name error, the only error it gives |
| Parser.NameMatchesPattern | tool/parser.go:72-81 | a name is found only when the text is `(JNICALL`, at least one `\s` character, `*`, the name and `)`; the rest is what follows, trimmed |
| Parser.AfterPrefixMatches | tool/parser.go:72-81 | after `(JNICALL`, a name is found only where the text is at least one `\s` character, `*`, the name and `)`; the rest is what follows, trimmed |
| Parser.RenameId | tool/parser.go:112-117 | `string` becomes `str` and every other identifier is kept |
| Parser.NoParamNamedString | tool/parser.go:112-117 | no parsed parameter is ever named `string` |
| Parser.ParseParams | tool/parser.go:95-119 | on success the rest starts with the closing `)` |
| Parser.ParamList | tool/parser.go:85-122 | on success the rest starts with the closing `)` |
| Parser.ParamListRoundTrip | tool/parser.go:85-122 | a printed well-formed parameter list reads back as its parameters, renamed, with or without the opening `(` |
| Parser.ParseFuncParamList | tool/parser.go:85-122 | the loop computes the parameter list defined by `ParamList` |
| Parser.IdentifierAtWord | tool/parser.go:17-31 | text starting with a word character is read as a named type |
| Parser.NamedTypeAt | tool/parser.go:57-58 | a word other than `const` is the type name, followed by the pointer check on the trimmed rest |
| Parser.ConstTypeAt | tool/parser.go:40-42 | the keyword `const` marks the type const and the trimmed rest is read next |
| Parser.ConstNamedTypeAt | tool/parser.go:50-58 | after `const` the next word is the type name |
| Parser.EllipsisIsVarArgs | tool/parser.go:25-29 | a leading `...`, also after `, `, is the type with only the variadic mark and an empty name |
| Parser.ConstPointerRejected | tool/parser.go:40-48 | `const` followed by `*` is rejected |
| Parser.NoWordRejected | tool/parser.go:31-35 | text that starts with neither a word character, `.` nor a separator is rejected for a missing identifier |
| Parser.ConstWithoutNameRejected | tool/parser.go:50-54 | `const` followed by something that is neither a word nor `*` is rejected for a missing type |
| Parser.PointerMarks | tool/parser.go:59-62 | one `*` sets the pointer mark, and its absence leaves the rest untouched |
| Parser.NamedTypeRoundTrip | tool/parser.go:50-62 | a printed type name with an optional ` *` reads back as that type |
| Parser.PlainTypeRoundTrip | tool/parser.go:31-62 | a printed non-const type reads back as itself |
| Parser.ConstTypeRoundTrip | tool/parser.go:39-62 | a printed `const` type reads back as itself |
| Parser.TypeRoundTrip | tool/parser.go:16-69 | every well-formed type printed before a rest reads back as itself and that rest |
| Parser.DoublePointerRejected | tool/parser.go:59-66 | a second `*` after a pointer type is rejected as a multi-level pointer |
| Parser.SecondStarRejected | tool/parser.go:59-66 | ` *` followed by spaces and another `*` is rejected |
| Parser.SeparatorSkipped | tool/parser.go:17-22 | a leading `, ` does not change what is read |
| Parser.NameRoundTrip | tool/parser.go:71-83 | `(JNICALL`, at least one space, `*NAME)` gives NAME and the trimmed rest |
| Parser.NameNeedsSpace | tool/parser.go:14 | without whitespace between `(JNICALL` and `*` the name is not found |
| Parser.RenameParams | tool/parser.go:112-117 | the parsed parameters are the written ones, with each name renamed |
| Parser.NamedParamStep | tool/parser.go:96-118 | one named parameter is read and the loop continues after it |
| Parser.EllipsisParamStep | tool/parser.go:100-104 | `...)` is one variadic parameter with an empty name |
| Parser.ParamsRoundTrip | tool/parser.go:85-122 | every well-formed printed parameter list reads back as those parameters, renamed |
| Parser.EllipsisNotLastRejected | tool/parser.go:100-107 | `...` followed by something that is neither a space, a word nor `)` is an error |
| Parser.NamedEllipsisParam | tool/parser.go:96-118 | `...` followed by a word, with or without spaces between, is a variadic parameter with that word as its name, and the list goes on after it |
| Parser.EllipsisAtEndOutOfRange | tool/parser.go:100-103 | `...` at the very end of the input indexes past the end |
| Parser.NamelessParamRejected | tool/parser.go:100-107 | a type with no identifier after it is an error |
| Parser.DeclRoundTrip | tool/parser.go:124-144 | a printed well-formed declaration parses back as its method: return type, name and renamed parameters |
| Parser.ParseSingleMethod | tool/parser.go:124-144 | return type, then name, then parameter list, the first error ending the declaration; its results are stated by DeclRoundTrip and the rejection lemmas |
| Parser.ParseJniMethodList | tool/parser.go:146-164 | the loop computes the outcome defined by `MethodList` |
| Parser.ParseSegments | tool/parser.go:149-161 | the loop over the segments computes `Collect` |
| Parser.CrashIsFinal | tool/parser.go:153 | once a segment panics, later segments change nothing |
| Parser.CollectAppend | tool/parser.go:149-161 | the outcome of two runs of segments is the two outcomes in order |
| Parser.MethodListAppend | tool/parser.go:146-164 | the methods of two texts joined by `;` are those of each, in order |
| Parser.FailingSegmentIsDropped | tool/parser.go:153-159 | a segment that fails to parse is dropped with its diagnostic and changes no other method |
| Parser.BlankSegmentIsSkipped | tool/parser.go:150-152 | an empty or all-space segment changes nothing |
| Parser.CollectDecls | tool/parser.go:149-161 | printed well-formed declarations are all listed, in order, with no diagnostic |
| Parser.DeclarationsRoundTrip | tool/parser.go:146-164 | printed well-formed declarations joined by `;` parse back as those methods, in order, with none dropped |
| Skip.SkipList | tool/skip.go:3-41 | the 28 names suppressed in both sections, in source order; stated by ListSizes, ListsOverlap, FullySkipped |
| Skip.GoSkipList | tool/skip.go:43-54 | the 7 names suppressed in the Go section; stated by ListSizes, ListsOverlap, NioOnlyInGoSkipList |
| Skip.ContainsInSkipList | tool/skip.go:56-64 | true exactly when the name is an element of the list |
| Skip.MembershipIgnoresOrder | tool/skip.go:56-64 | the answer depends only on which names the list holds, not on order or repeats |
| Skip.ContainsInConcat | tool/skip.go:56-64 | membership in two lists joined is membership in either |
| Skip.EmptyListHoldsNothing | tool/skip.go:56-64 | the empty list contains nothing |
| Skip.ListSizes | tool/skip.go:3-54 | the lists have 28 and 7 names, none repeated |
| Skip.ListsOverlap | tool/skip.go:8-46 | `NewStringUTF` is in both lists |
| Skip.FullySkipped | tool/skip.go:3-41 | `DefineClass`, `RegisterNatives` and `GetObjectRefType` are in the main list |
| Skip.NioOnlyInGoSkipList | tool/skip.go:43-54 | the three direct-buffer functions are in the Go list and not in the main list |
| Gen.GenerateFuncCode | tool/gen.go:318-348 | succeeds exactly when the method is neither variadic nor takes a `va_list`, and appends its C stub, or nothing when suppressed or failing |
| Gen.GenerateGoFuncCode | tool/gen.go:350-381 | succeeds exactly when the method is supported, and appends its Go binding, or nothing when suppressed by either list or failing |
| Gen.CStub | tool/gen.go:328-345 | the three lines of a C stub; stated by StubCallLine and GenerateFuncCode |
| Gen.GoFunc | tool/gen.go:360-378 | a Go binding: header, string copies, call line, closing brace; stated by GoFuncReceiver, GoFuncCopiesStrings, GoCallLine and GenerateGoFuncCode |
| Gen.GenerateCode | tool/gen.go:12-313 | returns the preamble, the C section, the middle block, the Go section and the epilogue |
| Gen.WriteCSection | tool/gen.go:43-47 | appends each method's C block in list order |
| Gen.WriteGoSection | tool/gen.go:241-245 | appends each method's Go block in list order |
| Gen.SectionsAppend | tool/gen.go:43-245 | the sections of two method lists joined are the sections of each, in order |
| Gen.UnsupportedIsInvisible | tool/gen.go:319-321 | a variadic or `va_list` method leaves no trace in either section |
| Gen.SkippedKeepsSeparators | tool/gen.go:323-326 | a name in the main list gets no stub and no binding but still its `//` line and its empty line |
| Gen.GoSkippedKeepsStub | tool/gen.go:355-358 | a name only in the Go list keeps its C stub but gets no binding |
| Gen.DirectBufferFunctionsGetOnlyStubs | tool/gen.go:355 | the direct-buffer functions get stubs and no bindings |
| Gen.NewStringUTFSuppressed | tool/gen.go:323-326 | `NewStringUTF` gets neither stub nor binding |
| Gen.StubCallLine | tool/gen.go:330-344 | the stub's call line has `return ` exactly when the method has a result, and ends with the call through the first parameter |
| Gen.GoCallLine | tool/gen.go:365-377 | the binding's call line has `return ` exactly when the method has a result |
| Gen.GoFuncReceiver | tool/gen.go:360-361 | a binding starts `func (<p0> Env) <name>(` |
| Gen.GoFuncCopiesStrings | tool/gen.go:360-378 | every `char *` parameter gets its copy and free lines after the header, in parameter order and before the call |
| Gen.EmptyListOutput | tool/gen.go:12-313 | with no methods the output is the three fixed blocks in order |
| Gen.OutputLayout | tool/gen.go:12-313 | the output starts with the preamble and the C stubs in list order, and ends with the middle block, the Go bindings in list order and the epilogue |

## Left out

- `env.go` and `cmd/gen/main.go` are not part of this model. The first is generated cgo output. The second parses flags and prints the result.
- `GenerateCode()` (tool/gen.go:8-10) parses `headerCode`, which is not part of this model. The model starts from `generateCode` and from a parser input given as an arbitrary string.
- The contents of the three fixed text blocks: `Preamble`, `Middle` and `Epilogue` are constants without a value.
- The text of the diagnostics printed to stderr (tool/parser.go:154-155). They are modelled as the list of dropped segments with their errors.
- The text of the errors built by `fmt.Errorf`. Parse errors are named cases of `ParseError`. The generators return only whether they succeeded.
- The partial values the Go parser returns together with an error, since every caller ignores them.
- The `len(loc) < 4` branch (tool/parser.go:76-77). It cannot be reached, because the pattern has exactly one group.
- `String()` (tool/entity.go:17-20, 288-290), used only inside error text, and the conversions `toC`/`toGo`, which only re-type a value.
- Byte-level input that is not well-formed UTF-8. Text is modelled as a sequence of Unicode scalar values.
- Go index panics are not modelled as panics. In the parser they are the error `OutOfRange`, and a run `Crashed` at that segment. In the renderers and the emitter they are preconditions: `CStubDefined`, `GoFuncDefined`, `GoSignatureDefined`, `GoCallDefined`.
- ParseIdentifier: its own contract bounds only the rest of the input and the shape of the result. The exact result is stated, for printed well-formed types, by TypeRoundTrip. Each of its error returns is stated by its own lemma: NoWordRejected, ConstPointerRejected, ConstWithoutNameRejected, DoublePointerRejected and EllipsisAtEndOutOfRange.
- ParseParams: its own contract states only that the rest starts with `)`. The exact result is stated, for printed well-formed lists, by ParamsRoundTrip, a named variadic entry by NamedEllipsisParam, and the errors by EllipsisNotLastRejected, NamelessParamRejected and EllipsisAtEndOutOfRange.
- SkipSeparator: its own contract states only that the result is shorter and has no leading space when anything was removed. SkipSeparatorRemoves states exactly which characters are removed.
- ParseFuncPointerName: its own contract states only the shape of a success. NameMatchesPattern states that the input matches the pattern around the name, and NameRoundTrip that a printed name is found.
- TrimSpace: its own contract states only that neither end is a space. TrimSpaceRemovesSpaces states that the result is the input with only surrounding spaces removed.
- ParamList: its own contract states only that the rest starts with `)`. The exact result is stated, for printed well-formed lists with or without the `(`, by ParamListRoundTrip.

## Behaviour followed as written

These points are behaviour of the code that a reader may not expect:

- The output is a single Go file. The C stubs sit as comments between the preamble and the middle block. The package name is fixed as `jni` inside the preamble; it is not a parameter.
- An unsupported (variadic or `va_list`) method produces no diagnostic in the emitter. The error is dropped, and the model shows only its visible effect: no block and no separator line.
- A suppressed method still gets its separator line: `//` in the C section and an empty line in the Go section.
- A run is not always complete. A declaration the parser indexes past, such as one ending in `...`, ends the whole run. In the model this is the outcome `Crashed`.
- `... name` is read as a variadic parameter named `name`, and further parameters may follow it. The variadic mark is not required to come last, and only a `...` followed by a non-word, non-space character other than `)` is rejected.
- The comma separator in parameter lists is written for every entry whose index is not 0. An elided entry at index 0 would leave a leading `, `. No JNI function has its `isCopy` flag first, so the generated file never shows this.

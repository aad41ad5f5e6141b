/** The declaration parser: a cursor over the text of the JNI function table
    that reads `ret (JNICALL *Name)(params)` declarations into methods. Each
    step returns what it read and the rest of the text, or an error. */
module Parser {
  import opened Text
  import opened Entity

  /** Why a declaration was not read. `OutOfRange` stands for the index panic
      Go raises when the text ends where the cursor looks at its next byte. */
  datatype ParseError =
    | MissingIdentifier
    | MissingTypeAfterConst
    | ConstPointer
    | MultiPointer
    | MissingName
    | MissingParamName
    | OutOfRange

  /** The outcome of one cursor step: a value and the rest of the text, or an error. */
  datatype Parsed<T> = Ok(value: T, rest: string) | Err(error: ParseError)

  /** The outcome of reading a whole declaration. */
  datatype Result<T> = Success(value: T) | Failure(error: ParseError)

  // ---------------------------------------------------------------------------
  // parseIdentifier

  /** The text after an optional leading `,` or ASCII space and the whitespace after it. */
  function SkipSeparator(code: string): (r: string)
    requires code != []
    ensures |r| <= |code|
    ensures r != code ==> |r| < |code| && (r == [] || !IsSpace(r[0]))
  {
    if code[0] == ',' || IsAsciiSpace(code[0]) then TrimLeft(code[1..]) else code
  }

  /** SkipSeparator removes the one leading comma or ASCII space and the run of
      whitespace right after it, and nothing else; any other text is kept whole. */
  lemma SkipSeparatorRemoves(code: string)
    requires code != []
    ensures (code[0] == ',' || IsAsciiSpace(code[0])) ==>
      |SkipSeparator(code)| < |code|
      && SkipSeparator(code) == code[|code| - |SkipSeparator(code)|..]
      && forall i :: 1 <= i < |code| - |SkipSeparator(code)| ==> IsSpace(code[i])
    ensures !(code[0] == ',' || IsAsciiSpace(code[0])) ==> SkipSeparator(code) == code
  {
    if code[0] == ',' || IsAsciiSpace(code[0]) {
      var t := code[1..];
      TrimLeftRemovesSpaces(t);
      assert forall i :: 1 <= i < |code| ==> code[i] == t[i - 1];
    }
  }

  /** The pointer marks after a type name: one `*` makes a pointer, a second
      one is rejected. */
  function ParsePointer(isConst: bool, name: string, next: string): (r: Parsed<CType>)
    ensures r.Ok? ==> r.value == CType(r.value.isPtr, isConst, name, false)
    ensures r.Ok? ==> |r.rest| <= |next| && r.rest != [] && r.rest[0] != '*'
    ensures r.Ok? ==> (r.value.isPtr <==> next[0] == '*')
    ensures r.Ok? && !r.value.isPtr ==> r.rest == next
  {
    if next == [] then Err(OutOfRange)
    else
      var isPtr := next[0] == '*';
      var after := if isPtr then TrimLeft(next[1..]) else next;
      if after == [] then Err(OutOfRange)
      else if after[0] == '*' then Err(MultiPointer)
      else Ok(CType(isPtr, isConst, name, false), after)
  }

  /** Reads one C type: the `...` marker, or `[const] name [*]`. */
  function ParseIdentifier(code: string): (r: Parsed<CType>)
    ensures r.Ok? ==> |r.rest| < |code|
    ensures r.Ok? && r.value.isVarArgs ==> r.value == VarArgsType
    ensures r.Ok? && !r.value.isVarArgs ==>
      IsWord(r.value.typeName) && r.rest != [] && r.rest[0] != '*'
  {
    if code == [] then Err(OutOfRange)
    else
      var next := SkipSeparator(code);
      if next == [] then Err(OutOfRange)
      else if next[0] == '.' && (|next| < 2 || (next[1] == '.' && |next| < 3)) then Err(OutOfRange)
      else if next[0] == '.' && next[1] == '.' && next[2] == '.' then
        Ok(VarArgsType, TrimLeft(next[3..]))
      else
        ParseNamedType(next)
  }

  /** `[const] name [*]`, from a cursor at the first word. */
  function ParseNamedType(next: string): (r: Parsed<CType>)
    ensures r.Ok? ==> |r.rest| < |next|
    ensures r.Ok? ==> !r.value.isVarArgs && IsWord(r.value.typeName) && r.rest != [] && r.rest[0] != '*'
  {
    var k := WordLen(next);
    if k == 0 then Err(MissingIdentifier)
    else
      var after := TrimLeft(next[k..]);
      if next[..k] == "const" then ParseConstType(after) else ParsePointer(false, next[..k], after)
  }

  /** The type after `const`: a `*` right after it is rejected. */
  function ParseConstType(after: string): (r: Parsed<CType>)
    ensures r.Ok? ==> |r.rest| < |after|
    ensures r.Ok? ==> r.value.isConst && !r.value.isVarArgs && IsWord(r.value.typeName)
    ensures r.Ok? ==> r.rest != [] && r.rest[0] != '*'
  {
    if after == [] then Err(OutOfRange)
    else if after[0] == '*' then Err(ConstPointer)
    else
      var k := WordLen(after);
      if k == 0 then Err(MissingTypeAfterConst)
      else
        ParsePointer(true, after[..k], TrimLeft(after[k..]))
  }

  // ---------------------------------------------------------------------------
  // parseFuncPointerName

  const NamePrefix := "(JNICALL"

  /** Matches `^\(JNICALL\s+\*(\w+)\)` and returns the captured word and the
      text after the match without its leading whitespace. */
  function ParseFuncPointerName(code: string): (r: Parsed<string>)
    ensures r.Ok? ==> IsWord(r.value) && StartsWith(code, NamePrefix) && |r.rest| < |code|
    ensures !StartsWith(code, NamePrefix) ==> r == Err(MissingName)
    ensures r.Err? ==> r.error == MissingName
  {
    if !StartsWith(code, NamePrefix) then Err(MissingName)
    else NameAfterPrefix(code[|NamePrefix|..])
  }

  /** The part of the match after `(JNICALL`: `\s+\*(\w+)\)`. */
  function NameAfterPrefix(a: string): (r: Parsed<string>)
    ensures r.Ok? ==> IsWord(r.value) && |r.rest| < |a|
    ensures r.Err? ==> r.error == MissingName
  {
    var ws := RegexSpaceLen(a);
    if ws == 0 || ws == |a| || a[ws] != '*' then Err(MissingName)
    else
      var b := a[ws + 1..];
      var k := WordLen(b);
      if k == 0 || k == |b| || b[k] != ')' then Err(MissingName)
      else Ok(b[..k], TrimLeft(b[k + 1..]))
  }

  /** `code` is `(JNICALL`, the run `ws` of `\s` characters, `*`, `name`, `)`
      and `s`, and `rest` is `s` without its leading whitespace. */
  predicate MatchesNamePattern(code: string, name: string, rest: string, ws: string, s: string) {
    |ws| > 0 && (forall i :: 0 <= i < |ws| ==> IsRegexSpace(ws[i]))
    && code == NamePrefix + ws + "*" + name + ")" + s && rest == TrimLeft(s)
  }

  /** After `(JNICALL`, a name is found only where the text is whitespace, `*`,
      the name and `)`. */
  lemma AfterPrefixMatches(a: string)
    ensures var r := NameAfterPrefix(a);
      r.Ok? ==> exists ws: string, s: string :: MatchesNamePattern(NamePrefix + a, r.value, r.rest, ws, s)
  {
    var r := NameAfterPrefix(a);
    if r.Ok? {
      var w := RegexSpaceLen(a);
      var b := a[w + 1..];
      var k := WordLen(b);
      NamePieces(a, w, k);
      assert MatchesNamePattern(NamePrefix + a, r.value, r.rest, a[..w], b[k + 1..]);
    }
  }

  /** The text around a `*` at `w` and a `)` at `k` after it, cut into its pieces. */
  lemma NamePieces(a: string, w: nat, k: nat)
    requires w < |a| && a[w] == '*' && k < |a[w + 1..]| && a[w + 1..][k] == ')'
    ensures var b := a[w + 1..]; NamePrefix + a == NamePrefix + a[..w] + "*" + b[..k] + ")" + b[k + 1..]
  {
    var b := a[w + 1..];
    assert a == a[..w] + "*" + b;
    assert b == b[..k] + ")" + b[k + 1..];
  }

  /** A name is found only where the text matches the pattern around it. */
  lemma NameMatchesPattern(code: string)
    ensures var r := ParseFuncPointerName(code);
      r.Ok? ==> exists ws: string, s: string :: MatchesNamePattern(code, r.value, r.rest, ws, s)
  {
    var r := ParseFuncPointerName(code);
    if r.Ok? {
      var a := code[|NamePrefix|..];
      assert code == NamePrefix + a;
      AfterPrefixMatches(a);
    }
  }

  // ---------------------------------------------------------------------------
  // parseFuncParamList

  /** A parameter named `string` would clash with the Go type; it becomes `str`. */
  function RenameId(id: string): (r: string)
    ensures id != "string" ==> r == id
    ensures r != "string"
  {
    if id == "string" then "str" else id
  }

  /** `ps` in front of the parameters of a successful outcome. */
  function Prepend(ps: seq<Param>, r: Parsed<seq<Param>>): Parsed<seq<Param>> {
    match r
    case Ok(qs, rest) => Ok(ps + qs, rest)
    case Err(e) => Err(e)
  }

  /** The parameter loop from the cursor `next` up to the closing `)`: what
      parseFuncParamList computes once the opening `(` is consumed. */
  function ParseParams(next: string): (r: Parsed<seq<Param>>)
    ensures r.Ok? ==> |r.rest| <= |next| && r.rest != [] && r.rest[0] == ')'
    decreases |next|
  {
    if next == [] then Err(OutOfRange)
    else if next[0] == ')' then Ok([], next)
    else
      match ParseIdentifier(next)
      case Err(e) => Err(e)
      case Ok(t, after) =>
        var k := WordLen(after);
        if k == 0 then
          if !t.isVarArgs then Err(MissingParamName)
          else if after == [] then Err(OutOfRange)
          else if after[0] == ')' then Ok([Param(t, "")], after)
          else Err(MissingParamName)
        else
          var id := RenameId(after[..k]);
          var tail := TrimLeft(after[k..]);
          Prepend([Param(t, id)], ParseParams(tail))
  }

  /** No identifier in a read parameter list is `string`. */
  predicate NoStringIds(r: Parsed<seq<Param>>) {
    r.Ok? ==> forall i :: 0 <= i < |r.value| ==> r.value[i].idName != "string"
  }

  /** No parameter that is read is named `string`. */
  lemma {:induction false} NoParamNamedString(next: string)
    ensures NoStringIds(ParseParams(next))
    decreases |next|
  {
    if next != [] && next[0] != ')' {
      match ParseIdentifier(next)
      case Err(_) =>
      case Ok(t, after) =>
        var k := WordLen(after);
        if k > 0 {
          var tail := TrimLeft(after[k..]);
          NoParamNamedString(tail);
          var p := Param(t, RenameId(after[..k]));
          assert ParseParams(next) == Prepend([p], ParseParams(tail));
          PrependKeepsNoStringIds(p, ParseParams(tail));
        }
    }
  }

  lemma PrependKeepsNoStringIds(p: Param, r: Parsed<seq<Param>>)
    requires p.idName != "string" && NoStringIds(r)
    ensures NoStringIds(Prepend([p], r))
  {
    if r.Ok? {
      assert forall i :: 1 <= i < |r.value| + 1 ==> ([p] + r.value)[i] == r.value[i - 1];
    }
  }

  /** parseFuncParamList: an optional `(`, then the parameters up to `)`. */
  function ParamList(code: string): (r: Parsed<seq<Param>>)
    ensures r.Ok? ==> |r.rest| <= |code| && r.rest != [] && r.rest[0] == ')'
  {
    if code == [] then Err(OutOfRange)
    else ParseParams(if code[0] == '(' then code[1..] else code)
  }

  /** parseFuncParamList as a loop that appends to the parameter list and
      moves the cursor, exactly as the declaration parser does. */
  method ParseFuncParamList(code: string) returns (r: Parsed<seq<Param>>)
    ensures r == ParamList(code)
  {
    if |code| == 0 {
      return Err(OutOfRange);
    }
    var next := if code[0] == '(' then code[1..] else code;
    var params: seq<Param> := [];
    assert Prepend(params, ParseParams(next)) == ParseParams(next) by {
      if ParseParams(next).Ok? {
        assert params + ParseParams(next).value == ParseParams(next).value;
      }
    }
    while |next| == 0 || next[0] != ')'
      invariant ParamList(code) == Prepend(params, ParseParams(next))
      decreases |next|
    {
      if |next| == 0 {
        return Err(OutOfRange);
      }
      var t := ParseIdentifier(next);
      if t.Err? {
        assert ParseParams(next) == Err(t.error);
        return Err(t.error);
      }
      var after := t.rest;
      var k := WordLen(after);
      if k == 0 {
        if t.value.isVarArgs {
          if |after| == 0 {
            assert ParseParams(next) == Err(OutOfRange);
            return Err(OutOfRange);
          }
          if after[0] == ')' {
            assert ParseParams(next) == Ok([Param(t.value, "")], after);
            return Ok(params + [Param(t.value, "")], after);
          }
        }
        assert ParseParams(next) == Err(MissingParamName);
        return Err(MissingParamName);
      }
      var id := after[..k];
      if id == "string" {
        id := "str";
      }
      assert id == RenameId(after[..k]);
      var tail := TrimLeft(after[k..]);
      assert ParseParams(next) == Prepend([Param(t.value, id)], ParseParams(tail));
      PrependTwice(params, [Param(t.value, id)], ParseParams(tail));
      params := params + [Param(t.value, id)];
      next := tail;
    }
    assert ParseParams(next) == Ok([], next);
    assert params + [] == params;
    return Ok(params, next);
  }

  lemma PrependTwice(a: seq<Param>, b: seq<Param>, r: Parsed<seq<Param>>)
    ensures Prepend(a, Prepend(b, r)) == Prepend(a + b, r)
  {
    if r.Ok? {
      assert a + (b + r.value) == a + b + r.value;
    }
  }

  // ---------------------------------------------------------------------------
  // parseSingleMethod

  /** Return type, then name, then parameter list; the first error aborts the declaration. */
  function ParseSingleMethod(code: string): Result<Method> {
    match ParseIdentifier(code)
    case Err(e) => Failure(e)
    case Ok(ret, afterRet) =>
      match ParseFuncPointerName(afterRet)
      case Err(e) => Failure(e)
      case Ok(name, afterName) =>
        match ParamList(afterName)
        case Err(e) => Failure(e)
        case Ok(params, _) => Success(Method(name, ret, params))
  }

  // ---------------------------------------------------------------------------
  // parseJniMethodList

  /** A dropped declaration and its error: what is reported on stderr. */
  datatype Diagnostic = Diagnostic(segment: string, error: ParseError)

  /** What reading the function table yields: the methods, in input order, and
      the dropped declarations; or the declaration on which Go panics, which
      ends the whole run. */
  datatype ListOutcome =
    | Listed(methods: seq<Method>, dropped: seq<Diagnostic>)
    | Crashed(segment: string)

  /** One segment added to the outcome so far: trimmed, skipped when empty,
      appended when `parse` reads it, reported when it does not. */
  function Step(acc: ListOutcome, seg: string, parse: string -> Result<Method>): ListOutcome {
    if acc.Crashed? then acc
    else
      var line := TrimSpace(seg);
      if line == [] then acc
      else
        var res := parse(line);
        if res.Success? then Listed(acc.methods + [res.value], acc.dropped)
        else if res.error == OutOfRange then Crashed(line)
        else Listed(acc.methods, acc.dropped + [Diagnostic(line, res.error)])
  }

  /** The outcome for a sequence of segments, taken in order. */
  function Collect(segs: seq<string>, parse: string -> Result<Method>): ListOutcome
    decreases |segs|
  {
    if segs == [] then Listed([], [])
    else Step(Collect(segs[..|segs| - 1], parse), segs[|segs| - 1], parse)
  }

  /** parseJniMethodList over the whole text: the declarations are the `;`-separated segments. */
  function MethodList(code: string): ListOutcome {
    Collect(Split(code, ';'), ParseSingleMethod)
  }

  /** parseJniMethodList: splits the text at `;` and reads the segments. */
  method ParseJniMethodList(code: string) returns (out: ListOutcome)
    ensures out == MethodList(code)
  {
    var segs := Split(code, ';');
    out := ParseSegments(segs, ParseSingleMethod);
  }

  /** The loop of parseJniMethodList: trims each segment in place, then parses
      the non-empty ones with `parse`, keeping the methods and reporting the
      failures. */
  method ParseSegments(segs: seq<string>, parse: string -> Result<Method>) returns (out: ListOutcome)
    ensures out == Collect(segs, parse)
  {
    var lines := new string[|segs|](i requires 0 <= i < |segs| => segs[i]);
    var methods: seq<Method> := [];
    var dropped: seq<Diagnostic> := [];
    for i := 0 to lines.Length
      invariant Collect(segs[..i], parse) == Listed(methods, dropped)
      invariant forall j :: i <= j < lines.Length ==> lines[j] == segs[j]
    {
      assert segs[..i + 1][..i] == segs[..i];
      lines[i] := TrimSpace(lines[i]);
      var line := lines[i];
      if |line| > 0 {
        var res := parse(line);
        if res.Success? {
          methods := methods + [res.value];
        } else if res.error == OutOfRange {
          CrashIsFinal(segs, i + 1, parse);
          return Crashed(line);
        } else {
          dropped := dropped + [Diagnostic(line, res.error)];
        }
      }
    }
    assert segs[..|segs|] == segs;
    out := Listed(methods, dropped);
  }

  /** Once a segment crashes the run, the outcome is that crash whatever follows. */
  lemma {:induction false} CrashIsFinal(segs: seq<string>, k: nat, parse: string -> Result<Method>)
    requires k <= |segs| && Collect(segs[..k], parse).Crashed?
    ensures Collect(segs, parse) == Collect(segs[..k], parse)
    decreases |segs| - k
  {
    if k == |segs| {
      assert segs[..k] == segs;
    } else {
      assert segs[..k + 1][..k] == segs[..k];
      CrashIsFinal(segs, k + 1, parse);
    }
  }

  /** Outcomes of consecutive runs of segments, joined: a crash in either ends the run. */
  function Combine(a: ListOutcome, b: ListOutcome): ListOutcome {
    if a.Crashed? then a
    else if b.Crashed? then b
    else Listed(a.methods + b.methods, a.dropped + b.dropped)
  }

  lemma StepCombine(a: ListOutcome, b: ListOutcome, seg: string, parse: string -> Result<Method>)
    ensures Step(Combine(a, b), seg, parse) == Combine(a, Step(b, seg, parse))
  {
    var line := TrimSpace(seg);
    if a.Listed? && b.Listed? && line != [] {
      var res := parse(line);
      var ab := Combine(a, b);
      assert ab == Listed(a.methods + b.methods, a.dropped + b.dropped);
      if res.Success? {
        assert Step(ab, seg, parse) == Listed(ab.methods + [res.value], ab.dropped);
        assert Step(b, seg, parse) == Listed(b.methods + [res.value], b.dropped);
        assert a.methods + b.methods + [res.value] == a.methods + (b.methods + [res.value]);
      } else if res.error != OutOfRange {
        var d := Diagnostic(line, res.error);
        assert Step(ab, seg, parse) == Listed(ab.methods, ab.dropped + [d]);
        assert Step(b, seg, parse) == Listed(b.methods, b.dropped + [d]);
        assert a.dropped + b.dropped + [d] == a.dropped + (b.dropped + [d]);
      }
    }
  }

  /** Segments are read independently and in order: the outcome for a
      concatenation of segment lists combines the outcomes of the parts. */
  lemma {:induction false} CollectAppend(a: seq<string>, b: seq<string>, parse: string -> Result<Method>)
    ensures Collect(a + b, parse) == Combine(Collect(a, parse), Collect(b, parse))
    decreases |b|
  {
    if b == [] {
      assert a + b == a;
      var c := Collect(a, parse);
      if c.Listed? {
        assert c.methods + [] == c.methods && c.dropped + [] == c.dropped;
      }
    } else {
      var pre := b[..|b| - 1];
      assert (a + b)[..|a + b| - 1] == a + pre;
      assert (a + b)[|a + b| - 1] == b[|b| - 1];
      CollectAppend(a, pre, parse);
      StepCombine(Collect(a, parse), Collect(pre, parse), b[|b| - 1], parse);
    }
  }

  /** On the text itself: a `;` splits the table into parts read independently. */
  lemma MethodListAppend(x: string, y: string)
    ensures MethodList(x + ";" + y) == Combine(MethodList(x), MethodList(y))
  {
    SplitAppend(x, ';', y);
    assert x + ";" + y == x + [';'] + y;
    CollectAppend(Split(x, ';'), Split(y, ';'), ParseSingleMethod);
  }

  /** A declaration that fails without a panic is reported and dropped, and the
      other declarations are read exactly as without it. */
  lemma FailingSegmentIsDropped(a: seq<string>, seg: string, b: seq<string>, parse: string -> Result<Method>)
    requires TrimSpace(seg) != []
    requires parse(TrimSpace(seg)).Failure? && parse(TrimSpace(seg)).error != OutOfRange
    ensures Collect(a + [seg] + b, parse).Listed? <==> Collect(a + b, parse).Listed?
    ensures Collect(a + [seg] + b, parse).Listed? ==>
      Collect(a + [seg] + b, parse).methods == Collect(a + b, parse).methods
      && Diagnostic(TrimSpace(seg), parse(TrimSpace(seg)).error) in Collect(a + [seg] + b, parse).dropped
  {
    var d := Diagnostic(TrimSpace(seg), parse(TrimSpace(seg)).error);
    assert Collect([seg], parse) == Listed([], [d]) by {
      assert [seg][..0] == [];
    }
    CollectAppend(a + [seg], b, parse);
    CollectAppend(a, [seg], parse);
    CollectAppend(a, b, parse);
    var ca, cb := Collect(a, parse), Collect(b, parse);
    if ca.Listed? && cb.Listed? {
      assert ca.methods + [] + cb.methods == ca.methods + cb.methods;
      assert (ca.dropped + [d] + cb.dropped)[|ca.dropped|] == d;
    }
  }

  /** A blank segment, such as the one after the last `;`, changes nothing. */
  lemma BlankSegmentIsSkipped(a: seq<string>, seg: string, b: seq<string>, parse: string -> Result<Method>)
    requires TrimSpace(seg) == []
    ensures Collect(a + [seg] + b, parse) == Collect(a + b, parse)
  {
    assert Collect([seg], parse) == Listed([], []) by {
      assert [seg][..0] == [];
    }
    CollectAppend(a + [seg], b, parse);
    CollectAppend(a, [seg], parse);
    CollectAppend(a, b, parse);
    var ca := Collect(a, parse);
    if ca.Listed? {
      assert ca.methods + [] == ca.methods && ca.dropped + [] == ca.dropped;
    }
  }

  // ---------------------------------------------------------------------------
  // Scanner facts

  lemma WordThen(w: string, s: string)
    requires IsWord(w) && (s == [] || !IsWordChar(s[0]))
    ensures WordLen(w + s) == |w| && (w + s)[..|w|] == w && (w + s)[|w|..] == s
    decreases |w|
  {
    if |w| > 1 {
      assert (w + s)[1..] == w[1..] + s;
      WordThen(w[1..], s);
    } else {
      assert (w + s)[1..] == s;
    }
  }

  lemma NoSpaceToTrim(s: string)
    requires s != [] && !IsSpace(s[0])
    ensures TrimLeft(s) == s
  {
  }

  lemma OneSpaceTrimmed(s: string)
    ensures TrimLeft(" " + s) == TrimLeft(s)
  {
    assert (" " + s)[1..] == s;
  }

  // ---------------------------------------------------------------------------
  // One step of the type reader at a time

  lemma IdentifierAtWord(code: string)
    requires code != [] && IsWordChar(code[0])
    ensures ParseIdentifier(code) == ParseNamedType(code)
  {
    assert code[0] != ',' && !IsAsciiSpace(code[0]) && code[0] != '.';
    assert SkipSeparator(code) == code;
  }

  lemma NamedTypeAt(w: string, s: string)
    requires IsWord(w) && w != "const" && (s == [] || !IsWordChar(s[0]))
    ensures ParseNamedType(w + s) == ParsePointer(false, w, TrimLeft(s))
  {
    WordThen(w, s);
  }

  lemma ConstTypeAt(s: string)
    requires s == [] || !IsWordChar(s[0])
    ensures ParseNamedType("const" + s) == ParseConstType(TrimLeft(s))
  {
    WordThen("const", s);
  }

  lemma ConstNamedTypeAt(w: string, s: string)
    requires IsWord(w) && (s == [] || !IsWordChar(s[0]))
    ensures ParseConstType(w + s) == ParsePointer(true, w, TrimLeft(s))
  {
    WordThen(w, s);
  }

  // ---------------------------------------------------------------------------
  // Properties of the type reader

  /** A leading `...` is the variadic marker: only isVarArgs set, no type name,
      whether or not a `,` separator comes first. */
  lemma EllipsisIsVarArgs(s: string)
    ensures ParseIdentifier("..." + s) == Ok(VarArgsType, TrimLeft(s))
    ensures ParseIdentifier(", " + ("..." + s)) == Ok(VarArgsType, TrimLeft(s))
    ensures VarArgsType.isVarArgs && !VarArgsType.isPtr && !VarArgsType.isConst && VarArgsType.typeName == ""
  {
    EllipsisAt(s);
    assert ("..." + s)[0] == '.';
    SeparatorSkipped("..." + s);
  }

  lemma EllipsisAt(s: string)
    ensures ParseIdentifier("..." + s) == Ok(VarArgsType, TrimLeft(s))
  {
    var code := "..." + s;
    assert code[0] == '.' && code[1] == '.' && code[2] == '.' && |code| >= 3;
    assert code[3..] == s;
    assert SkipSeparator(code) == code;
  }

  /** `const` followed directly by `*` (with or without whitespace) is rejected. */
  lemma ConstPointerRejected(ws: string, s: string)
    requires forall i :: 0 <= i < |ws| ==> IsSpace(ws[i])
    ensures ParseIdentifier("const" + ws + "*" + s) == Err(ConstPointer)
  {
    var tail := ws + ("*" + s);
    assert "const" + ws + "*" + s == "const" + tail;
    assert tail[0] == if ws == [] then '*' else ws[0];
    IdentifierAtWord("const" + tail);
    ConstTypeAt(tail);
    TrimLeftSkipsSpaces(ws, "*" + s);
    NoSpaceToTrim("*" + s);
  }

  /** Text that starts with no word, no `...`, no separator is rejected: no identifier. */
  lemma NoWordRejected(x: string)
    requires x != [] && !IsWordChar(x[0]) && x[0] != '.' && x[0] != ',' && !IsAsciiSpace(x[0])
    ensures ParseIdentifier(x) == Err(MissingIdentifier)
  {
  }

  /** `const` followed by something that is neither a word nor `*` is rejected:
      no type after `const`. */
  lemma ConstWithoutNameRejected(ws: string, c: char, s: string)
    requires forall i :: 0 <= i < |ws| ==> IsSpace(ws[i])
    requires !IsWordChar(c) && c != '*' && !IsSpace(c)
    ensures ParseIdentifier("const" + ws + [c] + s) == Err(MissingTypeAfterConst)
  {
    var tail := ws + ([c] + s);
    assert "const" + ws + [c] + s == "const" + tail;
    assert tail[0] == if ws == [] then c else ws[0];
    IdentifierAtWord("const" + tail);
    ConstTypeAt(tail);
    TrimLeftSkipsSpaces(ws, [c] + s);
    NoSpaceToTrim([c] + s);
  }

  /** The declaration text of a type: `const ` when const, the name, then " *"
      for a pointer or " " otherwise. */
  function TypeText(t: CType): string {
    var named := t.typeName + (if t.isPtr then " *" else " ");
    if t.isConst then "const" + (" " + named) else named
  }

  /** A type the reader can give back: a word other than `const`, not the variadic marker. */
  predicate WellFormedType(t: CType) {
    !t.isVarArgs && IsWord(t.typeName) && t.typeName != "const"
  }

  /** After the type name: one `*` sets isPtr, and the cursor lands on what follows. */
  lemma PointerMarks(isConst: bool, name: string, isPtr: bool, s: string)
    requires s != [] && !IsSpace(s[0]) && s[0] != '*'
    ensures ParsePointer(isConst, name, TrimLeft((if isPtr then " *" else " ") + s))
      == Ok(CType(isPtr, isConst, name, false), s)
  {
    NoSpaceToTrim(s);
    if isPtr {
      assert " *" + s == " " + ("*" + s);
      OneSpaceTrimmed("*" + s);
      NoSpaceToTrim("*" + s);
      assert ("*" + s)[1..] == s;
    } else {
      OneSpaceTrimmed(s);
    }
  }

  /** The type name and what follows it, read back exactly. */
  lemma NamedTypeRoundTrip(isConst: bool, n: string, isPtr: bool, s: string)
    requires IsWord(n) && n != "const"
    requires s != [] && !IsSpace(s[0]) && s[0] != '*'
    ensures isConst ==> ParseConstType(n + ((if isPtr then " *" else " ") + s)) == Ok(CType(isPtr, isConst, n, false), s)
    ensures !isConst ==> ParseNamedType(n + ((if isPtr then " *" else " ") + s)) == Ok(CType(isPtr, isConst, n, false), s)
  {
    var end := if isPtr then " *" else " ";
    if isConst {
      ConstNamedTypeAt(n, end + s);
    } else {
      NamedTypeAt(n, end + s);
    }
    PointerMarks(isConst, n, isPtr, s);
  }

  lemma IdentifierAtConst(rest: string)
    requires rest != [] && IsWordChar(rest[0])
    ensures ParseIdentifier("const" + (" " + rest)) == ParseNamedType("const" + (" " + rest))
  {
    var code := "const" + (" " + rest);
    assert code[0] == 'c';
    IdentifierAtWord(code);
  }

  lemma ConstKeywordAt(rest: string)
    requires rest != [] && IsWordChar(rest[0])
    ensures ParseNamedType("const" + (" " + rest)) == ParseConstType(rest)
  {
    ConstTypeAt(" " + rest);
    OneSpaceTrimmed(rest);
    NoSpaceToTrim(rest);
  }

  lemma PlainTypeRoundTrip(n: string, isPtr: bool, s: string)
    requires IsWord(n) && n != "const"
    requires s != [] && !IsSpace(s[0]) && s[0] != '*'
    ensures ParseIdentifier(n + ((if isPtr then " *" else " ") + s)) == Ok(CType(isPtr, false, n, false), s)
  {
    var rest := n + ((if isPtr then " *" else " ") + s);
    assert rest[0] == n[0];
    IdentifierAtWord(rest);
    NamedTypeRoundTrip(false, n, isPtr, s);
  }

  lemma ConstTypeRoundTrip(n: string, isPtr: bool, s: string)
    requires IsWord(n) && n != "const"
    requires s != [] && !IsSpace(s[0]) && s[0] != '*'
    ensures ParseIdentifier("const" + (" " + (n + ((if isPtr then " *" else " ") + s))))
      == Ok(CType(isPtr, true, n, false), s)
  {
    var rest := n + ((if isPtr then " *" else " ") + s);
    assert rest[0] == n[0];
    IdentifierAtConst(rest);
    ConstKeywordAt(rest);
    NamedTypeRoundTrip(true, n, isPtr, s);
  }

  /** The reader reads back a type written as a declaration writes it. */
  lemma TypeRoundTrip(t: CType, s: string)
    requires WellFormedType(t)
    requires s != [] && !IsSpace(s[0]) && s[0] != '*'
    ensures ParseIdentifier(TypeText(t) + s) == Ok(t, s)
  {
    var end := if t.isPtr then " *" else " ";
    var n := t.typeName;
    ConcatAssoc(n, end, s);
    if t.isConst {
      ConcatAssoc("const", " " + (n + end), s);
      ConcatAssoc(" ", n + end, s);
      ConstTypeRoundTrip(n, t.isPtr, s);
    } else {
      PlainTypeRoundTrip(n, t.isPtr, s);
    }
  }

  /** A second `*` after a pointer type is rejected as a multi-level pointer. */
  lemma DoublePointerRejected(t: CType, ws: string, s: string)
    requires WellFormedType(t) && t.isPtr
    requires forall i :: 0 <= i < |ws| ==> IsSpace(ws[i])
    ensures ParseIdentifier(TypeText(t) + (ws + ("*" + s))) == Err(MultiPointer)
  {
    var n := t.typeName;
    var tail := ws + ("*" + s);
    ConcatAssoc(n, " *", tail);
    SecondStarRejected(t.isConst, n, ws, s);
    if t.isConst {
      ConcatAssoc("const", " " + (n + " *"), tail);
      ConcatAssoc(" ", n + " *", tail);
      var rest := n + (" *" + tail);
      assert rest[0] == n[0];
      IdentifierAtConst(rest);
      ConstKeywordAt(rest);
      ConstNamedTypeAt(n, " *" + tail);
    } else {
      var rest := n + (" *" + tail);
      assert rest[0] == n[0];
      IdentifierAtWord(rest);
      NamedTypeAt(n, " *" + tail);
    }
  }

  lemma SecondStarRejected(isConst: bool, n: string, ws: string, s: string)
    requires forall i :: 0 <= i < |ws| ==> IsSpace(ws[i])
    ensures ParsePointer(isConst, n, TrimLeft(" *" + (ws + ("*" + s)))) == Err(MultiPointer)
  {
    var tail := ws + ("*" + s);
    SpaceStarTrimmed(tail);
    TrimLeftSkipsSpaces(ws, "*" + s);
    NoSpaceToTrim("*" + s);
    StarThenStar(isConst, n, tail);
  }

  lemma SpaceStarTrimmed(x: string)
    ensures TrimLeft(" *" + x) == "*" + x
  {
    assert " *" + x == " " + ("*" + x);
    OneSpaceTrimmed("*" + x);
    NoSpaceToTrim("*" + x);
  }

  lemma StarThenStar(isConst: bool, n: string, x: string)
    requires TrimLeft(x) != [] && TrimLeft(x)[0] == '*'
    ensures ParsePointer(isConst, n, "*" + x) == Err(MultiPointer)
  {
    assert ("*" + x)[0] == '*' && ("*" + x)[1..] == x;
  }

  /** A `,` separator and the whitespace after it are skipped before a type. */
  lemma SeparatorSkipped(x: string)
    requires x != [] && !IsSpace(x[0]) && x[0] != ','
    ensures ParseIdentifier(", " + x) == ParseIdentifier(x)
  {
    assert (", " + x)[1..] == " " + x;
    OneSpaceTrimmed(x);
    NoSpaceToTrim(x);
    assert SkipSeparator(", " + x) == x;
    assert SkipSeparator(x) == x;
  }

  // ---------------------------------------------------------------------------
  // Properties of the name reader

  /** The name is the word inside `(JNICALL <spaces>*NAME)`. */
  lemma NameRoundTrip(ws: string, name: string, s: string)
    requires |ws| > 0 && forall i :: 0 <= i < |ws| ==> IsRegexSpace(ws[i])
    requires IsWord(name)
    ensures ParseFuncPointerName(NamePrefix + (ws + ("*" + (name + (")" + s))))) == Ok(name, TrimLeft(s))
  {
    var b := name + (")" + s);
    var a := ws + ("*" + b);
    var code := NamePrefix + a;
    assert code[..|NamePrefix|] == NamePrefix && code[|NamePrefix|..] == a;
    RegexSpacesThen(ws, "*" + b);
    assert a[|ws| + 1..] == b;
    WordThen(name, ")" + s);
    assert b[|name|] == ')';
    assert b[|name| + 1..] == s;
  }

  lemma {:induction false} RegexSpacesThen(ws: string, s: string)
    requires forall i :: 0 <= i < |ws| ==> IsRegexSpace(ws[i])
    requires s != [] && !IsRegexSpace(s[0])
    ensures RegexSpaceLen(ws + s) == |ws| && (ws + s)[|ws|] == s[0]
    decreases |ws|
  {
    if ws != [] {
      assert (ws + s)[1..] == ws[1..] + s;
      RegexSpacesThen(ws[1..], s);
    } else {
      assert ws + s == s;
    }
  }

  /** Without whitespace between `(JNICALL` and `*` the pattern does not match. */
  lemma NameNeedsSpace(name: string, s: string)
    ensures ParseFuncPointerName(NamePrefix + "*" + name + s) == Err(MissingName)
  {
    var code := NamePrefix + "*" + name + s;
    assert code[..|NamePrefix|] == NamePrefix;
    assert code[|NamePrefix|..][0] == '*';
  }

  // ---------------------------------------------------------------------------
  // Reading back what a declaration writes

  /** A parameter as the function table writes it: the type and the identifier,
      or `...` for the variadic entry. */
  function ParamText(p: Param): string {
    if p.ty.isVarArgs then "..." else TypeText(p.ty) + p.idName
  }

  /** The parameters separated by `, ` and closed by `)` (the `(` is not included). */
  function ParamsText(ps: seq<Param>): string {
    if ps == [] then ")"
    else ParamText(ps[0]) + (if |ps| == 1 then ")" else ", " + ParamsText(ps[1..]))
  }

  /** A parameter the reader can give back: a well-formed type and a word as
      identifier, or the variadic entry with no identifier. */
  predicate WellFormedParam(p: Param, last: bool) {
    if p.ty.isVarArgs then p == Param(VarArgsType, "") && last
    else WellFormedType(p.ty) && IsWord(p.idName)
  }

  /** Well-formed parameters, where only the last one may be variadic. */
  predicate WellFormedParams(ps: seq<Param>) {
    forall i :: 0 <= i < |ps| ==> WellFormedParam(ps[i], i == |ps| - 1)
  }

  /** The parameters after reading: `string` identifiers become `str`. */
  function RenameParams(ps: seq<Param>): (r: seq<Param>)
    ensures |r| == |ps|
    ensures forall i :: 0 <= i < |ps| ==> r[i] == Param(ps[i].ty, RenameId(ps[i].idName))
  {
    if ps == [] then [] else [Param(ps[0].ty, RenameId(ps[0].idName))] + RenameParams(ps[1..])
  }

  lemma ParamTextStart(p: Param, last: bool)
    requires WellFormedParam(p, last)
    ensures ParamText(p) != [] && (ParamText(p)[0] == '.' || IsWordChar(ParamText(p)[0]))
  {
    if !p.ty.isVarArgs {
      var end := if p.ty.isPtr then " *" else " ";
      if p.ty.isConst {
        assert ParamText(p)[0] == 'c';
      } else {
        assert ParamText(p) == p.ty.typeName + (end + p.idName);
        assert ParamText(p)[0] == p.ty.typeName[0];
      }
    }
  }

  /** A `, ` before the next parameter is skipped. */
  lemma SeparatorBeforeParam(x: string)
    requires x != [] && !IsSpace(x[0]) && x[0] != ',' && x[0] != ')'
    ensures ParseParams(", " + x) == ParseParams(x)
  {
    SeparatorSkipped(x);
    assert (", " + x)[0] == ',';
  }

  /** One named parameter, then `)` or `,`: it is read, renamed, and the cursor
      stops at the `)` or `,`. */
  lemma NamedParamStep(p: Param, more: string)
    requires WellFormedParam(p, false)
    requires more != [] && (more[0] == ')' || more[0] == ',')
    ensures ParseParams(ParamText(p) + more) == Prepend([Param(p.ty, RenameId(p.idName))], ParseParams(more))
  {
    var t := p.ty;
    var s := p.idName + more;
    ConcatAssoc(TypeText(t), p.idName, more);
    TypeRoundTrip(t, s);
    ParamTextStart(p, false);
    var code := ParamText(p) + more;
    assert code[0] == ParamText(p)[0];
    WordThen(p.idName, more);
    NoSpaceToTrim(more);
  }

  /** The variadic entry right before `)` is read with an empty identifier. */
  lemma EllipsisParamStep()
    ensures ParseParams("..." + ")") == Ok([Param(VarArgsType, "")], ")")
  {
    EllipsisAt(")");
    NoSpaceToTrim(")");
    assert ("..." + ")")[0] == '.';
  }

  /** The parameter reader gives back the written parameters, renamed. */
  lemma {:induction false} ParamsRoundTrip(ps: seq<Param>)
    requires WellFormedParams(ps)
    ensures ParseParams(ParamsText(ps)) == Ok(RenameParams(ps), ")")
    decreases |ps|
  {
    if ps == [] {
    } else if ps[0].ty.isVarArgs {
      assert WellFormedParam(ps[0], 0 == |ps| - 1);
      assert ps == [Param(VarArgsType, "")];
      assert ParamsText(ps) == "..." + ")";
      assert RenameId("") == "";
      assert RenameParams(ps) == [Param(VarArgsType, "")];
      EllipsisParamStep();
    } else {
      var p := ps[0];
      assert WellFormedParam(p, false);
      var q := Param(p.ty, RenameId(p.idName));
      if |ps| == 1 {
        NamedParamStep(p, ")");
        assert RenameParams(ps) == [q];
      } else {
        var tail := ps[1..];
        assert WellFormedParams(tail) by {
          forall i | 0 <= i < |tail|
            ensures WellFormedParam(tail[i], i == |tail| - 1)
          {
            assert tail[i] == ps[i + 1];
          }
        }
        ParamsRoundTrip(tail);
        assert WellFormedParam(tail[0], 0 == |tail| - 1);
        ParamTextStart(tail[0], 0 == |tail| - 1);
        var x := ParamsText(tail);
        assert x[0] == ParamText(tail[0])[0];
        SeparatorBeforeParam(x);
        NamedParamStep(p, ", " + x);
        assert RenameParams(ps) == [q] + RenameParams(tail);
      }
    }
  }

  /** parseFuncParamList reads a printed parameter list back, whether or not
      the opening `(` is still in front of it. */
  lemma ParamListRoundTrip(ps: seq<Param>)
    requires WellFormedParams(ps)
    ensures ParamList("(" + ParamsText(ps)) == Ok(RenameParams(ps), ")")
    ensures ParamList(ParamsText(ps)) == Ok(RenameParams(ps), ")")
  {
    ParamsRoundTrip(ps);
    assert ("(" + ParamsText(ps))[1..] == ParamsText(ps);
    if ps != [] {
      ParamTextStart(ps[0], |ps| == 1);
      assert ParamsText(ps)[0] == ParamText(ps[0])[0];
    }
  }

  /** A variadic entry followed by something that is neither a space, a word
      character nor `)` is rejected. */
  lemma EllipsisNotLastRejected(s: string)
    requires s != [] && !IsSpace(s[0]) && !IsWordChar(s[0]) && s[0] != ')'
    ensures ParseParams("..." + s) == Err(MissingParamName)
  {
    EllipsisAt(s);
    NoSpaceToTrim(s);
    assert ("..." + s)[0] == '.';
  }

  /** `...` and spaces before a text that starts with no space: the variadic
      type, with the cursor at that text. */
  lemma EllipsisBefore(ws: string, after: string)
    requires forall i :: 0 <= i < |ws| ==> IsSpace(ws[i])
    requires after != [] && !IsSpace(after[0])
    ensures ParseIdentifier("..." + ws + after) == Ok(VarArgsType, after)
  {
    assert "..." + ws + after == "..." + (ws + after);
    EllipsisAt(ws + after);
    TrimLeftSkipsSpaces(ws, after);
    NoSpaceToTrim(after);
  }

  /** A word after `...`, with or without spaces between, is taken as the name
      of a variadic parameter, and the loop goes on after it: the variadic mark
      does not have to be the last entry. */
  lemma NamedEllipsisParam(ws: string, n: string, more: string)
    requires forall i :: 0 <= i < |ws| ==> IsSpace(ws[i])
    requires IsWord(n) && (more == [] || !IsWordChar(more[0]))
    ensures ParseParams("..." + ws + n + more)
      == Prepend([Param(VarArgsType, RenameId(n))], ParseParams(TrimLeft(more)))
  {
    var after := n + more;
    var code := "..." + ws + after;
    assert "..." + ws + n + more == code;
    EllipsisBefore(ws, after);
    WordThen(n, more);
    assert code[0] == '.';
  }

  /** A variadic entry at the end of the text makes Go index past it. */
  lemma EllipsisAtEndOutOfRange()
    ensures ParseParams("...") == Err(OutOfRange)
  {
    EllipsisAt("");
    assert "..." + "" == "...";
  }

  /** A type with no identifier after it is rejected. */
  lemma NamelessParamRejected(t: CType, s: string)
    requires WellFormedType(t)
    requires s != [] && !IsSpace(s[0]) && s[0] != '*' && !IsWordChar(s[0])
    ensures ParseParams(TypeText(t) + s) == Err(MissingParamName)
  {
    TypeRoundTrip(t, s);
    ParamTextStart(Param(t, "x"), false);
    assert (TypeText(t) + s)[0] == ParamText(Param(t, "x"))[0];
  }

  /** A function-table entry as written in the header: `ret (JNICALL *name)(params)`. */
  function Decl(m: Method): string {
    TypeText(m.ret) + (NamePrefix + (" " + ("*" + (m.name + (")" + ("(" + ParamsText(m.params)))))))
  }

  /** A method the reader can give back. */
  predicate WellFormedMethod(m: Method) {
    WellFormedType(m.ret) && IsWord(m.name) && WellFormedParams(m.params)
  }

  /** A method after reading: its parameters renamed. */
  function RenameMethod(m: Method): Method {
    Method(m.name, m.ret, RenameParams(m.params))
  }

  /** A well-formed declaration is read back as the method it declares, renamed. */
  lemma DeclRoundTrip(m: Method)
    requires WellFormedMethod(m)
    ensures ParseSingleMethod(Decl(m)) == Success(RenameMethod(m))
  {
    var ps := ParamsText(m.params);
    var s := NamePrefix + (" " + ("*" + (m.name + (")" + ("(" + ps)))));
    assert s[0] == '(';
    TypeRoundTrip(m.ret, s);
    NameRoundTrip(" ", m.name, "(" + ps);
    NoSpaceToTrim("(" + ps);
    assert ("(" + ps)[1..] == ps;
    ParamsRoundTrip(m.params);
  }

  /** The declarations of a list of methods, in order. */
  function Decls(ms: seq<Method>): (r: seq<string>)
    ensures |r| == |ms|
    ensures forall i :: 0 <= i < |ms| ==> r[i] == Decl(ms[i])
  {
    if ms == [] then [] else Decls(ms[..|ms| - 1]) + [Decl(ms[|ms| - 1])]
  }

  function RenameMethods(ms: seq<Method>): (r: seq<Method>)
    ensures |r| == |ms|
    ensures forall i :: 0 <= i < |ms| ==> r[i] == RenameMethod(ms[i])
  {
    if ms == [] then [] else RenameMethods(ms[..|ms| - 1]) + [RenameMethod(ms[|ms| - 1])]
  }

  lemma DeclChars(m: Method)
    requires WellFormedMethod(m)
    ensures ';' !in Decl(m) && Decl(m) != []
    ensures !IsSpace(Decl(m)[0]) && !IsSpace(Decl(m)[|Decl(m)| - 1])
  {
    var t := TypeText(m.ret);
    var ps := ParamsText(m.params);
    TypeTextChars(m.ret);
    WordHasNoSemicolon(m.name);
    ParamsTextChars(m.params);
    var s5 := "(" + ps;
    NotInConcat(';', "(", ps);
    LastOfConcat("(", ps);
    var s4 := ")" + s5;
    NotInConcat(';', ")", s5);
    LastOfConcat(")", s5);
    var s3 := m.name + s4;
    NotInConcat(';', m.name, s4);
    LastOfConcat(m.name, s4);
    var s2 := "*" + s3;
    NotInConcat(';', "*", s3);
    LastOfConcat("*", s3);
    var s1 := " " + s2;
    NotInConcat(';', " ", s2);
    LastOfConcat(" ", s2);
    var s0 := NamePrefix + s1;
    NotInConcat(';', NamePrefix, s1);
    LastOfConcat(NamePrefix, s1);
    assert Decl(m) == t + s0;
    NotInConcat(';', t, s0);
    LastOfConcat(t, s0);
    assert Decl(m)[0] == t[0];
  }

  lemma NotInConcat(c: char, a: string, b: string)
    requires c !in a && c !in b
    ensures c !in a + b
  {
  }

  lemma LastOfConcat(a: string, b: string)
    requires b != []
    ensures (a + b)[|a + b| - 1] == b[|b| - 1]
  {
  }

  lemma WordHasNoSemicolon(w: string)
    requires IsWord(w)
    ensures ';' !in w
  {
    assert forall i :: 0 <= i < |w| ==> w[i] != ';';
  }

  lemma TypeTextChars(t: CType)
    requires WellFormedType(t)
    ensures ';' !in TypeText(t) && TypeText(t) != [] && !IsSpace(TypeText(t)[0])
  {
    WordHasNoSemicolon(t.typeName);
    var named := t.typeName + (if t.isPtr then " *" else " ");
    assert named[0] == t.typeName[0];
    assert IsWordChar(t.typeName[0]);
  }

  lemma {:induction false} ParamsTextChars(ps: seq<Param>)
    requires WellFormedParams(ps)
    ensures ';' !in ParamsText(ps) && ParamsText(ps) != [] && ParamsText(ps)[|ParamsText(ps)| - 1] == ')'
    decreases |ps|
  {
    if ps != [] {
      assert WellFormedParam(ps[0], 0 == |ps| - 1);
      if !ps[0].ty.isVarArgs {
        TypeTextChars(ps[0].ty);
        WordHasNoSemicolon(ps[0].idName);
      }
      if |ps| > 1 {
        var tail := ps[1..];
        assert WellFormedParams(tail) by {
          forall i | 0 <= i < |tail|
            ensures WellFormedParam(tail[i], i == |tail| - 1)
          {
            assert tail[i] == ps[i + 1];
          }
        }
        ParamsTextChars(tail);
      }
    }
  }

  /** Reading declarations one by one: every method is kept, in order, and nothing is dropped. */
  lemma {:induction false} CollectDecls(ms: seq<Method>)
    requires forall i :: 0 <= i < |ms| ==> WellFormedMethod(ms[i])
    ensures Collect(Decls(ms), ParseSingleMethod) == Listed(RenameMethods(ms), [])
    decreases |ms|
  {
    if ms != [] {
      var n := |ms| - 1;
      var m := ms[n];
      CollectDecls(ms[..n]);
      assert Decls(ms)[..n] == Decls(ms[..n]);
      DeclChars(m);
      DeclRoundTrip(m);
      var acc := Collect(Decls(ms[..n]), ParseSingleMethod);
      assert Collect(Decls(ms), ParseSingleMethod) == Step(acc, Decl(m), ParseSingleMethod);
      StepReads(acc, Decl(m), ParseSingleMethod);
      assert RenameMethods(ms) == RenameMethods(ms[..n]) + [RenameMethod(m)];
    }
  }

  lemma StepReads(acc: ListOutcome, seg: string, parse: string -> Result<Method>)
    requires acc.Listed? && seg != [] && !IsSpace(seg[0]) && !IsSpace(seg[|seg| - 1])
    requires parse(seg).Success?
    ensures Step(acc, seg, parse) == Listed(acc.methods + [parse(seg).value], acc.dropped)
  {
    assert TrimSpace(seg) == seg;
  }

  /** The whole table, declarations joined by `;`, is read back method by method. */
  lemma DeclarationsRoundTrip(ms: seq<Method>)
    requires forall i :: 0 <= i < |ms| ==> WellFormedMethod(ms[i])
    ensures MethodList(Join(Decls(ms), ";")) == Listed(RenameMethods(ms), [])
  {
    if ms == [] {
      assert Split("", ';') == [""];
    } else {
      forall i | 0 <= i < |ms|
        ensures ';' !in Decls(ms)[i]
      {
        DeclChars(ms[i]);
      }
      SplitJoin(Decls(ms), ';');
      CollectDecls(ms);
    }
  }
}

/** The emitter: one buffer holding a fixed preamble, a C stub per method, a
    fixed middle block, a Go binding per method and a fixed epilogue. The two
    suppression lists decide which stubs and bindings are written. */
module Gen {
  import opened Text
  import opened Entity
  import opened Skip

  /** The fixed text before the C stubs (package clause, cgo includes, hand-written stubs). */
  const Preamble: string

  /** The fixed text between the C stubs and the Go bindings (`import "C"`, helper types). */
  const Middle: string

  /** The fixed text after the Go bindings (conversion helpers). */
  const Epilogue: string

  /** Methods neither generator can render: variadic ones and those taking a `va_list`. */
  predicate Unsupported(m: Method) {
    IsVarArgs(m) || IsVaList(m.params)
  }

  /** Suppressed in both sections. */
  predicate CSkipped(m: Method) {
    m.name in SkipList
  }

  /** Suppressed in the Go section. */
  predicate GoSkipped(m: Method) {
    m.name in SkipList || m.name in GoSkipList
  }

  /** `return ` for a method with a result. */
  function RetKeyword(m: Method): string {
    if HasRetVal(m) then "return " else ""
  }

  // ---------------------------------------------------------------------------
  // C stubs

  /** The call through the function table of the environment named by the first parameter. */
  function CCallExpr(m: Method): string
    requires |m.params| > 0
  {
    "(*" + m.params[0].idName + ")->" + m.name + "(" + CCallText(m) + ")"
  }

  function CStubHead(m: Method): string {
    "// static inline " + CTypeDesc(m.ret) + " " + m.name + "(" + CParamText(m) + ") {\n"
  }

  function CStubCall(m: Method): string
    requires |m.params| > 0
  {
    "//     " + (RetKeyword(m) + (CBeforeReturn(m, CCallExpr(m)) + ";\n"))
  }

  const CStubEnd := "// }\n"

  /** A C stub: head line, call line, closing line, each commented out for cgo. */
  function CStub(m: Method): string
    requires |m.params| > 0
  {
    CStubHead(m) + (CStubCall(m) + CStubEnd)
  }

  /** The stub can be formed: a method that gets one has a first parameter. */
  predicate CStubDefined(m: Method) {
    !Unsupported(m) && !CSkipped(m) ==> |m.params| > 0
  }

  /** What generateFuncCode writes. */
  function CFuncOutput(m: Method): string
    requires CStubDefined(m)
  {
    if Unsupported(m) || CSkipped(m) then "" else CStub(m)
  }

  /** What one method contributes to the C section: its stub and a `//` line,
      or nothing when it is unsupported. */
  function CBlock(m: Method): string
    requires CStubDefined(m)
  {
    if Unsupported(m) then "" else CFuncOutput(m) + "//\n"
  }

  // ---------------------------------------------------------------------------
  // Go bindings

  /** The binding can be formed: a method that gets one has parameter lists Go can slice. */
  predicate GoFuncDefined(m: Method) {
    !Unsupported(m) && !GoSkipped(m) ==> GoSignatureDefined(m) && GoCallDefined(m)
  }

  function GoCallExpr(m: Method): string
    requires GoCallDefined(m)
  {
    "C." + m.name + "(" + GoCallText(m) + ")"
  }

  function GoFuncHead(m: Method): string
    requires GoSignatureDefined(m)
  {
    "func (" + m.params[0].idName + " Env) " + m.name + "(" + GoParamText(m) + ")" + GoRetVal(m) + " {\n"
  }

  function GoFuncCall(m: Method): string
    requires GoCallDefined(m)
  {
    "    " + (RetKeyword(m) + (GoBeforeReturn(m, GoCallExpr(m)) + "\n"))
  }

  const GoFuncEnd := "}\n"

  /** A Go binding: the header with the receiver, the C string copies, the call, the closing brace. */
  function GoFunc(m: Method): string
    requires GoSignatureDefined(m) && GoCallDefined(m)
  {
    GoFuncHead(m) + (CStringPrelude(m.params) + (GoFuncCall(m) + GoFuncEnd))
  }

  /** What generateGoFuncCode writes. */
  function GoFuncOutput(m: Method): string
    requires GoFuncDefined(m)
  {
    if Unsupported(m) || GoSkipped(m) then "" else GoFunc(m)
  }

  /** What one method contributes to the Go section: its binding and an empty
      line, or nothing when it is unsupported. */
  function GoBlock(m: Method): string
    requires GoFuncDefined(m)
  {
    if Unsupported(m) then "" else GoFuncOutput(m) + "\n"
  }

  // ---------------------------------------------------------------------------
  // The whole output

  /** A method both generators can handle without Go panicking. */
  predicate Renderable(m: Method) {
    CStubDefined(m) && GoFuncDefined(m)
  }

  predicate AllRenderable(list: seq<Method>) {
    forall i :: 0 <= i < |list| ==> Renderable(list[i])
  }

  /** The C section: the blocks in list order. */
  function CSection(list: seq<Method>): string
    requires AllRenderable(list)
  {
    if list == [] then "" else CSection(list[..|list| - 1]) + CBlock(list[|list| - 1])
  }

  /** The Go section: the blocks in list order. */
  function GoSection(list: seq<Method>): string
    requires AllRenderable(list)
  {
    if list == [] then "" else GoSection(list[..|list| - 1]) + GoBlock(list[|list| - 1])
  }

  /** What generateCode returns for `list`. */
  function OutputText(list: seq<Method>): string
    requires AllRenderable(list)
  {
    Preamble + (CSection(list) + (Middle + (GoSection(list) + Epilogue)))
  }

  // ---------------------------------------------------------------------------
  // The generators

  /** generateFuncCode: appends the C stub of `m` to `buf`; fails, writing
      nothing, for a method it cannot render; writes nothing for a suppressed one. */
  method GenerateFuncCode(m: Method, buf: Buffer) returns (ok: bool)
    requires CStubDefined(m)
    modifies buf
    ensures ok <==> !Unsupported(m)
    ensures buf.contents == old(buf.contents) + CFuncOutput(m)
  {
    if IsVarArgs(m) || IsVaList(m.params) {
      return false;
    }
    if ContainsInSkipList(m.name, SkipList) {
      return true;
    }
    ghost var start := buf.contents;
    var params := CParamList(m);
    var head := "// static inline " + CTypeDesc(m.ret) + " " + m.name + "(" + params + ") {\n";
    buf.Write(head);
    var ret := "";
    if HasRetVal(m) {
      ret := "return ";
    }
    var args := CCallList(m);
    var expr := "(*" + m.params[0].idName + ")->" + m.name + "(" + args + ")";
    expr := CBeforeReturn(m, expr);
    var call := "//     " + (ret + (expr + ";\n"));
    buf.Write(call);
    buf.Write(CStubEnd);
    ConcatAssoc(start + head, call, CStubEnd);
    ConcatAssoc(start, head, call + CStubEnd);
    ok := true;
  }

  /** generateGoFuncCode: appends the Go binding of `m` to `buf`, with the same
      failure case; a name in either list is suppressed. */
  method GenerateGoFuncCode(m: Method, buf: Buffer) returns (ok: bool)
    requires GoFuncDefined(m)
    modifies buf
    ensures ok <==> !Unsupported(m)
    ensures buf.contents == old(buf.contents) + GoFuncOutput(m)
  {
    if IsVarArgs(m) || IsVaList(m.params) {
      return false;
    }
    if ContainsInSkipList(m.name, SkipList) || ContainsInSkipList(m.name, GoSkipList) {
      return true;
    }
    ghost var start := buf.contents;
    var params := GoParamList(m);
    var head := "func (" + m.params[0].idName + " Env) " + m.name + "(" + params + ")" + GoRetVal(m) + " {\n";
    buf.Write(head);
    PrepareReturn(m, buf);
    ghost var prelude := CStringPrelude(m.params);
    var ret := "";
    if HasRetVal(m) {
      ret := "return ";
    }
    var args := GoCallList(m);
    var expr := "C." + m.name + "(" + args + ")";
    expr := GoBeforeReturn(m, expr);
    var call := "    " + (ret + (expr + "\n"));
    buf.Write(call);
    buf.Write(GoFuncEnd);
    ConcatAssoc(start + head + prelude, call, GoFuncEnd);
    ConcatAssoc(start + head, prelude, call + GoFuncEnd);
    ConcatAssoc(start, head, prelude + (call + GoFuncEnd));
    ok := true;
  }

  /** generateCode: the preamble, a C block per method, the middle block, a Go
      block per method, the epilogue. */
  method GenerateCode(list: seq<Method>) returns (out: string)
    requires AllRenderable(list)
    ensures out == OutputText(list)
  {
    ghost var cs, gs := CSection(list), GoSection(list);
    var buf := new Buffer();
    buf.Write(Preamble);
    assert buf.contents == Preamble;
    WriteCSection(list, buf);
    ghost var c1 := buf.contents;
    assert c1 == Preamble + cs;
    buf.Write(Middle);
    ghost var c2 := buf.contents;
    assert c2 == c1 + Middle;
    WriteGoSection(list, buf);
    ghost var c3 := buf.contents;
    assert c3 == c2 + gs;
    buf.Write(Epilogue);
    out := buf.contents;
    assert out == c3 + Epilogue;
    ConcatAssoc(c2, gs, Epilogue);
    ConcatAssoc(c1, Middle, gs + Epilogue);
    ConcatAssoc(Preamble, cs, Middle + (gs + Epilogue));
  }

  /** The first loop of generateCode: each method's stub, then `//` unless it failed. */
  method WriteCSection(list: seq<Method>, buf: Buffer)
    requires AllRenderable(list)
    modifies buf
    ensures buf.contents == old(buf.contents) + CSection(list)
  {
    ghost var start := buf.contents;
    for i := 0 to |list|
      invariant buf.contents == start + CSection(list[..i])
    {
      var m := list[i];
      CSectionSnoc(list, i);
      ghost var before := buf.contents;
      var ok := GenerateFuncCode(m, buf);
      ghost var written := CFuncOutput(m);
      if ok {
        buf.Write("//\n");
        ConcatAssoc(before, written, "//\n");
      }
      CBlockIs(m, ok);
      ConcatAssoc(start, CSection(list[..i]), CBlock(m));
    }
    assert list[..|list|] == list;
  }

  /** The second loop of generateCode: each method's binding, then an empty line unless it failed. */
  method WriteGoSection(list: seq<Method>, buf: Buffer)
    requires AllRenderable(list)
    modifies buf
    ensures buf.contents == old(buf.contents) + GoSection(list)
  {
    ghost var start := buf.contents;
    for i := 0 to |list|
      invariant buf.contents == start + GoSection(list[..i])
    {
      var m := list[i];
      GoSectionSnoc(list, i);
      ghost var before := buf.contents;
      var ok := GenerateGoFuncCode(m, buf);
      ghost var written := GoFuncOutput(m);
      if ok {
        buf.Write("\n");
        ConcatAssoc(before, written, "\n");
      }
      GoBlockIs(m, ok);
      ConcatAssoc(start, GoSection(list[..i]), GoBlock(m));
    }
    assert list[..|list|] == list;
  }

  lemma CBlockIs(m: Method, ok: bool)
    requires CStubDefined(m) && (ok <==> !Unsupported(m))
    ensures CBlock(m) == if ok then CFuncOutput(m) + "//\n" else ""
  {
  }

  lemma GoBlockIs(m: Method, ok: bool)
    requires GoFuncDefined(m) && (ok <==> !Unsupported(m))
    ensures GoBlock(m) == if ok then GoFuncOutput(m) + "\n" else ""
  {
  }

  lemma CSectionSnoc(list: seq<Method>, i: nat)
    requires AllRenderable(list) && i < |list|
    ensures Renderable(list[i])
    ensures CSection(list[..i + 1]) == CSection(list[..i]) + CBlock(list[i])
  {
    assert list[..i + 1][..i] == list[..i];
  }

  lemma GoSectionSnoc(list: seq<Method>, i: nat)
    requires AllRenderable(list) && i < |list|
    ensures Renderable(list[i])
    ensures GoSection(list[..i + 1]) == GoSection(list[..i]) + GoBlock(list[i])
  {
    assert list[..i + 1][..i] == list[..i];
  }

  // ---------------------------------------------------------------------------
  // Properties of the output

  /** The sections of a joined list are the sections of its parts, in order. */
  lemma {:induction false} SectionsAppend(a: seq<Method>, b: seq<Method>)
    requires AllRenderable(a) && AllRenderable(b)
    ensures AllRenderable(a + b)
    ensures CSection(a + b) == CSection(a) + CSection(b)
    ensures GoSection(a + b) == GoSection(a) + GoSection(b)
    decreases |b|
  {
    assert AllRenderable(a + b) by {
      forall i | 0 <= i < |a + b|
        ensures Renderable((a + b)[i])
      {
        if i < |a| {
          assert (a + b)[i] == a[i];
        } else {
          assert (a + b)[i] == b[i - |a|];
        }
      }
    }
    if b == [] {
      assert a + b == a;
    } else {
      var pre := b[..|b| - 1];
      var m := b[|b| - 1];
      assert AllRenderable(pre) by {
        forall i | 0 <= i < |pre|
          ensures Renderable(pre[i])
        {
          assert pre[i] == b[i];
        }
      }
      assert (a + b)[..|a + b| - 1] == a + pre;
      assert (a + b)[|a + b| - 1] == m;
      SectionsAppend(a, pre);
      ConcatAssoc(CSection(a), CSection(pre), CBlock(m));
      ConcatAssoc(GoSection(a), GoSection(pre), GoBlock(m));
    }
  }

  /** An unsupported method leaves no trace in either section: no stub, no
      binding, no `//` line and no empty line. */
  lemma UnsupportedIsInvisible(a: seq<Method>, m: Method, b: seq<Method>)
    requires AllRenderable(a) && AllRenderable(b) && Renderable(m)
    requires Unsupported(m)
    ensures AllRenderable(a + [m] + b) && AllRenderable(a + b)
    ensures CSection(a + [m] + b) == CSection(a + b)
    ensures GoSection(a + [m] + b) == GoSection(a + b)
  {
    assert CSection([m]) == CSection([]) + CBlock(m);
    assert GoSection([m]) == GoSection([]) + GoBlock(m);
    SectionsAppend(a, [m]);
    SectionsAppend(a + [m], b);
    SectionsAppend(a, b);
    assert CSection(a + [m]) == CSection(a);
    assert GoSection(a + [m]) == GoSection(a);
  }

  /** A name in the main skip list gets neither a stub nor a binding, but both
      separators are still written. */
  lemma SkippedKeepsSeparators(m: Method)
    requires Renderable(m) && !Unsupported(m) && CSkipped(m)
    ensures CBlock(m) == "//\n" && GoBlock(m) == "\n"
  {
    assert "" + "//\n" == "//\n";
    assert "" + "\n" == "\n";
  }

  /** A name only in the Go skip list still gets its C stub, but no binding. */
  lemma GoSkippedKeepsStub(m: Method)
    requires Renderable(m) && !Unsupported(m) && !CSkipped(m) && m.name in GoSkipList
    ensures |m.params| > 0
    ensures CBlock(m) == CStub(m) + "//\n" && GoBlock(m) == "\n"
  {
    assert "" + "\n" == "\n";
  }

  /** The direct-buffer functions appear in the C section only. */
  lemma DirectBufferFunctionsGetOnlyStubs(m: Method)
    requires Renderable(m) && !Unsupported(m)
    requires m.name == "NewDirectByteBuffer" || m.name == "GetDirectBufferAddress"
      || m.name == "GetDirectBufferCapacity"
    ensures |m.params| > 0
    ensures CBlock(m) == CStub(m) + "//\n" && GoBlock(m) == "\n"
  {
    NioOnlyInGoSkipList(m.name);
    GoSkippedKeepsStub(m);
  }

  /** `NewStringUTF` is suppressed in both sections. */
  lemma NewStringUTFSuppressed(m: Method)
    requires Renderable(m) && !Unsupported(m) && m.name == "NewStringUTF"
    ensures CBlock(m) == "//\n" && GoBlock(m) == "\n"
  {
    ListsOverlap();
    SkippedKeepsSeparators(m);
  }

  /** The stub's call line returns the result exactly when the method has one,
      and ends with the call through the first parameter's function table. */
  lemma StubCallLine(m: Method)
    requires |m.params| > 0
    ensures StartsWith(CStubCall(m), "//     return ") <==> HasRetVal(m)
    ensures EndsWith(CStubCall(m), CCallExpr(m) + ";\n")
  {
    var e := CCallExpr(m);
    assert e[0] == '(';
    var r := CBeforeReturn(m, e);
    CastKeepsParen(m, e);
    var tail := r + ";\n";
    SuffixThen(r, e, ";\n");
    assert "//     " + "return " == "//     return ";
    KeywordLine("//     ", HasRetVal(m), tail);
    SuffixBehind("//     " + RetKeyword(m), tail, e + ";\n");
    ConcatAssoc("//     ", RetKeyword(m), tail);
  }

  /** The binding's call line returns the result exactly when the method has one. */
  lemma GoCallLine(m: Method)
    requires GoCallDefined(m)
    ensures StartsWith(GoFuncCall(m), "    return ") <==> HasRetVal(m)
  {
    var e := GoCallExpr(m);
    var tail := GoBeforeReturn(m, e) + "\n";
    if !HasRetVal(m) {
      VoidReturnUnconverted(m, e);
      assert e[0] == 'C';
    }
    assert "    " + "return " == "    return ";
    KeywordLine("    ", HasRetVal(m), tail);
  }

  /** A void result is not converted. */
  lemma VoidReturnUnconverted(m: Method, e: string)
    requires !HasRetVal(m)
    ensures GoBeforeReturn(m, e) == e
  {
    assert "void" !in RefTypeNames && "void" !in IdTypeNames;
  }

  /** The cast of a const result starts with `(` too. */
  lemma CastKeepsParen(m: Method, e: string)
    requires e != [] && e[0] == '('
    ensures CBeforeReturn(m, e) != [] && CBeforeReturn(m, e)[0] == '('
  {
  }

  /** An indented line starts with `return ` exactly when the keyword was written. */
  lemma KeywordLine(ind: string, has: bool, r: string)
    requires !has ==> r != [] && r[0] != 'r'
    ensures StartsWith(ind + ((if has then "return " else "") + r), ind + "return ") <==> has
  {
    var line := ind + ((if has then "return " else "") + r);
    if has {
      assert line == ind + "return " + r;
    } else {
      assert line[|ind|] == r[0];
      assert (ind + "return ")[|ind|] == 'r';
    }
  }

  lemma SuffixThen(r: string, e: string, s: string)
    requires EndsWith(r, e)
    ensures EndsWith(r + s, e + s)
  {
    assert (r + s)[|r + s| - |e + s|..] == r[|r| - |e|..] + s;
  }

  lemma SuffixBehind(a: string, b: string, c: string)
    requires EndsWith(b, c)
    ensures EndsWith(a + b, c)
  {
    assert (a + b)[|a + b| - |c|..] == b[|b| - |c|..];
  }

  lemma PrefixBefore(a: string, b: string, c: string)
    requires StartsWith(a, b)
    ensures StartsWith(a + c, b)
  {
    assert (a + c)[..|b|] == a[..|b|];
  }

  /** The binding is a method on `Env` whose receiver is named after the first parameter. */
  lemma GoFuncReceiver(m: Method)
    requires GoSignatureDefined(m) && GoCallDefined(m)
    ensures StartsWith(GoFunc(m), "func (" + m.params[0].idName + " Env) " + m.name + "(")
  {
    var lead := "func (" + m.params[0].idName + " Env) " + m.name + "(";
    var head := GoFuncHead(m);
    var tail := GoParamText(m) + ")" + GoRetVal(m) + " {\n";
    assert StartsWith(lead, lead);
    PrefixBefore(lead, lead, GoParamText(m));
    PrefixBefore(lead + GoParamText(m), lead, ")");
    PrefixBefore(lead + GoParamText(m) + ")", lead, GoRetVal(m));
    PrefixBefore(lead + GoParamText(m) + ")" + GoRetVal(m), lead, " {\n");
    assert head == lead + GoParamText(m) + ")" + GoRetVal(m) + " {\n";
    PrefixBefore(head, lead, CStringPrelude(m.params) + (GoFuncCall(m) + GoFuncEnd));
  }

  /** The body of the binding starts with the copy and free lines of each
      `char *` parameter, in parameter order, and nothing for the others. */
  lemma GoFuncCopiesStrings(m: Method, i: nat)
    requires GoSignatureDefined(m) && GoCallDefined(m) && i < |m.params|
    ensures m.params[i].ty.isPtr && m.params[i].ty.typeName == "char" ==>
      var id := m.params[i].idName;
      GoFunc(m) == GoFuncHead(m) + ((CStringPrelude(m.params[..i])
        + ((CStringCopy(id) + CStringFree(id)) + CStringPrelude(m.params[i + 1..]))) + (GoFuncCall(m) + GoFuncEnd))
  {
    CStringPreludeAt(m.params, i);
  }

  /** With an empty method list only the three fixed blocks remain, in order. */
  lemma EmptyListOutput()
    ensures OutputText([]) == Preamble + (Middle + Epilogue)
  {
  }

  /** The output is the fixed blocks with the two sections between them, and
      the methods of a joined list appear in list order in each section. */
  lemma OutputLayout(a: seq<Method>, b: seq<Method>)
    requires AllRenderable(a) && AllRenderable(b)
    ensures AllRenderable(a + b)
    ensures StartsWith(OutputText(a + b), Preamble + (CSection(a) + CSection(b)))
    ensures EndsWith(OutputText(a + b), Middle + ((GoSection(a) + GoSection(b)) + Epilogue))
  {
    SectionsAppend(a, b);
    var out := OutputText(a + b);
    var front := Preamble + (CSection(a) + CSection(b));
    var back := Middle + ((GoSection(a) + GoSection(b)) + Epilogue);
    ConcatAssoc(Preamble, CSection(a) + CSection(b), back);
    assert out == front + back;
    assert out[..|front|] == front;
    assert out[|out| - |back|..] == back;
  }
}

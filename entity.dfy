/** The declaration vocabulary of the generator (C types, parameters, methods)
    and its two renderings: C text for the cgo stubs and Go text for the
    bindings. */
module Entity {
  import opened Text

  /** A C type as a declaration spells it: `[const] name [*]`, or the `...` marker. */
  datatype CType = CType(isPtr: bool, isConst: bool, typeName: string, isVarArgs: bool)

  /** A parameter: its type and its identifier (empty for a `...` entry). */
  datatype Param = Param(ty: CType, idName: string)

  /** One entry of the function table: its name, return type and parameters. */
  datatype Method = Method(name: string, ret: CType, params: seq<Param>)

  /** The type the parser gives to a `...` entry: only the variadic marker is set. */
  const VarArgsType := CType(false, false, "", true)

  predicate IsVoid(t: CType) {
    !t.isPtr && t.typeName == "void"
  }

  predicate HasRetVal(m: Method) {
    !IsVoid(m.ret)
  }

  // ---------------------------------------------------------------------------
  // Type rendering

  /** C text of a type: the name, then " *" for a pointer; `const` is dropped. */
  function CTypeDesc(t: CType): string {
    if t.isPtr then t.typeName + " *" else t.typeName
  }

  /** Reference and array handle types, rendered as the Go alias `J` + name without its `j`. */
  const RefTypeNames: set<string> := {
    "jobject", "jclass", "jthrowable", "jstring",
    "jarray", "jbooleanArray", "jbyteArray", "jcharArray",
    "jshortArray", "jintArray", "jlongArray", "jfloatArray",
    "jdoubleArray", "jobjectArray", "jweak"
  }

  /** Member and method ID types, also rendered as `J` + name without its `j`. */
  const IdTypeNames: set<string> := {"jmethodID", "jfieldID"}

  /** Numeric types that a Go call converts with `C.<name>(...)`. */
  const NumericTypeNames: set<string> := {
    "jbyte", "jshort", "jchar", "jsize", "jint", "jlong", "jfloat", "jdouble"
  }

  /** The type the Go rendering falls back to: the cgo name, with `*` for a pointer. */
  function CgoTypeRef(t: CType): string {
    if t.isPtr then "*C." + t.typeName else "C." + t.typeName
  }

  /** Go text of a type. */
  function GoTypeDesc(t: CType): string {
    var n := t.typeName;
    if t.isPtr then
      if n == "JNIEnv" then "Env"
      else if n == "JavaVM" then "VM"
      else if n == "void" then "unsafe.Pointer"
      else if n == "char" then "string"
      else CgoTypeRef(t)
    else
      if n == "void" then ""
      else if n == "jboolean" then "bool"
      else if n == "jbyte" then "byte"
      else if n == "jshort" then "int16"
      else if n == "jchar" then "uint16"
      else if n == "jsize" || n == "jint" then "int"
      else if n == "jlong" then "int64"
      else if n == "jfloat" then "float32"
      else if n == "jdouble" then "float64"
      else if n in RefTypeNames || n in IdTypeNames then "J" + n[1..]
      else CgoTypeRef(t)
  }

  /** The Go type table for pointer types, entry by entry. */
  const GoPointerTypes: map<string, string> := map[
    "JNIEnv" := "Env", "JavaVM" := "VM", "void" := "unsafe.Pointer", "char" := "string"
  ]

  /** The Go type table for non-pointer types, entry by entry. */
  const GoValueTypes: map<string, string> := map[
    "void" := "", "jboolean" := "bool", "jbyte" := "byte", "jshort" := "int16",
    "jchar" := "uint16", "jsize" := "int", "jint" := "int", "jlong" := "int64",
    "jfloat" := "float32", "jdouble" := "float64",
    "jobject" := "Jobject", "jclass" := "Jclass", "jthrowable" := "Jthrowable",
    "jstring" := "Jstring", "jarray" := "Jarray", "jbooleanArray" := "JbooleanArray",
    "jbyteArray" := "JbyteArray", "jcharArray" := "JcharArray",
    "jshortArray" := "JshortArray", "jintArray" := "JintArray",
    "jlongArray" := "JlongArray", "jfloatArray" := "JfloatArray",
    "jdoubleArray" := "JdoubleArray", "jobjectArray" := "JobjectArray",
    "jweak" := "Jweak", "jmethodID" := "JmethodID", "jfieldID" := "JfieldID"
  ]

  /** For a pointer, the Go rendering is the pointer table, and `*C.` + the
      type name for every name outside it. */
  lemma GoTypeDescPointerTable(t: CType)
    requires t.isPtr
    ensures GoTypeDesc(t) ==
      if t.typeName in GoPointerTypes then GoPointerTypes[t.typeName] else "*C." + t.typeName
  {
  }

  /** For a non-pointer, the Go rendering is the value table, and `C.` + the
      type name for every name outside it. */
  lemma GoTypeDescValueTable(t: CType)
    requires !t.isPtr
    ensures GoTypeDesc(t) ==
      if t.typeName in GoValueTypes then GoValueTypes[t.typeName] else "C." + t.typeName
  {
    var n := t.typeName;
    if n in RefTypeNames || n in IdTypeNames {
      HandleTypeNames(n);
      HandleIsNotScalar(n);
    } else if n in {"void", "jboolean", "jbyte", "jshort", "jchar"} {
    } else if n in {"jsize", "jint", "jlong", "jfloat", "jdouble"} {
    } else {
      OutsideValueTable(n);
    }
  }

  lemma HandleIsNotScalar(n: string)
    requires n in RefTypeNames || n in IdTypeNames
    ensures n !in {"void", "jboolean", "jbyte", "jshort", "jchar"}
    ensures n !in {"jsize", "jint", "jlong", "jfloat", "jdouble"}
  {
  }

  /** The value table holds the scalar names and the handle names, nothing else. */
  lemma OutsideValueTable(n: string)
    requires n !in RefTypeNames && n !in IdTypeNames
    requires n !in {"void", "jboolean", "jbyte", "jshort", "jchar"}
    requires n !in {"jsize", "jint", "jlong", "jfloat", "jdouble"}
    ensures n !in GoValueTypes
  {
  }

  /** Every handle and ID type is in the value table under `J` + its name without `j`. */
  lemma HandleTypeNames(n: string)
    requires n in RefTypeNames || n in IdTypeNames
    ensures n in GoValueTypes && GoValueTypes[n] == "J" + n[1..]
  {
    if n in {"jobject", "jclass", "jthrowable", "jstring", "jarray"} {
      ObjectHandleNames(n);
    } else if n in {"jbooleanArray", "jbyteArray", "jcharArray", "jshortArray", "jintArray"} {
      ArrayHandleNames(n);
    } else if n in {"jlongArray", "jfloatArray", "jdoubleArray", "jobjectArray", "jweak"} {
      MoreArrayHandleNames(n);
    } else if n in {"jmethodID", "jfieldID"} {
      IdHandleNames(n);
    }
  }

  lemma ObjectHandleNames(n: string)
    requires n in {"jobject", "jclass", "jthrowable", "jstring", "jarray"}
    ensures n in GoValueTypes && GoValueTypes[n] == "J" + n[1..]
  {
  }

  lemma ArrayHandleNames(n: string)
    requires n in {"jbooleanArray", "jbyteArray", "jcharArray", "jshortArray", "jintArray"}
    ensures n in GoValueTypes && GoValueTypes[n] == "J" + n[1..]
  {
  }

  lemma MoreArrayHandleNames(n: string)
    requires n in {"jlongArray", "jfloatArray", "jdoubleArray", "jobjectArray", "jweak"}
    ensures n in GoValueTypes && GoValueTypes[n] == "J" + n[1..]
  {
  }

  lemma IdHandleNames(n: string)
    requires n in {"jmethodID", "jfieldID"}
    ensures n in GoValueTypes && GoValueTypes[n] == "J" + n[1..]
  {
  }

  /** The C text of a type ignores `const` and the variadic marker, and is the
      type name followed by " *" exactly for a pointer. */
  lemma CTypeDescShape(t: CType, isConst: bool, isVarArgs: bool)
    ensures CTypeDesc(t) == CTypeDesc(t.(isConst := isConst, isVarArgs := isVarArgs))
    ensures StartsWith(CTypeDesc(t), t.typeName)
    ensures EndsWith(CTypeDesc(t), " *") <==> t.isPtr || EndsWith(t.typeName, " *")
  {
    var d := CTypeDesc(t);
    assert d[..|t.typeName|] == t.typeName;
    if t.isPtr {
      assert d[|d| - 2..] == " *";
    }
  }

  /** A method has no return value exactly when its C return type text is `void`,
      and exactly when its Go return type text is empty. */
  lemma ReturnTypeAgreement(m: Method)
    ensures !HasRetVal(m) <==> CTypeDesc(m.ret) == "void"
    ensures !HasRetVal(m) <==> GoTypeDesc(m.ret) == ""
  {
    var t := m.ret;
    if t.isPtr {
      assert CTypeDesc(t)[|CTypeDesc(t)| - 1] == '*';
    }
  }

  // ---------------------------------------------------------------------------
  // Parameter rendering

  /** The `jboolean *isCopy` output flag, which both renderings leave out. */
  predicate IsCopyFlag(p: Param) {
    p.ty.isPtr && p.ty.typeName == "jboolean" && p.idName == "isCopy"
  }

  /** C text of a parameter in a stub's signature. */
  function CParamDesc(p: Param): (r: string)
    ensures r == "" <==> IsCopyFlag(p)
  {
    if IsCopyFlag(p) then "" else CTypeDesc(p.ty) + " " + p.idName
  }

  /** C text of an argument in a stub's call: `NULL` stands in for the isCopy flag. */
  function CCallDesc(p: Param): (r: string)
    ensures p.idName != "NULL" ==> (r == "NULL" <==> IsCopyFlag(p))
    ensures !IsCopyFlag(p) ==> r == p.idName
  {
    if IsCopyFlag(p) then "NULL" else p.idName
  }

  /** Go text of a parameter in a binding's signature. */
  function GoParamDesc(p: Param): (r: string)
    ensures r == "" <==> IsCopyFlag(p)
  {
    if IsCopyFlag(p) then "" else p.idName + " " + GoTypeDesc(p.ty)
  }

  /** Go text of the buffer parameter of an array-region accessor: a slice for
      a pointer to a primitive element type. */
  function GoSliceParamDesc(p: Param): string {
    var n := p.ty.typeName;
    if p.ty.isPtr && n == "jboolean" then p.idName + " []bool"
    else if p.ty.isPtr && n == "jbyte" then p.idName + " []byte"
    else if p.ty.isPtr && n == "jshort" then p.idName + " []int16"
    else if p.ty.isPtr && n == "jchar" then p.idName + " []uint16"
    else if p.ty.isPtr && n == "jint" then p.idName + " []int32"
    else if p.ty.isPtr && n == "jlong" then p.idName + " []int64"
    else if p.ty.isPtr && n == "jfloat" then p.idName + " []float32"
    else if p.ty.isPtr && n == "jdouble" then p.idName + " []float64"
    else p.idName + " " + GoTypeDesc(p.ty)
  }

  /** Name of the helper that turns the Go slice back into a C pointer; empty
      when there is none. */
  function GoSliceWrapper(p: Param): string {
    var n := p.ty.typeName;
    if p.ty.isPtr && n == "jboolean" then "cBooleanArray"
    else if p.ty.isPtr && n == "jbyte" then "cByteArray"
    else if p.ty.isPtr && n == "jshort" then "cShortArray"
    else if p.ty.isPtr && n == "jchar" then "cCharArray"
    else if p.ty.isPtr && n == "jint" then "cIntArray"
    else if p.ty.isPtr && n == "jlong" then "cLongArray"
    else if p.ty.isPtr && n == "jfloat" then "cFloatArray"
    else if p.ty.isPtr && n == "jdouble" then "cDoubleArray"
    else ""
  }

  /** Go slice element type per primitive element type, entry by entry. */
  const GoSliceElems: map<string, string> := map[
    "jboolean" := "bool", "jbyte" := "byte", "jshort" := "int16", "jchar" := "uint16",
    "jint" := "int32", "jlong" := "int64", "jfloat" := "float32", "jdouble" := "float64"
  ]

  /** Slice-to-pointer helper per primitive element type, entry by entry. */
  const SliceHelpers: map<string, string> := map[
    "jboolean" := "cBooleanArray", "jbyte" := "cByteArray", "jshort" := "cShortArray",
    "jchar" := "cCharArray", "jint" := "cIntArray", "jlong" := "cLongArray",
    "jfloat" := "cFloatArray", "jdouble" := "cDoubleArray"
  ]

  /** A buffer parameter is rendered as a slice exactly when a helper exists to
      hand that slice to C; otherwise it is rendered like any parameter and has
      no helper. */
  lemma SliceParamTable(p: Param)
    ensures p.ty.isPtr && p.ty.typeName in GoSliceElems ==>
      GoSliceParamDesc(p) == p.idName + " []" + GoSliceElems[p.ty.typeName]
      && GoSliceWrapper(p) == SliceHelpers[p.ty.typeName]
    ensures !(p.ty.isPtr && p.ty.typeName in GoSliceElems) ==>
      GoSliceParamDesc(p) == p.idName + " " + GoTypeDesc(p.ty) && GoSliceWrapper(p) == ""
  {
  }

  /** Go text of an argument in a binding's call: each Go value is converted
      back to its C type. */
  function GoCallDesc(p: Param): (r: string)
    ensures p.idName != "" ==> (r == "" <==> IsCopyFlag(p))
  {
    var n, id := p.ty.typeName, p.idName;
    if p.ty.isPtr && n == "JNIEnv" then "(*C.JNIEnv)(unsafe.Pointer(" + id + "))"
    else if p.ty.isPtr && n == "JavaVM" then "(*C.JavaVM)(unsafe.Pointer(" + id + "))"
    else if p.ty.isPtr && n == "char" then "cstr_" + id
    else if p.ty.isPtr && n == "jboolean" && id == "isCopy" then ""
    else if !p.ty.isPtr && n == "jboolean" then "cbool(" + id + ")"
    else if !p.ty.isPtr && (n in NumericTypeNames || n in RefTypeNames) then "C." + n + "(" + id + ")"
    else if !p.ty.isPtr && n in IdTypeNames then "C." + n + "(unsafe.Pointer(" + id + "))"
    else id
  }

  /** The argument conversions undo the signature's type mapping: a Go scalar or
      handle argument is converted to the C type of the declaration, an ID goes
      through unsafe.Pointer, a bool through cbool, a string through the
      `cstr_` copy, the environment and the VM through unsafe.Pointer to their C
      pointer types; a `void *`, a `jboolean *` other than isCopy and every other
      parameter whose Go type is its cgo type is passed as it is. */
  lemma GoCallDescConvertsBack(p: Param)
    ensures !p.ty.isPtr && (p.ty.typeName in NumericTypeNames || p.ty.typeName in RefTypeNames) ==>
      GoCallDesc(p) == "C." + CTypeDesc(p.ty) + "(" + p.idName + ")"
    ensures !p.ty.isPtr && p.ty.typeName in IdTypeNames ==>
      GoCallDesc(p) == "C." + CTypeDesc(p.ty) + "(unsafe.Pointer(" + p.idName + "))"
    ensures !p.ty.isPtr && p.ty.typeName == "jboolean" ==>
      GoTypeDesc(p.ty) == "bool" && GoCallDesc(p) == "cbool(" + p.idName + ")"
    ensures p.ty.isPtr && p.ty.typeName == "char" ==>
      GoTypeDesc(p.ty) == "string" && GoCallDesc(p) == "cstr_" + p.idName
    ensures p.ty.isPtr && p.ty.typeName == "JNIEnv" ==>
      GoTypeDesc(p.ty) == "Env" && GoCallDesc(p) == "(*C.JNIEnv)(unsafe.Pointer(" + p.idName + "))"
    ensures p.ty.isPtr && p.ty.typeName == "JavaVM" ==>
      GoTypeDesc(p.ty) == "VM" && GoCallDesc(p) == "(*C.JavaVM)(unsafe.Pointer(" + p.idName + "))"
    ensures p.ty.isPtr && p.ty.typeName == "void" ==>
      GoTypeDesc(p.ty) == "unsafe.Pointer" && GoCallDesc(p) == p.idName
    ensures p.ty.isPtr && p.ty.typeName == "jboolean" && p.idName != "isCopy" ==>
      GoTypeDesc(p.ty) == "*C.jboolean" && GoCallDesc(p) == p.idName
    ensures GoTypeDesc(p.ty) == CgoTypeRef(p.ty) && p.ty.typeName != "jboolean" ==> GoCallDesc(p) == p.idName
  {
  }

  // ---------------------------------------------------------------------------
  // Method classification

  /** The last parameter is the `...` entry. */
  predicate IsVarArgs(m: Method) {
    |m.params| > 0 && m.params[|m.params| - 1].ty.isVarArgs
  }

  /** Some parameter has the type `va_list` (the search loop of isVaList). */
  function IsVaList(ps: seq<Param>): (r: bool)
    ensures r <==> exists i :: 0 <= i < |ps| && ps[i].ty.typeName == "va_list"
  {
    if ps == [] then false
    else if ps[0].ty.typeName == "va_list" then true
    else
      assert forall i :: 1 <= i < |ps| ==> ps[i] == ps[1..][i - 1];
      IsVaList(ps[1..])
  }

  /** `Get...ArrayRegion` and `Set...ArrayRegion`: (array, start, len, buf) accessors. */
  predicate IsArrayRegion(m: Method) {
    EndsWith(m.name, "ArrayRegion") && (StartsWith(m.name, "Get") || StartsWith(m.name, "Set"))
  }

  /** `Call...A` and `New...A`: calls whose arguments come as a `jvalue` array. */
  predicate IsCallFunc(m: Method)
    requires |m.params| > 0
  {
    var last := m.params[|m.params| - 1];
    (StartsWith(m.name, "Call") || StartsWith(m.name, "New")) && EndsWith(m.name, "A")
    && last.ty.isPtr && last.ty.typeName == "jvalue"
  }

  // ---------------------------------------------------------------------------
  // Parameter and argument lists

  function MapDescs(ps: seq<Param>, render: Param -> string): (r: seq<string>)
    ensures |r| == |ps| && forall i :: 0 <= i < |ps| ==> r[i] == render(ps[i])
  {
    seq(|ps|, i requires 0 <= i < |ps| => render(ps[i]))
  }

  /** The parameters that are not the isCopy flag, in order. */
  function Kept(ps: seq<Param>): (r: seq<Param>)
    ensures forall i :: 0 <= i < |r| ==> !IsCopyFlag(r[i])
    decreases |ps|
  {
    if ps == [] then []
    else Kept(ps[..|ps| - 1]) + (if IsCopyFlag(ps[|ps| - 1]) then [] else [ps[|ps| - 1]])
  }

  /** Leaving out the empty renderings is leaving out the isCopy flag, for any
      renderer that is empty exactly on that flag. */
  lemma {:induction false} NonEmptyIsKept(ps: seq<Param>, render: Param -> string)
    requires forall i :: 0 <= i < |ps| ==> (render(ps[i]) == "" <==> IsCopyFlag(ps[i]))
    ensures NonEmpty(MapDescs(ps, render)) == MapDescs(Kept(ps), render)
    decreases |ps|
  {
    if ps != [] {
      var pre := ps[..|ps| - 1];
      var ds := MapDescs(ps, render);
      assert ds[..|ds| - 1] == MapDescs(pre, render);
      assert forall i :: 0 <= i < |pre| ==> pre[i] == ps[i];
      NonEmptyIsKept(pre, render);
      if !IsCopyFlag(ps[|ps| - 1]) {
        assert MapDescs(Kept(pre) + [ps[|ps| - 1]], render) == MapDescs(Kept(pre), render) + [ds[|ds| - 1]];
      }
    }
  }

  /** C parameter list of a stub (what methodOutput.paramList writes). */
  function CParamText(m: Method): string {
    if |m.params| == 0 then "void" else CommaList(MapDescs(m.params, CParamDesc))
  }

  /** C argument list of a stub's call (what methodOutput.callList writes). */
  function CCallText(m: Method): string {
    if |m.params| == 0 then "" else CommaList(MapDescs(m.params, CCallDesc))
  }

  /** Parameter counts for which the Go signature can be formed (Go's slicing
      panics otherwise). */
  predicate GoSignatureDefined(m: Method) {
    |m.params| > 0 && (IsArrayRegion(m) && |m.params| > 1 ==> |m.params| >= 3)
  }

  /** Parameter counts for which the Go call can be formed. */
  predicate GoCallDefined(m: Method) {
    IsArrayRegion(m) && |m.params| > 0 ==> |m.params| >= 2
  }

  /** Go parameter list of a binding (what methodGoOutput.paramList writes): the
      first parameter becomes the receiver; an array-region accessor's count and
      buffer become one slice, and a call function's `jvalue` array becomes a
      variadic `...Jvalue`. */
  function GoParamText(m: Method): string
    requires GoSignatureDefined(m)
  {
    var n := |m.params|;
    if n == 1 then ""
    else
      var last := m.params[n - 1];
      if IsArrayRegion(m) then
        CommaList(MapDescs(m.params[1..n - 2], GoParamDesc)) + ", " + GoSliceParamDesc(last)
      else if IsCallFunc(m) then
        CommaList(MapDescs(m.params[1..n - 1], GoParamDesc)) + ", " + GoValuesParam(last)
      else
        CommaList(MapDescs(m.params[1..], GoParamDesc))
  }

  /** The variadic `jvalue` parameter of a call function's Go signature. */
  function GoValuesParam(p: Param): string {
    p.idName + " ...Jvalue"
  }

  /** The call argument that hands the `jvalue` slice to C. */
  function GoValuesArg(p: Param): string {
    "cvals(" + p.idName + ")"
  }

  /** The count argument of an array-region call: the length of the Go slice. */
  function GoCountArg(p: Param): string {
    "C.jsize(len(" + p.idName + "))"
  }

  /** The buffer argument of an array-region call: the slice as a C pointer. */
  function GoBufferArg(p: Param): string {
    GoSliceWrapper(p) + "(" + p.idName + ")"
  }

  /** Go argument list of a binding's call (what methodGoOutput.callList writes). */
  function GoCallText(m: Method): string
    requires GoCallDefined(m)
  {
    var n := |m.params|;
    if n == 0 then ""
    else
      var last := m.params[n - 1];
      if IsArrayRegion(m) then
        CommaList(MapDescs(m.params[..n - 2], GoCallDesc)) + ", " + GoCountArg(last) + ", " + GoBufferArg(last)
      else if IsCallFunc(m) then
        CommaList(MapDescs(m.params[..n - 1], GoCallDesc)) + ", " + GoValuesArg(last)
      else
        CommaList(MapDescs(m.params, GoCallDesc))
  }

  /** The prologue of a binding for one `char *` parameter: a C copy of the Go
      string, freed when the binding returns. */
  function CStringLines(p: Param): string {
    if p.ty.isPtr && p.ty.typeName == "char" then CStringCopy(p.idName) + CStringFree(p.idName) else ""
  }

  /** The line that copies Go string `id` into C memory as `cstr_id`. */
  function CStringCopy(id: string): string {
    "\tcstr_" + id + " := C.CString(" + id + ")\n"
  }

  /** The deferred line that frees `cstr_id`. */
  function CStringFree(id: string): string {
    "\tdefer C.free(unsafe.Pointer(cstr_" + id + "))\n"
  }

  /** The prologue of a binding (what prepareReturn writes), in parameter order. */
  function CStringPrelude(ps: seq<Param>): string
    decreases |ps|
  {
    if ps == [] then "" else CStringPrelude(ps[..|ps| - 1]) + CStringLines(ps[|ps| - 1])
  }

  // ---------------------------------------------------------------------------
  // Return values

  /** The Go return type of a binding, with its leading space. */
  function GoRetVal(m: Method): string {
    if !HasRetVal(m) then "" else " " + GoTypeDesc(m.ret)
  }

  /** C return expression: a `const` return type is cast away; otherwise the
      expression is unchanged. */
  function CBeforeReturn(m: Method, expr: string): (r: string)
    ensures EndsWith(r, expr)
    ensures r == expr <==> !m.ret.isConst
    ensures m.ret.isConst ==> StartsWith(r, "(" + CTypeDesc(m.ret) + ") ")
  {
    if m.ret.isConst then "(" + CTypeDesc(m.ret) + ") " + expr else expr
  }

  /** Go return expression: the C result converted to the Go return type. */
  function GoBeforeReturn(m: Method, expr: string): string {
    var t, n := m.ret, m.ret.typeName;
    if t.isPtr && n == "char" then "C.GoString(" + expr + ")"
    else if !t.isPtr && n == "jboolean" then expr + " != C.JNI_FALSE"
    else if !t.isPtr && n == "jbyte" then "byte(" + expr + ")"
    else if !t.isPtr && n == "jshort" then "int16(" + expr + ")"
    else if !t.isPtr && n == "jchar" then "uint16(" + expr + ")"
    else if !t.isPtr && (n == "jsize" || n == "jint") then "int(" + expr + ")"
    else if !t.isPtr && n == "jlong" then "int64(" + expr + ")"
    else if !t.isPtr && n == "jfloat" then "float32(" + expr + ")"
    else if !t.isPtr && n == "jdouble" then "float64(" + expr + ")"
    else if !t.isPtr && n in RefTypeNames then "J" + n[1..] + "(" + expr + ")"
    else if !t.isPtr && n in IdTypeNames then "J" + n[1..] + "(unsafe.Pointer(" + expr + "))"
    else expr
  }

  /** The return conversion produces the Go return type the signature declares:
      a conversion to that type for scalars and handles, through unsafe.Pointer
      for IDs. */
  lemma GoReturnConverts(m: Method, expr: string)
    ensures !m.ret.isPtr && (m.ret.typeName in NumericTypeNames || m.ret.typeName in RefTypeNames) ==>
      GoBeforeReturn(m, expr) == GoTypeDesc(m.ret) + "(" + expr + ")"
    ensures !m.ret.isPtr && m.ret.typeName in IdTypeNames ==>
      GoBeforeReturn(m, expr) == GoTypeDesc(m.ret) + "(unsafe.Pointer(" + expr + "))"
  {
    var n := m.ret.typeName;
    if !m.ret.isPtr && n in RefTypeNames {
      assert n !in NumericTypeNames && n != "jboolean";
    }
    if !m.ret.isPtr && n in IdTypeNames {
      assert n !in NumericTypeNames && n !in RefTypeNames && n != "jboolean";
    }
  }

  /** A comparison with JNI_FALSE for bool, C.GoString for string; any other
      result is returned as it is, where the Go type is the cgo type. */
  lemma GoReturnSpecialCases(m: Method, expr: string)
    ensures !m.ret.isPtr && m.ret.typeName == "jboolean" ==>
      GoTypeDesc(m.ret) == "bool" && GoBeforeReturn(m, expr) == expr + " != C.JNI_FALSE"
    ensures m.ret.isPtr && m.ret.typeName == "char" ==>
      GoTypeDesc(m.ret) == "string" && GoBeforeReturn(m, expr) == "C.GoString(" + expr + ")"
    ensures GoTypeDesc(m.ret) == CgoTypeRef(m.ret) && !(m.ret.isPtr && m.ret.typeName == "char") ==>
      GoBeforeReturn(m, expr) == expr
  {
  }

  // ---------------------------------------------------------------------------
  // The rendering loops

  /** The loop shared by paramList and callList in both renderings: each
      parameter's text, skipping empty ones, with ", " before every entry whose
      index is not 0. */
  method WriteEntries(ps: seq<Param>, render: Param -> string) returns (s: string)
    ensures s == CommaList(MapDescs(ps, render))
  {
    ghost var ds := MapDescs(ps, render);
    var buf := new Buffer();
    for i := 0 to |ps|
      invariant buf.contents == CommaList(ds[..i])
    {
      CommaListSnoc(ds, i);
      var desc := render(ps[i]);
      assert desc == ds[i];
      if desc == "" {
        continue;
      }
      ghost var before := buf.contents;
      if i > 0 {
        buf.Write(", ");
      }
      buf.Write(desc);
      if i > 0 {
        ConcatAssoc(before, ", ", desc);
      }
    }
    assert ds[..|ps|] == ds;
    s := buf.contents;
  }

  /** methodOutput.paramList. */
  method CParamList(m: Method) returns (s: string)
    ensures s == CParamText(m)
  {
    if |m.params| == 0 {
      return "void";
    }
    s := WriteEntries(m.params, CParamDesc);
  }

  /** methodOutput.callList. */
  method CCallList(m: Method) returns (s: string)
    ensures s == CCallText(m)
  {
    if |m.params| == 0 {
      return "";
    }
    s := WriteEntries(m.params, CCallDesc);
  }

  /** methodGoOutput.paramList. */
  method GoParamList(m: Method) returns (s: string)
    requires GoSignatureDefined(m)
    ensures s == GoParamText(m)
  {
    var n := |m.params|;
    if n == 1 {
      return "";
    }
    var ps: seq<Param>;
    if IsArrayRegion(m) {
      ps := m.params[1..n - 2];
    } else if IsCallFunc(m) {
      ps := m.params[1..n - 1];
    } else {
      ps := m.params[1..];
    }
    s := WriteEntries(ps, GoParamDesc);
    if IsArrayRegion(m) {
      s := s + ", " + GoSliceParamDesc(m.params[n - 1]);
    } else if IsCallFunc(m) {
      s := s + ", " + GoValuesParam(m.params[n - 1]);
    }
  }

  /** methodGoOutput.callList. */
  method GoCallList(m: Method) returns (s: string)
    requires GoCallDefined(m)
    ensures s == GoCallText(m)
  {
    var n := |m.params|;
    if n == 0 {
      return "";
    }
    var ps: seq<Param>;
    if IsArrayRegion(m) {
      ps := m.params[..n - 2];
    } else if IsCallFunc(m) {
      ps := m.params[..n - 1];
    } else {
      ps := m.params;
    }
    s := WriteEntries(ps, GoCallDesc);
    var last := m.params[n - 1];
    if IsArrayRegion(m) {
      s := s + ", " + GoCountArg(last);
      s := s + ", " + GoBufferArg(last);
    } else if IsCallFunc(m) {
      s := s + ", " + GoValuesArg(last);
    }
  }

  /** methodGoOutput.prepareReturn: writes the binding's prologue into the caller's buffer. */
  method PrepareReturn(m: Method, buf: Buffer)
    modifies buf
    ensures buf.contents == old(buf.contents) + CStringPrelude(m.params)
  {
    var ps := m.params;
    ghost var start := buf.contents;
    for i := 0 to |ps|
      invariant buf.contents == start + CStringPrelude(ps[..i])
    {
      var p := ps[i];
      CStringPreludeSnoc(ps, i);
      ConcatAssoc(start, CStringPrelude(ps[..i]), CStringLines(p));
      ghost var before := buf.contents;
      if p.ty.isPtr && p.ty.typeName == "char" {
        var copy, free := CStringCopy(p.idName), CStringFree(p.idName);
        buf.Write(copy);
        buf.Write(free);
        ConcatAssoc(before, copy, free);
      }
      assert buf.contents == before + CStringLines(p);
    }
    assert ps[..|ps|] == ps;
  }

  lemma CStringPreludeSnoc(ps: seq<Param>, k: nat)
    requires k < |ps|
    ensures CStringPrelude(ps[..k + 1]) == CStringPrelude(ps[..k]) + CStringLines(ps[k])
  {
    assert ps[..k + 1][..k] == ps[..k];
  }

  // ---------------------------------------------------------------------------
  // Properties of the rendered lists

  /** The isCopy flag is left out of a stub's C signature: the signature is the
      ", "-join of the other parameters (given that the first parameter, the
      environment, is not the flag). */
  lemma CSignatureOmitsIsCopy(m: Method)
    requires |m.params| > 0 && !IsCopyFlag(m.params[0])
    ensures CParamText(m) == Join(MapDescs(Kept(m.params), CParamDesc), ", ")
  {
    CommaListIsJoin(MapDescs(m.params, CParamDesc));
    NonEmptyIsKept(m.params, CParamDesc);
  }

  /** A stub's C call keeps one argument per declared parameter, `NULL` in the
      place of the isCopy flag. */
  lemma CCallPassesNull(m: Method)
    requires forall i :: 0 <= i < |m.params| ==> m.params[i].idName != ""
    ensures CCallText(m) == Join(MapDescs(m.params, CCallDesc), ", ")
    ensures forall i :: 0 <= i < |m.params| && IsCopyFlag(m.params[i]) ==>
      MapDescs(m.params, CCallDesc)[i] == "NULL"
  {
    CommaListOfNonEmpty(MapDescs(m.params, CCallDesc));
  }

  /** For a method of no special shape, the Go signature is the ", "-join of the
      parameters after the receiver, without the isCopy flag. */
  lemma GoSignatureOmitsIsCopy(m: Method)
    requires |m.params| >= 2 && !IsArrayRegion(m) && !IsCallFunc(m)
    requires !IsCopyFlag(m.params[1])
    ensures GoParamText(m) == Join(MapDescs(Kept(m.params[1..]), GoParamDesc), ", ")
  {
    CommaListIsJoin(MapDescs(m.params[1..], GoParamDesc));
    NonEmptyIsKept(m.params[1..], GoParamDesc);
  }

  /** For a method of no special shape, the Go call passes the receiver and
      every other parameter, and nothing for the isCopy flag. */
  lemma GoCallOmitsIsCopy(m: Method)
    requires |m.params| > 0 && !IsArrayRegion(m) && !IsCallFunc(m)
    requires forall i :: 0 <= i < |m.params| ==> m.params[i].idName != ""
    requires !IsCopyFlag(m.params[0])
    ensures GoCallText(m) == Join(MapDescs(Kept(m.params), GoCallDesc), ", ")
  {
    CommaListIsJoin(MapDescs(m.params, GoCallDesc));
    NonEmptyIsKept(m.params, GoCallDesc);
  }

  /** An array-region accessor's Go signature lists the parameters between the
      receiver and the count, then the buffer as a slice. */
  lemma ArrayRegionSignature(m: Method)
    requires IsArrayRegion(m) && |m.params| >= 4
    requires forall i :: 1 <= i < |m.params| - 2 ==> !IsCopyFlag(m.params[i])
    ensures var n := |m.params|;
      GoParamText(m) ==
        Join(MapDescs(m.params[1..n - 2], GoParamDesc) + [GoSliceParamDesc(m.params[n - 1])], ", ")
  {
    var n := |m.params|;
    var ds := MapDescs(m.params[1..n - 2], GoParamDesc);
    CommaListOfNonEmpty(ds);
    JoinSnoc(ds, GoSliceParamDesc(m.params[n - 1]), ", ");
  }

  /** An array-region accessor's Go call keeps the declaration's arity: the
      parameters up to the start index, then the count taken from the slice's
      length, then the slice's storage as a C pointer. */
  lemma ArrayRegionCall(m: Method)
    requires IsArrayRegion(m) && |m.params| >= 3
    requires forall i :: 0 <= i < |m.params| - 2 ==> !IsCopyFlag(m.params[i]) && m.params[i].idName != ""
    ensures var n := |m.params|; var last := m.params[n - 1];
      var args := MapDescs(m.params[..n - 2], GoCallDesc) + [GoCountArg(last), GoBufferArg(last)];
      |args| == n && GoCallText(m) == Join(args, ", ")
  {
    var n := |m.params|;
    var last := m.params[n - 1];
    var ds := MapDescs(m.params[..n - 2], GoCallDesc);
    CommaListOfNonEmpty(ds);
    JoinSnoc(ds, GoCountArg(last), ", ");
    JoinSnoc(ds + [GoCountArg(last)], GoBufferArg(last), ", ");
    assert ds + [GoCountArg(last)] + [GoBufferArg(last)] == ds + [GoCountArg(last), GoBufferArg(last)];
  }

  /** A call function's Go signature ends with the `jvalue` array as `...Jvalue`,
      and its call hands that array to C through cvals. */
  lemma CallFuncRendering(m: Method)
    requires |m.params| >= 3 && !IsArrayRegion(m) && IsCallFunc(m)
    requires forall i :: 0 <= i < |m.params| - 1 ==> !IsCopyFlag(m.params[i]) && m.params[i].idName != ""
    ensures var n := |m.params|; var last := m.params[n - 1];
      GoParamText(m) == Join(MapDescs(m.params[1..n - 1], GoParamDesc) + [GoValuesParam(last)], ", ")
      && GoCallText(m) == Join(MapDescs(m.params[..n - 1], GoCallDesc) + [GoValuesArg(last)], ", ")
  {
    var n := |m.params|;
    var last := m.params[n - 1];
    var ds := MapDescs(m.params[1..n - 1], GoParamDesc);
    var cs := MapDescs(m.params[..n - 1], GoCallDesc);
    CommaListOfNonEmpty(ds);
    CommaListOfNonEmpty(cs);
    JoinSnoc(ds, GoValuesParam(last), ", ");
    JoinSnoc(cs, GoValuesArg(last), ", ");
  }

  /** The binding's prologue is empty exactly when no parameter is a `char *`. */
  lemma {:induction false} CStringPreludeEmpty(ps: seq<Param>)
    ensures CStringPrelude(ps) == "" <==>
      forall i :: 0 <= i < |ps| ==> !(ps[i].ty.isPtr && ps[i].ty.typeName == "char")
    decreases |ps|
  {
    if ps != [] {
      var pre := ps[..|ps| - 1];
      CStringPreludeEmpty(pre);
      assert forall i :: 0 <= i < |pre| ==> pre[i] == ps[i];
    }
  }

  /** The prologue of a list of parameters is the prologue of its parts, in order. */
  lemma {:induction false} CStringPreludeAppend(a: seq<Param>, b: seq<Param>)
    ensures CStringPrelude(a + b) == CStringPrelude(a) + CStringPrelude(b)
    decreases |b|
  {
    if b == [] {
      assert a + b == a;
    } else {
      var pre := b[..|b| - 1];
      assert (a + b)[..|a + b| - 1] == a + pre;
      CStringPreludeAppend(a, pre);
      ConcatAssoc(CStringPrelude(a), CStringPrelude(pre), CStringLines(b[|b| - 1]));
    }
  }

  /** Each parameter contributes its own lines in its own place: a `char *`
      parameter its copy and free lines, any other parameter nothing. */
  lemma CStringPreludeAt(ps: seq<Param>, i: nat)
    requires i < |ps|
    ensures CStringPrelude(ps) == CStringPrelude(ps[..i]) + (CStringLines(ps[i]) + CStringPrelude(ps[i + 1..]))
  {
    var upto, back := ps[..i + 1], ps[i + 1..];
    assert ps == upto + back;
    CStringPreludeAppend(upto, back);
    CStringPreludeSnoc(ps, i);
    ConcatAssoc(CStringPrelude(ps[..i]), CStringLines(ps[i]), CStringPrelude(back));
  }
}

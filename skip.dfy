/** The suppression policy: the JNI functions for which no C stub and no Go
    binding are generated, and those for which only the Go binding is left out. */
module Skip {

  /** Functions the generator leaves out of both sections, in declaration order. */
  const SkipList: seq<string> := [
    "DefineClass",
    "NewStringUTF", "GetStringChars", "ReleaseStringChars", "GetStringCritical",
    "ReleaseStringCritical", "GetStringRegion", "GetStringUTFChars", "ReleaseStringUTFChars",
    "GetBooleanArrayElements", "GetByteArrayElements", "GetCharArrayElements",
    "GetShortArrayElements", "GetIntArrayElements", "GetLongArrayElements",
    "GetFloatArrayElements", "GetDoubleArrayElements",
    "ReleaseBooleanArrayElements", "ReleaseByteArrayElements", "ReleaseCharArrayElements",
    "ReleaseShortArrayElements", "ReleaseIntArrayElements", "ReleaseLongArrayElements",
    "ReleaseFloatArrayElements", "ReleaseDoubleArrayElements",
    "RegisterNatives", "UnregisterNatives",
    "GetObjectRefType"
  ]

  /** Functions that keep their C stub but get no Go binding. */
  const GoSkipList: seq<string> := [
    "NewString", "NewStringUTF", "GetStringUTFLength", "GetStringUTFRegion",
    "NewDirectByteBuffer", "GetDirectBufferAddress", "GetDirectBufferCapacity"
  ]

  /** containsInSkipList: a scan of `list` that stops at the first entry equal to `s`. */
  function ContainsInSkipList(s: string, list: seq<string>): (r: bool)
    ensures r <==> s in list
    decreases |list|
  {
    if list == [] then false
    else if s == list[0] then true
    else
      assert list == [list[0]] + list[1..];
      ContainsInSkipList(s, list[1..])
  }

  /** The answer depends only on which names the list holds: not on their
      order, nor on how often each appears. */
  lemma MembershipIgnoresOrder(s: string, a: seq<string>, b: seq<string>)
    requires forall x :: x in a <==> x in b
    ensures ContainsInSkipList(s, a) == ContainsInSkipList(s, b)
  {
  }

  /** The scan over two lists joined is the scan over either. */
  lemma {:induction false} ContainsInConcat(s: string, a: seq<string>, b: seq<string>)
    ensures ContainsInSkipList(s, a + b) == (ContainsInSkipList(s, a) || ContainsInSkipList(s, b))
    decreases |a|
  {
    if a == [] {
      assert a + b == b;
    } else {
      assert (a + b)[0] == a[0];
      assert (a + b)[1..] == a[1..] + b;
      ContainsInConcat(s, a[1..], b);
    }
  }

  /** The empty list holds nothing. */
  lemma EmptyListHoldsNothing(s: string)
    ensures !ContainsInSkipList(s, [])
  {
  }

  /** The lists as written: 28 and 7 names, none repeated. */
  lemma ListSizes()
    ensures |SkipList| == 28 && |GoSkipList| == 7
    ensures forall i, j :: 0 <= i < j < |SkipList| ==> SkipList[i] != SkipList[j]
    ensures forall i, j :: 0 <= i < j < |GoSkipList| ==> GoSkipList[i] != GoSkipList[j]
  {
  }

  /** `NewStringUTF` is in both lists, so they overlap. */
  lemma ListsOverlap()
    ensures "NewStringUTF" in SkipList && "NewStringUTF" in GoSkipList
  {
    assert SkipList[1] == "NewStringUTF";
    assert GoSkipList[1] == "NewStringUTF";
  }

  /** Class definition, native registration and the reference-type query are
      suppressed everywhere. */
  lemma FullySkipped()
    ensures "DefineClass" in SkipList
    ensures "RegisterNatives" in SkipList
    ensures "GetObjectRefType" in SkipList
  {
    assert SkipList[0] == "DefineClass";
    assert SkipList[25] == "RegisterNatives";
    assert SkipList[27] == "GetObjectRefType";
  }

  /** The direct-buffer (NIO) functions are suppressed in the Go section only. */
  lemma NioOnlyInGoSkipList(n: string)
    requires n == "NewDirectByteBuffer" || n == "GetDirectBufferAddress" || n == "GetDirectBufferCapacity"
    ensures n in GoSkipList && n !in SkipList
  {
    if n == "NewDirectByteBuffer" {
      NewDirectByteBufferGoOnly();
    } else if n == "GetDirectBufferAddress" {
      GetDirectBufferAddressGoOnly();
    } else {
      GetDirectBufferCapacityGoOnly();
    }
  }

  lemma NewDirectByteBufferGoOnly()
    ensures "NewDirectByteBuffer" in GoSkipList && "NewDirectByteBuffer" !in SkipList
  {
    assert GoSkipList[4] == "NewDirectByteBuffer";
  }

  lemma GetDirectBufferAddressGoOnly()
    ensures "GetDirectBufferAddress" in GoSkipList && "GetDirectBufferAddress" !in SkipList
  {
    assert GoSkipList[5] == "GetDirectBufferAddress";
  }

  lemma GetDirectBufferCapacityGoOnly()
    ensures "GetDirectBufferCapacity" in GoSkipList && "GetDirectBufferCapacity" !in SkipList
  {
    assert GoSkipList[6] == "GetDirectBufferCapacity";
  }
}

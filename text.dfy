/** Character classes, scanners and string helpers shared by the generator's
    parser and renderers. Text is a sequence of Unicode scalar values, so a
    Go byte slice holding well-formed UTF-8 corresponds to its decoding. */
module Text {

  /** `\w` in Go's regexp syntax: an ASCII letter, digit or underscore. */
  predicate IsWordChar(c: char) {
    ('a' <= c <= 'z') || ('A' <= c <= 'Z') || ('0' <= c <= '9') || c == '_'
  }

  /** A non-empty run of word characters: what `^\w+` can match as a whole. */
  predicate IsWord(s: string) {
    |s| > 0 && forall i :: 0 <= i < |s| ==> IsWordChar(s[i])
  }

  /** Go's unicode.IsSpace: the Latin-1 spaces and the other White_Space code points. */
  predicate IsSpace(c: char) {
    var n := c as int;
    (9 <= n <= 13) || n == 32 || n == 0x85 || n == 0xA0 || n == 0x1680
    || (0x2000 <= n <= 0x200A) || n == 0x2028 || n == 0x2029
    || n == 0x202F || n == 0x205F || n == 0x3000
  }

  /** unicode.IsSpace applied to the first BYTE of a character's UTF-8 form:
      a multi-byte character starts with a byte of 0xC2 or more, which is never
      a space, so only the ASCII spaces qualify. */
  predicate IsAsciiSpace(c: char) {
    var n := c as int;
    (9 <= n <= 13) || n == 32
  }

  /** `\s` in Go's regexp syntax: tab, newline, form feed, carriage return, space (no vertical tab). */
  predicate IsRegexSpace(c: char) {
    var n := c as int;
    n == 9 || n == 10 || n == 12 || n == 13 || n == 32
  }

  predicate StartsWith(s: string, prefix: string) {
    |prefix| <= |s| && s[..|prefix|] == prefix
  }

  predicate EndsWith(s: string, suffix: string) {
    |suffix| <= |s| && s[|s| - |suffix|..] == suffix
  }

  /** Length of the longest prefix of word characters (the match of `^\w+`, 0 when there is none). */
  function WordLen(s: string): (k: nat)
    ensures k <= |s|
    ensures forall i :: 0 <= i < k ==> IsWordChar(s[i])
    ensures k < |s| ==> !IsWordChar(s[k])
  {
    if |s| > 0 && IsWordChar(s[0]) then 1 + WordLen(s[1..]) else 0
  }

  /** Length of the longest prefix of `\s` characters. */
  function RegexSpaceLen(s: string): (k: nat)
    ensures k <= |s|
    ensures forall i :: 0 <= i < k ==> IsRegexSpace(s[i])
    ensures k < |s| ==> !IsRegexSpace(s[k])
  {
    if |s| > 0 && IsRegexSpace(s[0]) then 1 + RegexSpaceLen(s[1..]) else 0
  }

  /** bytes.TrimLeftFunc(s, unicode.IsSpace). */
  function TrimLeft(s: string): (r: string)
    ensures |r| <= |s|
    ensures r == [] || !IsSpace(r[0])
  {
    if |s| > 0 && IsSpace(s[0]) then TrimLeft(s[1..]) else s
  }

  /** What TrimLeft removes is a run of spaces, and what it keeps is the rest. */
  lemma {:induction false} TrimLeftRemovesSpaces(s: string)
    ensures TrimLeft(s) == s[|s| - |TrimLeft(s)|..]
    ensures forall i :: 0 <= i < |s| - |TrimLeft(s)| ==> IsSpace(s[i])
    decreases |s|
  {
    if |s| > 0 && IsSpace(s[0]) {
      TrimLeftRemovesSpaces(s[1..]);
    }
  }

  /** The counterpart of TrimLeft at the end of the text. */
  function TrimRight(s: string): (r: string)
    ensures |r| <= |s| && r == s[..|r|]
    ensures r == [] || !IsSpace(r[|r| - 1])
    ensures forall i :: |r| <= i < |s| ==> IsSpace(s[i])
  {
    if |s| > 0 && IsSpace(s[|s| - 1]) then TrimRight(s[..|s| - 1]) else s
  }

  /** strings.TrimSpace: both ends trimmed; the result is a contiguous part of `s`. */
  function TrimSpace(s: string): (r: string)
    ensures r == [] || (!IsSpace(r[0]) && !IsSpace(r[|r| - 1]))
    ensures |s| > 0 && !IsSpace(s[0]) && !IsSpace(s[|s| - 1]) ==> r == s
  {
    TrimRight(TrimLeft(s))
  }

  /** TrimSpace keeps a contiguous part of `s` and removes only spaces, on both sides. */
  lemma TrimSpaceRemovesSpaces(s: string)
    ensures exists i, j ::
      (0 <= i <= j <= |s| && TrimSpace(s) == s[i..j]
       && (forall k :: 0 <= k < i ==> IsSpace(s[k])) && (forall k :: j <= k < |s| ==> IsSpace(s[k])))
  {
    var t := TrimLeft(s);
    TrimLeftRemovesSpaces(s);
    var i := |s| - |t|;
    var j := i + |TrimSpace(s)|;
    assert TrimSpace(s) == t[..|TrimSpace(s)|];
    assert t[..|TrimSpace(s)|] == s[i..j];
    assert forall k :: j <= k < |s| ==> s[k] == t[k - i];
  }

  /** Whitespace in front of a text does not survive TrimLeft. */
  lemma {:induction false} TrimLeftSkipsSpaces(ws: string, s: string)
    requires forall i :: 0 <= i < |ws| ==> IsSpace(ws[i])
    ensures TrimLeft(ws + s) == TrimLeft(s)
  {
    if ws != [] {
      assert (ws + s)[0] == ws[0];
      assert (ws + s)[1..] == ws[1..] + s;
      TrimLeftSkipsSpaces(ws[1..], s);
    } else {
      assert ws + s == s;
    }
  }

  /** Index of the first `c` in `s`, or |s| when there is none. */
  function IndexOf(s: string, c: char): (k: nat)
    ensures k <= |s| && c !in s[..k]
    ensures k < |s| ==> s[k] == c
  {
    if |s| == 0 then 0
    else if s[0] == c then 0
    else
      assert s[..1 + IndexOf(s[1..], c)] == [s[0]] + s[1..][..IndexOf(s[1..], c)];
      1 + IndexOf(s[1..], c)
  }

  /** strings.Split(s, string(sep)): the pieces between the occurrences of `sep`,
      always at least one. */
  function Split(s: string, sep: char): (r: seq<string>)
    ensures |r| >= 1
    ensures forall i :: 0 <= i < |r| ==> sep !in r[i]
    decreases |s|
  {
    var k := IndexOf(s, sep);
    if k == |s| then
      assert s[..k] == s;
      [s]
    else [s[..k]] + Split(s[k + 1..], sep)
  }

  /** strings.Join: the pieces with `sep` between consecutive ones. */
  function Join(ps: seq<string>, sep: string): string
    decreases |ps|
  {
    if ps == [] then ""
    else if |ps| == 1 then ps[0]
    else ps[0] + sep + Join(ps[1..], sep)
  }

  lemma {:induction false} JoinSnoc(ps: seq<string>, p: string, sep: string)
    requires ps != []
    ensures Join(ps + [p], sep) == Join(ps, sep) + sep + p
    decreases |ps|
  {
    if |ps| == 1 {
      assert ps + [p] == [ps[0], p];
    } else {
      assert (ps + [p])[1..] == ps[1..] + [p];
      JoinSnoc(ps[1..], p, sep);
    }
  }

  /** Splitting at a separator that follows a separator-free piece. */
  lemma SplitAtFirst(a: string, sep: char, b: string)
    requires sep !in a
    ensures Split(a + [sep] + b, sep) == [a] + Split(b, sep)
  {
    var s := a + [sep] + b;
    assert s[..|a|] == a;
    assert s[|a|] == sep;
    var k := IndexOf(s, sep);
    assert k == |a|;
    assert s[k + 1..] == b;
  }

  /** Splitting the concatenation of two texts around one separator splits each of them. */
  lemma {:induction false} SplitAppend(a: string, sep: char, b: string)
    ensures Split(a + [sep] + b, sep) == Split(a, sep) + Split(b, sep)
    decreases |a|
  {
    var k := IndexOf(a, sep);
    if k == |a| {
      assert a[..k] == a;
      SplitAtFirst(a, sep, b);
    } else {
      var head, tail := a[..k], a[k + 1..];
      assert a == head + [sep] + tail;
      SplitAppend(tail, sep, b);
      SplitAfterHead(head, sep, tail, b);
    }
  }

  /** The inductive step of SplitAppend: the first piece is split off on both sides. */
  lemma SplitAfterHead(head: string, sep: char, tail: string, b: string)
    requires sep !in head
    requires Split(tail + [sep] + b, sep) == Split(tail, sep) + Split(b, sep)
    ensures Split(head + [sep] + tail + [sep] + b, sep) == Split(head + [sep] + tail, sep) + Split(b, sep)
  {
    var h := head + [sep];
    var rest := tail + [sep] + b;
    ConcatAssoc(h, tail, [sep]);
    ConcatAssoc(h, tail + [sep], b);
    var whole := h + tail + [sep] + b;
    assert whole == h + rest;
    SplitAtFirst(head, sep, rest);
    SplitAtFirst(head, sep, tail);
    PiecesAssoc([head], Split(tail, sep), Split(b, sep));
  }

  lemma PiecesAssoc(a: seq<string>, b: seq<string>, c: seq<string>)
    ensures a + (b + c) == a + b + c
  {
  }

  /** Split and Join are inverse on pieces that do not contain the separator. */
  lemma {:induction false} SplitJoin(ps: seq<string>, sep: char)
    requires ps != []
    requires forall i :: 0 <= i < |ps| ==> sep !in ps[i]
    ensures Split(Join(ps, [sep]), sep) == ps
    decreases |ps|
  {
    if |ps| == 1 {
      assert IndexOf(ps[0], sep) == |ps[0]|;
      assert ps[0][..|ps[0]|] == ps[0];
    } else {
      assert Join(ps, [sep]) == ps[0] + [sep] + Join(ps[1..], [sep]);
      SplitAtFirst(ps[0], sep, Join(ps[1..], [sep]));
      SplitJoin(ps[1..], sep);
    }
  }

  /** One entry of a rendered list: an empty entry is left out, a non-empty one
      is preceded by ", " unless its INDEX is 0. */
  function Entry(i: nat, d: string): string {
    if d == "" then "" else if i > 0 then ", " + d else d
  }

  /** What the renderers' loops write for a list of entry texts: the separator
      is decided by the entry's index, not by whether anything was written
      before it. */
  function CommaList(ds: seq<string>): string
    decreases |ds|
  {
    if ds == [] then "" else CommaList(ds[..|ds| - 1]) + Entry(|ds| - 1, ds[|ds| - 1])
  }

  lemma CommaListSnoc(ds: seq<string>, i: nat)
    requires i < |ds|
    ensures CommaList(ds[..i + 1]) == CommaList(ds[..i]) + Entry(i, ds[i])
  {
    assert ds[..i + 1][..i] == ds[..i];
  }

  /** The non-empty entries of `ds`, in order. */
  function NonEmpty(ds: seq<string>): (r: seq<string>)
    ensures forall i :: 0 <= i < |r| ==> r[i] != ""
    decreases |ds|
  {
    if ds == [] then []
    else NonEmpty(ds[..|ds| - 1]) + (if ds[|ds| - 1] == "" then [] else [ds[|ds| - 1]])
  }

  lemma {:induction false} NonEmptyKeepsFirst(ds: seq<string>)
    requires ds != [] && ds[0] != ""
    ensures NonEmpty(ds) != [] && NonEmpty(ds)[0] == ds[0]
    decreases |ds|
  {
    if |ds| > 1 {
      var pre := ds[..|ds| - 1];
      assert pre[0] == ds[0];
      NonEmptyKeepsFirst(pre);
    }
  }

  lemma {:induction false} NonEmptyOfAllNonEmpty(ds: seq<string>)
    requires forall i :: 0 <= i < |ds| ==> ds[i] != ""
    ensures NonEmpty(ds) == ds
    decreases |ds|
  {
    if ds != [] {
      var pre := ds[..|ds| - 1];
      NonEmptyOfAllNonEmpty(pre);
      assert ds == pre + [ds[|ds| - 1]];
    }
  }

  /** When the first entry is not elided, the loop's output is the ordinary
      ", "-join of the entries that are not empty. */
  lemma {:induction false} CommaListIsJoin(ds: seq<string>)
    requires ds == [] || ds[0] != ""
    ensures CommaList(ds) == Join(NonEmpty(ds), ", ")
    decreases |ds|
  {
    if |ds| == 1 {
      assert ds[..0] == [];
    } else if |ds| > 1 {
      var pre, d := ds[..|ds| - 1], ds[|ds| - 1];
      assert pre[0] == ds[0];
      CommaListIsJoin(pre);
      assert CommaList(ds) == CommaList(pre) + Entry(|pre|, d);
      assert NonEmpty(ds) == NonEmpty(pre) + (if d == "" then [] else [d]);
      if d != "" {
        NonEmptyKeepsFirst(pre);
        JoinSnoc(NonEmpty(pre), d, ", ");
      } else {
        assert NonEmpty(ds) == NonEmpty(pre);
      }
    }
  }

  /** With no empty entry at all, the loop's output is exactly the ", "-join. */
  lemma CommaListOfNonEmpty(ds: seq<string>)
    requires forall i :: 0 <= i < |ds| ==> ds[i] != ""
    ensures CommaList(ds) == Join(ds, ", ")
  {
    NonEmptyOfAllNonEmpty(ds);
    CommaListIsJoin(ds);
  }

  /** The consequence of the index-based separator: when the entry at index 0
      is elided, the text starts with a separator. */
  lemma ElidedFirstEntryLeavesSeparator(d: string)
    requires d != ""
    ensures CommaList(["", d]) == ", " + d
  {
    assert ["", d][..1] == [""];
    assert [""][..0] == [];
  }

  /** Concatenation regroups freely. */
  lemma ConcatAssoc(a: string, b: string, c: string)
    ensures a + b + c == a + (b + c)
  {
  }

  /** A growable text buffer (Go's bytes.Buffer): every write appends. */
  class Buffer {
    var contents: string

    constructor ()
      ensures contents == ""
    {
      contents := "";
    }

    method Write(s: string)
      modifies this
      ensures contents == old(contents) + s
    {
      contents := contents + s;
    }
  }
}

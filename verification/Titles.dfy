/**
 * Directory names in the vault: UTF-8 bounded truncation, title sanitizing, and the lookup
 * of a video's directory by its id. Text is a sequence of Unicode scalar values.
 */
module Titles {
  import opened Domain

  type CodePoint = c: int | 0 <= c < 0x110000 && !(0xD800 <= c < 0xE000) witness 0

  type Text = seq<CodePoint>

  const SPACE: CodePoint := 0x20
  const DOT: CodePoint := 0x2E
  const HYPHEN: CodePoint := 0x2D

  // ---------------------------------------------------------------------- UTF-8 --

  /** Section 3 of RFC 3629. */
  function Utf8(c: CodePoint): seq<int> {
    if c < 0x80 then [c]
    else if c < 0x800 then [0xC0 + c / 64, 0x80 + c % 64]
    else if c < 0x10000 then [0xE0 + c / 64 / 64, 0x80 + c / 64 % 64, 0x80 + c % 64]
    else [0xF0 + c / 64 / 64 / 64, 0x80 + c / 64 / 64 % 64, 0x80 + c / 64 % 64, 0x80 + c % 64]
  }

  function Width(c: CodePoint): nat {
    |Utf8(c)|
  }

  function Encode(t: Text): seq<int> {
    if t == [] then [] else Utf8(t[0]) + Encode(t[1..])
  }

  /** byte & 0xC0 == 0x80 */
  predicate IsContinuation(b: int) {
    0x80 <= b < 0xC0
  }

  const REPLACEMENT: CodePoint := 0xFFFD

  function Checked(c: int): CodePoint {
    if 0 <= c < 0x110000 && !(0xD800 <= c < 0xE000) then c else REPLACEMENT
  }

  function Decode(bytes: seq<int>): Text {
    if bytes == [] then []
    else if bytes[0] < 0x80 then [Checked(bytes[0])] + Decode(bytes[1..])
    else if 0xC0 <= bytes[0] < 0xE0 && |bytes| >= 2 then
      [Checked((bytes[0] - 0xC0) * 64 + (bytes[1] - 0x80))] + Decode(bytes[2..])
    else if 0xE0 <= bytes[0] < 0xF0 && |bytes| >= 3 then
      [Checked((bytes[0] - 0xE0) * 4096 + (bytes[1] - 0x80) * 64 + (bytes[2] - 0x80))] + Decode(bytes[3..])
    else if 0xF0 <= bytes[0] && |bytes| >= 4 then
      [Checked((bytes[0] - 0xF0) * 262144 + (bytes[1] - 0x80) * 4096 + (bytes[2] - 0x80) * 64 + (bytes[3] - 0x80))] +
      Decode(bytes[4..])
    else [REPLACEMENT] + Decode(bytes[1..])
  }

  lemma DecodeTwo(c: CodePoint, rest: seq<int>)
    requires 0x80 <= c < 0x800
    ensures Decode(Utf8(c) + rest) == [c] + Decode(rest)
  {
    assert (Utf8(c) + rest)[2..] == rest;
  }

  lemma DecodeThree(c: CodePoint, rest: seq<int>)
    requires 0x800 <= c < 0x10000
    ensures Decode(Utf8(c) + rest) == [c] + Decode(rest)
  {
    assert (Utf8(c) + rest)[3..] == rest;
    Digits(c);
  }

  /** c in base 64. */
  lemma Digits(c: nat)
    ensures c == c / 64 / 64 * 4096 + c / 64 % 64 * 64 + c % 64
    ensures c == c / 64 / 64 / 64 * 262144 + c / 64 / 64 % 64 * 4096 + c / 64 % 64 * 64 + c % 64
  {
    var q := c / 64;
    var p := q / 64;
    assert c == q * 64 + c % 64 && q == p * 64 + q % 64 && p == p / 64 * 64 + p % 64;
  }

  lemma DecodeFour(c: CodePoint, rest: seq<int>)
    requires 0x10000 <= c
    ensures Decode(Utf8(c) + rest) == [c] + Decode(rest)
  {
    assert (Utf8(c) + rest)[4..] == rest;
    Digits(c);
  }

  lemma DecodeFirst(c: CodePoint, rest: seq<int>)
    ensures Decode(Utf8(c) + rest) == [c] + Decode(rest)
  {
    if c < 0x80 {
      assert (Utf8(c) + rest)[1..] == rest;
    } else if c < 0x800 {
      DecodeTwo(c, rest);
    } else if c < 0x10000 {
      DecodeThree(c, rest);
    } else {
      DecodeFour(c, rest);
    }
  }

  lemma {:induction false} DecodeEncode(t: Text)
    ensures Decode(Encode(t)) == t
  {
    if t != [] {
      DecodeFirst(t[0], Encode(t[1..]));
      DecodeEncode(t[1..]);
    }
  }

  // ----------------------------------------------------------------- truncation --

  /** The longest prefix that fits. */
  function Truncated(t: Text, maxBytes: nat): Text {
    if t == [] || Width(t[0]) > maxBytes then [] else [t[0]] + Truncated(t[1..], maxBytes - Width(t[0]))
  }

  /** No code point is split, the budget is kept, and one more code point would exceed it. */
  lemma {:induction false} TruncatedIsLongest(t: Text, maxBytes: nat)
    ensures var r := Truncated(t, maxBytes);
      && r <= t && |Encode(r)| <= maxBytes
      && Encode(r) <= Encode(t)
      && (|r| < |t| ==> |Encode(t[..|r| + 1])| > maxBytes)
      && (r == t <==> |Encode(t)| <= maxBytes)
  {
    if t != [] && Width(t[0]) <= maxBytes {
      var rest := maxBytes - Width(t[0]);
      TruncatedIsLongest(t[1..], rest);
      var r := Truncated(t[1..], rest);
      assert t == [t[0]] + t[1..];
      if |r| < |t| - 1 {
        assert t[..|r| + 2][0] == t[0] && t[..|r| + 2][1..] == t[1..][..|r| + 1];
      }
    } else if t != [] {
      assert t[..1][1..] == [];
    }
  }

  /** Shrinking the budget to what is used changes nothing. */
  lemma {:induction false} TruncatedAgain(t: Text, maxBytes: nat, budget: nat)
    requires |Encode(Truncated(t, maxBytes))| <= budget <= maxBytes
    ensures Truncated(t, budget) == Truncated(t, maxBytes)
  {
    if t != [] && Width(t[0]) <= maxBytes {
      var r := Truncated(t, maxBytes);
      assert r[1..] == Truncated(t[1..], maxBytes - Width(t[0]));
      TruncatedAgain(t[1..], maxBytes - Width(t[0]), budget - Width(t[0]));
    }
  }

  /** A byte is a continuation exactly when it is not the first of its code point. */
  lemma {:induction false} ContinuationBytes(t: Text, i: nat)
    requires i < |Encode(t)|
    ensures IsContinuation(Encode(t)[i]) <==> i != |Encode(Truncated(t, i))|
  {
    if i >= Width(t[0]) {
      ContinuationBytes(t[1..], i - Width(t[0]));
      var r := Truncated(t, i);
      assert r[1..] == Truncated(t[1..], i - Width(t[0]));
    } else {
      assert Encode(t)[i] == Utf8(t[0])[i];
    }
  }

  method TruncateUtf8(text: Text, maxBytes: nat) returns (r: Text)
    ensures r == Truncated(text, maxBytes)
  {
    var encoded := Encode(text);
    TruncatedIsLongest(text, maxBytes);
    if |encoded| <= maxBytes { return text; }
    var end := maxBytes;
    ghost var fit := |Encode(Truncated(text, maxBytes))|;
    ContinuationBytes(text, end);
    while end > 0 && IsContinuation(encoded[end])
      invariant fit <= end <= maxBytes
      invariant IsContinuation(encoded[end]) <==> end != fit
    {
      end := end - 1;
      TruncatedAgain(text, maxBytes, end);
      ContinuationBytes(text, end);
    }
    DecodeEncode(Truncated(text, maxBytes));
    assert encoded[..end] == Encode(Truncated(text, maxBytes));
    r := Decode(encoded[..end]);
  }

  // ------------------------------------------------------------------- cleaning --

  predicate Control(c: CodePoint) {
    c < 0x20
  }

  /** Slash, backslash, colon. */
  predicate Separator(c: CodePoint) {
    c == 0x2F || c == 0x5C || c == 0x3A
  }

  /** The class \s. */
  predicate White(c: CodePoint) {
    0x09 <= c <= 0x0D || c == 0x20 || c == 0xA0 || c == 0x1680 || 0x2000 <= c <= 0x200A ||
    c == 0x2028 || c == 0x2029 || c == 0x202F || c == 0x205F || c == 0x3000 || c == 0xFEFF
  }

  predicate DotOrSpace(c: CodePoint) {
    c == DOT || c == SPACE
  }

  /** Control characters removed, separators turned into spaces. */
  function Neutral(t: Text): Text {
    if t == [] then []
    else (if Control(t[0]) then [] else if Separator(t[0]) then [SPACE] else [t[0]]) + Neutral(t[1..])
  }

  /** The words of t with one space between them. */
  function Words(t: Text): Text
    decreases |t|, 1
  {
    if t == [] then [] else if White(t[0]) then Words(t[1..]) else [t[0]] + WordsAfter(t[1..])
  }

  /** The same, continuing a word. */
  function WordsAfter(t: Text): Text
    decreases |t|, 0
  {
    if t == [] then []
    else if !White(t[0]) then [t[0]] + WordsAfter(t[1..])
    else var more := Words(t[1..]); if more == [] then [] else [SPACE] + more
  }

  function StripStart(t: Text): Text {
    if t != [] && DotOrSpace(t[0]) then StripStart(t[1..]) else t
  }

  function StripEnd(t: Text): Text {
    if t != [] && DotOrSpace(t[|t| - 1]) then StripEnd(t[..|t| - 1]) else t
  }

  function Stripped(t: Text): Text {
    StripEnd(StripStart(t))
  }

  lemma {:induction false} StripStartAt(t: Text, i: nat)
    requires i <= |t| && (forall k | 0 <= k < i :: DotOrSpace(t[k])) && (i < |t| ==> !DotOrSpace(t[i]))
    ensures StripStart(t) == t[i..]
  {
    if i > 0 { StripStartAt(t[1..], i - 1); }
  }

  lemma {:induction false} StripEndAt(t: Text, j: nat)
    requires j <= |t| && (forall k | j <= k < |t| :: DotOrSpace(t[k])) && (j > 0 ==> !DotOrSpace(t[j - 1]))
    ensures StripEnd(t) == t[..j]
    decreases |t|
  {
    if j < |t| {
      StripEndAt(t[..|t| - 1], j);
    } else {
      assert t[..j] == t;
    }
  }

  method StripDotsAndSpaces(text: Text) returns (r: Text)
    ensures r == Stripped(text)
  {
    var start, end := 0, |text|;
    while start < end && DotOrSpace(text[start])
      invariant start <= end == |text| && forall k | 0 <= k < start :: DotOrSpace(text[k])
    {
      start := start + 1;
    }
    StripStartAt(text, start);
    while end > start && DotOrSpace(text[end - 1])
      invariant start <= end <= |text| && forall k | end <= k < |text| :: DotOrSpace(text[k])
    {
      end := end - 1;
    }
    StripEndAt(text[start..], end - start);
    r := text[start..end];
  }

  const UNTITLED: Text := [0x75, 0x6E, 0x74, 0x69, 0x74, 0x6C, 0x65, 0x64]

  function OrUntitled(t: Text): Text {
    if t == [] then UNTITLED else t
  }

  function Sanitized(title: Text, maxBytes: nat): Text {
    OrUntitled(Stripped(Truncated(Stripped(Words(Neutral(title))), maxBytes)))
  }

  method SanitizeComponent(title: Text, maxBytes: nat) returns (r: Text)
    ensures r == Sanitized(title, maxBytes)
  {
    var text := Words(Neutral(title));
    text := StripDotsAndSpaces(text);
    text := TruncateUtf8(text, maxBytes);
    text := StripDotsAndSpaces(text);
    r := if text == [] then UNTITLED else text;
  }

  // -------------------------------------------------------------- what it promises --

  /** No control characters, no separators, and the only white space is single spaces. */
  ghost predicate Plain(t: Text) {
    && (forall k | 0 <= k < |t| :: !Control(t[k]) && !Separator(t[k]) && (White(t[k]) ==> t[k] == SPACE))
    && (forall k | 0 <= k < |t| - 1 :: White(t[k]) ==> !White(t[k + 1]))
  }

  ghost predicate CleanEdges(t: Text) {
    t != [] ==> !DotOrSpace(t[0]) && !DotOrSpace(t[|t| - 1])
  }

  lemma {:induction false} NeutralIsNeutral(t: Text)
    ensures forall k | 0 <= k < |Neutral(t)| :: !Control(Neutral(t)[k]) && !Separator(Neutral(t)[k])
  {
    if t != [] { NeutralIsNeutral(t[1..]); }
  }

  lemma {:induction false} WordsArePlain(t: Text)
    requires forall k | 0 <= k < |t| :: !Control(t[k]) && !Separator(t[k])
    ensures Plain(Words(t)) && (Words(t) != [] ==> !White(Words(t)[0]))
    ensures Plain(WordsAfter(t))
    decreases |t|
  {
    if t != [] { WordsArePlain(t[1..]); }
  }

  lemma {:induction false} PlainIsFixed(t: Text)
    requires Plain(t)
    ensures Neutral(t) == t
    ensures t != [] && !White(t[|t| - 1]) ==> WordsAfter(t) == t && (!White(t[0]) ==> Words(t) == t)
    ensures t == [] ==> Words(t) == t
    decreases |t|
  {
    if t != [] {
      var rest := t[1..];
      forall k | 0 <= k < |rest| - 1 ensures White(rest[k]) ==> !White(rest[k + 1]) {
        assert rest[k] == t[k + 1] && rest[k + 1] == t[k + 2];
      }
      PlainIsFixed(rest);
      assert t == [t[0]] + rest;
    }
  }

  lemma {:induction false} StripStartIsSuffix(t: Text)
    ensures exists i | 0 <= i <= |t| :: StripStart(t) == t[i..]
    ensures StripStart(t) != [] ==> !DotOrSpace(StripStart(t)[0])
  {
    if t != [] && DotOrSpace(t[0]) {
      StripStartIsSuffix(t[1..]);
      var i :| 0 <= i <= |t[1..]| && StripStart(t[1..]) == t[1..][i..];
      assert StripStart(t) == t[i + 1..];
    } else {
      assert t == t[0..];
    }
  }

  lemma {:induction false} StripEndIsPrefix(t: Text)
    ensures exists j | 0 <= j <= |t| :: StripEnd(t) == t[..j]
    ensures StripEnd(t) != [] ==> !DotOrSpace(StripEnd(t)[|StripEnd(t)| - 1])
  {
    if t != [] && DotOrSpace(t[|t| - 1]) {
      StripEndIsPrefix(t[..|t| - 1]);
      var j :| 0 <= j <= |t| - 1 && StripEnd(t[..|t| - 1]) == t[..|t| - 1][..j];
      assert StripEnd(t) == t[..j];
    } else {
      assert t == t[..|t|];
    }
  }

  /** Stripping cuts a slice out of t, with clean edges; nothing is cut from clean edges. */
  lemma StrippedIsSlice(t: Text) returns (i: nat, j: nat)
    ensures i <= j <= |t| && Stripped(t) == t[i..j] && CleanEdges(Stripped(t))
    ensures CleanEdges(t) ==> Stripped(t) == t
  {
    StripStartIsSuffix(t);
    var s := StripStart(t);
    StripEndIsPrefix(s);
    var a :| 0 <= a <= |t| && s == t[a..];
    var b :| 0 <= b <= |s| && StripEnd(s) == s[..b];
    i, j := a, a + b;
  }

  lemma {:induction false} EncodeOfBoth(a: Text, b: Text)
    ensures Encode(a + b) == Encode(a) + Encode(b)
  {
    if a == [] {
      assert a + b == b;
    } else {
      EncodeOfBoth(a[1..], b);
      assert (a + b)[1..] == a[1..] + b && (a + b)[0] == a[0];
      Associative(Utf8(a[0]), Encode(a[1..]), Encode(b));
    }
  }

  lemma Associative(a: seq<int>, b: seq<int>, c: seq<int>)
    ensures a + (b + c) == (a + b) + c
  {}

  lemma SliceIsShorter(t: Text, i: nat, j: nat)
    requires i <= j <= |t|
    ensures |Encode(t[i..j])| <= |Encode(t)|
    ensures Plain(t) ==> Plain(t[i..j])
  {
    assert t == t[..i] + t[i..j] + t[j..];
    EncodeOfBoth(t[..i] + t[i..j], t[j..]);
    EncodeOfBoth(t[..i], t[i..j]);
  }

  /** The text before the fallback: plain, with clean edges, within the budget. */
  lemma CleanedIsClean(title: Text, maxBytes: nat)
    ensures var r := Stripped(Truncated(Stripped(Words(Neutral(title))), maxBytes));
      Plain(r) && CleanEdges(r) && |Encode(r)| <= maxBytes
  {
    NeutralIsNeutral(title);
    WordsArePlain(Neutral(title));
    var w := Words(Neutral(title));
    var i, j := StrippedIsSlice(w);
    SliceIsShorter(w, i, j);
    var s := Stripped(w);
    TruncatedIsLongest(s, maxBytes);
    var c := Truncated(s, maxBytes);
    assert c == s[0..|c|];
    SliceIsShorter(s, 0, |c|);
    var k, l := StrippedIsSlice(c);
    SliceIsShorter(c, k, l);
  }

  lemma CleanIsFixed(t: Text, maxBytes: nat)
    requires Plain(t) && CleanEdges(t) && t != [] && |Encode(t)| <= maxBytes
    ensures Sanitized(t, maxBytes) == t
  {
    PlainIsFixed(t);
    var i, j := StrippedIsSlice(t);
    TruncatedIsLongest(t, maxBytes);
  }

  lemma UntitledIsClean()
    ensures Plain(UNTITLED) && CleanEdges(UNTITLED) && |Encode(UNTITLED)| == 8
  {
    assert UNTITLED[1..][1..][1..][1..] == [0x74, 0x6C, 0x65, 0x64];
    assert |Encode(UNTITLED)| == 4 + |Encode(UNTITLED[1..][1..][1..][1..])|;
    assert UNTITLED[1..][1..][1..][1..][1..][1..][1..][1..] == [];
  }

  /**
   * For every title: the component is not empty, has no separators or control characters,
   * does not begin or end with a dot or space, and keeps the byte budget unless the budget
   * cannot hold the fallback name.
   */
  lemma SanitizedIsSafe(title: Text, maxBytes: nat)
    ensures var r := Sanitized(title, maxBytes);
      && r != [] && Plain(r) && CleanEdges(r)
      && (|Encode(r)| <= maxBytes || r == UNTITLED)
      && (maxBytes >= 8 ==> |Encode(r)| <= maxBytes)
  {
    CleanedIsClean(title, maxBytes);
    UntitledIsClean();
  }

  /** Sanitizing is idempotent for every title exactly when the budget holds "untitled" or nothing. */
  lemma SanitizingIsIdempotent(maxBytes: nat)
    ensures (forall title: Text :: Sanitized(Sanitized(title, maxBytes), maxBytes) == Sanitized(title, maxBytes)) <==>
            maxBytes >= 8 || maxBytes == 0
  {
    if maxBytes >= 8 {
      forall title: Text ensures Sanitized(Sanitized(title, maxBytes), maxBytes) == Sanitized(title, maxBytes) {
        SanitizedIsSafe(title, maxBytes);
        CleanIsFixed(Sanitized(title, maxBytes), maxBytes);
      }
    } else if maxBytes == 0 {
      forall title: Text ensures Sanitized(title, 0) == UNTITLED {
        var s := Stripped(Words(Neutral(title)));
        assert Truncated(s, 0) == [];
      }
    } else {
      UntitledIsClean();
      EmptyBecomesUntitled(maxBytes);
      ShortBudgetCuts(UNTITLED, maxBytes);
      assert Sanitized(Sanitized([], maxBytes), maxBytes) != Sanitized([], maxBytes);
    }
  }

  /** A budget smaller than a clean name cuts it. */
  lemma ShortBudgetCuts(t: Text, maxBytes: nat)
    requires Plain(t) && t != [] && forall n | 0 <= n < |t| :: !DotOrSpace(t[n])
    requires Width(t[0]) <= maxBytes < |Encode(t)|
    ensures Sanitized(t, maxBytes) != t
  {
    PlainIsFixed(t);
    var i, j := StrippedIsSlice(t);
    TruncatedIsLongest(t, maxBytes);
    var c := Truncated(t, maxBytes);
    PrefixStaysShort(t, c);
    var k, l := StrippedIsSlice(c);
  }

  lemma EmptyBecomesUntitled(maxBytes: nat)
    ensures Sanitized([], maxBytes) == UNTITLED
  {}

  /** A proper, non-empty prefix of a text without dots and spaces is its own stripped form. */
  lemma PrefixStaysShort(t: Text, c: Text)
    requires c <= t && c != [] && forall n | 0 <= n < |t| :: !DotOrSpace(t[n])
    ensures CleanEdges(c)
  {}

  lemma {:induction false} NeutralOfBoth(a: Text, b: Text)
    ensures Neutral(a + b) == Neutral(a) + Neutral(b)
  {
    if a == [] {
      assert a + b == b;
    } else {
      NeutralOfBoth(a[1..], b);
      assert (a + b)[1..] == a[1..] + b && (a + b)[0] == a[0];
    }
  }

  /** A separator reads as a space, so it never joins two words; a control character is not there at all. */
  lemma SeparatorsAreSpaces(before: Text, c: CodePoint, after: Text, maxBytes: nat)
    ensures Separator(c) ==> Sanitized(before + [c] + after, maxBytes) == Sanitized(before + [SPACE] + after, maxBytes)
    ensures Control(c) ==> Sanitized(before + [c] + after, maxBytes) == Sanitized(before + after, maxBytes)
  {
    NeutralOfBoth(before + [c], after);
    NeutralOfBoth(before, [c]);
    NeutralOfBoth(before + [SPACE], after);
    NeutralOfBoth(before, [SPACE]);
    NeutralOfBoth(before, after);
    assert Neutral([c]) == (if Control(c) then [] else if Separator(c) then [SPACE] else [c]) + Neutral([]);
    assert Neutral([SPACE]) == [SPACE] + Neutral([]);
    assert Neutral(before) + [] == Neutral(before);
  }

  // ---------------------------------------------------------------- directory names --

  const NAME_MAX := 255
  const MAX_ID_LEN := 64

  predicate IdChar(c: CodePoint) {
    0x30 <= c <= 0x39 || 0x41 <= c <= 0x5A || 0x61 <= c <= 0x7A || c == 0x5F || c == HYPHEN
  }

  predicate SafeId(id: Text) {
    0 < |id| <= MAX_ID_LEN && forall k | 0 <= k < |id| :: IdChar(id[k])
  }

  const DIVIDER: Text := [SPACE, HYPHEN, SPACE]

  function Budget(id: Text): nat {
    if NAME_MAX - |id| - 3 > 16 then NAME_MAX - |id| - 3 else 16
  }

  /** The leaf of pathsFor; None when the id is refused. */
  function Leaf(id: Text, title: Text): Option<Text> {
    if SafeId(id) then Some(id + DIVIDER + Sanitized(title, Budget(id))) else None
  }

  lemma {:induction false} AsciiIsOneByte(t: Text)
    requires forall k | 0 <= k < |t| :: t[k] < 0x80
    ensures |Encode(t)| == |t|
  {
    if t != [] { AsciiIsOneByte(t[1..]); }
  }

  /** Whatever the title, the leaf is one path component of at most 255 bytes. */
  lemma LeafFits(id: Text, title: Text)
    requires SafeId(id)
    ensures var leaf := Leaf(id, title).value;
      |Encode(leaf)| <= NAME_MAX && forall k | 0 <= k < |leaf| :: !Separator(leaf[k]) && !Control(leaf[k])
  {
    SanitizedIsSafe(title, Budget(id));
    LeafOf(id, Sanitized(title, Budget(id)));
  }

  lemma LeafOf(id: Text, r: Text)
    requires SafeId(id) && forall k | 0 <= k < |r| :: !Control(r[k]) && !Separator(r[k])
    ensures |Encode(id + DIVIDER + r)| == |id| + 3 + |Encode(r)|
    ensures forall k | 0 <= k < |id + DIVIDER + r| ::
      !Separator((id + DIVIDER + r)[k]) && !Control((id + DIVIDER + r)[k])
  {
    EncodeOfBoth(id + DIVIDER, r);
    AsciiIsOneByte(id + DIVIDER);
  }

  /** existingDir's filter: the first listed directory whose name starts with "<id> - ". */
  function ExistingDir(names: seq<Text>, id: Text): Option<Text> {
    if names == [] then None
    else if id + DIVIDER <= names[0] then Some(names[0])
    else ExistingDir(names[1..], id)
  }

  /** A leaf starts with "<id> - " only for its own id, because ids contain no space. */
  lemma PrefixNamesOwner(id: Text, other: Text, title: Text)
    requires SafeId(id) && SafeId(other) && id + DIVIDER <= Leaf(other, title).value
    ensures id == other
  {
    var leaf := Leaf(other, title).value;
    IdEndsAtSpace(id, leaf);
    IdEndsAtSpace(other, leaf);
  }

  function FirstSpace(t: Text): nat {
    if t == [] || t[0] == SPACE then 0 else 1 + FirstSpace(t[1..])
  }

  /** The id is what precedes the first space. */
  lemma {:induction false} IdEndsAtSpace(id: Text, leaf: Text)
    requires id + DIVIDER <= leaf && forall k | 0 <= k < |id| :: IdChar(id[k])
    ensures FirstSpace(leaf) == |id| && id == leaf[..FirstSpace(leaf)]
  {
    assert (id + DIVIDER)[|id|] == SPACE;
    if id != [] {
      assert id[0] == (id + DIVIDER)[0] == leaf[0];
      assert (id + DIVIDER)[1..] == id[1..] + DIVIDER;
      IdEndsAtSpace(id[1..], leaf[1..]);
    }
  }

  /** What the channel directory holds: leaves made for safe ids, under whatever titles. */
  ghost predicate Vault(names: seq<Text>, ids: seq<Text>, titles: seq<Text>) {
    |names| == |ids| == |titles| &&
    forall k | 0 <= k < |names| :: SafeId(ids[k]) && Leaf(ids[k], titles[k]) == Some(names[k])
  }

  /**
   * The lookup finds a directory exactly when the video has one, under this or an earlier
   * title, and never another video's.
   */
  lemma {:induction false} LookupIsById(names: seq<Text>, ids: seq<Text>, titles: seq<Text>, id: Text)
    requires SafeId(id) && Vault(names, ids, titles)
    ensures ExistingDir(names, id).Some? <==> id in ids
    ensures ExistingDir(names, id).Some? ==>
      exists k | 0 <= k < |names| :: names[k] == ExistingDir(names, id).value && ids[k] == id
  {
    if names != [] {
      if id + DIVIDER <= names[0] {
        PrefixNamesOwner(id, ids[0], titles[0]);
        assert names[0] == ExistingDir(names, id).value && ids[0] == id;
      } else {
        assert ids[0] != id;
        LookupIsById(names[1..], ids[1..], titles[1..], id);
        if ExistingDir(names, id).Some? {
          var k :| 0 <= k < |names[1..]| && names[1..][k] == ExistingDir(names, id).value && ids[1..][k] == id;
          assert names[k + 1] == ExistingDir(names, id).value && ids[k + 1] == id;
        }
      }
    }
  }
}

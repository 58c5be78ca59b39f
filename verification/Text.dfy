/** Text as the wire sees it: UTF-8 bytes, JSON string escaping, and the splitter that keeps
    every message under a limit on its escaped length. A Dafny `char` is a Unicode scalar
    value, so `string` is exactly the sequences a Rust `str` can hold. */
module Text {

  type Byte = n: nat | n < 256

  /** The UTF-8 encoding of one scalar value. */
  function Utf8Char(c: char): (bytes: seq<Byte>)
    ensures 1 <= |bytes| <= 4
    ensures c as int < 0x80 <==> |bytes| == 1
    ensures c as int >= 0x80 ==> forall i :: 0 <= i < |bytes| ==> bytes[i] >= 0x80
  {
    var n := c as int;
    if n < 0x80 then [n]
    else if n < 0x800 then [0xC0 + n / 64, 0x80 + n % 64]
    else if n < 0x10000 then [0xE0 + n / 4096, 0x80 + (n / 64) % 64, 0x80 + n % 64]
    else [0xF0 + n / 262144, 0x80 + (n / 4096) % 64, 0x80 + (n / 64) % 64, 0x80 + n % 64]
  }

  /** The scalar value that one encoded character stands for. */
  function Decode(bytes: seq<Byte>): int
    requires 1 <= |bytes| <= 4
  {
    var b := (i: int) requires 0 <= i < |bytes| => bytes[i] as int;
    if |bytes| == 1 then b(0)
    else if |bytes| == 2 then (b(0) - 0xC0) * 64 + (b(1) - 0x80)
    else if |bytes| == 3 then (b(0) - 0xE0) * 4096 + (b(1) - 0x80) * 64 + (b(2) - 0x80)
    else (b(0) - 0xF0) * 262144 + (b(1) - 0x80) * 4096 + (b(2) - 0x80) * 64 + (b(3) - 0x80)
  }

  /** The encoding can be read back, is the shortest there is, and every byte after the first is a
      continuation byte. */
  lemma Utf8CharTold(c: char)
    ensures Decode(Utf8Char(c)) == c as int
    ensures var n, len := c as int, |Utf8Char(c)|;
            (len == 1 <==> n < 0x80) && (len <= 2 <==> n < 0x800) && (len <= 3 <==> n < 0x1_0000)
    ensures forall i :: 0 < i < |Utf8Char(c)| ==> 0x80 <= Utf8Char(c)[i] < 0xC0
  {
    SixBits(c as int);
  }

  lemma SixBits(n: nat)
    ensures n == n / 64 * 64 + n % 64
    ensures n == n / 4096 * 4096 + n / 64 % 64 * 64 + n % 64
    ensures n == n / 262144 * 262144 + n / 4096 % 64 * 4096 + n / 64 % 64 * 64 + n % 64
  {
    assert n / 64 / 64 == n / 4096;
    assert n / 4096 / 64 == n / 262144;
  }

  function Utf8(s: string): seq<Byte> {
    if s == "" then [] else Utf8Char(s[0]) + Utf8(s[1..])
  }

  /** Bytes that JSON escaping adds to one byte of the text. */
  function ExtraOf(b: Byte): nat {
    if b == 0x22 || b == 0x5C || b == 0x08 || b == 0x09 || b == 0x0A || b == 0x0C || b == 0x0D then 1
    else if b <= 0x1F then 5
    else 0
  }

  function FoldExtra(bytes: seq<Byte>, len: nat): nat
    decreases |bytes|
  {
    if bytes == [] then len else FoldExtra(bytes[1..], len + ExtraOf(bytes[0]))
  }

  /** The byte fold used to decide whether a text has to be split. */
  function EscapedLen(s: string): nat {
    FoldExtra(Utf8(s), |Utf8(s)|)
  }

  /** The per-character length used while splitting. */
  function EscapeLenChar(c: char): nat {
    if c == '\"' || c == '\\' then 2
    else if c as int in {0x08, 0x09, 0x0A, 0x0C, 0x0D} then 2
    else if c as int < 0x20 then 6
    else |Utf8Char(c)|
  }

  function CharSum(s: string): nat {
    if s == "" then 0 else EscapeLenChar(s[0]) + CharSum(s[1..])
  }

  /** The reference: the JSON escape of a character (section 7 of RFC 8259, short forms where
      they exist, `\u00XX` for the other controls, everything else raw). */
  function JsonEscapeChar(c: char): seq<Byte> {
    var n := c as int;
    if n == 0x22 || n == 0x5C then [0x5C, n]
    else if n == 0x08 then [0x5C, 0x62]
    else if n == 0x09 then [0x5C, 0x74]
    else if n == 0x0A then [0x5C, 0x6E]
    else if n == 0x0C then [0x5C, 0x66]
    else if n == 0x0D then [0x5C, 0x72]
    else if n < 0x20 then [0x5C, 0x75, 0x30, 0x30, HexDigit(n / 16), HexDigit(n % 16)]
    else Utf8Char(c)
  }

  function HexDigit(n: nat): Byte
    requires n < 16
  {
    if n < 10 then 0x30 + n else 0x57 + n
  }

  function JsonEscape(s: string): seq<Byte> {
    if s == "" then [] else JsonEscapeChar(s[0]) + JsonEscape(s[1..])
  }

  lemma {:induction false} FoldExtraLinear(bytes: seq<Byte>, len: nat, more: nat)
    ensures FoldExtra(bytes, len + more) == FoldExtra(bytes, len) + more
    decreases |bytes|
  {
    if bytes != [] {
      FoldExtraLinear(bytes[1..], len + ExtraOf(bytes[0]), more);
    }
  }

  lemma {:induction false} FoldExtraAppend(a: seq<Byte>, b: seq<Byte>, len: nat)
    ensures FoldExtra(a + b, len) == FoldExtra(b, FoldExtra(a, len))
    decreases |a|
  {
    if a == [] {
      assert a + b == b;
    } else {
      assert (a + b)[1..] == a[1..] + b;
      FoldExtraAppend(a[1..], b, len + ExtraOf(a[0]));
    }
  }

  lemma {:induction false} NoExtra(bytes: seq<Byte>, len: nat)
    requires forall i :: 0 <= i < |bytes| ==> bytes[i] >= 0x80
    ensures FoldExtra(bytes, len) == len
    decreases |bytes|
  {
    if bytes != [] {
      NoExtra(bytes[1..], len);
    }
  }

  lemma CharFold(c: char)
    ensures FoldExtra(Utf8Char(c), |Utf8Char(c)|) == EscapeLenChar(c) == |JsonEscapeChar(c)|
  {
    var bytes := Utf8Char(c);
    if c as int < 0x80 {
      assert bytes[1..] == [];
    } else {
      NoExtra(bytes, |bytes|);
    }
  }

  /** The byte fold, the per-character sum and the length of the real JSON escape agree. */
  lemma {:induction false} EscapedLenIsJsonLength(s: string)
    ensures EscapedLen(s) == CharSum(s) == |JsonEscape(s)|
    decreases |s|
  {
    if s != "" {
      EscapedLenIsJsonLength(s[1..]);
      CharFold(s[0]);
      var a, b := Utf8Char(s[0]), Utf8(s[1..]);
      FoldExtraAppend(a, b, |a| + |b|);
      FoldExtraLinear(a, |a|, |b|);
      FoldExtraLinear(b, |b|, FoldExtra(a, |a|));
    }
  }

  lemma {:induction false} CharSumAppend(a: string, b: string)
    ensures CharSum(a + b) == CharSum(a) + CharSum(b)
    decreases |a|
  {
    if a == "" {
      assert a + b == b;
    } else {
      assert (a + b)[1..] == a[1..] + b;
      CharSumAppend(a[1..], b);
    }
  }

  // ---------------------------------------------------------------------------------------
  // Splitting
  // ---------------------------------------------------------------------------------------

  function Concat(pieces: seq<string>): string {
    if pieces == [] then "" else pieces[0] + Concat(pieces[1..])
  }

  ghost predicate AllFit(pieces: seq<string>, max: nat) {
    forall i :: 0 <= i < |pieces| ==> CharSum(pieces[i]) <= max
  }

  ghost predicate EachCharFits(s: string, max: nat) {
    forall i :: 0 <= i < |s| ==> EscapeLenChar(s[i]) <= max
  }

  /** The rest of the splitting loop: `s` is still to be read, `buf` (of length `cur`) is the
      piece being filled. */
  function ChunkLoop(s: string, buf: string, cur: nat, max: nat): seq<string>
    decreases |s|
  {
    if s == "" then (if buf == "" then [] else [buf])
    else
      var e := EscapeLenChar(s[0]);
      if cur + e > max && buf != "" then [buf] + ChunkLoop(s[1..], [s[0]], e, max)
      else ChunkLoop(s[1..], buf + [s[0]], cur + e, max)
  }

  function Chunks(s: string, max: nat): seq<string> {
    ChunkLoop(s, "", 0, max)
  }

  method ChunkByEscapedLen(s: string, max: nat) returns (chunks: seq<string>)
    ensures chunks == Chunks(s, max)
    ensures Concat(chunks) == s
    ensures "" !in chunks
    ensures EachCharFits(s, max) ==> AllFit(chunks, max)
  {
    chunks := [];
    var buf := "";
    var cur: nat := 0;
    for i := 0 to |s|
      invariant chunks + ChunkLoop(s[i..], buf, cur, max) == Chunks(s, max)
    {
      var e := EscapeLenChar(s[i]);
      assert s[i..][1..] == s[i + 1..];
      if cur + e > max && buf != "" {
        chunks := chunks + [buf];
        buf, cur := "", 0;
      }
      buf := buf + [s[i]];
      cur := cur + e;
      assert "" + [s[i]] == [s[i]];
    }
    if buf != "" {
      chunks := chunks + [buf];
    }
    ChunksLossless(s, max);
    if EachCharFits(s, max) {
      ChunksFit(s, max);
    }
  }

  /** The first piece is the longest prefix that fits; the rest is split the same way. */
  ghost predicate IsGreedyHead(t: string, n: nat, max: nat) {
    && 1 <= n <= |t|
    && (CharSum(t[..n]) <= max || n == 1)
    && (n < |t| ==> CharSum(t[..n + 1]) > max)
    && Chunks(t, max) == [t[..n]] + Chunks(t[n..], max)
  }

  lemma {:induction false} ChunkLoopHead(s: string, buf: string, max: nat) returns (n: nat)
    requires buf != "" && (CharSum(buf) <= max || |buf| == 1)
    ensures n <= |s| + |buf| && |buf| <= n
    ensures var t := buf + s;
            && (CharSum(t[..n]) <= max || n == 1)
            && (n < |t| ==> CharSum(t[..n + 1]) > max)
            && ChunkLoop(s, buf, CharSum(buf), max) == [t[..n]] + Chunks(t[n..], max)
    decreases |s|
  {
    hide EscapeLenChar;
    var t := buf + s;
    if s == "" {
      n := |buf|;
      assert t == buf && t[..n] == buf && t[n..] == "";
    } else {
      var next := buf + [s[0]];
      CharSumAppend(buf, [s[0]]);
      assert t == next + s[1..];
      if CharSum(buf) + EscapeLenChar(s[0]) > max {
        n := |buf|;
        assert t[..n] == buf && t[n..] == s && t[..n + 1] == next;
        assert "" + [s[0]] == [s[0]];
      } else {
        n := ChunkLoopHead(s[1..], next, max);
      }
    }
  }

  lemma GreedyHead(t: string, max: nat) returns (n: nat)
    requires t != ""
    ensures IsGreedyHead(t, n, max)
  {
    assert "" + [t[0]] == [t[0]] && t == [t[0]] + t[1..];
    assert CharSum([t[0]]) == EscapeLenChar(t[0]) + CharSum("");
    n := ChunkLoopHead(t[1..], [t[0]], max);
  }

  lemma {:induction false} ChunksLossless(s: string, max: nat)
    ensures Concat(Chunks(s, max)) == s
    ensures "" !in Chunks(s, max)
    ensures s != "" ==> Chunks(s, max) != []
    decreases |s|
  {
    if s != "" {
      var n := GreedyHead(s, max);
      ChunksLossless(s[n..], max);
      assert s == s[..n] + s[n..];
    }
  }

  lemma {:induction false} ChunksFit(s: string, max: nat)
    requires EachCharFits(s, max)
    ensures AllFit(Chunks(s, max), max)
    decreases |s|
  {
    if s != "" {
      var n := GreedyHead(s, max);
      if n == 1 {
        assert s[..1] == [s[0]];
        assert CharSum(s[..1]) == EscapeLenChar(s[0]) + CharSum("");
      }
      ChunksFit(s[n..], max);
    }
  }

  lemma CharSumMonotone(a: string, b: string)
    requires a <= b
    ensures CharSum(a) <= CharSum(b)
  {
  }

  /** Greedy stays ahead: a suffix of a text never needs more pieces than any split of it. */
  lemma {:induction false} GreedyStaysAhead(pieces: seq<string>, skip: nat, max: nat)
    requires AllFit(pieces, max) && skip <= |Concat(pieces)|
    ensures |Chunks(Concat(pieces)[skip..], max)| <= |pieces|
    decreases |pieces|
  {
    var t := Concat(pieces)[skip..];
    if pieces != [] && t != "" {
      var first, rest := pieces[0], Concat(pieces[1..]);
      if skip >= |first| {
        assert t == rest[skip - |first|..];
        GreedyStaysAhead(pieces[1..], skip - |first|, max);
      } else {
        var left := first[skip..];
        assert t == left + rest;
        var n := GreedyHead(t, max);
        if n < |left| {
          assert t[..n + 1] <= left;
          CharSumMonotone(t[..n + 1], left);
          assert first == first[..skip] + left;
          CharSumAppend(first[..skip], left);
          assert false;
        }
        assert t[n..] == rest[n - |left|..];
        GreedyStaysAhead(pieces[1..], n - |left|, max);
      }
    }
  }

  /** No way of cutting the text into pieces that fit uses fewer pieces. */
  lemma ChunksOptimal(s: string, max: nat, pieces: seq<string>)
    requires Concat(pieces) == s && AllFit(pieces, max)
    ensures |Chunks(s, max)| <= |pieces|
  {
    GreedyStaysAhead(pieces, 0, max);
    assert s[0..] == s;
  }

  lemma EscapeAtMostSix(s: string, max: nat)
    requires max >= 6
    ensures EachCharFits(s, max)
  {
  }
}

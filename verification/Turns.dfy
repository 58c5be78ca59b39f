/** The session's turns (the source of truth) and the wire messages they are projected to.
    Timestamps, durations and request traces are not part of this model. */
module Turns {
  import opened Text
  import opened Wrappers

  datatype ToolCall = ToolCall(id: string, name: string, arguments: string)

  datatype ToolResultBody =
    | Ok(content: string, truncated: bool)
    | Failed(message: string, retryable: bool)
    | Denied(reason: string)
    | Interrupted

  datatype NoteKind = Compaction | Goal | Recovery | ModeChange | Notice

  datatype Usage = Usage(prompt: nat, completion: nat, total: nat, cached: Option<nat>)

  datatype Turn =
    | User(content: string)
    | Assistant(text: string, reasoning: Option<string>, calls: seq<ToolCall>, usage: Option<Usage>, cost: Option<nat>)
    | ToolResult(callId: string, tool: string, result: ToolResultBody)
    | SystemNote(kind: NoteKind, note: string)
    | Error(message: string, retryable: bool)
    | Cancelled

  datatype Wire =
    | SystemMessage(content: string)
    | UserMessage(content: string)
    | AssistantMessage(text: Option<string>, reasoning: Option<string>, toolCalls: seq<ToolCall>)
    | ToolMessage(callId: string, content: string)

  function Render(body: ToolResultBody): string {
    match body
    case Ok(content, truncated) => if truncated then content + "\n[output truncated]" else content
    case Failed(message, _) => "[tool error: " + message + "]"
    case Denied(reason) => "[denied: " + reason + "]"
    case Interrupted => "[tool call interrupted before execution]"
  }

  /** `char::is_whitespace`: the Unicode White_Space property. */
  predicate IsWhitespace(c: char) {
    var n := c as int;
    || 0x09 <= n <= 0x0D || n == 0x20 || n == 0x85 || n == 0xA0 || n == 0x1680
    || 0x2000 <= n <= 0x200A || n == 0x2028 || n == 0x2029 || n == 0x202F || n == 0x205F || n == 0x3000
  }

  /** Twenty-five characters have the property. */
  lemma WhitespaceTold(c: char)
    ensures IsWhitespace(c) <==>
            c as int in {0x09, 0x0A, 0x0B, 0x0C, 0x0D, 0x20, 0x85, 0xA0, 0x1680, 0x2000, 0x2001, 0x2002, 0x2003, 0x2004,
                         0x2005, 0x2006, 0x2007, 0x2008, 0x2009, 0x200A, 0x2028, 0x2029, 0x202F, 0x205F, 0x3000}
  {
  }

  /** `trim().is_empty()`. */
  predicate IsBlank(s: string) {
    forall i :: 0 <= i < |s| ==> IsWhitespace(s[i])
  }

  // ---------------------------------------------------------------------------------------
  // Truncation to a byte cap
  // ---------------------------------------------------------------------------------------

  function Decimal(n: nat): string {
    var digit := ['0' + (n % 10) as char];
    if n < 10 then digit else Decimal(n / 10) + digit
  }

  /** The number a run of digits stands for. */
  function FromDecimal(s: string): int {
    if s == "" then 0 else 10 * FromDecimal(s[..|s| - 1]) + (s[|s| - 1] as int - '0' as int)
  }

  lemma {:induction false} DecimalReads(n: nat)
    ensures FromDecimal(Decimal(n)) == n
    ensures forall i :: 0 <= i < |Decimal(n)| ==> '0' <= Decimal(n)[i] <= '9'
    ensures n > 0 ==> Decimal(n)[0] != '0'
  {
    var digit := ['0' + (n % 10) as char];
    if n >= 10 {
      DecimalReads(n / 10);
      assert (Decimal(n / 10) + digit)[..|Decimal(n / 10) + digit| - 1] == Decimal(n / 10);
    } else {
      assert digit[..0] == "";
    }
  }

  /** Bytes of the longest prefix of whole characters that fits in `cap` bytes. */
  function HeadChars(s: string, cap: nat): (k: nat)
    ensures k <= |s|
    ensures |Utf8(s[..k])| <= cap
    ensures k < |s| ==> |Utf8(s[..k + 1])| > cap
  {
    if s == "" || |Utf8Char(s[0])| > cap then
      assert s != "" ==> s[..1][1..] == "";
      0
    else
      var k := HeadChars(s[1..], cap - |Utf8Char(s[0])|);
      assert s[..k + 1][1..] == s[1..][..k];
      assert k + 1 < |s| ==> s[..k + 2][1..] == s[1..][..k + 1];
      k + 1
  }

  /** `is_char_boundary` on the encoded bytes. */
  predicate IsBoundary(bytes: seq<Byte>, i: nat) {
    i == 0 || i == |bytes| || (i < |bytes| && !(0x80 <= bytes[i] < 0xC0))
  }

  lemma {:induction false} BoundaryIsPrefix(s: string, i: nat) returns (k: nat)
    requires i <= |Utf8(s)| && IsBoundary(Utf8(s), i)
    ensures k <= |s| && |Utf8(s[..k])| == i
    decreases |s|
  {
    if i == 0 {
      k := 0;
      assert s[..0] == "";
    } else {
      var first := Utf8Char(s[0]);
      assert Utf8(s)[..|first|] == first;
      var j := BoundaryIsPrefix(s[1..], i - |first|);
      k := j + 1;
      assert s[..k][1..] == s[1..][..j];
    }
  }

  lemma {:induction false} PrefixIsBoundary(s: string, k: nat)
    requires k <= |s|
    ensures |Utf8(s[..k])| <= |Utf8(s)| && IsBoundary(Utf8(s), |Utf8(s[..k])|)
    decreases k
  {
    if k > 0 {
      PrefixIsBoundary(s[1..], k - 1);
      assert s[..k][1..] == s[1..][..k - 1];
      var first, i := Utf8Char(s[0]), |Utf8(s[1..][..k - 1])|;
      assert i < |Utf8(s[1..])| ==> Utf8(s)[|first| + i] == Utf8(s[1..])[i];
      if i == 0 && s[1..] != "" {
        assert Utf8(s[1..])[0] == Utf8Char(s[1])[0];
      }
    } else {
      assert s[..0] == "";
    }
  }

  lemma {:induction false} PrefixLengthMonotone(s: string, j: nat, k: nat)
    requires j < k <= |s|
    ensures |Utf8(s[..j])| < |Utf8(s[..k])|
    decreases j
  {
    assert s[..k][1..] == s[1..][..k - 1];
    if j > 0 {
      assert s[..j][1..] == s[1..][..j - 1];
      PrefixLengthMonotone(s[1..], j - 1, k - 1);
    } else {
      assert s[..0] == "";
    }
  }

  /** Walking back from the cap to a character boundary finds the longest whole-character head. */
  method FloorCharBoundary(s: string, cap: nat) returns (i: nat)
    ensures i == |Utf8(s[..HeadChars(s, cap)])|
  {
    var bytes := Utf8(s);
    var k := HeadChars(s, cap);
    PrefixIsBoundary(s, k);
    i := if cap <= |bytes| then cap else |bytes|;
    while !IsBoundary(bytes, i)
      invariant |Utf8(s[..k])| <= i <= |bytes| && i <= cap
      decreases i
    {
      i := i - 1;
    }
    var j := BoundaryIsPrefix(s, i);
    if j < k {
      PrefixLengthMonotone(s, j, k);
    } else if k < j && k + 1 < j {
      PrefixLengthMonotone(s, k + 1, j);
    }
  }

  /** Cap an oversized `Ok` body; every other body is returned unchanged. */
  function TruncateBody(body: ToolResultBody, cap: nat): ToolResultBody {
    match body
    case Ok(content, _) =>
      if |Utf8(content)| <= cap then body
      else
        var head := content[..HeadChars(content, cap)];
        var elided := |Utf8(content)| - |Utf8(head)|;
        Ok(head + "\n[… " + Decimal(elided as nat) + " bytes truncated]", true)
    case _ => body
  }

  function Marker(elided: nat): string {
    "\n[… " + Decimal(elided) + " bytes truncated]"
  }

  /** `cut` is `body` under a byte cap: an `Ok` body that does not fit becomes its longest head of
      whole characters that does, followed by a note of the bytes left out; nothing else changes. */
  ghost predicate IsCut(body: ToolResultBody, cut: ToolResultBody, cap: nat) {
    if body.Ok? && |Utf8(body.content)| > cap then
      && cut.Ok? && cut.truncated
      && exists k: nat :: k < |body.content| && IsCutAt(body.content, cut.content, cap, k)
    else cut == body
  }

  ghost predicate IsCutAt(content: string, cut: string, cap: nat, k: nat)
    requires k < |content|
  {
    && |Utf8(content[..k])| <= cap < |Utf8(content[..k + 1])| && |Utf8(content[..k])| < |Utf8(content)|
    && cut == content[..k] + Marker(|Utf8(content)| - |Utf8(content[..k])|)
  }

  /** What a cap allows: a text that fits, or one that fits and a note behind it. */
  ghost predicate FitsCap(body: ToolResultBody, cap: nat) {
    body.Ok? && |Utf8(body.content)| > cap ==>
      body.truncated && exists k: nat, n: nat ::
        k <= |body.content| && |Utf8(body.content[..k])| <= cap && body.content[k..] == Marker(n)
  }

  lemma TruncationIsCut(body: ToolResultBody, cap: nat)
    ensures IsCut(body, TruncateBody(body, cap), cap) && FitsCap(TruncateBody(body, cap), cap)
  {
    hide Utf8, HeadChars, Decimal, IsCutAt;
    if body.Ok? && |Utf8(body.content)| > cap {
      var content, k := body.content, HeadChars(body.content, cap);
      HeadIsCut(content, cap);
      var elided := |Utf8(content)| - |Utf8(content[..k])|;
      BehindHead(TruncateBody(body, cap).content, content[..k], Marker(elided));
    }
  }

  lemma HeadIsCut(content: string, cap: nat)
    requires |Utf8(content)| > cap
    ensures var k := HeadChars(content, cap);
            && k < |content| && |Utf8(content[..k])| < |Utf8(content)|
            && IsCutAt(content, content[..k] + Marker(|Utf8(content)| - |Utf8(content[..k])|), cap, k)
  {
    hide Utf8, Marker;
    assert content[..|content|] == content;
    PrefixLengthMonotone(content, HeadChars(content, cap), |content|);
  }

  lemma BehindHead(cut: string, head: string, note: string)
    requires cut == head + note
    ensures cut[..|head|] == head && cut[|head|..] == note
  {
  }
}

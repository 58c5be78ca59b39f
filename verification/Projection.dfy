/** Projection of turns to wire messages, the tool-answer invariant and its decision
    procedure. `safe` stands for the replacement of tool arguments that are not a JSON
    object; JSON parsing is not part of this model. */
module Projection {
  import opened Text
  import opened Turns
  import opened Wrappers

  /** The per-message limit on escaped content. */
  const MAX_STRING_ESCAPED: nat := 1_000_000

  type ArgFilter = string -> string

  // ---------------------------------------------------------------------------------------
  // Projection
  // ---------------------------------------------------------------------------------------

  /** One piece when the text fits, the greedy split when it does not. */
  function Pieces(content: string): seq<string> {
    if EscapedLen(content) <= MAX_STRING_ESCAPED then [content] else Chunks(content, MAX_STRING_ESCAPED)
  }

  function UserMessages(pieces: seq<string>): (msgs: seq<Wire>)
    ensures |msgs| == |pieces|
    ensures forall i :: 0 <= i < |msgs| ==> msgs[i] == UserMessage(pieces[i])
  {
    seq(|pieces|, i requires 0 <= i < |pieces| => UserMessage(pieces[i]))
  }

  function ToolMessages(id: string, pieces: seq<string>): (msgs: seq<Wire>)
    ensures |msgs| == |pieces|
    ensures forall i :: 0 <= i < |msgs| ==> msgs[i] == ToolMessage(id, pieces[i])
  {
    seq(|pieces|, i requires 0 <= i < |pieces| => ToolMessage(id, pieces[i]))
  }

  function WireCalls(calls: seq<ToolCall>, safe: ArgFilter): (r: seq<ToolCall>)
    ensures |r| == |calls|
    ensures forall i :: 0 <= i < |r| ==> r[i] == calls[i].(arguments := safe(calls[i].arguments))
  {
    seq(|calls|, i requires 0 <= i < |calls| => calls[i].(arguments := safe(calls[i].arguments)))
  }

  function RenderNote(kind: NoteKind, note: string): string {
    match kind
    case Compaction => "<session-summary>" + note + "</session-summary>"
    case Goal => GoalBlock(note)
    case Recovery => note
    case ModeChange => "[note] " + note
    case Notice => "[note] " + note
  }

  function GoalBlock(goal: string): string {
    "<session-goal>" + goal + "</session-goal>"
  }

  function AssistantWire(text: string, reasoning: Option<string>, calls: seq<ToolCall>): Wire {
    var shown := if reasoning.Some? && !IsBlank(reasoning.value) then reasoning else None;
    AssistantMessage(if text == "" && (calls != [] || shown.Some?) then None else Some(text), shown, calls)
  }

  function TurnMessages(turn: Turn, safe: ArgFilter): seq<Wire> {
    match turn
    case User(content) => UserMessages(Pieces(content))
    case Assistant(text, reasoning, calls, _, _) => [AssistantWire(text, reasoning, WireCalls(calls, safe))]
    case ToolResult(callId, _, result) => ToolMessages(callId, Pieces(Render(result)))
    case SystemNote(kind, note) => UserMessages(Pieces(RenderNote(kind, note)))
    case Error(_, _) => []
    case Cancelled => []
  }

  function Flatten(turns: seq<Turn>, safe: ArgFilter): seq<Wire> {
    if turns == [] then [] else TurnMessages(turns[0], safe) + Flatten(turns[1..], safe)
  }

  predicate IsNote(turn: Turn, kind: NoteKind) {
    turn.SystemNote? && turn.kind == kind
  }

  /** Index of the last note of a kind. */
  function LastNote(turns: seq<Turn>, kind: NoteKind): (r: Option<nat>)
    ensures r.Some? ==> r.value < |turns| && IsNote(turns[r.value], kind)
    ensures r.Some? ==> forall i :: r.value < i < |turns| ==> !IsNote(turns[i], kind)
    ensures r.None? ==> forall i :: 0 <= i < |turns| ==> !IsNote(turns[i], kind)
  {
    if turns == [] then None
    else if IsNote(turns[|turns| - 1], kind) then Some(|turns| - 1)
    else LastNote(turns[..|turns| - 1], kind)
  }

  /** The newest compaction marker is the projection boundary. */
  function ActiveStart(turns: seq<Turn>): (start: nat)
    ensures start <= |turns|
  {
    LastNote(turns, Compaction).GetOr(0)
  }

  /** A goal older than the boundary is injected again just ahead of the summary. */
  function GoalHead(turns: seq<Turn>): seq<Wire> {
    var goal := LastNote(turns, Goal);
    if goal.Some? && goal.value < ActiveStart(turns) && !IsBlank(turns[goal.value].note)
    then UserMessages(Pieces(GoalBlock(turns[goal.value].note)))
    else []
  }

  function Project(turns: seq<Turn>, systemPrompt: string, safe: ArgFilter): seq<Wire> {
    [SystemMessage(systemPrompt)] + GoalHead(turns) + Flatten(turns[ActiveStart(turns)..], safe)
  }

  method PushUser(out0: seq<Wire>, content: string) returns (out: seq<Wire>)
    ensures out == out0 + UserMessages(Pieces(content))
  {
    hide EscapedLen, Chunks, Concat, EachCharFits, AllFit;
    if EscapedLen(content) <= MAX_STRING_ESCAPED {
      out := out0 + [UserMessage(content)];
    } else {
      var chunks := ChunkByEscapedLen(content, MAX_STRING_ESCAPED);
      out := out0;
      for i := 0 to |chunks|
        invariant out == out0 + UserMessages(chunks)[..i]
      {
        out := out + [UserMessage(chunks[i])];
      }
    }
  }

  method PushToolResult(out0: seq<Wire>, callId: string, result: ToolResultBody) returns (out: seq<Wire>)
    ensures out == out0 + ToolMessages(callId, Pieces(Render(result)))
  {
    hide Render, EscapedLen, Chunks, Concat, EachCharFits, AllFit;
    var body := Render(result);
    if EscapedLen(body) <= MAX_STRING_ESCAPED {
      out := out0 + [ToolMessage(callId, body)];
    } else {
      var chunks := ChunkByEscapedLen(body, MAX_STRING_ESCAPED);
      out := out0;
      for i := 0 to |chunks|
        invariant out == out0 + ToolMessages(callId, chunks)[..i]
      {
        out := out + [ToolMessage(callId, chunks[i])];
      }
    }
  }

  method PushTurn(out0: seq<Wire>, turn: Turn, safe: ArgFilter) returns (out: seq<Wire>)
    ensures out == out0 + TurnMessages(turn, safe)
  {
    hide Pieces, Render, RenderNote, AssistantWire;
    match turn {
      case User(content) => out := PushUser(out0, content);
      case Assistant(text, reasoning, calls, _, _) =>
        out := out0 + [AssistantWire(text, reasoning, WireCalls(calls, safe))];
      case ToolResult(callId, _, result) => out := PushToolResult(out0, callId, result);
      case SystemNote(kind, note) => out := PushUser(out0, RenderNote(kind, note));
      case Error(_, _) => out := out0;
      case Cancelled => out := out0;
    }
  }

  lemma NothingSent(safe: ArgFilter)
    ensures Flatten([], safe) == []
  {
  }

  method ProjectWith(turns: seq<Turn>, systemPrompt: string, safe: ArgFilter) returns (out: seq<Wire>)
    ensures out == Project(turns, systemPrompt, safe)
  {
    hide Pieces, TurnMessages, GoalBlock, LastNote, IsBlank, Flatten;
    out := [SystemMessage(systemPrompt)];
    var activeStart := ActiveStart(turns);
    var goal := LastNote(turns, Goal);
    if goal.Some? && goal.value < activeStart && !IsBlank(turns[goal.value].note) {
      out := PushUser(out, GoalBlock(turns[goal.value].note));
    }
    assert out == [SystemMessage(systemPrompt)] + GoalHead(turns);
    ghost var head := out;
    var active := turns[activeStart..];
    NothingSent(safe);
    assert active[..0] == [];
    hide GoalHead, ActiveStart;
    for i := 0 to |active|
      invariant out == head + Flatten(active[..i], safe)
    {
      FlattenSnoc(active, i, safe);
      out := PushTurn(out, active[i], safe);
    }
    assert active[..|active|] == active;
  }

  lemma {:induction false} FlattenAppend(a: seq<Turn>, b: seq<Turn>, safe: ArgFilter)
    ensures Flatten(a + b, safe) == Flatten(a, safe) + Flatten(b, safe)
    decreases |a|
  {
    if a == [] {
      assert a + b == b;
    } else {
      assert (a + b)[1..] == a[1..] + b;
      FlattenAppend(a[1..], b, safe);
    }
  }

  lemma FlattenSnoc(turns: seq<Turn>, i: nat, safe: ArgFilter)
    requires i < |turns|
    ensures Flatten(turns[..i + 1], safe) == Flatten(turns[..i], safe) + TurnMessages(turns[i], safe)
  {
    assert turns[..i + 1] == turns[..i] + [turns[i]];
    FlattenAppend(turns[..i], [turns[i]], safe);
    assert Flatten([turns[i]], safe) == TurnMessages(turns[i], safe) + Flatten([], safe);
  }

  // ---------------------------------------------------------------------------------------
  // Losslessness and the per-message limit
  // ---------------------------------------------------------------------------------------

  lemma PiecesSpec(content: string)
    ensures Concat(Pieces(content)) == content
    ensures Pieces(content) != []
    ensures forall i :: 0 <= i < |Pieces(content)| ==> EscapedLen(Pieces(content)[i]) <= MAX_STRING_ESCAPED
  {
    EscapeAtMostSix(content, MAX_STRING_ESCAPED);
    EscapedLenIsJsonLength(content);
    ChunksLossless(content, MAX_STRING_ESCAPED);
    ChunksFit(content, MAX_STRING_ESCAPED);
    var pieces := Pieces(content);
    assert EscapedLen(content) <= MAX_STRING_ESCAPED ==> pieces[1..] == [] && content + "" == content;
    forall i | 0 <= i < |pieces|
      ensures EscapedLen(pieces[i]) <= MAX_STRING_ESCAPED
    {
      EscapedLenIsJsonLength(pieces[i]);
    }
  }

  /** No other way of sending the text within the limit uses fewer messages. */
  lemma PiecesFewest(content: string, other: seq<string>)
    requires Concat(other) == content && other != []
    requires forall i :: 0 <= i < |other| ==> EscapedLen(other[i]) <= 1_000_000
    ensures |Pieces(content)| <= |other|
  {
    forall i | 0 <= i < |other|
      ensures CharSum(other[i]) <= MAX_STRING_ESCAPED
    {
      EscapedLenIsJsonLength(other[i]);
    }
    ChunksOptimal(content, MAX_STRING_ESCAPED, other);
  }

  function ContentOf(m: Wire): string {
    match m
    case SystemMessage(content) => content
    case UserMessage(content) => content
    case ToolMessage(_, content) => content
    case AssistantMessage(text, _, _) => text.GetOr("")
  }

  function Contents(msgs: seq<Wire>): (r: seq<string>)
    ensures |r| == |msgs|
    ensures forall i :: 0 <= i < |r| ==> r[i] == ContentOf(msgs[i])
  {
    seq(|msgs|, i requires 0 <= i < |msgs| => ContentOf(msgs[i]))
  }

  function SourceText(turn: Turn): string
    requires turn.User? || turn.ToolResult? || turn.SystemNote?
  {
    match turn
    case User(content) => content
    case ToolResult(_, _, result) => Render(result)
    case SystemNote(kind, note) => RenderNote(kind, note)
  }

  predicate WithinLimit(m: Wire) {
    m.UserMessage? || m.ToolMessage? ==> EscapedLen(ContentOf(m)) <= 1_000_000
  }

  /** The run of messages a turn becomes has the turn's role and call id, rebuilds its text when
      read in order, and keeps every message under the limit. */
  lemma TurnMessagesLossless(turn: Turn, safe: ArgFilter)
    requires turn.User? || turn.ToolResult? || turn.SystemNote?
    ensures var msgs := TurnMessages(turn, safe);
            && msgs != []
            && Concat(Contents(msgs)) == SourceText(turn)
            && (forall m :: m in msgs ==> WithinLimit(m))
            && (forall m :: m in msgs ==>
                if turn.ToolResult? then m.ToolMessage? && m.callId == turn.callId else m.UserMessage?)
  {
    PiecesSpec(SourceText(turn));
    assert Contents(TurnMessages(turn, safe)) == Pieces(SourceText(turn));
  }

  ghost predicate Visible(s: string) {
    exists i :: 0 <= i < |s| && !IsWhitespace(s[i])
  }

  /** The message an assistant turn is sent as: its text whenever there is any; an empty text only
      where a message would otherwise say nothing; the reasoning unless it is blank; the calls in
      order, with arguments made safe. */
  ghost predicate AssistantCarried(turn: Turn, m: Wire, safe: ArgFilter)
    requires turn.Assistant?
  {
    var visible := turn.reasoning.Some? && Visible(turn.reasoning.value);
    && m.AssistantMessage?
    && (turn.text != "" ==> m.text == Some(turn.text))
    && (turn.text == "" ==> m.text == if turn.calls == [] && !visible then Some("") else None)
    && m.reasoning == (if visible then turn.reasoning else None)
    && |m.toolCalls| == |turn.calls|
    && forall i :: 0 <= i < |turn.calls| ==>
         && m.toolCalls[i].id == turn.calls[i].id && m.toolCalls[i].name == turn.calls[i].name
         && m.toolCalls[i].arguments == safe(turn.calls[i].arguments)
  }

  /** What the model reads of a tool result. */
  ghost predicate ResultTold(body: ToolResultBody, text: string) {
    match body
    case Ok(content, truncated) => text == content + if truncated then "\n[output truncated]" else ""
    case Failed(message, _) => text == "[tool error: " + message + "]"
    case Denied(reason) => text == "[denied: " + reason + "]"
    case Interrupted => text == "[tool call interrupted before execution]"
  }

  /** What the model reads of a note. */
  ghost predicate NoteTold(kind: NoteKind, note: string, text: string) {
    match kind
    case Compaction => text == "<session-summary>" + note + "</session-summary>"
    case Goal => text == "<session-goal>" + note + "</session-goal>"
    case Recovery => text == note
    case _ => text == "[note] " + note
  }

  ghost predicate AllUser(msgs: seq<Wire>) {
    msgs != [] && forall m :: m in msgs ==> m.UserMessage?
  }

  /** The messages of one turn, told from the turn alone. */
  ghost predicate Carried(turn: Turn, msgs: seq<Wire>, safe: ArgFilter) {
    && (forall m :: m in msgs ==> WithinLimit(m))
    && match turn
       case User(content) => AllUser(msgs) && Concat(Contents(msgs)) == content
       case Assistant(_, _, _, _, _) => |msgs| == 1 && AssistantCarried(turn, msgs[0], safe)
       case ToolResult(callId, _, result) =>
         && msgs != [] && (forall m :: m in msgs ==> m.ToolMessage? && m.callId == callId)
         && ResultTold(result, Concat(Contents(msgs)))
       case SystemNote(kind, note) => AllUser(msgs) && NoteTold(kind, note, Concat(Contents(msgs)))
       case Error(_, _) => msgs == []
       case Cancelled => msgs == []
  }

  lemma TurnCarried(turn: Turn, safe: ArgFilter)
    ensures Carried(turn, TurnMessages(turn, safe), safe)
  {
    match turn
    case User(_) => TurnMessagesLossless(turn, safe);
    case ToolResult(_, _, result) =>
      TurnMessagesLossless(turn, safe);
      RenderTold(result);
    case SystemNote(kind, note) =>
      TurnMessagesLossless(turn, safe);
      NoteRenderTold(kind, note);
    case Assistant(text, reasoning, calls, _, _) =>
    case _ =>
  }

  lemma RenderTold(body: ToolResultBody)
    ensures ResultTold(body, Render(body))
  {
    if body.Ok? {
      assert body.content + "" == body.content;
    }
  }

  lemma NoteRenderTold(kind: NoteKind, note: string)
    ensures NoteTold(kind, note, RenderNote(kind, note))
  {
  }

  function Runs(runs: seq<seq<Wire>>): seq<Wire> {
    if runs == [] then [] else runs[0] + Runs(runs[1..])
  }

  lemma {:induction false} FlattenRuns(turns: seq<Turn>, safe: ArgFilter) returns (runs: seq<seq<Wire>>)
    ensures |runs| == |turns| && Flatten(turns, safe) == Runs(runs)
    ensures forall i :: 0 <= i < |turns| ==> Carried(turns[i], runs[i], safe)
    decreases |turns|
  {
    hide Carried, TurnMessages;
    runs := [];
    if turns != [] {
      var rest := FlattenRuns(turns[1..], safe);
      TurnCarried(turns[0], safe);
      runs := [TurnMessages(turns[0], safe)] + rest;
      assert runs[1..] == rest;
    }
  }

  ghost predicate IsLastNote(turns: seq<Turn>, i: nat, kind: NoteKind) {
    i < |turns| && IsNote(turns[i], kind) && forall j :: i < j < |turns| ==> !IsNote(turns[j], kind)
  }

  /** The newest compaction note, or the beginning when there is none. */
  ghost predicate StartTold(turns: seq<Turn>, start: nat) {
    || IsLastNote(turns, start, Compaction)
    || (start == 0 && forall i :: 0 <= i < |turns| ==> !IsNote(turns[i], Compaction))
  }

  /** The newest goal note, if it lies before the start and says something; otherwise nothing. */
  ghost predicate GoalTold(turns: seq<Turn>, start: nat, goal: seq<Wire>, safe: ArgFilter) {
    || (exists i :: && 0 <= i < start && IsLastNote(turns, i, Goal) && Visible(turns[i].note)
                    && Carried(turns[i], goal, safe))
    || (goal == [] && forall i :: 0 <= i < start && IsLastNote(turns, i, Goal) ==> !Visible(turns[i].note))
  }

  lemma GoalHeadTold(turns: seq<Turn>, safe: ArgFilter)
    ensures GoalTold(turns, ActiveStart(turns), GoalHead(turns), safe)
  {
    var note := LastNote(turns, Goal);
    hide Carried, Pieces, GoalBlock, EscapedLen;
    if note.Some? {
      var i := note.value;
      assert IsLastNote(turns, i, Goal) && (Visible(turns[i].note) <==> !IsBlank(turns[i].note));
      if i < ActiveStart(turns) && Visible(turns[i].note) {
        GoalCarried(turns[i], GoalHead(turns), safe);
      }
    }
  }

  lemma GoalCarried(turn: Turn, goal: seq<Wire>, safe: ArgFilter)
    requires IsNote(turn, Goal) && goal == UserMessages(Pieces(GoalBlock(turn.note)))
    ensures Carried(turn, goal, safe)
  {
    TurnCarried(turn, safe);
    assert TurnMessages(turn, safe) == goal;
  }

  /** A projection is the system prompt, at most one goal block, and from the newest compaction note
      on one run of messages per turn, each saying what its turn says. */
  lemma ProjectTold(turns: seq<Turn>, systemPrompt: string, safe: ArgFilter)
    returns (start: nat, goal: seq<Wire>, runs: seq<seq<Wire>>)
    ensures StartTold(turns, start) && start <= |turns| && |runs| == |turns| - start
    ensures GoalTold(turns, start, goal, safe)
    ensures forall i :: 0 <= i < |runs| ==> Carried(turns[start + i], runs[i], safe)
    ensures Project(turns, systemPrompt, safe) == [SystemMessage(systemPrompt)] + goal + Runs(runs)
  {
    hide Carried, Flatten, TurnMessages, Runs, GoalTold, GoalHead;
    start, goal := ActiveStart(turns), GoalHead(turns);
    runs := FlattenRuns(turns[start..], safe);
    GoalHeadTold(turns, safe);
  }

  lemma {:induction false} FlattenWithinLimit(turns: seq<Turn>, safe: ArgFilter)
    ensures forall m :: m in Flatten(turns, safe) ==> WithinLimit(m)
    decreases |turns|
  {
    if turns != [] {
      if turns[0].User? || turns[0].ToolResult? || turns[0].SystemNote? {
        TurnMessagesLossless(turns[0], safe);
      }
      FlattenWithinLimit(turns[1..], safe);
    }
  }

  /** Every projected user and tool message is under the limit, for every session. */
  lemma ProjectWithinLimit(turns: seq<Turn>, systemPrompt: string, safe: ArgFilter)
    ensures forall m :: m in Project(turns, systemPrompt, safe) ==> WithinLimit(m)
  {
    hide LastNote, IsBlank, Pieces, GoalBlock, Flatten, EscapedLen;
    FlattenWithinLimit(turns[ActiveStart(turns)..], safe);
    var goal := LastNote(turns, Goal);
    if goal.Some? {
      PiecesSpec(GoalBlock(turns[goal.value].note));
    }
  }

  // ---------------------------------------------------------------------------------------
  // The tool-answer invariant
  // ---------------------------------------------------------------------------------------

  predicate HasCalls(m: Wire) {
    m.AssistantMessage? && m.toolCalls != []
  }

  function CallIds(calls: seq<ToolCall>): set<string> {
    set c | c in calls :: c.id
  }

  /** Ids answered by the contiguous run of tool messages at the head of the list. */
  function LeadingIds(msgs: seq<Wire>): set<string> {
    if msgs != [] && msgs[0].ToolMessage? then {msgs[0].callId} + LeadingIds(msgs[1..]) else {}
  }

  ghost predicate AnsweredAt(msgs: seq<Wire>, i: nat)
    requires i < |msgs|
  {
    HasCalls(msgs[i]) ==> LeadingIds(msgs[i + 1..]) == CallIds(msgs[i].toolCalls)
  }

  /** Every assistant call set is answered, id for id, by the contiguous tool run after it. */
  ghost predicate AllAnswered(msgs: seq<Wire>) {
    forall i :: 0 <= i < |msgs| ==> AnsweredAt(msgs, i)
  }

  datatype Violation = Unanswered | Mismatch(missing: set<string>, extra: set<string>)

  datatype Verdict = Sound | Violated(at: nat, violation: Violation)

  /** The contiguous tool run that starts at `from`. */
  method CollectAnswers(msgs: seq<Wire>, from: nat) returns (got: set<string>, j: nat)
    requires from <= |msgs|
    ensures from <= j <= |msgs|
    ensures got == LeadingIds(msgs[from..]) && (got == {} <==> j == from)
    ensures forall k :: from <= k < j ==> msgs[k].ToolMessage?
  {
    got := {};
    j := from;
    while j < |msgs| && msgs[j].ToolMessage?
      invariant from <= j <= |msgs|
      invariant got + LeadingIds(msgs[j..]) == LeadingIds(msgs[from..])
      invariant got == {} <==> j == from
      invariant forall k :: from <= k < j ==> msgs[k].ToolMessage?
    {
      assert msgs[j..][1..] == msgs[j + 1..];
      got := got + {msgs[j].callId};
      j := j + 1;
    }
  }

  /** The scan stops at the first violation and describes it. */
  method VerifyInvariant(msgs: seq<Wire>) returns (v: Verdict)
    ensures v.Sound? <==> AllAnswered(msgs)
    ensures v.Violated? ==>
              && v.at < |msgs| && !AnsweredAt(msgs, v.at)
              && (forall k :: 0 <= k < v.at ==> AnsweredAt(msgs, k))
              && var expected, got := CallIds(msgs[v.at].toolCalls), LeadingIds(msgs[v.at + 1..]);
                 v.violation == if got == {} then Unanswered else Mismatch(expected - got, got - expected)
  {
    var i := 0;
    while i < |msgs|
      invariant 0 <= i <= |msgs|
      invariant forall k :: 0 <= k < i ==> AnsweredAt(msgs, k)
    {
      if HasCalls(msgs[i]) {
        var expected := CallIds(msgs[i].toolCalls);
        var got, j := CollectAnswers(msgs, i + 1);
        CallIdsNonEmpty(msgs[i].toolCalls);
        assert AnsweredAt(msgs, i) <==> got == expected;
        if j == i + 1 {
          return Violated(i, Unanswered);
        }
        if got != expected {
          return Violated(i, Mismatch(expected - got, got - expected));
        }
        i := j;
      } else {
        i := i + 1;
      }
    }
    return Sound;
  }

  /** The invariant compares sets of ids: any positive number of tool messages answers a call. */
  lemma SeveralMessagesAnswer(call: ToolCall, contents: seq<string>)
    ensures AllAnswered([AssistantMessage(None, None, [call])] + ToolMessages(call.id, contents)) <==> contents != []
  {
    var msgs := [AssistantMessage(None, None, [call])] + ToolMessages(call.id, contents);
    assert msgs[1..] == ToolMessages(call.id, contents);
    IdsOfRun(call.id, contents);
    assert call in [call] && CallIds([call]) == {call.id};
    assert AnsweredAt(msgs, 0) <==> contents != [];
  }

  lemma {:induction false} IdsOfRun(id: string, contents: seq<string>)
    ensures LeadingIds(ToolMessages(id, contents)) == if contents == [] then {} else {id}
  {
    if contents != [] {
      IdsOfRun(id, contents[1..]);
      assert ToolMessages(id, contents)[1..] == ToolMessages(id, contents[1..]);
    }
  }

  lemma CallIdsNonEmpty(calls: seq<ToolCall>)
    requires calls != []
    ensures CallIds(calls) != {}
  {
    assert calls[0] in calls;
    assert calls[0].id in CallIds(calls);
  }

  // A compositional form of the invariant: a left-to-right scan whose state is the call set
  // still being answered.

  datatype Scan = Closed | Open(expected: set<string>, got: set<string>) | Bad

  predicate Accepting(s: Scan) {
    s.Closed? || (s.Open? && s.got == s.expected)
  }

  function Close(s: Scan): Scan {
    if Accepting(s) then Closed else Bad
  }

  function Answer(s: Scan, id: string): Scan {
    if s.Open? then Open(s.expected, s.got + {id}) else s
  }

  function ScanMessage(s: Scan, m: Wire): Scan {
    match m
    case SystemMessage(_) => Close(s)
    case UserMessage(_) => Close(s)
    case AssistantMessage(_, _, calls) => if calls != [] && Accepting(s) then Open(CallIds(calls), {}) else Close(s)
    case ToolMessage(id, _) => Answer(s, id)
  }

  function ScanWire(s: Scan, msgs: seq<Wire>): Scan
    decreases |msgs|
  {
    if msgs == [] then s else ScanWire(ScanMessage(s, msgs[0]), msgs[1..])
  }

  function ScanTurn(s: Scan, turn: Turn): Scan {
    match turn
    case User(_) => Close(s)
    case Assistant(_, _, calls, _, _) => if calls != [] && Accepting(s) then Open(CallIds(calls), {}) else Close(s)
    case ToolResult(id, _, _) => Answer(s, id)
    case SystemNote(_, _) => Close(s)
    case Error(_, _) => s
    case Cancelled => s
  }

  function ScanTurns(s: Scan, turns: seq<Turn>): Scan
    decreases |turns|
  {
    if turns == [] then s else ScanTurns(ScanTurn(s, turns[0]), turns[1..])
  }

  ghost predicate TailAnswered(s: Scan, msgs: seq<Wire>) {
    && (s.Open? ==> s.got + LeadingIds(msgs) == s.expected)
    && !s.Bad?
    && AllAnswered(msgs)
  }

  lemma AllAnsweredTail(msgs: seq<Wire>)
    requires msgs != []
    ensures AllAnswered(msgs) <==> AnsweredAt(msgs, 0) && AllAnswered(msgs[1..])
  {
    forall i | 0 <= i < |msgs| - 1
      ensures AnsweredAt(msgs[1..], i) <==> AnsweredAt(msgs, i + 1)
    {
      assert msgs[1..][i + 1..] == msgs[i + 2..];
    }
    assert forall i :: 0 < i < |msgs| ==> (AnsweredAt(msgs, i) <==> AnsweredAt(msgs[1..], i - 1));
  }

  /** The scan accepts exactly the lists that satisfy the invariant. */
  lemma {:induction false} ScanDecides(s: Scan, msgs: seq<Wire>)
    ensures Accepting(ScanWire(s, msgs)) <==> TailAnswered(s, msgs)
    decreases |msgs|
  {
    if msgs != [] {
      AllAnsweredTail(msgs);
      ScanDecides(ScanMessage(s, msgs[0]), msgs[1..]);
      if HasCalls(msgs[0]) {
        CallIdsNonEmpty(msgs[0].toolCalls);
      }
      if s.Open? && msgs[0].ToolMessage? {
        assert s.got + {msgs[0].callId} + LeadingIds(msgs[1..]) == s.got + LeadingIds(msgs);
      }
    }
  }

  lemma {:induction false} ScanWireAppend(s: Scan, a: seq<Wire>, b: seq<Wire>)
    ensures ScanWire(s, a + b) == ScanWire(ScanWire(s, a), b)
    decreases |a|
  {
    if a == [] {
      assert a + b == b;
    } else {
      assert (a + b)[1..] == a[1..] + b;
      ScanWireAppend(ScanMessage(s, a[0]), a[1..], b);
    }
  }

  lemma {:induction false} ScanTurnsAppend(s: Scan, a: seq<Turn>, b: seq<Turn>)
    ensures ScanTurns(s, a + b) == ScanTurns(ScanTurns(s, a), b)
    decreases |a|
  {
    if a == [] {
      assert a + b == b;
    } else {
      assert (a + b)[1..] == a[1..] + b;
      ScanTurnsAppend(ScanTurn(s, a[0]), a[1..], b);
    }
  }

  lemma {:induction false} ScanUserRun(s: Scan, msgs: seq<Wire>)
    requires forall m :: m in msgs ==> m.UserMessage?
    ensures ScanWire(s, msgs) == if msgs == [] then s else Close(s)
    decreases |msgs|
  {
    if msgs != [] {
      ScanUserRun(Close(s), msgs[1..]);
    }
  }

  lemma {:induction false} ScanToolRun(s: Scan, id: string, msgs: seq<Wire>)
    requires forall m :: m in msgs ==> m.ToolMessage? && m.callId == id
    ensures ScanWire(s, msgs) == if msgs == [] then s else Answer(s, id)
    decreases |msgs|
  {
    if msgs != [] {
      assert msgs[0] in msgs;
      ScanToolRun(Answer(s, id), id, msgs[1..]);
      assert s.Open? ==> s.got + {id} + {id} == s.got + {id};
    }
  }

  lemma ScanTurnMessages(s: Scan, turn: Turn, safe: ArgFilter)
    ensures ScanWire(s, TurnMessages(turn, safe)) == ScanTurn(s, turn)
  {
    var msgs := TurnMessages(turn, safe);
    match turn
    case User(_) => TurnMessagesLossless(turn, safe); ScanUserRun(s, msgs);
    case SystemNote(_, _) => TurnMessagesLossless(turn, safe); ScanUserRun(s, msgs);
    case ToolResult(id, _, _) => TurnMessagesLossless(turn, safe); ScanToolRun(s, id, msgs);
    case Assistant(_, _, calls, _, _) =>
      assert msgs[1..] == [];
      WireCallIds(calls, safe);
    case Error(_, _) =>
    case Cancelled =>
  }

  lemma WireCallIds(calls: seq<ToolCall>, safe: ArgFilter)
    ensures CallIds(WireCalls(calls, safe)) == CallIds(calls)
  {
  }

  lemma {:induction false} ScanFlatten(s: Scan, turns: seq<Turn>, safe: ArgFilter)
    ensures ScanWire(s, Flatten(turns, safe)) == ScanTurns(s, turns)
    decreases |turns|
  {
    if turns != [] {
      ScanTurnMessages(s, turns[0], safe);
      ScanWireAppend(s, TurnMessages(turns[0], safe), Flatten(turns[1..], safe));
      ScanFlatten(ScanTurn(s, turns[0]), turns[1..], safe);
    }
  }

  /** The state of the scan after the turns a request would carry. */
  function Settled(turns: seq<Turn>): Scan {
    ScanTurns(Closed, turns[ActiveStart(turns)..])
  }

  /** Splitting, argument replacement and goal injection never decide the invariant: a projected
      session satisfies it exactly when its active turns do. */
  lemma ProjectionAnsweredExactly(turns: seq<Turn>, systemPrompt: string, safe: ArgFilter)
    ensures AllAnswered(Project(turns, systemPrompt, safe)) <==> Accepting(Settled(turns))
  {
    var head, body := [SystemMessage(systemPrompt)] + GoalHead(turns), Flatten(turns[ActiveStart(turns)..], safe);
    assert Project(turns, systemPrompt, safe) == head + body;
    ScanDecides(Closed, head + body);
    ScanWireAppend(Closed, head, body);
    assert head[1..] == GoalHead(turns);
    ScanUserRun(Closed, GoalHead(turns));
    ScanFlatten(Closed, turns[ActiveStart(turns)..], safe);
  }
}

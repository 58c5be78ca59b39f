/** The context layer: mention expansion in the last user turn, the per-result cap, and what
    they mean for prefix stability; then compaction and the session goal. `Files` stands for
    the expansion of `@file` mentions against a fixed set of files. */
module Assembly {
  import opened Text
  import opened Turns
  import opened Wrappers
  import opened Projection

  type Files = string -> string

  datatype Assembler = Assembler(systemPrompt: string, expand: Files, toolResultCap: nat, safe: ArgFilter)

  // ---------------------------------------------------------------------------------------
  // Preparing the turns
  // ---------------------------------------------------------------------------------------

  /** Index of the last user turn, or the length of the list when there is none. */
  function LastUser(turns: seq<Turn>): (r: nat)
    ensures r <= |turns|
    ensures r < |turns| ==> turns[r].User? && forall i :: r < i < |turns| ==> !turns[i].User?
    ensures r == |turns| ==> forall i :: 0 <= i < |turns| ==> !turns[i].User?
  {
    if turns == [] then 0
    else if turns[|turns| - 1].User? then |turns| - 1
    else
      var r := LastUser(turns[..|turns| - 1]);
      if r < |turns| - 1 then r else |turns|
  }

  function ExpandTurn(turn: Turn, expand: Files): Turn {
    if turn.User? then User(expand(turn.content)) else turn
  }

  function CapTurn(turn: Turn, cap: nat): Turn {
    if cap > 0 && turn.ToolResult? then turn.(result := TruncateBody(turn.result, cap)) else turn
  }

  function CapAll(turns: seq<Turn>, cap: nat): (r: seq<Turn>)
    ensures |r| == |turns|
    ensures forall i :: 0 <= i < |r| ==> r[i] == CapTurn(turns[i], cap)
  {
    seq(|turns|, i requires 0 <= i < |turns| => CapTurn(turns[i], cap))
  }

  /** What is sent in place of the turn at `i`. */
  function PreparedTurn(turns: seq<Turn>, i: nat, a: Assembler): Turn
    requires i < |turns|
  {
    CapTurn(if i == LastUser(turns) then ExpandTurn(turns[i], a.expand) else turns[i], a.toolResultCap)
  }

  function Prepared(turns: seq<Turn>, a: Assembler): (r: seq<Turn>)
    ensures |r| == |turns|
    ensures forall i :: 0 <= i < |r| ==> r[i] == PreparedTurn(turns, i, a)
  {
    seq(|turns|, i requires 0 <= i < |turns| => PreparedTurn(turns, i, a))
  }

  /** What is sent in place of a turn, told from the turn: the text of the last user turn is expanded,
      tool results are cut to the cap, everything else is sent as it is. */
  ghost predicate PreparedTold(turns: seq<Turn>, i: nat, a: Assembler, sent: Turn)
    requires i < |turns|
  {
    match turns[i]
    case User(content) =>
      sent == User(if forall j :: i < j < |turns| ==> !turns[j].User? then a.expand(content) else content)
    case ToolResult(callId, tool, result) =>
      && sent.ToolResult? && sent.callId == callId && sent.tool == tool
      && if a.toolResultCap > 0 then IsCut(result, sent.result, a.toolResultCap) else sent.result == result
    case _ => sent == turns[i]
  }

  lemma PreparationTold(turns: seq<Turn>, i: nat, a: Assembler)
    requires i < |turns|
    ensures PreparedTold(turns, i, a, Prepared(turns, a)[i])
  {
    hide IsCut, TruncateBody;
    if turns[i].ToolResult? {
      TruncationIsCut(turns[i].result, a.toolResultCap);
    }
    assert turns[i].User? ==> (i == LastUser(turns) <==> forall j :: i < j < |turns| ==> !turns[j].User?);
  }

  /** A request is the projection of the turns so prepared. */
  lemma AssembleTold(turns: seq<Turn>, a: Assembler) returns (sent: seq<Turn>)
    ensures |sent| == |turns| && forall i :: 0 <= i < |turns| ==> PreparedTold(turns, i, a, sent[i])
    ensures Assemble(turns, a) == Project(sent, a.systemPrompt, a.safe)
  {
    hide PreparedTold, TruncateBody, Project;
    sent := Prepared(turns, a);
    forall i | 0 <= i < |turns|
      ensures PreparedTold(turns, i, a, sent[i])
    {
      PreparationTold(turns, i, a);
    }
  }

  /** From the last user turn on, every user turn is expanded; the cap is applied to all. */
  method PrepareTurns(turns: seq<Turn>, a: Assembler) returns (r: seq<Turn>)
    ensures r == Prepared(turns, a)
    ensures forall i :: 0 <= i < |turns| ==> PreparedTold(turns, i, a, r[i])
  {
    hide PreparedTold, TruncateBody;
    forall i | 0 <= i < |turns|
      ensures PreparedTold(turns, i, a, Prepared(turns, a)[i])
    {
      PreparationTold(turns, i, a);
    }
    var idx := LastUser(turns);
    if idx == |turns| {
      return CapAll(turns, a.toolResultCap);
    }
    var out := turns[..idx];
    for k := idx to |turns|
      invariant |out| == k
      invariant forall i :: 0 <= i < k ==> out[i] == if i == idx then ExpandTurn(turns[i], a.expand) else turns[i]
    {
      match turns[k] {
        case User(content) => out := out + [User(a.expand(content))];
        case _ => out := out + [turns[k]];
      }
    }
    r := CapAll(out, a.toolResultCap);
  }

  function Assemble(turns: seq<Turn>, a: Assembler): seq<Wire> {
    Project(Prepared(turns, a), a.systemPrompt, a.safe)
  }

  lemma {:induction false} LastNotePrepared(turns: seq<Turn>, other: seq<Turn>, kind: NoteKind)
    requires |other| == |turns|
    requires forall i :: 0 <= i < |turns| ==> (IsNote(turns[i], kind) <==> IsNote(other[i], kind))
    ensures LastNote(other, kind) == LastNote(turns, kind)
    decreases |turns|
  {
  }

  lemma PreparedKeepsNotes(turns: seq<Turn>, a: Assembler)
    ensures forall kind :: LastNote(Prepared(turns, a), kind) == LastNote(turns, kind)
    ensures ActiveStart(Prepared(turns, a)) == ActiveStart(turns)
    ensures GoalHead(Prepared(turns, a)) == GoalHead(turns)
  {
    forall kind
      ensures LastNote(Prepared(turns, a), kind) == LastNote(turns, kind)
    {
      LastNotePrepared(turns, Prepared(turns, a), kind);
    }
  }

  lemma {:induction false} ScanSameShape(s: Scan, turns: seq<Turn>, other: seq<Turn>)
    requires |other| == |turns|
    requires forall i, t :: 0 <= i < |turns| ==> ScanTurn(t, turns[i]) == ScanTurn(t, other[i])
    ensures ScanTurns(s, other) == ScanTurns(s, turns)
    decreases |turns|
  {
    if turns != [] {
      assert ScanTurn(s, turns[0]) == ScanTurn(s, other[0]);
      forall i, t | 0 <= i < |turns| - 1
        ensures ScanTurn(t, turns[1..][i]) == ScanTurn(t, other[1..][i])
      {
        assert ScanTurn(t, turns[i + 1]) == ScanTurn(t, other[i + 1]);
      }
      ScanSameShape(ScanTurn(s, turns[0]), turns[1..], other[1..]);
    }
  }

  /** Expansion and capping never decide the tool-answer invariant of a request. */
  lemma AssembledAnsweredExactly(turns: seq<Turn>, a: Assembler)
    ensures AllAnswered(Assemble(turns, a)) <==> Accepting(Settled(turns))
  {
    var prepared, start := Prepared(turns, a), ActiveStart(turns);
    PreparedKeepsNotes(turns, a);
    ProjectionAnsweredExactly(prepared, a.systemPrompt, a.safe);
    ScanSameShape(Closed, turns[start..], prepared[start..]);
  }

  // ---------------------------------------------------------------------------------------
  // Prefix stability
  // ---------------------------------------------------------------------------------------

  ghost predicate NoBoundary(turns: seq<Turn>) {
    forall i :: 0 <= i < |turns| ==> !IsNote(turns[i], Compaction) && !IsNote(turns[i], Goal)
  }

  ghost predicate NoUser(turns: seq<Turn>) {
    forall i :: 0 <= i < |turns| ==> !turns[i].User?
  }

  lemma {:induction false} LastNoteExtend(ts: seq<Turn>, s: seq<Turn>, kind: NoteKind)
    requires forall i :: 0 <= i < |s| ==> !IsNote(s[i], kind)
    ensures LastNote(ts + s, kind) == LastNote(ts, kind)
    decreases |s|
  {
    if s == [] {
      assert ts + s == ts;
    } else {
      assert (ts + s)[..|ts + s| - 1] == ts + s[..|s| - 1];
      LastNoteExtend(ts, s[..|s| - 1], kind);
    }
  }

  lemma ExtendKeepsBoundary(ts: seq<Turn>, s: seq<Turn>)
    requires NoBoundary(s)
    ensures ActiveStart(ts + s) == ActiveStart(ts)
    ensures GoalHead(ts + s) == GoalHead(ts)
  {
    LastNoteExtend(ts, s, Compaction);
    LastNoteExtend(ts, s, Goal);
  }

  lemma {:induction false} LastUserExtend(ts: seq<Turn>, s: seq<Turn>)
    ensures NoUser(s) ==> LastUser(ts + s) == if LastUser(ts) == |ts| then |ts + s| else LastUser(ts)
    ensures !NoUser(s) ==> LastUser(ts + s) >= |ts|
    decreases |s|
  {
    if s == [] {
      assert ts + s == ts;
    } else {
      assert (ts + s)[..|ts + s| - 1] == ts + s[..|s| - 1];
      LastUserExtend(ts, s[..|s| - 1]);
    }
  }

  function Head(turns: seq<Turn>, a: Assembler): seq<Wire> {
    [SystemMessage(a.systemPrompt)] + GoalHead(turns)
  }

  lemma AssembleSplit(turns: seq<Turn>, a: Assembler, cut: nat)
    requires ActiveStart(turns) <= cut <= |turns|
    ensures Assemble(turns, a) ==
            Head(turns, a)
            + Flatten(Prepared(turns, a)[ActiveStart(turns)..cut], a.safe)
            + Flatten(Prepared(turns, a)[cut..], a.safe)
  {
    hide TurnMessages, GoalHead, LastNote, PreparedTurn;
    PreparedKeepsNotes(turns, a);
    var p, start := Prepared(turns, a), ActiveStart(turns);
    assert p[start..] == p[start..cut] + p[cut..];
    FlattenAppend(p[start..cut], p[cut..], a.safe);
  }

  lemma PreparedSameAt(ts: seq<Turn>, s: seq<Turn>, a: Assembler, i: nat)
    requires i < |ts|
    requires i == LastUser(ts + s) <==> i == LastUser(ts)
    ensures PreparedTurn(ts + s, i, a) == PreparedTurn(ts, i, a)
  {
  }

  lemma PreparedSlice(ts: seq<Turn>, s: seq<Turn>, a: Assembler, from: nat, to: nat)
    requires from <= to <= |ts|
    requires forall i :: from <= i < to ==> PreparedTurn(ts + s, i, a) == PreparedTurn(ts, i, a)
    ensures Prepared(ts + s, a)[from..to] == Prepared(ts, a)[from..to]
  {
  }

  /** A turn of `ts` is prepared the same way after the extension, unless it was the last user
      turn and no longer is. */
  lemma PreparedUnchanged(ts: seq<Turn>, s: seq<Turn>, a: Assembler, from: nat, to: nat)
    requires from <= to <= |ts|
    requires NoUser(s) || LastUser(ts) < from || to <= LastUser(ts)
    ensures Prepared(ts + s, a)[from..to] == Prepared(ts, a)[from..to]
  {
    LastUserExtend(ts, s);
    hide PreparedTurn, Prepared, LastUser;
    forall i | from <= i < to
      ensures PreparedTurn(ts + s, i, a) == PreparedTurn(ts, i, a)
    {
      PreparedSameAt(ts, s, a, i);
    }
    PreparedSlice(ts, s, a, from, to);
  }

  /** Appending turns that hold no user message, no goal and no compaction only appends
      messages: everything already sent stays byte for byte. */
  lemma AppendKeepsPrefix(ts: seq<Turn>, s: seq<Turn>, a: Assembler)
    requires NoBoundary(s) && NoUser(s)
    ensures Assemble(ts, a) <= Assemble(ts + s, a)
    ensures Assemble(ts + s, a) == Assemble(ts, a) + Flatten(CapAll(s, a.toolResultCap), a.safe)
  {
    hide GoalHead, ActiveStart, Assemble, TurnMessages;
    ExtendKeepsBoundary(ts, s);
    LastUserExtend(ts, s);
    AssembleSplit(ts, a, |ts|);
    AssembleSplit(ts + s, a, |ts|);
    PreparedUnchanged(ts, s, a, ActiveStart(ts), |ts|);
    assert Prepared(ts, a)[|ts|..] == [];
    assert Prepared(ts + s, a)[|ts|..] == CapAll(s, a.toolResultCap);
  }

  function StableCut(turns: seq<Turn>): (cut: nat)
    ensures ActiveStart(turns) <= cut <= |turns|
  {
    if LastUser(turns) < ActiveStart(turns) then |turns| else LastUser(turns)
  }

  /** The messages of the turns before the last user turn (all of them when that turn is not
      part of the request). */
  function StablePart(turns: seq<Turn>, a: Assembler): seq<Wire> {
    Head(turns, a) + Flatten(Prepared(turns, a)[ActiveStart(turns)..StableCut(turns)], a.safe)
  }

  /** Whatever is appended short of a goal or a compaction, everything sent for the turns
      before the last user turn is still sent unchanged, and in the same place. */
  lemma StablePartSurvives(ts: seq<Turn>, s: seq<Turn>, a: Assembler)
    requires NoBoundary(s)
    ensures StablePart(ts, a) <= Assemble(ts, a)
    ensures StablePart(ts, a) <= Assemble(ts + s, a)
  {
    PreparedUnchanged(ts, s, a, ActiveStart(ts), StableCut(ts));
    hide GoalHead, ActiveStart, Assemble, Flatten, PreparedTurn, StableCut;
    ExtendKeepsBoundary(ts, s);
    AssembleSplit(ts, a, StableCut(ts));
    AssembleSplit(ts + s, a, StableCut(ts));
  }

  lemma PrefixCancel<T>(a: seq<T>, b: seq<T>, c: seq<T>)
    ensures a + b <= a + c <==> b <= c
  {
    if b <= c {
      assert a + c == a + b + c[|b|..];
    }
    if a + b <= a + c {
      assert b == (a + b)[|a|..] && c == (a + c)[|a|..];
      assert forall i :: 0 <= i < |b| ==> b[i] == (a + b)[|a| + i] == (a + c)[|a| + i] == c[i];
    }
  }

  /** Behind one of two runs of user messages stand the same messages, then more. If the runs are
      equally long, or what follows does not begin with a user message, one is a prefix of the other
      only if the runs are the same. */
  lemma RunsDecide(x: seq<string>, y: seq<string>, after: seq<Wire>, more: seq<Wire>)
    requires UserMessages(x) + after <= UserMessages(y) + (after + more)
    requires |x| == |y| || (after != [] && !after[0].UserMessage?)
    ensures x == y
  {
    var u, v := UserMessages(x) + after, UserMessages(y) + (after + more);
    var n := if |x| < |y| then |x| else |y|;
    assert n < |u| ==> u[n] == v[n];
    forall i | 0 <= i < |x|
      ensures x[i] == y[i]
    {
      assert u[i] == UserMessage(x[i]) && v[i] == UserMessage(y[i]);
    }
  }

  /** The last user turn is part of the request. */
  ghost predicate UserIsActive(ts: seq<Turn>) {
    ActiveStart(ts) <= LastUser(ts) < |ts|
  }

  /** What is sent behind turn `i`. */
  function SentBehind(turns: seq<Turn>, i: nat, a: Assembler): seq<Wire>
    requires i < |turns|
  {
    Flatten(Prepared(turns, a)[i + 1..], a.safe)
  }

  lemma LastUserPrepared(ts: seq<Turn>, s: seq<Turn>, a: Assembler)
    requires !NoUser(s) && LastUser(ts) < |ts|
    ensures Prepared(ts, a)[LastUser(ts)] == User(a.expand(ts[LastUser(ts)].content))
    ensures Prepared(ts + s, a)[LastUser(ts)] == User(ts[LastUser(ts)].content)
  {
    LastUserExtend(ts, s);
  }

  lemma PreparedAroundLastUser(ts: seq<Turn>, s: seq<Turn>, a: Assembler) returns (added: seq<Turn>)
    requires !NoUser(s) && LastUser(ts) < |ts|
    ensures var cut, content := LastUser(ts), ts[LastUser(ts)].content;
            && Prepared(ts, a)[cut..] == [User(a.expand(content))] + Prepared(ts, a)[cut + 1..]
            && Prepared(ts + s, a)[cut..] == [User(content)] + Prepared(ts + s, a)[cut + 1..]
            && Prepared(ts + s, a)[cut + 1..] == Prepared(ts, a)[cut + 1..] + added
  {
    var cut, p, q := LastUser(ts), Prepared(ts, a), Prepared(ts + s, a);
    hide PreparedTurn, LastUser, NoUser;
    LastUserPrepared(ts, s, a);
    PreparedUnchanged(ts, s, a, cut + 1, |ts|);
    added := q[|ts|..];
    hide *;
    assert p[cut + 1..] == p[cut + 1..|ts|];
    assert q[cut + 1..] == q[cut + 1..|ts|] + added;
  }

  lemma UserTurnFirst(content: string, rest: seq<Turn>, safe: ArgFilter)
    ensures Flatten([User(content)] + rest, safe) == UserMessages(Pieces(content)) + Flatten(rest, safe)
  {
    assert ([User(content)] + rest)[1..] == rest;
  }

  /** The request before and after a new user turn, cut at the previous user turn. */
  lemma AroundLastUser(ts: seq<Turn>, s: seq<Turn>, a: Assembler) returns (stable: seq<Wire>, more: seq<Wire>)
    requires NoBoundary(s) && !NoUser(s) && UserIsActive(ts)
    ensures var cut, content := LastUser(ts), ts[LastUser(ts)].content;
            && Assemble(ts, a) == stable + (UserMessages(Pieces(a.expand(content))) + SentBehind(ts, cut, a))
            && Assemble(ts + s, a) == stable + (UserMessages(Pieces(content)) + SentBehind(ts + s, cut, a))
            && SentBehind(ts + s, cut, a) == SentBehind(ts, cut, a) + more
  {
    hide GoalHead, Assemble, Flatten, PreparedTurn, Prepared, ActiveStart, Pieces, NoBoundary, NoUser, LastUser;
    var start, cut := ActiveStart(ts), LastUser(ts);
    var content := ts[cut].content;
    var added := PreparedAroundLastUser(ts, s, a);
    PreparedUnchanged(ts, s, a, start, cut);
    UserTurnFirst(a.expand(content), Prepared(ts, a)[cut + 1..], a.safe);
    UserTurnFirst(content, Prepared(ts + s, a)[cut + 1..], a.safe);
    stable := Head(ts, a) + Flatten(Prepared(ts, a)[start..cut], a.safe);
    more := Flatten(added, a.safe);
    FlattenAppend(Prepared(ts, a)[cut + 1..], added, a.safe);
    ExtendKeepsBoundary(ts, s);
    AssembleSplit(ts, a, cut);
    AssembleSplit(ts + s, a, cut);
  }

  /** A new user turn takes the mention expansion away from the previous one. Whether the previous
      request survives as a prefix is decided from that turn on. When its text goes out in as many
      messages as its expansion, or the message behind it is not a user's, it survives exactly when
      the turn expands to itself; when that turn is not part of the request, it always does. */
  lemma NewUserTurnKeepsPrefixExactly(ts: seq<Turn>, s: seq<Turn>, a: Assembler)
    requires NoBoundary(s) && !NoUser(s)
    ensures UserIsActive(ts) ==>
              var cut, content := LastUser(ts), ts[LastUser(ts)].content;
              var sent, plain, after := Pieces(a.expand(content)), Pieces(content), SentBehind(ts, cut, a);
              && (Assemble(ts, a) <= Assemble(ts + s, a) <==>
                  UserMessages(sent) + after <= UserMessages(plain) + SentBehind(ts + s, cut, a))
              && (|sent| == |plain| || (after != [] && !after[0].UserMessage?) ==>
                  (Assemble(ts, a) <= Assemble(ts + s, a) <==> a.expand(content) == content))
    ensures !UserIsActive(ts) ==> Assemble(ts, a) <= Assemble(ts + s, a)
  {
    hide Assemble, Pieces, ActiveStart, NoBoundary, NoUser, SentBehind;
    if UserIsActive(ts) {
      var stable, more := AroundLastUser(ts, s, a);
      var cut, content := LastUser(ts), ts[LastUser(ts)].content;
      var sent, plain, after := Pieces(a.expand(content)), Pieces(content), SentBehind(ts, cut, a);
      PrefixCancel(stable, UserMessages(sent) + after, UserMessages(plain) + (after + more));
      PiecesSpec(a.expand(content));
      PiecesSpec(content);
      if Assemble(ts, a) <= Assemble(ts + s, a) && (|sent| == |plain| || (after != [] && !after[0].UserMessage?)) {
        RunsDecide(sent, plain, after, more);
      }
      assert UserMessages(plain) + (after + more) == (UserMessages(plain) + after) + more;
    } else {
      WholeIsStable(ts, a);
      StablePartSurvives(ts, s, a);
    }
  }

  /** In between, the prefix may survive an expansion that changes the text: one that cuts an
      oversized text down to its first message, when nothing has been sent behind it. */
  lemma ShrunkTurnKeepsPrefix(content: string, s: seq<Turn>, a: Assembler)
    requires |Pieces(content)| > 1 && a.expand(content) == Pieces(content)[0]
    requires NoBoundary(s) && !NoUser(s)
    ensures Assemble([User(content)], a) <= Assemble([User(content)] + s, a) && a.expand(content) != content
  {
    hide Assemble, NoBoundary, NoUser;
    var ts, first := [User(content)], Pieces(content)[0];
    PiecesSpec(content);
    assert Pieces(first) == [first];
    assert LastUser(ts) == 0 == ActiveStart(ts);
    NewUserTurnKeepsPrefixExactly(ts, s, a);
    assert Prepared(ts, a)[1..] == [] && SentBehind(ts, 0, a) == [];
    assert UserMessages([first]) + [] <= UserMessages(Pieces(content)) + SentBehind(ts + s, 0, a);
  }

  lemma WholeIsStable(ts: seq<Turn>, a: Assembler)
    requires !UserIsActive(ts)
    ensures StablePart(ts, a) == Assemble(ts, a)
  {
    hide Assemble, Flatten, Prepared;
    AssembleSplit(ts, a, |ts|);
    assert Prepared(ts, a)[|ts|..] == [];
    NothingSent(a.safe);
  }

  // ---------------------------------------------------------------------------------------
  // Compaction and the session goal
  // ---------------------------------------------------------------------------------------

  /** The goal the runtime reports. */
  function ActiveGoal(turns: seq<Turn>): Option<string> {
    var goal := LastNote(turns, Goal);
    if goal.Some? && !IsBlank(turns[goal.value].note) then Some(turns[goal.value].note) else None
  }

  ghost predicate NoGoal(turns: seq<Turn>) {
    forall i :: 0 <= i < |turns| ==> !IsNote(turns[i], Goal)
  }

  function GoalMessages(goal: string): seq<Wire> {
    UserMessages(Pieces(GoalBlock(goal)))
  }

  lemma GoalNoteMessages(turn: Turn, safe: ArgFilter)
    requires IsNote(turn, Goal)
    ensures TurnMessages(turn, safe) == GoalMessages(turn.note)
  {
  }

  lemma ActiveSplit(turns: seq<Turn>, systemPrompt: string, safe: ArgFilter, i: nat)
    requires ActiveStart(turns) <= i < |turns|
    ensures Project(turns, systemPrompt, safe) ==
            [SystemMessage(systemPrompt)] + GoalHead(turns) + Flatten(turns[ActiveStart(turns)..i], safe)
            + TurnMessages(turns[i], safe) + Flatten(turns[i + 1..], safe)
  {
    hide TurnMessages, GoalHead, LastNote;
    var start := ActiveStart(turns);
    var a, b, c := turns[start..i], [turns[i]], turns[i + 1..];
    assert turns[start..] == a + (b + c);
    FlattenAppend(a, b + c, safe);
    FlattenAppend(b, c, safe);
    assert Flatten(b, safe) == TurnMessages(turns[i], safe) + Flatten([], safe);
  }

  /** When a goal is active, the projection carries exactly its text, and nothing projected
      after it comes from a goal note. */
  lemma ActiveGoalIsCarried(turns: seq<Turn>, systemPrompt: string, safe: ArgFilter)
    returns (before: seq<Wire>, rest: seq<Turn>)
    requires ActiveGoal(turns).Some?
    ensures Project(turns, systemPrompt, safe) == before + GoalMessages(ActiveGoal(turns).value) + Flatten(rest, safe)
    ensures |rest| <= |turns| && rest == turns[|turns| - |rest|..] && NoGoal(rest)
  {
    var i := LastNote(turns, Goal).value;
    var start := ActiveStart(turns);
    if i < start {
      before := [SystemMessage(systemPrompt)];
      rest := turns[start..];
    } else {
      before := [SystemMessage(systemPrompt)] + GoalHead(turns) + Flatten(turns[start..i], safe);
      rest := turns[i + 1..];
      ActiveSplit(turns, systemPrompt, safe, i);
      GoalNoteMessages(turns[i], safe);
    }
  }

  /** When no goal is active, either no goal note reaches the projection at all, or the last
      one that does is a blank clear marker. */
  lemma NoActiveGoalIsBlank(turns: seq<Turn>, systemPrompt: string, safe: ArgFilter)
    returns (before: seq<Wire>, marker: Option<string>, rest: seq<Turn>)
    requires ActiveGoal(turns).None?
    ensures |rest| <= |turns| && rest == turns[|turns| - |rest|..] && NoGoal(rest)
    ensures marker.None? ==> Project(turns, systemPrompt, safe) == [SystemMessage(systemPrompt)] + Flatten(rest, safe)
    ensures marker.Some? ==>
              && IsBlank(marker.value)
              && Project(turns, systemPrompt, safe) == before + GoalMessages(marker.value) + Flatten(rest, safe)
  {
    hide Flatten, Pieces, GoalBlock, TurnMessages, IsBlank;
    var goal := LastNote(turns, Goal);
    var start := ActiveStart(turns);
    if goal.None? || goal.value < start {
      before, marker, rest := [], None, turns[start..];
    } else {
      var i := goal.value;
      before := [SystemMessage(systemPrompt)] + GoalHead(turns) + Flatten(turns[start..i], safe);
      marker := Some(turns[i].note);
      rest := turns[i + 1..];
      ActiveSplit(turns, systemPrompt, safe, i);
      GoalNoteMessages(turns[i], safe);
    }
  }

  lemma {:induction false} LastNoteOfAppend(ts: seq<Turn>, s: seq<Turn>, kind: NoteKind)
    ensures LastNote(ts + s, kind) ==
            match LastNote(s, kind)
            case Some(i) => Some(|ts| + i)
            case None => LastNote(ts, kind)
    decreases |s|
  {
    if s == [] {
      assert ts + s == ts;
    } else if !IsNote(s[|s| - 1], kind) {
      assert (ts + s)[..|ts + s| - 1] == ts + s[..|s| - 1];
      LastNoteOfAppend(ts, s[..|s| - 1], kind);
    }
  }

  ghost predicate IsMarkerTail(tail: seq<Turn>) {
    tail != [] && IsNote(tail[0], Compaction) && forall i :: 0 < i < |tail| ==> !IsNote(tail[i], Compaction)
  }

  lemma ProjectFromMarker(pre: seq<Turn>, tail: seq<Turn>, systemPrompt: string, safe: ArgFilter)
    requires IsMarkerTail(tail)
    ensures ActiveStart(pre + tail) == |pre|
    ensures GoalHead(pre + tail) ==
            if NoGoal(tail) && ActiveGoal(pre).Some? then GoalMessages(ActiveGoal(pre).value) else []
    ensures Project(pre + tail, systemPrompt, safe) ==
            [SystemMessage(systemPrompt)] + GoalHead(pre + tail) + Flatten(tail, safe)
  {
    LastNoteOfAppend(pre, tail, Compaction);
    LastNoteOfAppend(pre, tail, Goal);
    var r := LastNote(tail, Compaction);
    assert r == Some(0) by {
      assert IsNote(tail[0], Compaction);
    }
    assert (pre + tail)[|pre|..] == tail;
  }

  /** Turns before the newest compaction marker reach the projection only through the goal:
      two histories that agree from the marker on and have the same active goal project alike. */
  lemma OnlyTheGoalCrossesCompaction(pre1: seq<Turn>, pre2: seq<Turn>, tail: seq<Turn>, systemPrompt: string,
      safe: ArgFilter)
    requires IsMarkerTail(tail) && ActiveGoal(pre1) == ActiveGoal(pre2)
    ensures Project(pre1 + tail, systemPrompt, safe) == Project(pre2 + tail, systemPrompt, safe)
  {
    ProjectFromMarker(pre1, tail, systemPrompt, safe);
    ProjectFromMarker(pre2, tail, systemPrompt, safe);
  }

  /** The Compact step: the active goal survives, and the next request is the goal (if any)
      followed by the summary, which satisfies the tool-answer invariant whatever the session
      looked like before. */
  lemma CompactStep(turns: seq<Turn>, summary: string, systemPrompt: string, safe: ArgFilter)
    ensures var after := turns + [SystemNote(Compaction, summary)];
            && ActiveGoal(after) == ActiveGoal(turns)
            && Project(after, systemPrompt, safe) ==
               [SystemMessage(systemPrompt)]
               + (if ActiveGoal(turns).Some? then GoalMessages(ActiveGoal(turns).value) else [])
               + UserMessages(Pieces(RenderNote(Compaction, summary)))
            && AllAnswered(Project(after, systemPrompt, safe))
  {
    var marker := [SystemNote(Compaction, summary)];
    ProjectFromMarker(turns, marker, systemPrompt, safe);
    LastNoteExtend(turns, marker, Goal);
    assert Flatten(marker, safe) == TurnMessages(marker[0], safe) + Flatten([], safe);
    ProjectionAnsweredExactly(turns + marker, systemPrompt, safe);
    assert (turns + marker)[|turns|..] == marker;
    assert ScanTurns(Closed, marker) == ScanTurns(ScanTurn(Closed, marker[0]), []);
  }

  /** The SetGoal step, where `None` clears: afterwards the runtime reports the text exactly
      when it is not blank. */
  lemma SetGoalStep(turns: seq<Turn>, goal: Option<string>)
    ensures var text := goal.GetOr("");
            ActiveGoal(turns + [SystemNote(Goal, text)]) == if IsBlank(text) then None else Some(text)
  {
  }
}

/** One agent turn: model requests and tool batches until the turn ends. The model, the clock and
    the user's cancellation are an arbitrary environment; the session is updated in place. */
module AgentLoop {
  import opened Text
  import opened Turns
  import opened Wrappers
  import opened Projection
  import Assembly
  import Batch
  import Cost

  datatype FinishReason = Stop | Length | ToolCalls | ContentFilter | Other(reason: string)

  datatype FinalizedCall =
    | Good(call: ToolCall)
    | Unparsed(id: Option<string>, name: Option<string>, raw: string, error: string)

  datatype Response = Response(
    text: string,
    reasoning: Option<string>,
    calls: seq<FinalizedCall>,
    finish: FinishReason,
    usage: Option<Usage>)

  /** How awaiting the model ends. */
  datatype Reply =
    | WaitCancelled
    | WaitTimeUp
    | RequestFailed(message: string, retryable: bool, cancelled: bool)
    | Answered(response: Response)

  datatype Outcome =
    Stopped | LengthReached | ItersExceeded | NoProgress | Incomplete | TimeUp | UserCancelled | ModelFailed

  /** The environment of one run, indexed by iteration: the model's reply to a request, whether the
      turn's deadline has passed at the loop head, and whether a dropped batch was cancelled by the
      user (or else by the deadline). */
  datatype Env = Env(
    reply: (nat, seq<Wire>) -> Reply,
    deadlinePassed: nat -> bool,
    dropIsCancel: nat -> bool)

  /** The fixed texts the harness writes; nothing depends on their wording. */
  datatype Texts = Texts(
    researchNudge: string,
    forceAction: string,
    partialAnswer: string,
    finalReview: string,
    unconfirmed: string -> string)

  /** `assembler` is applied to the context of the moment (the shell's current directory). */
  datatype Config<!L, !W, !C> = Config(
    maxIters: nat,
    maxTokens: Option<nat>,
    completionReview: bool,
    pricing: Cost.Pricing,
    assembler: Option<C -> Assembly.Assembler>,
    systemPrompt: string,
    texts: Texts,
    safe: ArgFilter,
    host: Batch.Host<L, W, C>)

  const RESEARCH_NUDGE_AFTER: nat := 3
  const MAX_LENGTH_RECOVERIES: nat := 1
  const MAX_UNCONFIRMED_RECOVERIES: nat := 1
  const IMPLICIT_CEILING: nat := 4096

  // ---------------------------------------------------------------------------------------
  // Reading a response
  // ---------------------------------------------------------------------------------------

  /** An empty reasoning-only `stop` at the completion ceiling is really a length finish. */
  predicate ImplicitLength(r: Response, maxTokens: Option<nat>) {
    && r.finish.Stop? && IsBlank(r.text) && r.calls == []
    && r.reasoning.Some? && !IsBlank(r.reasoning.value)
    && r.usage.Some?
    && match maxTokens
       case Some(limit) => Cost.Saturate(r.usage.value.completion + 8) >= limit
       case None => r.usage.value.completion >= IMPLICIT_CEILING
  }

  function EffectiveFinish(r: Response, maxTokens: Option<nat>): FinishReason {
    if ImplicitLength(r, maxTokens) then Length else r.finish
  }

  function CallAt(fc: FinalizedCall, position: nat, safe: ArgFilter): (ToolCall, Batch.ExecItem) {
    match fc
    case Good(call) => (call, Batch.Call(call))
    case Unparsed(id, name, raw, error) =>
      var callId := id.GetOr("parseerr_" + Decimal(position));
      var toolName := if name.Some? && name.value != "" then name.value else "invalid_tool_call";
      (ToolCall(callId, toolName, safe(raw)), Batch.ParseError(callId, toolName, error))
  }

  function CallsOf(calls: seq<FinalizedCall>, safe: ArgFilter): (r: seq<ToolCall>)
    ensures |r| == |calls|
    ensures forall i :: 0 <= i < |r| ==> r[i] == CallAt(calls[i], i, safe).0
  {
    seq(|calls|, i requires 0 <= i < |calls| => CallAt(calls[i], i, safe).0)
  }

  function ItemsOf(calls: seq<FinalizedCall>, safe: ArgFilter): (r: seq<Batch.ExecItem>)
    ensures |r| == |calls|
    ensures forall i :: 0 <= i < |r| ==> r[i] == CallAt(calls[i], i, safe).1
  {
    seq(|calls|, i requires 0 <= i < |calls| => CallAt(calls[i], i, safe).1)
  }

  method SplitCalls(calls: seq<FinalizedCall>, safe: ArgFilter)
    returns (assistantCalls: seq<ToolCall>, execList: seq<Batch.ExecItem>)
    ensures assistantCalls == CallsOf(calls, safe) && execList == ItemsOf(calls, safe)
    ensures Batch.SameCalls(assistantCalls, execList)
  {
    assistantCalls, execList := [], [];
    for i := 0 to |calls|
      invariant assistantCalls == CallsOf(calls, safe)[..i] && execList == ItemsOf(calls, safe)[..i]
    {
      match calls[i] {
        case Good(call) =>
          assistantCalls := assistantCalls + [call];
          execList := execList + [Batch.Call(call)];
        case Unparsed(id, name, raw, error) =>
          var callId := id.GetOr("parseerr_" + Decimal(|assistantCalls|));
          var toolName := if name.Some? && name.value != "" then name.value else "invalid_tool_call";
          assistantCalls := assistantCalls + [ToolCall(callId, toolName, safe(raw))];
          execList := execList + [Batch.ParseError(callId, toolName, error)];
      }
    }
  }

  function AssistantTurn(r: Response, safe: ArgFilter, pricing: Cost.Pricing): Turn {
    Assistant(r.text, r.reasoning, CallsOf(r.calls, safe), r.usage,
              if r.usage.Some? then Some(Cost.CostOf(pricing, r.usage.value)) else None)
  }

  /** Only read-like calls, all parsed. */
  predicate IsInvestigation(items: seq<Batch.ExecItem>) {
    items != [] && forall i :: 0 <= i < |items| ==> items[i].Call? && items[i].call.name !in {"Write", "Append", "Edit"}
  }

  function UnconfirmedReason(finish: FinishReason): Option<string> {
    match finish
    case ToolCalls => None
    case ContentFilter => None
    case Stop => Some("stop")
    case Length => Some("length")
    case Other(reason) => Some("other (" + reason + ")")
  }

  function UnconfirmedBody(texts: Texts, reason: string): ToolResultBody {
    Failed(texts.unconfirmed(reason), true)
  }

  // ---------------------------------------------------------------------------------------
  // What a run appends
  // ---------------------------------------------------------------------------------------

  ghost predicate Answers(results: seq<Turn>, calls: seq<ToolCall>) {
    && |results| == |calls|
    && forall i :: 0 <= i < |calls| ==>
         results[i].ToolResult? && results[i].callId == calls[i].id && results[i].tool == calls[i].name
  }

  /** Every assistant turn is directly followed by one result per call, in call order, and there
      is no other result. */
  ghost predicate Paired(ts: seq<Turn>)
    decreases |ts|
  {
    if ts == [] then true
    else if ts[0].Assistant? then
      |ts| > |ts[0].calls| && Answers(ts[1..|ts[0].calls| + 1], ts[0].calls) && Paired(ts[|ts[0].calls| + 1..])
    else !ts[0].ToolResult? && Paired(ts[1..])
  }

  lemma {:induction false} PairedAppend(a: seq<Turn>, b: seq<Turn>)
    requires Paired(a) && Paired(b)
    ensures Paired(a + b)
    decreases |a|
  {
    if a == [] {
      assert a + b == b;
    } else {
      var n := if a[0].Assistant? then |a[0].calls| + 1 else 1;
      assert (a + b)[1..n] == a[1..n];
      assert (a + b)[n..] == a[n..] + b;
      PairedAppend(a[n..], b);
    }
  }

  lemma {:induction false} ScanAnswers(expected: set<string>, got: set<string>, results: seq<Turn>,
      calls: seq<ToolCall>)
    requires Answers(results, calls)
    ensures ScanTurns(Open(expected, got), results) == Open(expected, got + CallIds(calls))
    decreases |results|
  {
    if results == [] {
      assert CallIds(calls) == {};
    } else {
      assert CallIds(calls) == {calls[0].id} + CallIds(calls[1..]);
      ScanAnswers(expected, got + {calls[0].id}, results[1..], calls[1..]);
      assert got + {calls[0].id} + CallIds(calls[1..]) == got + CallIds(calls);
    }
  }

  /** Appending paired turns never breaks the tool-answer invariant. */
  lemma {:induction false} PairedKeepsInvariant(s: Scan, ts: seq<Turn>)
    requires Paired(ts) && Accepting(s)
    ensures Accepting(ScanTurns(s, ts))
    decreases |ts|
  {
    if ts != [] {
      if ts[0].Assistant? && ts[0].calls != [] {
        var n := |ts[0].calls|;
        assert ts == [ts[0]] + ts[1..n + 1] + ts[n + 1..];
        ScanTurnsAppend(s, [ts[0]] + ts[1..n + 1], ts[n + 1..]);
        ScanTurnsAppend(s, [ts[0]], ts[1..n + 1]);
        assert ScanTurns(s, [ts[0]]) == ScanTurns(ScanTurn(s, ts[0]), []);
        ScanAnswers(CallIds(ts[0].calls), {}, ts[1..n + 1], ts[0].calls);
        assert {} + CallIds(ts[0].calls) == CallIds(ts[0].calls);
        PairedKeepsInvariant(Open(CallIds(ts[0].calls), CallIds(ts[0].calls)), ts[n + 1..]);
      } else {
        PairedKeepsInvariant(ScanTurn(s, ts[0]), ts[1..]);
      }
    }
  }

  lemma SettledAppend(messages: seq<Turn>, more: seq<Turn>)
    requires Assembly.NoBoundary(more) && Paired(more) && Accepting(Settled(messages))
    ensures Accepting(Settled(messages + more))
  {
    Assembly.ExtendKeepsBoundary(messages, more);
    var start := ActiveStart(messages);
    assert (messages + more)[start..] == messages[start..] + more;
    ScanTurnsAppend(Closed, messages[start..], more);
    PairedKeepsInvariant(Settled(messages), more);
  }

  function Assistants(ts: seq<Turn>): seq<Turn> {
    if ts == [] then []
    else Assistants(ts[..|ts| - 1]) + if ts[|ts| - 1].Assistant? then [ts[|ts| - 1]] else []
  }

  function Recoveries(ts: seq<Turn>): nat {
    if ts == [] then 0 else Recoveries(ts[..|ts| - 1]) + if IsNote(ts[|ts| - 1], Recovery) then 1 else 0
  }

  /** Session totals recomputed from the assistant records alone. */
  function UsageAfter(u: Usage, assistants: seq<Turn>): Usage {
    if assistants == [] then u
    else
      var last := assistants[|assistants| - 1];
      var before := UsageAfter(u, assistants[..|assistants| - 1]);
      if last.Assistant? && last.usage.Some? then Cost.AddUsage(before, last.usage.value) else before
  }

  function CostAfter(c: nat, assistants: seq<Turn>): nat {
    if assistants == [] then c
    else
      var last := assistants[|assistants| - 1];
      var before := CostAfter(c, assistants[..|assistants| - 1]);
      if last.Assistant? && last.cost.Some? then Cost.AddCost(before, last.cost.value) else before
  }

  /** The totals after one more response. */
  function UsagePlus(u: Usage, response: Response): Usage {
    if response.usage.Some? then Cost.AddUsage(u, response.usage.value) else u
  }

  function CostPlus(pricing: Cost.Pricing, c: nat, response: Response): nat {
    if response.usage.Some? then Cost.AddCost(c, Cost.CostOf(pricing, response.usage.value)) else c
  }

  lemma {:induction false} CountsAppend(a: seq<Turn>, b: seq<Turn>)
    ensures Assistants(a + b) == Assistants(a) + Assistants(b)
    ensures Recoveries(a + b) == Recoveries(a) + Recoveries(b)
    decreases |b|
  {
    if b == [] {
      assert a + b == a;
    } else {
      assert (a + b)[..|a + b| - 1] == a + b[..|b| - 1];
      CountsAppend(a, b[..|b| - 1]);
    }
  }

  lemma {:induction false} ResultsCountNothing(results: seq<Turn>)
    requires forall i :: 0 <= i < |results| ==> results[i].ToolResult?
    ensures Assistants(results) == [] && Recoveries(results) == 0
    decreases |results|
  {
    if results != [] {
      ResultsCountNothing(results[..|results| - 1]);
    }
  }

  /** `ends` holds one terminal notification for each result turn at or after `from`, with the
      same call, tool and body, and nothing else. Notifications are indexed by the position of
      their result turn. */
  ghost predicate EachResultEndedOnce(ends: seq<Batch.Event>, messages: seq<Turn>, from: nat) {
    && (forall p: nat :: Batch.CountFor(ends, p) == if from <= p < |messages| && messages[p].ToolResult? then 1 else 0)
    && (forall k :: 0 <= k < |ends| ==>
          && ends[k].index < |messages|
          && var e := ends[k].exec; messages[ends[k].index] == ToolResult(e.callId, e.tool, e.body))
  }

  function Shift(events: seq<Batch.Event>, base: nat): (r: seq<Batch.Event>)
    ensures |r| == |events|
    ensures forall k :: 0 <= k < |r| ==> r[k] == Batch.Event(base + events[k].index, events[k].exec)
  {
    seq(|events|, k requires 0 <= k < |events| => Batch.Event(base + events[k].index, events[k].exec))
  }

  lemma {:induction false} CountShift(events: seq<Batch.Event>, base: nat, p: nat)
    ensures Batch.CountFor(Shift(events, base), p) == if p < base then 0 else Batch.CountFor(events, p - base)
    decreases |events|
  {
    if events != [] {
      CountShift(events[..|events| - 1], base, p);
      assert Shift(events, base)[..|events| - 1] == Shift(events[..|events| - 1], base);
    }
  }

  lemma {:induction false} CountAppend(a: seq<Batch.Event>, b: seq<Batch.Event>, p: nat)
    ensures Batch.CountFor(a + b, p) == Batch.CountFor(a, p) + Batch.CountFor(b, p)
    decreases |b|
  {
    if b == [] {
      assert a + b == a;
    } else {
      assert (a + b)[..|a + b| - 1] == a + b[..|b| - 1];
      CountAppend(a, b[..|b| - 1], p);
    }
  }

  /** The announcements of a batch, one per call, match its result turns. */
  ghost predicate EventsMatch(events: seq<Batch.Event>, results: seq<Turn>) {
    && Batch.AnnouncedOnce(events, Batch.Indices(|results|))
    && (forall k :: 0 <= k < |events| ==>
          && events[k].index < |results|
          && var e := events[k].exec; results[events[k].index] == ToolResult(e.callId, e.tool, e.body))
  }

  lemma EndsAfterQuietTurn(ends: seq<Batch.Event>, messages: seq<Turn>, from: nat, turn: Turn)
    requires EachResultEndedOnce(ends, messages, from) && !turn.ToolResult?
    ensures EachResultEndedOnce(ends, messages + [turn], from)
  {
  }

  lemma EndsAfterResults(ends: seq<Batch.Event>, messages: seq<Turn>, from: nat, events: seq<Batch.Event>,
      results: seq<Turn>)
    requires EachResultEndedOnce(ends, messages, from) && from <= |messages| && EventsMatch(events, results)
    requires forall i :: 0 <= i < |results| ==> results[i].ToolResult?
    ensures EachResultEndedOnce(ends + Shift(events, |messages|), messages + results, from)
  {
    var base := |messages|;
    forall p: nat
      ensures Batch.CountFor(ends + Shift(events, base), p) ==
              if from <= p < |messages + results| && (messages + results)[p].ToolResult? then 1 else 0
    {
      CountAppend(ends, Shift(events, base), p);
      CountShift(events, base, p);
    }
  }

  // ---------------------------------------------------------------------------------------
  // Blocks: what one iteration appends
  // ---------------------------------------------------------------------------------------

  ghost predicate IsBlock(block: seq<Turn>, assistant: Turn, recoveries: nat) {
    && Paired(block) && Assembly.NoBoundary(block)
    && Assistants(block) == [assistant] && Recoveries(block) == recoveries
  }

  lemma AnsweredBlock(assistant: Turn, results: seq<Turn>)
    requires assistant.Assistant? && Answers(results, assistant.calls)
    ensures IsBlock([assistant] + results, assistant, 0)
  {
    var block := [assistant] + results;
    assert block[1..|results| + 1] == results && block[|results| + 1..] == [];
    CountsAppend([assistant], results);
    ResultsCountNothing(results);
    assert [assistant][..0] == [];
  }

  lemma SingleTurn(turn: Turn)
    requires !turn.Assistant? && !turn.ToolResult?
    ensures Paired([turn]) && Assistants([turn]) == [] && Recoveries([turn]) == if IsNote(turn, Recovery) then 1 else 0
  {
  }

  lemma BlockThen(block: seq<Turn>, assistant: Turn, turn: Turn)
    requires IsBlock(block, assistant, 0)
    requires turn.Cancelled? || IsNote(turn, Recovery)
    ensures IsBlock(block + [turn], assistant, if turn.Cancelled? then 0 else 1)
  {
    SingleTurn(turn);
    PairedAppend(block, [turn]);
    CountsAppend(block, [turn]);
  }

  function ResultTurns(calls: seq<ToolCall>, body: ToolResultBody): (r: seq<Turn>)
    ensures |r| == |calls|
    ensures forall i :: 0 <= i < |r| ==> r[i] == ToolResult(calls[i].id, calls[i].name, body)
  {
    seq(|calls|, i requires 0 <= i < |calls| => ToolResult(calls[i].id, calls[i].name, body))
  }

  lemma ResultTurnsAnswer(calls: seq<ToolCall>, body: ToolResultBody)
    ensures Answers(ResultTurns(calls, body), calls)
  {
  }

  function TurnsOf(execs: seq<Batch.Exec>): (r: seq<Turn>)
    ensures |r| == |execs|
    ensures forall i :: 0 <= i < |r| ==> r[i] == ToolResult(execs[i].callId, execs[i].tool, execs[i].body)
  {
    seq(|execs|, i requires 0 <= i < |execs| => ToolResult(execs[i].callId, execs[i].tool, execs[i].body))
  }

  /** What a batch handed to the executor did to the world, what its calls did on the way (`trace`),
      and where its results come from. No barrier call overlapped another call, and each call decided
      on followed the answers of the policy and the user. If the batch finished, every call was
      settled and, if the Parallel tools are pure reads, the results and the world are those of
      running the calls one by one. If it was dropped, each result is the recorded one, or Interrupted
      where none was recorded, and `Batch.DroppedAt` says which those are. */
  ghost predicate Ran<L(!new), W(!new), C>(h: Batch.Host<L, W, C>, items: seq<Batch.ExecItem>, before: Batch.Carry<W>,
      after: Batch.Carry<W>, results: seq<Turn>, finished: bool, trace: seq<Batch.Activity>)
  {
    && |results| == |items| && Batch.Disciplined(h, items, trace)
    && RanByRules(h, items, before, after, results, finished, trace)
    && if finished then
         && Batch.Running(trace) == {}
         && (forall i :: 0 <= i < |items| && items[i].Call? ==> Batch.IsSettled(h, items, i, trace))
         && (Batch.ParallelPure(h) ==>
              exists execs :: results == TurnsOf(execs) && Batch.RunsInOrder(h, items, before, execs, after))
       else
         exists st: Batch.State<W>, at ::
           && Batch.DroppedAt(h, items, before, st, at) && Batch.CarryOf(st) == after && st.trace == trace
           && forall i :: 0 <= i < |items| ==>
               results[i].ToolResult? && results[i].result == Batch.FinalBody(st.checkpoint, i)
  }

  /** The result turns report what was recorded under the rules, for every host. */
  ghost predicate RanByRules<L(!new), W(!new), C>(h: Batch.Host<L, W, C>, items: seq<Batch.ExecItem>,
      before: Batch.Carry<W>, after: Batch.Carry<W>, results: seq<Turn>, finished: bool, trace: seq<Batch.Activity>)
  {
    exists log, recorded ::
      && Batch.Ruled(h, items, before, log, trace, recorded) && Reports(results, items, recorded)
      && (finished ==> |log| == |items| + 1 && log[|items|] == after && None !in recorded)
  }

  ghost predicate Reports(results: seq<Turn>, items: seq<Batch.ExecItem>, recorded: seq<Option<Batch.Exec>>) {
    && |results| == |items| == |recorded|
    && forall i :: 0 <= i < |items| ==>
         results[i] == ToolResult(Batch.IdOf(items[i]), Batch.NameOf(items[i]),
                                  if recorded[i].Some? then recorded[i].value.body else Interrupted)
  }

  // ---------------------------------------------------------------------------------------
  // The session
  // ---------------------------------------------------------------------------------------

  datatype Budget = UnconfirmedCall | LengthRecovery | FinalReview

  /** How an iteration that got a response went on. */
  datatype Step = Spent(budget: Budget) | BatchDone | Ended(outcome: Outcome)

  datatype Counters = Counters(
    lengthUsed: nat,
    unconfirmedUsed: nat,
    reviewUsed: bool,
    toolWork: bool,
    investigation: nat)

  function Used(c: Counters, b: Budget): nat {
    match b
    case UnconfirmedCall => c.unconfirmedUsed
    case LengthRecovery => c.lengthUsed
    case FinalReview => if c.reviewUsed then 1 else 0
  }

  /** A one-shot budget is spent at most once, and only by a step that says so. */
  ghost predicate Budgeted(before: Counters, after: Counters, step: Step) {
    && BudgetedFor(before, after, step, UnconfirmedCall)
    && BudgetedFor(before, after, step, LengthRecovery)
    && BudgetedFor(before, after, step, FinalReview)
  }

  /** Tool work is remembered for the turn; investigation rounds count since the last other batch. */
  ghost predicate WorkTracked(before: Counters, after: Counters, executed: seq<Batch.ExecItem>, step: Step) {
    && (after.toolWork <==> before.toolWork || executed != [])
    && after.investigation == RoundsAfter(before.investigation, executed, step)
  }

  function RoundsAfter(rounds: nat, executed: seq<Batch.ExecItem>, step: Step): nat {
    if !step.BatchDone? then rounds else if IsInvestigation(executed) then rounds + 1 else 0
  }

  ghost predicate BudgetedFor(before: Counters, after: Counters, step: Step, b: Budget) {
    Used(after, b) == Used(before, b) + (if step == Spent(b) then 1 else 0) && Used(after, b) <= 1
  }

  function RecoveriesOf(step: Step): nat {
    if step == Spent(LengthRecovery) || step == Spent(FinalReview) then 1 else 0
  }

  /** The note behind the results of an iteration. */
  function NoteOf(texts: Texts, text: string, step: Step): seq<Turn> {
    if step == Spent(LengthRecovery) then
      [SystemNote(Recovery, if IsBlank(text) then texts.forceAction else texts.partialAnswer)]
    else if step == Spent(FinalReview) then [SystemNote(Recovery, texts.finalReview)]
    else if step == Ended(UserCancelled) then [Cancelled]
    else []
  }

  /** What an iteration appended: the assistant turn, a result per call (the same one for all when
      none was run), and the note. */
  ghost predicate Wrote(texts: Texts, assistant: Turn, unconfirmed: Option<string>, step: Step,
      executed: seq<Batch.ExecItem>, block: seq<Turn>)
  {
    && assistant.Assistant? && |block| > |assistant.calls| && block[0] == assistant
    && block[1 + |assistant.calls|..] == NoteOf(texts, assistant.text, step)
    && (executed == [] ==>
          block[1..1 + |assistant.calls|] ==
          ResultTurns(assistant.calls,
                      if unconfirmed.Some? then UnconfirmedBody(texts, unconfirmed.value) else Interrupted))
  }

  lemma WroteParts(texts: Texts, assistant: Turn, unconfirmed: Option<string>, step: Step, block: seq<Turn>,
      results: seq<Turn>)
    requires assistant.Assistant?
    requires results == ResultTurns(assistant.calls,
                                    if unconfirmed.Some? then UnconfirmedBody(texts, unconfirmed.value)
                                    else Interrupted)
    requires block == [assistant] + results + NoteOf(texts, assistant.text, step)
    ensures Wrote(texts, assistant, unconfirmed, step, [], block)
  {
    assert block[1..1 + |results|] == results;
  }

  lemma WroteRun(texts: Texts, assistant: Turn, step: Step, items: seq<Batch.ExecItem>, block: seq<Turn>)
    requires assistant.Assistant? && |assistant.calls| == |items| && |block| >= 1 + |items| && block[0] == assistant
    requires step.BatchDone? || step == Ended(UserCancelled) || step == Ended(TimeUp)
    requires block[1 + |items|..] == if step == Ended(UserCancelled) then [Cancelled] else []
    ensures Wrote(texts, assistant, None, step, items, block)
  {
    if items == [] {
      assert block[1..1] == [];
    }
  }

  lemma UnconfirmedWrote(texts: Texts, assistant: Turn, reason: string, step: Step, block: seq<Turn>)
    requires assistant.Assistant? && (step == Ended(Incomplete) || step == Spent(UnconfirmedCall))
    requires block == [assistant] + ResultTurns(assistant.calls, UnconfirmedBody(texts, reason))
    ensures Wrote(texts, assistant, Some(reason), step, [], block)
  {
    var results := ResultTurns(assistant.calls, UnconfirmedBody(texts, reason));
    assert block == [assistant] + results + [];
    WroteParts(texts, assistant, Some(reason), step, block, results);
  }

  /** Why the calls of a response are not run, if they are not. */
  function UnconfirmedOf<L, W, C>(cfg: Config<L, W, C>, response: Response): Option<string> {
    if response.calls == [] then None else UnconfirmedReason(EffectiveFinish(response, cfg.maxTokens))
  }

  /** What a turn writes: the session's turns and totals, and the notifications it has sent. */
  datatype Ledger = Ledger(messages: seq<Turn>, usage: Usage, cost: nat, ends: seq<Batch.Event>)

  class Session<W(!new)> {
    var messages: seq<Turn>
    var totalUsage: Usage
    var totalCost: nat
    var permGrants: seq<string>
    var world: W
    /** Questions put to the user so far. */
    var asks: nat

    constructor (world: W)
      ensures messages == [] && totalUsage == Cost.NO_USAGE && totalCost == 0 && permGrants == [] && asks == 0
    {
      messages, totalUsage, totalCost, permGrants, asks := [], Cost.NO_USAGE, 0, [], 0;
      this.world := world;
    }

    function Carry(): Batch.Carry<W>
      reads this
    {
      Batch.Carry(world, permGrants, asks)
    }

    function Written(ends: seq<Batch.Event>): Ledger
      reads this
    {
      Ledger(messages, totalUsage, totalCost, ends)
    }

    method PushTurn(turn: Turn)
      modifies this`messages
      ensures messages == old(messages) + [turn]
    {
      messages := messages + [turn];
    }

    method PushTurns(turns: seq<Turn>)
      modifies this`messages
      ensures messages == old(messages) + turns
    {
      for i := 0 to |turns|
        invariant messages == old(messages) + turns[..i]
      {
        PushTurn(turns[i]);
      }
      assert turns[..|turns|] == turns;
    }

    /** Terminal results for calls that are not run, one per call in call order, each announced. */
    method SynthesizeInterrupted(calls: seq<ToolCall>) returns (events: seq<Batch.Event>)
      modifies this`messages
      ensures messages == old(messages) + ResultTurns(calls, Interrupted)
      ensures EventsMatch(events, ResultTurns(calls, Interrupted))
    {
      hide Batch.AnnouncedOnce;
      events := [];
      NoEvents();
      for i := 0 to |calls|
        invariant messages == old(messages) + ResultTurns(calls, Interrupted)[..i]
        invariant |events| == i && forall k :: 0 <= k < i ==>
            events[k] == Batch.Event(k, Batch.Exec(calls[k].id, calls[k].name, Interrupted))
        invariant Batch.AnnouncedOnce(events, Batch.Indices(i))
      {
        var e := Batch.Event(i, Batch.Exec(calls[i].id, calls[i].name, Interrupted));
        Batch.AnnounceOnce(events, Batch.Indices(i), e);
        events := events + [e];
        PushTurn(ToolResult(calls[i].id, calls[i].name, Interrupted));
      }
    }

    method SynthesizeRetryableUnconfirmed(calls: seq<ToolCall>, texts: Texts, reason: string)
      returns (events: seq<Batch.Event>)
      modifies this`messages
      ensures messages == old(messages) + ResultTurns(calls, UnconfirmedBody(texts, reason))
      ensures EventsMatch(events, ResultTurns(calls, UnconfirmedBody(texts, reason)))
    {
      hide Batch.AnnouncedOnce, UnconfirmedBody;
      events := [];
      NoEvents();
      for i := 0 to |calls|
        invariant messages == old(messages) + ResultTurns(calls, UnconfirmedBody(texts, reason))[..i]
        invariant |events| == i && forall k :: 0 <= k < i ==>
            events[k] == Batch.Event(k, Batch.Exec(calls[k].id, calls[k].name, UnconfirmedBody(texts, reason)))
        invariant Batch.AnnouncedOnce(events, Batch.Indices(i))
      {
        var result := UnconfirmedBody(texts, reason);
        var e := Batch.Event(i, Batch.Exec(calls[i].id, calls[i].name, result));
        Batch.AnnounceOnce(events, Batch.Indices(i), e);
        events := events + [e];
        PushTurn(ToolResult(calls[i].id, calls[i].name, result));
      }
    }

    /** Run a confirmed batch and append one result per call, whether the batch finishes or is
        dropped. */
    method RunBatch<L(!new), C>(h: Batch.Host<L, W, C>, calls: seq<ToolCall>, items: seq<Batch.ExecItem>)
      returns (finished: bool, ghost results: seq<Turn>, events: seq<Batch.Event>, trace: seq<Batch.Activity>)
      requires Batch.SameCalls(calls, items)
      modifies this`messages, this`permGrants, this`world, this`asks
      ensures messages == old(messages) + results
      ensures Answers(results, calls) && EventsMatch(events, results)
      ensures Ran(h, items, old(Carry()), Carry(), results, finished, trace)
      ensures items == [] ==> Carry() == old(Carry())
    {
      hide Batch.AnnouncedOnce, Batch.RunsInOrder, Batch.ParallelPure, Batch.Disciplined, Batch.DroppedAt,
          Batch.IsSettled, Batch.Running, Batch.Ruled;
      ghost var before := Carry();
      var done, st;
      ghost var at, log;
      done, st, at, log := Batch.ExecuteBatch(h, items, world, permGrants, asks);
      permGrants, world, asks := st.grants, st.world, st.asks;
      finished, trace := done.Some?, st.trace;
      if finished {
        var execs := done.value;
        var turns := TurnsOf(execs);
        results, events := turns, st.events;
        FinishedEventsMatch(items, calls, execs, st.checkpoint, st.events);
        PushTurns(turns);
        assert Reports(results, items, st.checkpoint.results);
      } else {
        var turns;
        turns, events := Batch.FinishPartialBatch(calls, st.checkpoint, st.events, items);
        results := turns;
        PushTurns(turns);
        assert Batch.DroppedAt(h, items, before, st, at);
        assert Reports(results, items, st.checkpoint.results);
      }
    }

    /** Push an assistant turn and answer its calls without running them. */
    method AnswerUnrun(assistant: Turn, texts: Texts, unconfirmed: Option<string>, ends0: seq<Batch.Event>,
        ghost from: nat)
      returns (ends: seq<Batch.Event>, ghost block: seq<Turn>)
      requires assistant.Assistant? && from <= |messages| && EachResultEndedOnce(ends0, messages, from)
      modifies this`messages
      ensures messages == old(messages) + block && IsBlock(block, assistant, 0)
      ensures block == [assistant] + ResultTurns(assistant.calls,
                                                 if unconfirmed.Some? then UnconfirmedBody(texts, unconfirmed.value)
                                                     else Interrupted)
      ensures EachResultEndedOnce(ends, messages, from)
    {
      hide EachResultEndedOnce, EventsMatch, IsBlock, Answers, UnconfirmedBody;
      PushTurn(assistant);
      var base := |messages|;
      var events;
      ghost var body;
      if unconfirmed.Some? {
        body := UnconfirmedBody(texts, unconfirmed.value);
        events := SynthesizeRetryableUnconfirmed(assistant.calls, texts, unconfirmed.value);
      } else {
        body := Interrupted;
        events := SynthesizeInterrupted(assistant.calls);
      }
      ghost var results := ResultTurns(assistant.calls, body);
      ends := ends0 + Shift(events, base);
      block := [assistant] + results;
      hide ResultTurns, Shift;
      ResultTurnsAnswer(assistant.calls, body);
      AnsweredBlock(assistant, results);
      EndsAfterBlock(ends0, old(messages), from, assistant, events, results);
      assert messages == old(messages) + block;
    }

    /** Push a confirmed assistant turn, run its batch and, if the batch was dropped, say why the
        turn ends. */
    method AnswerByRunning<L(!new), C>(h: Batch.Host<L, W, C>, assistant: Turn, items: seq<Batch.ExecItem>,
        dropIsCancel: bool,
        ends0: seq<Batch.Event>, ghost from: nat)
      returns (step: Step, ends: seq<Batch.Event>, ghost block: seq<Turn>, trace: seq<Batch.Activity>)
      requires assistant.Assistant? && Batch.SameCalls(assistant.calls, items)
      requires from <= |messages| && EachResultEndedOnce(ends0, messages, from)
      modifies this`messages, this`permGrants, this`world, this`asks
      ensures messages == old(messages) + block && IsBlock(block, assistant, 0)
      ensures EachResultEndedOnce(ends, messages, from)
      ensures step.BatchDone? || step == Ended(UserCancelled) || step == Ended(TimeUp)
      ensures |block| >= 1 + |items| && block[0] == assistant
          && block[1 + |items|..] == if step == Ended(UserCancelled) then [Cancelled] else []
      ensures |block| > |items| && Ran(h, items, old(Carry()), Carry(), block[1..|items| + 1], step.BatchDone?, trace)
      ensures items == [] ==> Carry() == old(Carry())
    {
      hide EachResultEndedOnce, EventsMatch, IsBlock, Ran;
      PushTurn(assistant);
      var base := |messages|;
      var finished, events;
      ghost var results;
      finished, results, events, trace := RunBatch(h, assistant.calls, items);
      ends := ends0 + Shift(events, base);
      block := [assistant] + results;
      assert |results| == |items| && block[1..|items| + 1] == results;
      hide Answers;
      AnsweredBlock(assistant, results);
      EndsAfterBlock(ends0, old(messages), from, assistant, events, results);
      assert messages == old(messages) + block;
      if finished {
        step := BatchDone;
      } else if dropIsCancel {
        BlockThen(block, assistant, Cancelled);
        EndsAfterQuietTurn(ends, messages, from, Cancelled);
        PushTurn(Cancelled);
        block := block + [Cancelled];
        assert block[1..|items| + 1] == results;
        assert messages == old(messages) + block;
        step := Ended(UserCancelled);
      } else {
        step := Ended(TimeUp);
      }
    }

    /** Append a recovery note after the block. */
    method PushRecovery(text: string, ghost assistant: Turn, ghost block0: seq<Turn>, ghost before: seq<Turn>,
        ghost ends: seq<Batch.Event>, ghost from: nat)
      returns (ghost block: seq<Turn>)
      requires messages == before + block0 && IsBlock(block0, assistant, 0) && EachResultEndedOnce(ends, messages, from)
      modifies this`messages
      ensures messages == before + block && IsBlock(block, assistant, 1) && EachResultEndedOnce(ends, messages, from)
      ensures block == block0 + [SystemNote(Recovery, text)]
    {
      hide EachResultEndedOnce, IsBlock;
      var note := SystemNote(Recovery, text);
      BlockThen(block0, assistant, note);
      EndsAfterQuietTurn(ends, messages, from, note);
      PushTurn(note);
      block := block0 + [note];
      assert messages == before + block;
    }

    method AddTotals(usage: Option<Usage>, pricing: Cost.Pricing)
      modifies this`totalUsage, this`totalCost
      ensures totalUsage == if usage.Some? then Cost.AddUsage(old(totalUsage), usage.value) else old(totalUsage)
      ensures totalCost == if usage.Some? then Cost.AddCost(old(totalCost), Cost.CostOf(pricing, usage.value))
          else old(totalCost)
    {
      if usage.Some? {
        totalUsage := Cost.AddUsage(totalUsage, usage.value);
        totalCost := Cost.AddCost(totalCost, Cost.CostOf(pricing, usage.value));
      }
    }

    method OnUnconfirmed(assistant: Turn, texts: Texts, reason: string, c0: Counters, ends0: seq<Batch.Event>,
        ghost from: nat)
      returns (step: Step, c: Counters, ends: seq<Batch.Event>, ghost block: seq<Turn>)
      requires assistant.Assistant? && from <= |messages| && EachResultEndedOnce(ends0, messages, from)
      requires c0.unconfirmedUsed <= 1 && c0.lengthUsed <= 1
      modifies this`messages
      ensures messages == old(messages) + block && IsBlock(block, assistant, 0)
      ensures block == [assistant] + ResultTurns(assistant.calls, UnconfirmedBody(texts, reason))
      ensures EachResultEndedOnce(ends, messages, from)
      ensures Budgeted(c0, c, step) && WorkTracked(c0, c, [], step)
      ensures step == if c0.unconfirmedUsed == 1 then Ended(Incomplete) else Spent(UnconfirmedCall)
    {
      hide EachResultEndedOnce, IsBlock;
      c := c0;
      ends, block := AnswerUnrun(assistant, texts, Some(reason), ends0, from);
      if c.unconfirmedUsed >= MAX_UNCONFIRMED_RECOVERIES {
        step := Ended(Incomplete);
      } else {
        c := c.(unconfirmedUsed := c.unconfirmedUsed + 1);
        step := Spent(UnconfirmedCall);
      }
    }

    method OnStop(assistant: Turn, texts: Texts, completionReview: bool, c0: Counters, ends0: seq<Batch.Event>,
        ghost from: nat)
      returns (step: Step, c: Counters, ends: seq<Batch.Event>, ghost block: seq<Turn>)
      requires assistant.Assistant? && from <= |messages| && EachResultEndedOnce(ends0, messages, from)
      requires c0.unconfirmedUsed <= 1 && c0.lengthUsed <= 1
      modifies this`messages
      ensures messages == old(messages) + block && IsBlock(block, assistant, RecoveriesOf(step))
      ensures EachResultEndedOnce(ends, messages, from)
      ensures Budgeted(c0, c, step) && WorkTracked(c0, c, [], step)
      ensures step == if completionReview && c0.toolWork && !c0.reviewUsed then Spent(FinalReview) else Ended(Stopped)
      ensures block == [assistant] + ResultTurns(assistant.calls, Interrupted) + NoteOf(texts, assistant.text, step)
    {
      hide EachResultEndedOnce, IsBlock;
      c := c0;
      ends, block := AnswerUnrun(assistant, texts, None, ends0, from);
      if completionReview && c.toolWork && !c.reviewUsed {
        c := c.(reviewUsed := true);
        block := PushRecovery(texts.finalReview, assistant, block, old(messages), ends, from);
        step := Spent(FinalReview);
      } else {
        step := Ended(Stopped);
      }
    }

    method OnLength(assistant: Turn, texts: Texts, c0: Counters, ends0: seq<Batch.Event>, ghost from: nat)
      returns (step: Step, c: Counters, ends: seq<Batch.Event>, ghost block: seq<Turn>)
      requires assistant.Assistant? && from <= |messages| && EachResultEndedOnce(ends0, messages, from)
      requires c0.unconfirmedUsed <= 1 && c0.lengthUsed <= 1
      modifies this`messages
      ensures messages == old(messages) + block && IsBlock(block, assistant, RecoveriesOf(step))
      ensures EachResultEndedOnce(ends, messages, from)
      ensures Budgeted(c0, c, step) && WorkTracked(c0, c, [], step)
      ensures step == if c0.lengthUsed == 0 then Spent(LengthRecovery)
                      else Ended(if IsBlank(assistant.text) then NoProgress else LengthReached)
      ensures block == [assistant] + ResultTurns(assistant.calls, Interrupted) + NoteOf(texts, assistant.text, step)
    {
      hide EachResultEndedOnce, IsBlock, IsBlank;
      c := c0;
      var noProgress := IsBlank(assistant.text);
      ends, block := AnswerUnrun(assistant, texts, None, ends0, from);
      if c.lengthUsed >= MAX_LENGTH_RECOVERIES {
        step := Ended(if noProgress then NoProgress else LengthReached);
      } else {
        c := c.(lengthUsed := c.lengthUsed + 1);
        block := PushRecovery(if noProgress then texts.forceAction else texts.partialAnswer,
                              assistant, block, old(messages), ends, from);
        step := Spent(LengthRecovery);
      }
    }

    /** Follow the finish reason of a response whose calls, if any, are confirmed or final. */
    method Conclude<L(!new), C>(cfg: Config<L, W, C>, assistant: Turn, items: seq<Batch.ExecItem>, finish: FinishReason,
        dropIsCancel: bool, c0: Counters, ends0: seq<Batch.Event>, ghost from: nat)
      returns (step: Step, c: Counters, executed: seq<Batch.ExecItem>, ends: seq<Batch.Event>, ghost block: seq<Turn>,
        trace: seq<Batch.Activity>)
      requires assistant.Assistant? && Batch.SameCalls(assistant.calls, items)
          && (items != [] ==> UnconfirmedReason(finish).None?)
      requires from <= |messages| && EachResultEndedOnce(ends0, messages, from)
      requires c0.unconfirmedUsed <= 1 && c0.lengthUsed <= 1
      modifies this`messages, this`permGrants, this`world, this`asks
      ensures messages == old(messages) + block && IsBlock(block, assistant, RecoveriesOf(step))
      ensures EachResultEndedOnce(ends, messages, from)
      ensures Budgeted(c0, c, step) && WorkTracked(c0, c, executed, step)
      ensures Concluded(cfg, finish, assistant.text, items, c0, step, executed)
      ensures Wrote(cfg.texts, assistant, None, step, executed, block)
      ensures executed == [] ==> Carry() == old(Carry())
      ensures executed != [] ==>
                |block| > |executed| && Ran(cfg.host, executed, old(Carry()), Carry(), block[1..|executed| + 1],
                    step.BatchDone?, trace)
    {
      hide Ran, EachResultEndedOnce, IsBlock, IsBlank, IsInvestigation, UnconfirmedBody, Wrote;
      ghost var results := ResultTurns(assistant.calls, Interrupted);
      hide ResultTurns;
      c, executed, trace := c0, [], [];
      match finish {
        case ToolCalls =>
          c := c.(toolWork := c.toolWork || items != []);
          executed := items;
          step, ends, block, trace := AnswerByRunning(cfg.host, assistant, items, dropIsCancel, ends0, from);
          WroteRun(cfg.texts, assistant, step, items, block);
          if step.BatchDone? {
            c := c.(investigation := if IsInvestigation(items) then c.investigation + 1 else 0);
          }
        case Stop =>
          step, c, ends, block := OnStop(assistant, cfg.texts, cfg.completionReview, c, ends0, from);
          WroteParts(cfg.texts, assistant, None, step, block, results);
        case Length =>
          if assistant.calls != [] {
            // calls of a length finish were answered as unconfirmed
            assert false;
          }
          step, c, ends, block := OnLength(assistant, cfg.texts, c, ends0, from);
          WroteParts(cfg.texts, assistant, None, step, block, results);
        case _ =>
          ends, block := AnswerUnrun(assistant, cfg.texts, None, ends0, from);
          step := Ended(Incomplete);
          assert block == [assistant] + results + [];
          WroteParts(cfg.texts, assistant, None, step, block, results);
      }
    }

    /** Everything an iteration does with a response. Exactly one assistant turn is appended, its
        calls are answered, and the totals grow by its usage. Calls are handed to the executor only
        when the provider finished with `tool_calls`; in every other case the world, the grants and
        the questions asked stay as they were. */
    method Respond<L(!new), C>(cfg: Config<L, W, C>, response: Response, dropIsCancel: bool, c0: Counters,
        ends0: seq<Batch.Event>, ghost from: nat)
      returns (step: Step, c: Counters, executed: seq<Batch.ExecItem>, ends: seq<Batch.Event>, ghost block: seq<Turn>,
        trace: seq<Batch.Activity>)
      requires from <= |messages| && EachResultEndedOnce(ends0, messages, from)
      requires c0.unconfirmedUsed <= 1 && c0.lengthUsed <= 1
      modifies this
      ensures messages == old(messages) + block
      ensures IsBlock(block, AssistantTurn(response, cfg.safe, cfg.pricing), RecoveriesOf(step))
      ensures EachResultEndedOnce(ends, messages, from)
      ensures totalUsage == UsagePlus(old(totalUsage), response)
          && totalCost == CostPlus(cfg.pricing, old(totalCost), response)
      ensures Budgeted(c0, c, step)
      ensures StepJustified(cfg, response, c0, step, executed)
      ensures Wrote(cfg.texts, AssistantTurn(response, cfg.safe, cfg.pricing), UnconfirmedOf(cfg, response), step,
          executed, block)
      ensures WorkTracked(c0, c, executed, step)
      ensures executed == [] ==> Carry() == old(Carry())
      ensures executed != [] ==>
                |block| > |executed| && Ran(cfg.host, executed, old(Carry()), Carry(), block[1..|executed| + 1],
                    step.BatchDone?, trace)
    {
      hide Ran, EachResultEndedOnce, IsBlock, ImplicitLength, Concluded, Budgeted, Batch.SameCalls, UnconfirmedBody;
      hide Cost.CostOf, Cost.AddUsage, Cost.AddCost;
      var finish := EffectiveFinish(response, cfg.maxTokens);
      AddTotals(response.usage, cfg.pricing);
      var assistantCalls, execList := SplitCalls(response.calls, cfg.safe);
      var assistant := AssistantTurn(response, cfg.safe, cfg.pricing);
      var unconfirmed := if assistantCalls == [] then None else UnconfirmedReason(finish);
      if unconfirmed.Some? {
        executed, trace := [], [];
        step, c, ends, block := OnUnconfirmed(assistant, cfg.texts, unconfirmed.value, c0, ends0, from);
        UnconfirmedWrote(cfg.texts, assistant, unconfirmed.value, step, block);
      } else {
        step, c, executed, ends, block, trace :=
          Conclude(cfg, assistant, execList, finish, dropIsCancel, c0, ends0, from);
      }
    }

    /** What an iteration does with whatever came back for its request. */
    method TakeReply<L(!new), C>(cfg: Config<L, W, C>, request: seq<Wire>, reply: Reply, dropIsCancel: bool,
        c0: Counters,
        ends0: seq<Batch.Event>, ghost from: nat)
      returns (r: IterRecord<W>, c: Counters, ends: seq<Batch.Event>)
      requires from <= |messages| && EachResultEndedOnce(ends0, messages, from)
      requires c0.unconfirmedUsed <= 1 && c0.lengthUsed <= 1
      modifies this
      ensures r.at == |old(messages)| && r.request == request && r.reply == reply && r.before == c0
      ensures r.found == old(Carry()) && r.left == Carry() && messages == old(messages) + r.block
      ensures RecordSound(cfg, r) && WorldJustified(cfg, r)
      ensures if reply.Answered? then Budgeted(c0, c, r.step) && WorkTracked(c0, c, r.executed, r.step) else c == c0
      ensures Taken(cfg, r, from, old(Written(ends0)), Written(ends))
    {
      hide Ran, EachResultEndedOnce, IsBlock, StepJustified, Budgeted, WorkTracked, UsagePlus, CostPlus, QuietEnd,
          Wrote, UnconfirmedOf;
      var at, found := |messages|, Carry();
      var step, executed, trace;
      ghost var block;
      match reply {
        case Answered(response) =>
          step, c, executed, ends, block, trace := Respond(cfg, response, dropIsCancel, c0, ends0, from);
        case _ =>
          c, executed, ends, trace := c0, [], ends0, [];
          step, block := EndWithoutResponse(reply);
          QuietEnds(reply, step, block);
      }
      assert messages[at..] == block;
      r := IterRecord(at, request, reply, c0, executed, trace, step, found, Carry(), messages[at..]);
    }

    /** The messages of the next request, with the research nudge after three investigation rounds. */
    method Request<L(!new), C>(cfg: Config<L, W, C>, investigation: nat) returns (request: seq<Wire>)
      ensures request == RequestFor(cfg, messages, world, investigation)
    {
      if cfg.assembler.Some? {
        request := Assembly.Assemble(messages, cfg.assembler.value(cfg.host.contextOf(world)));
      } else {
        request := ProjectWith(messages, cfg.systemPrompt, cfg.safe);
      }
      if investigation >= RESEARCH_NUDGE_AFTER {
        request := request + [UserMessage(cfg.texts.researchNudge)];
      }
    }

    /** A whole turn. `log` has one record per model request and `appended` is what the turn added
        to the session. */
    method Run<L(!new), C>(cfg: Config<L, W, C>, env: Env, input: string)
      returns (outcome: Outcome, log: seq<IterRecord<W>>, ends: seq<Batch.Event>, ghost appended: seq<Turn>)
      requires cfg.maxIters < 0xFFFF_FFFF
      modifies this
      ensures |log| <= cfg.maxIters
      ensures LogSound(cfg, log)
      ensures Progress(cfg, input, old(Written([])), Written(ends), appended, log)
      ensures WorldFollows(cfg, log, old(Carry()), Carry())
      ensures outcome == if log != [] && log[|log| - 1].step.Ended? then log[|log| - 1].step.outcome
                         else if |log| == cfg.maxIters then ItersExceeded else TimeUp
      ensures Accepting(Settled(old(messages))) ==>
                Accepting(Settled(messages)) && forall k :: 0 <= k < |log| ==> AllAnswered(log[k].request)
    {
      hide Progress, Settled, LogSound, AllAnswered, Accepting, RequestFor, WorldFollows, WorldJustified, Taken,
          RecordSound, Budgeted, WorkTracked;
      ghost var start, before := Carry(), Written([]);
      NothingYet(cfg, start);
      PushTurn(User(input));
      appended, log, ends := [User(input)], [], [];
      StartOfRun(cfg, input, before);
      var c := Counters(0, 0, false, false, 0);
      var iters := 0;
      while true
        invariant |log| == iters <= cfg.maxIters
        invariant LogSound(cfg, log) && CountersMatch(c, log)
        invariant WorldFollows(cfg, log, start, Carry())
        invariant forall k :: 0 <= k < |log| ==> !log[k].step.Ended?
        invariant Progress(cfg, input, before, Written(ends), appended, log)
        invariant Accepting(Settled(old(messages))) ==> forall k :: 0 <= k < |log| ==> AllAnswered(log[k].request)
        decreases cfg.maxIters - iters
      {
        ProgressKeepsInvariant(cfg, input, before, Written(ends), appended, log);
        if iters + 1 > cfg.maxIters {
          return ItersExceeded, log, ends, appended;
        }
        if env.deadlinePassed(iters) {
          return TimeUp, log, ends, appended;
        }
        var request := Request(cfg, c.investigation);
        if Accepting(Settled(old(messages))) {
          RequestAnswered(cfg, messages, world, c.investigation);
        }
        ProgressEnds(cfg, input, before, Written(ends), appended, log);
        ghost var written, now := Written(ends), Carry();
        var r, c';
        r, c', ends := TakeReply(cfg, request, env.reply(iters, request), env.dropIsCancel(iters), c, ends,
            |old(messages)|);
        ProgressTaken(cfg, input, before, written, appended, log, Written(ends), r);
        LogStep(cfg, log, r, c, c');
        WorldStep(cfg, log, r, start, now);
        appended, log := appended + r.block, log + [r];
        ProgressKeepsInvariant(cfg, input, before, Written(ends), appended, log);
        iters := iters + 1;
        c := c';
        if r.step.Ended? {
          return r.step.outcome, log, ends, appended;
        }
      }
    }

    /** The request was cancelled, timed out or failed: at most one note of it is appended. */
    method EndWithoutResponse(reply: Reply) returns (step: Step, ghost block: seq<Turn>)
      requires !reply.Answered?
      modifies this`messages
      ensures messages == old(messages) + block
      ensures QuietEnd(reply, step, block)
    {
      var turns;
      match reply {
        case WaitCancelled => step, turns := Ended(UserCancelled), [Cancelled];
        case WaitTimeUp => step, turns := Ended(TimeUp), [];
        case RequestFailed(message, retryable, cancelled) =>
          if cancelled {
            step, turns := Ended(UserCancelled), [Cancelled];
          } else {
            step, turns := Ended(ModelFailed), [Error(message, retryable)];
          }
      }
      PushTurns(turns);
      block := turns;
    }
  }

  lemma QuietEnds(reply: Reply, step: Step, block: seq<Turn>)
    requires QuietEnd(reply, step, block)
    ensures !reply.Answered? && step.Ended?
  {
  }

  ghost predicate QuietEnd(reply: Reply, step: Step, block: seq<Turn>) {
    match reply
    case WaitCancelled => step == Ended(UserCancelled) && block == [Cancelled]
    case WaitTimeUp => step == Ended(TimeUp) && block == []
    case RequestFailed(message, retryable, cancelled) =>
      if cancelled then step == Ended(UserCancelled) && block == [Cancelled]
      else step == Ended(ModelFailed) && block == [Error(message, retryable)]
    case Answered(_) => false
  }

  /** What is sent for a session and a count of investigation rounds. */
  function RequestFor<L, W, C>(cfg: Config<L, W, C>, messages: seq<Turn>, world: W, investigation: nat): seq<Wire> {
    BaseRequest(cfg, messages, world)
    + if investigation >= RESEARCH_NUDGE_AFTER then [UserMessage(cfg.texts.researchNudge)] else []
  }

  function BaseRequest<L, W, C>(cfg: Config<L, W, C>, messages: seq<Turn>, world: W): seq<Wire> {
    if cfg.assembler.Some? then Assembly.Assemble(messages, cfg.assembler.value(cfg.host.contextOf(world)))
    else Project(messages, cfg.systemPrompt, cfg.safe)
  }

  /** A request satisfies the tool-answer invariant whenever the session it is made from does. */
  lemma RequestAnswered<L, W, C>(cfg: Config<L, W, C>, messages: seq<Turn>, world: W, investigation: nat)
    requires Accepting(Settled(messages))
    ensures AllAnswered(RequestFor(cfg, messages, world, investigation))
  {
    hide Assembly.Assemble, Project, Settled, Accepting, AllAnswered;
    var base := BaseRequest(cfg, messages, world);
    if cfg.assembler.Some? {
      Assembly.AssembledAnsweredExactly(messages, cfg.assembler.value(cfg.host.contextOf(world)));
    } else {
      ProjectionAnsweredExactly(messages, cfg.systemPrompt, cfg.safe);
    }
    UserKeepsAnswered(base, cfg.texts.researchNudge);
    assert base + [] == base;
  }

  lemma UserKeepsAnswered(msgs: seq<Wire>, text: string)
    ensures AllAnswered(msgs) ==> AllAnswered(msgs + [UserMessage(text)])
  {
    var user := [UserMessage(text)];
    ScanDecides(Closed, msgs);
    ScanDecides(Closed, msgs + user);
    ScanWireAppend(Closed, msgs, user);
    assert ScanWire(ScanWire(Closed, msgs), user) == ScanWire(Close(ScanWire(Closed, msgs)), []);
  }

  /** One model request: the session length it was made at, what was sent, the counters it was sent
      with, what came back, the calls handed to the executor and what they did, how the iteration went
      on, the world, grants and questions it found and left, and the turns it appended. */
  datatype IterRecord<W> = IterRecord(
    at: nat,
    request: seq<Wire>,
    reply: Reply,
    before: Counters,
    executed: seq<Batch.ExecItem>,
    trace: seq<Batch.Activity>,
    step: Step,
    found: Batch.Carry<W>,
    left: Batch.Carry<W>,
    block: seq<Turn>)

  function SpentCount<W>(log: seq<IterRecord<W>>, b: Budget): nat {
    if log == [] then 0 else SpentCount(log[..|log| - 1], b) + if log[|log| - 1].step == Spent(b) then 1 else 0
  }

  function WorkSeen<W>(log: seq<IterRecord<W>>): bool {
    log != [] && (WorkSeen(log[..|log| - 1]) || log[|log| - 1].executed != [])
  }

  function Rounds<W>(log: seq<IterRecord<W>>): nat {
    if log == [] then 0 else RoundsAfter(Rounds(log[..|log| - 1]), log[|log| - 1].executed, log[|log| - 1].step)
  }

  /** The counters are functions of what the turn has done so far. */
  ghost predicate CountersMatch<W>(c: Counters, log: seq<IterRecord<W>>) {
    && c.toolWork == WorkSeen(log) && c.investigation == Rounds(log)
    && c.unconfirmedUsed == SpentCount(log, UnconfirmedCall) <= 1
    && c.lengthUsed == SpentCount(log, LengthRecovery) <= 1
    && (if c.reviewUsed then 1 else 0) == SpentCount(log, FinalReview) <= 1
  }

  ghost predicate RecordSound<L, W, C>(cfg: Config<L, W, C>, r: IterRecord<W>) {
    if r.reply.Answered? then
      && StepJustified(cfg, r.reply.response, r.before, r.step, r.executed)
      && Wrote(cfg.texts, AssistantTurn(r.reply.response, cfg.safe, cfg.pricing), UnconfirmedOf(cfg, r.reply.response),
               r.step, r.executed, r.block)
    else QuietEnd(r.reply, r.step, r.block) && r.executed == []
  }

  ghost predicate RecordFits<L, W, C>(cfg: Config<L, W, C>, log: seq<IterRecord<W>>, k: nat)
    requires k < |log|
  {
    RecordSound(cfg, log[k]) && CountersMatch(log[k].before, log[..k])
  }

  /** Each record is justified by its response and by the budgets left at the time; only the last
      one may end the turn; each budget is spent at most once. */
  ghost predicate LogSound<L, W, C>(cfg: Config<L, W, C>, log: seq<IterRecord<W>>) {
    && (forall k :: 0 <= k < |log| ==> RecordFits(cfg, log, k))
    && (forall k :: 0 <= k < |log| - 1 ==> !log[k].step.Ended?)
    && SpentCount(log, UnconfirmedCall) <= 1 && SpentCount(log, LengthRecovery) <= 1
        && SpentCount(log, FinalReview) <= 1
  }

  lemma SpentSnoc<W>(log: seq<IterRecord<W>>, r: IterRecord<W>, b: Budget)
    ensures SpentCount(log + [r], b) == SpentCount(log, b) + if r.step == Spent(b) then 1 else 0
  {
  }

  lemma CountersStep<W>(log: seq<IterRecord<W>>, r: IterRecord<W>, c: Counters, c': Counters)
    requires CountersMatch(c, log)
    requires (Budgeted(c, c', r.step) && WorkTracked(c, c', r.executed, r.step))
        || (c' == c && r.step.Ended? && r.executed == [])
    ensures CountersMatch(c', log + [r])
  {
  }

  lemma LogStep<L, W, C>(cfg: Config<L, W, C>, log: seq<IterRecord<W>>, r: IterRecord<W>, c: Counters, c': Counters)
    requires LogSound(cfg, log) && CountersMatch(c, log) && r.before == c
    requires forall k :: 0 <= k < |log| ==> !log[k].step.Ended?
    requires RecordSound(cfg, r)
    requires if r.reply.Answered? then Budgeted(c, c', r.step) && WorkTracked(c, c', r.executed, r.step) else c' == c
    ensures LogSound(cfg, log + [r]) && CountersMatch(c', log + [r])
  {
    assert r.reply.Answered? || (r.step.Ended? && r.executed == []);
    CountersStep(log, r, c, c');
    var more := log + [r];
    forall k | 0 <= k < |more|
      ensures RecordFits(cfg, more, k)
    {
      RecordFitsLater(cfg, log, r, k);
    }
    hide RecordFits, SpentCount, RecordSound;
  }

  lemma RecordFitsLater<L, W, C>(cfg: Config<L, W, C>, log: seq<IterRecord<W>>, r: IterRecord<W>, k: nat)
    requires k <= |log|
    requires k < |log| ==> RecordFits(cfg, log, k)
    requires k == |log| ==> RecordSound(cfg, r) && CountersMatch(r.before, log)
    ensures RecordFits(cfg, log + [r], k)
  {
    hide RecordSound, SpentCount;
    var more := log + [r];
    if k < |log| {
      assert more[..k] == log[..k];
    } else {
      assert more[..k] == log;
    }
  }

  /** The assistant turns the responses of a log turn into. */
  function RepliesOf<L, W, C>(cfg: Config<L, W, C>, log: seq<IterRecord<W>>): seq<Turn> {
    if log == [] then []
    else RepliesOf(cfg, log[..|log| - 1])
         + if log[|log| - 1].reply.Answered? then [AssistantTurn(log[|log| - 1].reply.response, cfg.safe, cfg.pricing)]
             else []
  }

  /** What a turn has appended: the user's input, then exactly one assistant turn per response, in
      order, with every call answered in place; one notification per result; the totals of those
      assistant turns; and as many recovery notes as recovery budgets spent. */
  ghost predicate Progress<L, W, C>(cfg: Config<L, W, C>, input: string, before: Ledger, now: Ledger,
      appended: seq<Turn>, log: seq<IterRecord<W>>)
  {
    && Appends(cfg, input, before.messages, now.messages, appended, log)
    && EachResultEndedOnce(now.ends, now.messages, |before.messages|)
    && now.usage == UsageAfter(before.usage, RepliesOf(cfg, log))
    && now.cost == CostAfter(before.cost, RepliesOf(cfg, log))
    && RequestsMatch(cfg, |before.messages|, now.messages, log)
  }

  ghost predicate Appends<L, W, C>(cfg: Config<L, W, C>, input: string, m0: seq<Turn>, m: seq<Turn>,
      appended: seq<Turn>, log: seq<IterRecord<W>>)
  {
    && m == m0 + appended && appended != [] && appended[0] == User(input)
    && Paired(appended) && Assembly.NoBoundary(appended)
    && Assistants(appended) == RepliesOf(cfg, log)
    && Recoveries(appended) == SpentCount(log, LengthRecovery) + SpentCount(log, FinalReview)
  }

  lemma RepliesSnoc<L, W, C>(cfg: Config<L, W, C>, log: seq<IterRecord<W>>, r: IterRecord<W>)
    ensures RepliesOf(cfg, log + [r]) ==
            RepliesOf(cfg, log) + if r.reply.Answered? then [AssistantTurn(r.reply.response, cfg.safe, cfg.pricing)]
                else []
  {
  }

  lemma AppendsStep<L, W, C>(cfg: Config<L, W, C>, input: string, m0: seq<Turn>, m: seq<Turn>, appended: seq<Turn>,
      log: seq<IterRecord<W>>, block: seq<Turn>, r: IterRecord<W>)
    requires Appends(cfg, input, m0, m, appended, log)
    requires Paired(block) && Assembly.NoBoundary(block) && Recoveries(block) == RecoveriesOf(r.step)
    requires Assistants(block) == if r.reply.Answered? then [AssistantTurn(r.reply.response, cfg.safe, cfg.pricing)]
        else []
    ensures Appends(cfg, input, m0, m + block, appended + block, log + [r])
  {
    hide Paired, Assistants, Recoveries, SpentCount, Assembly.NoBoundary, AssistantTurn, RepliesOf;
    RepliesSnoc(cfg, log, r);
    PairedAppend(appended, block);
    CountsAppend(appended, block);
    BoundaryAppend(appended, block);
    SpentSnoc(log, r, LengthRecovery);
    SpentSnoc(log, r, FinalReview);
    assert m + block == m0 + (appended + block);
  }

  /** Each request was made from the session and the world as they stood then; the turns a record
      appended stand where it was made, the next record's right behind them. */
  ghost predicate RequestsMatch<L, W, C>(cfg: Config<L, W, C>, from: nat, m: seq<Turn>, log: seq<IterRecord<W>>) {
    && (forall k :: 0 <= k < |log| ==> RequestMatches(cfg, from, m, log[k]))
    && (forall k :: 0 < k < |log| ==> log[k].at == log[k - 1].at + |log[k - 1].block|)
    && (log != [] ==> |m| == log[|log| - 1].at + |log[|log| - 1].block|)
  }

  ghost predicate RequestMatches<L, W, C>(cfg: Config<L, W, C>, from: nat, m: seq<Turn>, r: IterRecord<W>) {
    && from <= r.at && r.at + |r.block| <= |m| && m[r.at..r.at + |r.block|] == r.block
    && r.request == RequestFor(cfg, m[..r.at], r.found.world, r.before.investigation)
  }

  lemma RequestsStep<L, W, C>(cfg: Config<L, W, C>, from: nat, m: seq<Turn>, log: seq<IterRecord<W>>, r: IterRecord<W>)
    requires RequestsMatch(cfg, from, m, log) && from <= |m|
    requires RequestedFrom(cfg, m, r)
    ensures RequestsMatch(cfg, from, m + r.block, log + [r])
  {
    hide RequestFor;
    var more := log + [r];
    forall k | 0 <= k < |more|
      ensures RequestMatches(cfg, from, m + r.block, more[k])
    {
      if k < |log| {
        assert (m + r.block)[..log[k].at] == m[..log[k].at];
        assert (m + r.block)[log[k].at..log[k].at + |log[k].block|] == m[log[k].at..log[k].at + |log[k].block|];
      } else {
        assert (m + r.block)[..|m|] == m && (m + r.block)[|m|..|m| + |r.block|] == r.block;
      }
    }
  }

  lemma StartOfRun<L, W, C>(cfg: Config<L, W, C>, input: string, before: Ledger)
    requires before.ends == []
    ensures Progress(cfg, input, before, before.(messages := before.messages + [User(input)]), [User(input)], [])
    ensures LogSound(cfg, []) && CountersMatch<W>(Counters(0, 0, false, false, 0), [])
  {
  }

  lemma ProgressEnds<L, W, C>(cfg: Config<L, W, C>, input: string, before: Ledger, now: Ledger,
      appended: seq<Turn>, log: seq<IterRecord<W>>)
    requires Progress(cfg, input, before, now, appended, log)
    ensures EachResultEndedOnce(now.ends, now.messages, |before.messages|) && |before.messages| <= |now.messages|
  {
  }

  lemma ProgressKeepsInvariant<L, W, C>(cfg: Config<L, W, C>, input: string, before: Ledger, now: Ledger,
      appended: seq<Turn>, log: seq<IterRecord<W>>)
    requires Progress(cfg, input, before, now, appended, log)
    ensures Accepting(Settled(before.messages)) ==> Accepting(Settled(now.messages))
  {
    if Accepting(Settled(before.messages)) {
      SettledAppend(before.messages, appended);
    }
  }

  /** The request of a record was made from the session as it stands. */
  ghost predicate RequestedFrom<L, W, C>(cfg: Config<L, W, C>, messages: seq<Turn>, r: IterRecord<W>) {
    r.at == |messages| && r.request == RequestFor(cfg, messages, r.found.world, r.before.investigation)
  }

  /** What taking a reply did to the session, apart from the world. */
  ghost predicate Taken<L, W, C>(cfg: Config<L, W, C>, r: IterRecord<W>, from: nat, now: Ledger, next: Ledger) {
    && next.messages == now.messages + r.block
    && if r.reply.Answered? then
         && EachResultEndedOnce(next.ends, next.messages, from)
         && IsBlock(r.block, AssistantTurn(r.reply.response, cfg.safe, cfg.pricing), RecoveriesOf(r.step))
         && next.usage == UsagePlus(now.usage, r.reply.response)
         && next.cost == CostPlus(cfg.pricing, now.cost, r.reply.response)
       else QuietEnd(r.reply, r.step, r.block) && next == now.(messages := next.messages)
  }

  lemma ProgressTaken<L, W, C>(cfg: Config<L, W, C>, input: string, before: Ledger, now: Ledger,
      appended: seq<Turn>, log: seq<IterRecord<W>>, next: Ledger, r: IterRecord<W>)
    requires Progress(cfg, input, before, now, appended, log)
    requires RequestedFrom(cfg, now.messages, r) && Taken(cfg, r, |before.messages|, now, next)
    ensures Progress(cfg, input, before, next, appended + r.block, log + [r])
  {
    hide EachResultEndedOnce, RequestsMatch, Appends, Paired, Assistants, Recoveries, Assembly.NoBoundary,
        AssistantTurn, RepliesOf, UsageAfter, CostAfter, UsagePlus, CostPlus, QuietEnd, RecoveriesOf, RequestFor;
    AppendsLength(cfg, input, before.messages, now.messages, appended, log);
    RequestsStep(cfg, |before.messages|, now.messages, log, r);
    RepliesSnoc(cfg, log, r);
    if r.reply.Answered? {
      TotalsStep(cfg, before.usage, before.cost, RepliesOf(cfg, log), r.reply.response);
    } else {
      QuietBlock(r.reply, r.step, r.block);
      assert RepliesOf(cfg, log + [r]) == RepliesOf(cfg, log);
      if r.block == [] {
        assert next.messages == now.messages;
      } else {
        EndsAfterQuietTurn(now.ends, now.messages, |before.messages|, r.block[0]);
      }
    }
    AppendsStep(cfg, input, before.messages, now.messages, appended, log, r.block, r);
  }

  lemma AppendsLength<L, W, C>(cfg: Config<L, W, C>, input: string, m0: seq<Turn>, m: seq<Turn>, appended: seq<Turn>,
      log: seq<IterRecord<W>>)
    requires Appends(cfg, input, m0, m, appended, log)
    ensures |m0| <= |m|
  {
  }

  lemma BoundaryAppend(a: seq<Turn>, b: seq<Turn>)
    requires Assembly.NoBoundary(a) && Assembly.NoBoundary(b)
    ensures Assembly.NoBoundary(a + b)
  {
  }

  lemma TotalsStep<L, W, C>(cfg: Config<L, W, C>, u0: Usage, k0: nat, replies: seq<Turn>, response: Response)
    ensures var more := replies + [AssistantTurn(response, cfg.safe, cfg.pricing)];
            && UsageAfter(u0, more) == UsagePlus(UsageAfter(u0, replies), response)
            && CostAfter(k0, more) == CostPlus(cfg.pricing, CostAfter(k0, replies), response)
  {
  }

  // ---------------------------------------------------------------------------------------
  // The world over a turn
  // ---------------------------------------------------------------------------------------

  /** What an iteration did to the world: nothing, or what running the calls handed to the executor
      does, with their results right behind the assistant turn. */
  ghost predicate WorldJustified<L(!new), W(!new), C>(cfg: Config<L, W, C>, r: IterRecord<W>) {
    if r.executed == [] then r.left == r.found
    else |r.block| > |r.executed| && Ran(cfg.host, r.executed, r.found, r.left, r.block[1..|r.executed| + 1],
        r.step.BatchDone?, r.trace)
  }

  /** Each iteration finds the world as the one before it left it. */
  ghost predicate WorldFollows<L(!new), W(!new), C>(cfg: Config<L, W, C>, log: seq<IterRecord<W>>,
      start: Batch.Carry<W>,
      now: Batch.Carry<W>)
  {
    && (forall k :: 0 <= k < |log| ==> WorldJustified(cfg, log[k]) && log[k].found == LeftBefore(log, k, start))
    && now == LeftBefore(log, |log|, start)
  }

  function LeftBefore<W>(log: seq<IterRecord<W>>, k: nat, start: Batch.Carry<W>): Batch.Carry<W>
    requires k <= |log|
  {
    if k == 0 then start else log[k - 1].left
  }

  lemma NothingYet<L(!new), W(!new), C>(cfg: Config<L, W, C>, start: Batch.Carry<W>)
    ensures WorldFollows(cfg, [], start, start)
  {
  }

  lemma WorldStep<L(!new), W(!new), C>(cfg: Config<L, W, C>, log: seq<IterRecord<W>>, r: IterRecord<W>,
      start: Batch.Carry<W>, now: Batch.Carry<W>)
    requires WorldFollows(cfg, log, start, now) && r.found == now && WorldJustified(cfg, r)
    ensures WorldFollows(cfg, log + [r], start, r.left)
  {
    hide WorldJustified;
    var more := log + [r];
    forall k | 0 <= k < |more|
      ensures WorldJustified(cfg, more[k]) && more[k].found == LeftBefore(more, k, start)
    {
      assert k < |log| ==> LeftBefore(more, k, start) == LeftBefore(log, k, start);
    }
  }

  /** The calls handed to the executor in a turn, in order. */
  function AllExecuted<W>(log: seq<IterRecord<W>>): seq<Batch.ExecItem> {
    if log == [] then [] else AllExecuted(log[..|log| - 1]) + log[|log| - 1].executed
  }

  /** Their result turns, in order. */
  function AllResults<W>(log: seq<IterRecord<W>>): seq<Turn> {
    if log == [] then []
    else
      var r := log[|log| - 1];
      AllResults(log[..|log| - 1]) + if 0 < |r.executed| < |r.block| then r.block[1..|r.executed| + 1] else []
  }

  lemma {:induction false} InOrderAppend<L(!new), W(!new), C>(h: Batch.Host<L, W, C>, a: seq<Batch.ExecItem>,
      b: seq<Batch.ExecItem>, start: Batch.Carry<W>, e: seq<Batch.Exec>, mid: Batch.Carry<W>, f: seq<Batch.Exec>,
          end: Batch.Carry<W>)
    requires Batch.RunsInOrder(h, a, start, e, mid) && Batch.RunsInOrder(h, b, mid, f, end)
    ensures Batch.RunsInOrder(h, a + b, start, e + f, end)
    decreases |b|
  {
    hide Batch.RunsItem;
    if b == [] {
      assert a + b == a && e + f == e;
    } else {
      var last := |b| - 1;
      var c: Batch.Carry<W> :| Batch.RunsInOrder(h, b[..last], mid, f[..last], c)
          && Batch.RunsItem(h, b[last], c, f[last], end);
      InOrderAppend(h, a, b[..last], start, e, mid, f[..last], c);
      assert (a + b)[..|a + b| - 1] == a + b[..last] && (e + f)[..|e + f| - 1] == e + f[..last];
    }
  }

  /** The world after a turn none of whose batches was cut short is that of authorising and running
      all its confirmed calls one by one, in the order the model gave them, across all its requests;
      and the result turns of the session are that run's results. */
  lemma {:induction false} TurnInOrder<L(!new), W(!new), C>(cfg: Config<L, W, C>, log: seq<IterRecord<W>>,
      start: Batch.Carry<W>, now: Batch.Carry<W>) returns (execs: seq<Batch.Exec>)
    requires WorldFollows(cfg, log, start, now) && Batch.ParallelPure(cfg.host)
    requires forall k :: 0 <= k < |log| && log[k].executed != [] ==> log[k].step.BatchDone?
    ensures Batch.RunsInOrder(cfg.host, AllExecuted(log), start, execs, now)
    ensures AllResults(log) == TurnsOf(execs)
    decreases |log|
  {
    hide Batch.ParallelPure, Batch.RunsInOrder, WorldFollows, WorldJustified;
    if log == [] {
      execs := [];
      NothingHappened(cfg, start, now);
      InOrderOfNothing(cfg.host, start);
    } else {
      var init, r := log[..|log| - 1], log[|log| - 1];
      AllButLast(cfg, log, start, now);
      var e := TurnInOrder(cfg, init, start, r.found);
      execs := OneMore(cfg, init, r, start, e);
      assert log == init + [r];
    }
  }

  lemma AllButLast<L(!new), W(!new), C>(cfg: Config<L, W, C>, log: seq<IterRecord<W>>, start: Batch.Carry<W>,
      now: Batch.Carry<W>)
    requires WorldFollows(cfg, log, start, now) && log != []
    ensures var init, r := log[..|log| - 1], log[|log| - 1];
            WorldFollows(cfg, init, start, r.found) && WorldJustified(cfg, r) && r.left == now
  {
    hide WorldJustified;
    var init := log[..|log| - 1];
    forall k | 0 <= k < |init|
      ensures WorldJustified(cfg, init[k]) && init[k].found == LeftBefore(init, k, start)
    {
      assert init[k] == log[k] && LeftBefore(init, k, start) == LeftBefore(log, k, start);
    }
  }

  lemma FinishedRan<L(!new), W(!new), C>(h: Batch.Host<L, W, C>, items: seq<Batch.ExecItem>, before: Batch.Carry<W>,
      after: Batch.Carry<W>, results: seq<Turn>, trace: seq<Batch.Activity>) returns (execs: seq<Batch.Exec>)
    requires Ran(h, items, before, after, results, true, trace) && Batch.ParallelPure(h)
    ensures results == TurnsOf(execs) && Batch.RunsInOrder(h, items, before, execs, after)
  {
    hide Batch.RunsInOrder, Batch.ParallelPure, Batch.Disciplined, Batch.IsSettled, RanByRules;
    execs :| results == TurnsOf(execs) && Batch.RunsInOrder(h, items, before, execs, after);
  }

  lemma OneMore<L(!new), W(!new), C>(cfg: Config<L, W, C>, init: seq<IterRecord<W>>, r: IterRecord<W>,
      start: Batch.Carry<W>,
      e: seq<Batch.Exec>) returns (execs: seq<Batch.Exec>)
    requires WorldJustified(cfg, r) && Batch.ParallelPure(cfg.host) && (r.executed != [] ==> r.step.BatchDone?)
    requires Batch.RunsInOrder(cfg.host, AllExecuted(init), start, e, r.found) && AllResults(init) == TurnsOf(e)
    ensures Batch.RunsInOrder(cfg.host, AllExecuted(init + [r]), start, execs, r.left)
    ensures AllResults(init + [r]) == TurnsOf(execs)
  {
    hide Batch.RunsInOrder, Batch.ParallelPure, Ran;
    assert (init + [r])[..|init|] == init;
    if r.executed == [] {
      execs := e;
      assert AllExecuted(init) + [] == AllExecuted(init) && AllResults(init) + [] == AllResults(init);
    } else {
      var f := FinishedRan(cfg.host, r.executed, r.found, r.left, r.block[1..|r.executed| + 1], r.trace);
      execs := e + f;
      InOrderAppend(cfg.host, AllExecuted(init), r.executed, start, e, r.found, f, r.left);
      assert TurnsOf(e + f) == TurnsOf(e) + TurnsOf(f);
    }
  }

  lemma NothingHappened<L(!new), W(!new), C>(cfg: Config<L, W, C>, start: Batch.Carry<W>, now: Batch.Carry<W>)
    requires WorldFollows(cfg, [], start, now)
    ensures now == start
  {
  }

  lemma InOrderOfNothing<L(!new), W(!new), C>(h: Batch.Host<L, W, C>, start: Batch.Carry<W>)
    ensures Batch.RunsInOrder(h, [], start, [], start)
  {
  }

  lemma QuietBlock(reply: Reply, step: Step, block: seq<Turn>)
    requires QuietEnd(reply, step, block)
    ensures Paired(block) && Assembly.NoBoundary(block) && Assistants(block) == []
        && Recoveries(block) == 0 == RecoveriesOf(step)
    ensures !reply.Answered? && (block == [] || (block == [block[0]] && !block[0].ToolResult?))
  {
  }

  /** Which step a response may lead to, and what may have been executed. */
  ghost predicate StepJustified<L, W, C>(cfg: Config<L, W, C>, response: Response, c0: Counters, step: Step,
      executed: seq<Batch.ExecItem>)
  {
    var finish := EffectiveFinish(response, cfg.maxTokens);
    if response.calls != [] && UnconfirmedReason(finish).Some? then
      executed == [] && step == if c0.unconfirmedUsed == 1 then Ended(Incomplete) else Spent(UnconfirmedCall)
    else Concluded(cfg, finish, response.text, ItemsOf(response.calls, cfg.safe), c0, step, executed)
  }

  ghost predicate Concluded<L, W, C>(cfg: Config<L, W, C>, finish: FinishReason, text: string,
      items: seq<Batch.ExecItem>,
      c0: Counters, step: Step, executed: seq<Batch.ExecItem>)
  {
    match finish
    case ToolCalls => executed == items && (step.BatchDone? || step == Ended(UserCancelled) || step == Ended(TimeUp))
    case Stop =>
      executed == [] && step == if cfg.completionReview && c0.toolWork && !c0.reviewUsed then Spent(FinalReview)
          else Ended(Stopped)
    case Length =>
      executed == [] && step == if c0.lengthUsed == 0 then Spent(LengthRecovery)
                                else Ended(if IsBlank(text) then NoProgress else LengthReached)
    case ContentFilter => executed == [] && step == Ended(Incomplete)
    case Other(_) => executed == [] && step == Ended(Incomplete)
  }

  // ---------------------------------------------------------------------------------------
  // A turn told from its replies
  // ---------------------------------------------------------------------------------------

  ghost predicate SpentEarlier<W>(log: seq<IterRecord<W>>, k: nat, b: Budget)
    requires k <= |log|
  {
    exists j :: 0 <= j < k && log[j].step == Spent(b)
  }

  ghost predicate WorkedEarlier<W>(log: seq<IterRecord<W>>, k: nat)
    requires k <= |log|
  {
    exists j :: 0 <= j < k && log[j].executed != []
  }

  /** A reply of reasoning alone whose completion has come within eight tokens of the configured
      limit, or to 4096 tokens when none is configured. */
  ghost predicate OutOfTokens<L, W, C>(cfg: Config<L, W, C>, r: Response) {
    && r.calls == [] && IsBlank(r.text) && r.reasoning.Some? && !IsBlank(r.reasoning.value) && r.usage.Some?
    && match cfg.maxTokens
       case Some(limit) => r.usage.value.completion + 8 >= limit && limit <= Cost.U64_MAX
       case None => r.usage.value.completion >= 4096
  }

  /** The step of record `k`, from its reply and what the turn had already spent and run. */
  ghost predicate StepTold<L, W, C>(cfg: Config<L, W, C>, log: seq<IterRecord<W>>, k: nat)
    requires k < |log| && log[k].reply.Answered?
  {
    var r, step, executed := log[k].reply.response, log[k].step, log[k].executed;
    if r.calls != [] && (r.finish.Stop? || r.finish.Length? || r.finish.Other?) then
      executed == [] && step == if SpentEarlier(log, k, UnconfirmedCall) then Ended(Incomplete)
                                else Spent(UnconfirmedCall)
    else if r.finish.ToolCalls? then
      ItemsTold(r.calls, executed) && (step.BatchDone? || step == Ended(UserCancelled) || step == Ended(TimeUp))
    else if r.finish.Length? || (r.finish.Stop? && OutOfTokens(cfg, r)) then
      executed == [] && step == if !SpentEarlier(log, k, LengthRecovery) then Spent(LengthRecovery)
                                else if IsBlank(r.text) then Ended(NoProgress) else Ended(LengthReached)
    else if r.finish.Stop? then
      executed == [] && step == if cfg.completionReview && WorkedEarlier(log, k) && !SpentEarlier(log, k, FinalReview)
                                then Spent(FinalReview) else Ended(Stopped)
    else executed == [] && step == Ended(Incomplete)
  }

  ghost predicate ItemsTold(calls: seq<FinalizedCall>, items: seq<Batch.ExecItem>) {
    && |items| == |calls|
    && forall i :: 0 <= i < |calls| ==>
         match calls[i]
         case Good(call) => items[i] == Batch.Call(call)
         case Unparsed(id, name, _, error) =>
           && items[i].ParseError? && items[i].error == error
           && items[i].callId == (if id.Some? then id.value else "parseerr_" + Decimal(i))
           && items[i].toolName == if name.Some? && name.value != "" then name.value else "invalid_tool_call"
  }

  /** The assistant turn says what the reply said; arguments that did not parse are made safe. */
  ghost predicate AssistantTold<L, W, C>(cfg: Config<L, W, C>, r: Response, turn: Turn) {
    && turn.Assistant? && turn.text == r.text && turn.reasoning == r.reasoning && turn.usage == r.usage
    && turn.cost == (if r.usage.Some? then Some(Cost.CostOf(cfg.pricing, r.usage.value)) else None)
    && |turn.calls| == |r.calls|
    && forall i :: 0 <= i < |r.calls| ==>
         match r.calls[i]
         case Good(call) => turn.calls[i] == call
         case Unparsed(id, name, raw, _) =>
           && turn.calls[i].arguments == cfg.safe(raw)
           && turn.calls[i].id == (if id.Some? then id.value else "parseerr_" + Decimal(i))
           && turn.calls[i].name == if name.Some? && name.value != "" then name.value else "invalid_tool_call"
  }

  /** What the model is told of a call that was not run. */
  ghost predicate NotRunTold(texts: Texts, finish: FinishReason, body: ToolResultBody) {
    match finish
    case Stop => body == Failed(texts.unconfirmed("stop"), true)
    case Length => body == Failed(texts.unconfirmed("length"), true)
    case Other(reason) => body == Failed(texts.unconfirmed("other (" + reason + ")"), true)
    case ContentFilter => body == Interrupted
    case ToolCalls => false
  }

  /** What record `k` appended: the assistant turn, one result per call, and for a recovery its note. */
  ghost predicate BlockTold<L, W, C>(cfg: Config<L, W, C>, r: IterRecord<W>)
    requires r.reply.Answered?
  {
    var response, n := r.reply.response, |r.reply.response.calls|;
    && |r.block| > n && AssistantTold(cfg, response, r.block[0])
    && (r.executed == [] ==> forall i :: 0 <= i < n ==>
          && r.block[1 + i].ToolResult? && NotRunTold(cfg.texts, response.finish, r.block[1 + i].result)
          && r.block[1 + i].callId == r.block[0].calls[i].id && r.block[1 + i].tool == r.block[0].calls[i].name)
    && match r.step
       case Spent(LengthRecovery) =>
         r.block[n + 1..] == [SystemNote(Recovery, if IsBlank(response.text) then cfg.texts.forceAction
                                                   else cfg.texts.partialAnswer)]
       case Spent(FinalReview) => r.block[n + 1..] == [SystemNote(Recovery, cfg.texts.finalReview)]
       case Ended(UserCancelled) => r.block[n + 1..] == [Cancelled]
       case _ => r.block[n + 1..] == []
  }

  /** A request that brought no reply ends the turn with at most one turn that says why. */
  ghost predicate FailureTold<W>(r: IterRecord<W>) {
    && r.executed == []
    && match r.reply
       case Answered(_) => false
       case WaitCancelled => r.step == Ended(UserCancelled) && r.block == [Cancelled]
       case WaitTimeUp => r.step == Ended(TimeUp) && r.block == []
       case RequestFailed(message, retryable, cancelled) =>
         if cancelled then r.step == Ended(UserCancelled) && r.block == [Cancelled]
         else r.step == Ended(ModelFailed) && r.block == [Error(message, retryable)]
  }

  /** Every record of a turn goes on and appends as its reply says, whatever the model answered. */
  lemma LogToldByReplies<L, W, C>(cfg: Config<L, W, C>, log: seq<IterRecord<W>>, k: nat)
    requires LogSound(cfg, log) && k < |log|
    ensures if log[k].reply.Answered? then StepTold(cfg, log, k) && BlockTold(cfg, log[k]) else FailureTold(log[k])
  {
    assert RecordFits(cfg, log, k);
    var r := log[k];
    if !r.reply.Answered? {
      return;
    }
    SpentTold(log, k, UnconfirmedCall);
    SpentTold(log, k, LengthRecovery);
    SpentTold(log, k, FinalReview);
    WorkTold(log, k);
    FinishTold(cfg, r.reply.response);
    StepFromCounters(cfg, log, k);
    BlockFromParts(cfg, r);
  }

  lemma FinishTold<L, W, C>(cfg: Config<L, W, C>, r: Response)
    ensures EffectiveFinish(r, cfg.maxTokens) == if r.finish.Stop? && OutOfTokens(cfg, r) then Length else r.finish
  {
  }

  lemma StepFromCounters<L, W, C>(cfg: Config<L, W, C>, log: seq<IterRecord<W>>, k: nat)
    requires k < |log| && log[k].reply.Answered?
    requires StepJustified(cfg, log[k].reply.response, log[k].before, log[k].step, log[k].executed)
    requires EffectiveFinish(log[k].reply.response, cfg.maxTokens) ==
             if log[k].reply.response.finish.Stop? && OutOfTokens(cfg, log[k].reply.response) then Length
             else log[k].reply.response.finish
    requires log[k].before.unconfirmedUsed == 1 <==> SpentEarlier(log, k, UnconfirmedCall)
    requires log[k].before.lengthUsed == 0 <==> !SpentEarlier(log, k, LengthRecovery)
    requires log[k].before.reviewUsed <==> SpentEarlier(log, k, FinalReview)
    requires log[k].before.toolWork <==> WorkedEarlier(log, k)
    ensures StepTold(cfg, log, k)
  {
    hide EffectiveFinish, SpentEarlier, WorkedEarlier, IsBlank;
  }

  lemma AssistantIsTold<L, W, C>(cfg: Config<L, W, C>, r: Response)
    ensures var turn := AssistantTurn(r, cfg.safe, cfg.pricing);
            AssistantTold(cfg, r, turn) && turn.Assistant? && |turn.calls| == |r.calls|
  {
    hide Cost.CostOf;
  }

  lemma BlockFromParts<L, W, C>(cfg: Config<L, W, C>, r: IterRecord<W>)
    requires r.reply.Answered?
    requires Wrote(cfg.texts, AssistantTurn(r.reply.response, cfg.safe, cfg.pricing),
                   UnconfirmedOf(cfg, r.reply.response), r.step, r.executed, r.block)
    requires StepJustified(cfg, r.reply.response, r.before, r.step, r.executed)
    requires EffectiveFinish(r.reply.response, cfg.maxTokens) ==
             if r.reply.response.finish.Stop? && OutOfTokens(cfg, r.reply.response) then Length
             else r.reply.response.finish
    ensures BlockTold(cfg, r)
  {
    var response, n := r.reply.response, |r.reply.response.calls|;
    AssistantIsTold(cfg, response);
    hide EffectiveFinish, IsBlank, Cost.CostOf, AssistantTurn, AssistantTold, OutOfTokens, ItemsOf, IsInvestigation;
    if r.executed == [] {
      var results := r.block[1..1 + n];
      assert forall i :: 0 <= i < n ==> results[i] == r.block[1 + i];
    }
  }

  lemma {:induction false} SpentTold<W>(log: seq<IterRecord<W>>, k: nat, b: Budget)
    requires k <= |log|
    ensures SpentCount(log[..k], b) > 0 <==> SpentEarlier(log, k, b)
    decreases k
  {
    if k > 0 {
      SpentTold(log, k - 1, b);
      assert log[..k][..k - 1] == log[..k - 1];
    }
  }

  lemma {:induction false} WorkTold<W>(log: seq<IterRecord<W>>, k: nat)
    requires k <= |log|
    ensures WorkSeen(log[..k]) <==> WorkedEarlier(log, k)
    decreases k
  {
    if k > 0 {
      WorkTold(log, k - 1);
      assert log[..k][..k - 1] == log[..k - 1];
    }
  }

  /** A batch of nothing but parsed calls to tools other than the three that write files. */
  ghost predicate ReadOnlyBatch<W>(r: IterRecord<W>) {
    && r.step.BatchDone? && r.executed != []
    && forall i :: 0 <= i < |r.executed| ==>
         r.executed[i].Call? && r.executed[i].call.name != "Write" && r.executed[i].call.name != "Append"
         && r.executed[i].call.name != "Edit"
  }

  ghost predicate LastBatch<W>(log: seq<IterRecord<W>>, a: nat, k: nat)
    requires k <= |log|
  {
    a < k && log[a].step.BatchDone? && forall j :: a < j < k ==> !log[j].step.BatchDone?
  }

  /** The last `n` batches before record `k` only read. */
  ghost predicate ReadRun<W>(log: seq<IterRecord<W>>, k: nat, n: nat)
    requires k <= |log|
    decreases n
  {
    n == 0 || exists a: nat :: a < k && LastBatch(log, a, k) && ReadOnlyBatch(log[a]) && ReadRun(log, a, n - 1)
  }

  lemma {:induction false} RoundsTold<W>(log: seq<IterRecord<W>>, k: nat, n: nat)
    requires k <= |log|
    ensures Rounds(log[..k]) >= n <==> ReadRun(log, k, n)
    decreases k
  {
    if k > 0 && n > 0 {
      assert log[..k][..k - 1] == log[..k - 1];
      var last := log[k - 1];
      assert last.step.BatchDone? ==> (IsInvestigation(last.executed) <==> ReadOnlyBatch(last));
      hide ReadOnlyBatch;
      if last.step.BatchDone? {
        RoundsTold(log, k - 1, n - 1);
        assert LastBatch(log, k - 1, k);
      } else {
        RoundsTold(log, k - 1, n);
        assert forall a: nat :: LastBatch(log, a, k) <==> LastBatch(log, a, k - 1);
      }
    }
  }

  /** A request carries the research nudge exactly when the last three batches of the turn only
      read. */
  lemma NudgedExactly<L, W, C>(cfg: Config<L, W, C>, input: string, before: Ledger, now: Ledger,
      appended: seq<Turn>, log: seq<IterRecord<W>>, k: nat)
    requires LogSound(cfg, log) && Progress(cfg, input, before, now, appended, log) && k < |log|
    ensures log[k].at <= |now.messages|
    ensures log[k].request ==
            (if cfg.assembler.Some? then
               Assembly.Assemble(now.messages[..log[k].at],
                                 cfg.assembler.value(cfg.host.contextOf(log[k].found.world)))
             else Project(now.messages[..log[k].at], cfg.systemPrompt, cfg.safe))
            + if ReadRun(log, k, 3) then [UserMessage(cfg.texts.researchNudge)] else []
  {
    assert RequestMatches(cfg, |before.messages|, now.messages, log[k]) && RecordFits(cfg, log, k);
    hide Progress, LogSound, ReadRun, Assembly.Assemble, Project;
    RoundsTold(log, k, 3);
  }

  lemma EndsAfterBlock(ends: seq<Batch.Event>, messages: seq<Turn>, from: nat, assistant: Turn,
      events: seq<Batch.Event>, results: seq<Turn>)
    requires EachResultEndedOnce(ends, messages, from) && from <= |messages|
    requires assistant.Assistant? && Answers(results, assistant.calls) && EventsMatch(events, results)
    ensures EachResultEndedOnce(ends + Shift(events, |messages| + 1), messages + ([assistant] + results), from)
  {
    hide EachResultEndedOnce, EventsMatch;
    EndsAfterQuietTurn(ends, messages, from, assistant);
    EndsAfterResults(ends, messages + [assistant], from, events, results);
    assert messages + ([assistant] + results) == messages + [assistant] + results;
  }

  lemma NoEvents()
    ensures Batch.AnnouncedOnce([], Batch.Indices(0))
  {
  }

  lemma FinishedEventsMatch(items: seq<Batch.ExecItem>, calls: seq<ToolCall>, execs: seq<Batch.Exec>,
      cp: Batch.Checkpoint, events: seq<Batch.Event>)
    requires Batch.SameCalls(calls, items) && Batch.CheckpointSound(items, cp, events)
    requires |execs| == |items| && cp.emitted == Batch.Indices(|items|)
    requires forall i :: 0 <= i < |items| ==> Batch.Belongs(items, i, execs[i]) && cp.results[i] == Some(execs[i])
    ensures EventsMatch(events, TurnsOf(execs)) && Answers(TurnsOf(execs), calls)
  {
  }

  function BatchRounds<W>(log: seq<IterRecord<W>>): nat {
    if log == [] then 0 else BatchRounds(log[..|log| - 1]) + if log[|log| - 1].step.BatchDone? then 1 else 0
  }

  lemma {:induction false} RoundsBound<W>(log: seq<IterRecord<W>>)
    requires forall k :: 0 <= k < |log| ==> !log[k].step.Ended?
    ensures |log| == BatchRounds(log) + SpentCount(log, UnconfirmedCall) + SpentCount(log, LengthRecovery)
        + SpentCount(log, FinalReview)
    decreases |log|
  {
    if log != [] {
      RoundsBound(log[..|log| - 1]);
      match log[|log| - 1].step {
        case Spent(b) => assert b == UnconfirmedCall || b == LengthRecovery || b == FinalReview;
        case BatchDone =>
        case Ended(_) =>
      }
    }
  }

  /** Progress of a turn: apart from the last one, every model request is followed by a batch the
      provider confirmed with `tool_calls` or by one of three one-shot budgets, so at most three
      requests plus the last one are not tool rounds; the world, the grants and the questions asked
      change in no iteration but one whose calls the provider confirmed, and those are the calls that
      were run; at most two recovery notes are written. */
  lemma EveryRequestCounts<L(!new), W(!new), C>(cfg: Config<L, W, C>, input: string, before: Ledger, now: Ledger,
      appended: seq<Turn>, log: seq<IterRecord<W>>, start: Batch.Carry<W>, end: Batch.Carry<W>)
    requires LogSound(cfg, log) && Progress(cfg, input, before, now, appended, log)
    requires WorldFollows(cfg, log, start, end)
    ensures forall i :: 0 <= i < |log| - 1 ==>
              log[i].reply.Answered? && (log[i].step.Spent?
                  || (log[i].step.BatchDone? && log[i].reply.response.finish.ToolCalls?))
    ensures forall i :: 0 <= i < |log| && log[i].left != log[i].found ==>
              && log[i].executed != [] && log[i].reply.Answered? && log[i].reply.response.finish.ToolCalls?
              && log[i].executed == ItemsOf(log[i].reply.response.calls, cfg.safe)
    ensures (forall i :: 0 <= i < |log| ==> log[i].executed == []) ==> end == start
    ensures |log| <= BatchRounds(log) + 4
    ensures Recoveries(appended) <= 2
  {
    hide WorldFollows, Progress, RecordFits, ItemsOf;
    forall i | 0 <= i < |log|
      ensures RecordFacts(cfg, log[i])
    {
      RecordJustifies(cfg, log, i);
    }
    ProgressRecoveries(cfg, input, before, now, appended, log);
    NothingUnconfirmed(cfg, log, start, end);
    hide SpentCount, BatchRounds;
    if log != [] {
      RoundsBound(log[..|log| - 1]);
      LastRound(log);
    }
  }

  lemma NothingUnconfirmed<L(!new), W(!new), C>(cfg: Config<L, W, C>, log: seq<IterRecord<W>>, start: Batch.Carry<W>,
      end: Batch.Carry<W>)
    requires WorldFollows(cfg, log, start, end)
    ensures forall i :: 0 <= i < |log| && log[i].executed == [] ==> log[i].left == log[i].found
    ensures (forall i :: 0 <= i < |log| ==> log[i].executed == []) ==> end == start
  {
    hide Ran;
    forall i | 0 <= i < |log| && log[i].executed == []
      ensures log[i].left == log[i].found
    {
      assert WorldJustified(cfg, log[i]);
    }
    if forall i :: 0 <= i < |log| ==> log[i].executed == [] {
      Untouched(cfg, log, start, |log|);
    }
  }

  lemma {:induction false} Untouched<L(!new), W(!new), C>(cfg: Config<L, W, C>, log: seq<IterRecord<W>>,
      start: Batch.Carry<W>, k: nat)
    requires k <= |log|
    requires forall i :: 0 <= i < |log| ==> log[i].found == LeftBefore(log, i, start) && log[i].left == log[i].found
    ensures LeftBefore(log, k, start) == start
  {
    if k > 0 {
      Untouched(cfg, log, start, k - 1);
    }
  }

  ghost predicate RecordFacts<L, W, C>(cfg: Config<L, W, C>, r: IterRecord<W>) {
    && (!r.step.Ended? ==>
        r.reply.Answered? && (r.step.Spent? || (r.step.BatchDone? && r.reply.response.finish.ToolCalls?)))
    && (r.executed != [] ==>
          && r.reply.Answered? && r.reply.response.finish.ToolCalls?
          && r.executed == ItemsOf(r.reply.response.calls, cfg.safe))
  }

  lemma RecordJustifies<L, W, C>(cfg: Config<L, W, C>, log: seq<IterRecord<W>>, i: nat)
    requires LogSound(cfg, log) && i < |log|
    ensures RecordFacts(cfg, log[i])
  {
    hide ImplicitLength, IsBlank, CountersMatch;
    assert RecordFits(cfg, log, i);
  }

  lemma ProgressRecoveries<L, W, C>(cfg: Config<L, W, C>, input: string, before: Ledger, now: Ledger,
      appended: seq<Turn>, log: seq<IterRecord<W>>)
    requires Progress(cfg, input, before, now, appended, log)
    ensures Recoveries(appended) == SpentCount(log, LengthRecovery) + SpentCount(log, FinalReview)
  {
  }

  lemma LastRound<W>(log: seq<IterRecord<W>>)
    requires log != []
    ensures BatchRounds(log[..|log| - 1]) <= BatchRounds(log)
    ensures forall b :: SpentCount(log[..|log| - 1], b) <= SpentCount(log, b)
  {
  }
}

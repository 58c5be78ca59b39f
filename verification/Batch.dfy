/** The batch executor: one assistant response's tool calls, authorised phase by phase,
    contiguous parallel reads run as concurrent tasks and every other call as an ordered barrier.

    A tool call is a small-step process over the shared world. Concurrency is modelled by
    arbitrary choice: between any two actions of the executor the live tasks take any finite
    number of steps in any order, and at every await the whole batch may be dropped (a
    cancellation, a deadline, or a tool that never finishes). Each method's postconditions
    therefore speak about every interleaving and every drop point. */
module Batch {
  import opened Turns
  import opened Wrappers

  datatype Concurrency = Parallel | SerialWrite | Exclusive

  datatype Decision = Allow | Deny(reason: string) | Ask(reason: string)

  datatype AskResponse = Once | ForSession(rule: string) | Always(rule: string) | Refuse(reason: string)

  /** Everything outside the executor. `L` is the private state of a running call, `W` the world
      shared by all tools (files, shell directory), `C` the context a call runs in. `done` yields
      the body a finished call leaves; for a parallel task that panicked that is the error its join
      reports. */
  datatype Host<!L, !W, !C> = Host(
    lookup: string -> Option<Concurrency>,
    contextOf: W -> C,
    begin: (ToolCall, C) -> L,
    next: (string, L, W) -> (L, W),
    done: L -> Option<ToolResultBody>,
    check: (ToolCall, C, seq<string>) -> Decision,
    ask: (nat, ToolCall, string) -> AskResponse,
    hardResultCap: nat)

  datatype ExecItem = Call(call: ToolCall) | ParseError(callId: string, toolName: string, error: string)

  datatype Exec = Exec(callId: string, tool: string, body: ToolResultBody)

  /** A terminal `on_tool_end` notification; `index` is the call's place in the batch. */
  datatype Event = Event(index: nat, exec: Exec)

  /** A call is refused by the policy or the user, its tool starts and finishes, and a parallel task
      is joined. */
  datatype Activity = Refused(index: nat) | Start(index: nat) | Finish(index: nat) | Join(index: nat)

  datatype Checkpoint = Checkpoint(results: seq<Option<Exec>>, emitted: set<nat>)

  /** At most this many parallel calls run at a time. */
  const PARALLEL_BOUND: nat := 8

  function IdOf(item: ExecItem): string {
    match item
    case Call(call) => call.id
    case ParseError(callId, _, _) => callId
  }

  function NameOf(item: ExecItem): string {
    match item
    case Call(call) => call.name
    case ParseError(_, toolName, _) => toolName
  }

  function ParseErrorExec(item: ExecItem): Exec
    requires item.ParseError?
  {
    Exec(item.callId, item.toolName, Failed("invalid tool arguments: " + item.error, true))
  }

  function UnknownExec(call: ToolCall): Exec {
    Exec(call.id, call.name, Failed("unknown tool: " + call.name, false))
  }

  function Capped(body: ToolResultBody, cap: nat): ToolResultBody {
    if cap > 0 then TruncateBody(body, cap) else body
  }

  predicate IsParallel<L, W, C>(h: Host<L, W, C>, item: ExecItem): (r: bool)
    ensures r ==> item.Call?
  {
    item.Call? && h.lookup(item.call.name) == Some(Parallel)
  }

  predicate IsBarrier<L, W, C>(h: Host<L, W, C>, item: ExecItem) {
    item.Call? && !IsParallel(h, item)
  }

  /** Tools declared Parallel are pure reads. */
  ghost predicate ParallelPure<L(!new), W(!new), C>(h: Host<L, W, C>) {
    forall name: string, l: L, w: W :: h.lookup(name) == Some(Parallel) ==> h.next(name, l, w).1 == w
  }

  // ---------------------------------------------------------------------------------------
  // One call at a time: the reference
  // ---------------------------------------------------------------------------------------

  /** What the executor carries from one call to the next. */
  datatype Carry<W> = Carry(world: W, grants: seq<string>, asks: nat)

  /** The permission check just before a call: `None` lets it run. The prompter's answers are a
      function of how many questions came before. */
  function Authorize<L, W, C>(h: Host<L, W, C>, call: ToolCall, ctx: C, grants: seq<string>, asks: nat)
    : (r: (Option<ToolResultBody>, seq<string>, nat))
    ensures r.0.Some? ==> r.0.value.Denied? && r.1 == grants
    ensures grants <= r.1 && asks <= r.2 <= asks + 1
  {
    match h.check(call, ctx, grants)
    case Allow => (None, grants, asks)
    case Deny(reason) => (Some(Denied(reason)), grants, asks)
    case Ask(reason) =>
      match h.ask(asks, call, reason)
      case Once => (None, grants, asks + 1)
      case ForSession(rule) => (None, grants + [rule], asks + 1)
      case Always(rule) => (None, grants + [rule], asks + 1)
      case Refuse(why) => (Some(Denied(why)), grants, asks + 1)
  }

  function Authorized<L, W, C>(h: Host<L, W, C>, item: ExecItem, ctx: C, c: Carry<W>): Carry<W> {
    match item
    case ParseError(_, _, _) => c
    case Call(call) => var r := Authorize(h, call, ctx, c.grants, c.asks); Carry(c.world, r.1, r.2)
  }

  /** `n` uninterrupted steps of an unfinished call. */
  ghost predicate Steps<L, W, C>(h: Host<L, W, C>, name: string, l: L, w: W, n: nat, l': L, w': W)
    decreases n
  {
    if n == 0 then l' == l && w' == w
    else h.done(l).None? && Steps(h, name, h.next(name, l, w).0, h.next(name, l, w).1, n - 1, l', w')
  }

  /** The call, running alone, finishes after `n` steps. */
  ghost predicate RunsTo<L(!new), W(!new), C>(h: Host<L, W, C>, name: string, l: L, w: W, n: nat, body: ToolResultBody,
      w': W)
  {
    exists l': L :: Steps(h, name, l, w, n, l', w') && h.done(l') == Some(body)
  }

  /** Authorise one call and, if allowed, run it to completion. */
  ghost predicate RunsItem<L(!new), W(!new), C>(h: Host<L, W, C>, item: ExecItem, c: Carry<W>, exec: Exec, c': Carry<W>)
  {
    match item
    case ParseError(_, _, _) => exec == ParseErrorExec(item) && c' == c
    case Call(call) =>
      var ctx := h.contextOf(c.world);
      var (denied, grants, asks) := Authorize(h, call, ctx, c.grants, c.asks);
      if denied.Some? then exec == Exec(call.id, call.name, denied.value) && c' == Carry(c.world, grants, asks)
      else if h.lookup(call.name).None? then exec == UnknownExec(call) && c' == Carry(c.world, grants, asks)
      else
        && c'.grants == grants && c'.asks == asks
        && exec.callId == call.id && exec.tool == call.name
        && exists n: nat, body :: RunsTo(h, call.name, h.begin(call, ctx), c.world, n, body, c'.world)
                                  && exec.body == Capped(body, h.hardResultCap)
  }

  /** The calls authorised and run one by one in model order. */
  ghost predicate RunsInOrder<L(!new), W(!new), C>(h: Host<L, W, C>, items: seq<ExecItem>, c: Carry<W>,
      execs: seq<Exec>, c': Carry<W>)
    decreases |items|
  {
    if items == [] then execs == [] && c' == c
    else
      var last := |items| - 1;
      && |execs| == |items|
      && exists mid: Carry<W> :: RunsInOrder(h, items[..last], c, execs[..last], mid)
                                 && RunsItem(h, items[last], mid, execs[last], c')
  }

  lemma {:induction false} StepsDeterministic<L(!new), W(!new), C>(h: Host<L, W, C>, name: string, l: L, w: W,
      n: nat, l1: L, w1: W, k: nat, l2: L, w2: W)
    requires Steps(h, name, l, w, n, l1, w1) && Steps(h, name, l, w, k, l2, w2)
    requires h.done(l1).Some? && h.done(l2).Some?
    ensures l1 == l2 && w1 == w2
    decreases n
  {
    if n > 0 && k > 0 {
      StepsDeterministic(h, name, h.next(name, l, w).0, h.next(name, l, w).1, n - 1, l1, w1, k - 1, l2, w2);
    }
  }

  lemma RunsItemDeterministic<L(!new), W(!new), C>(h: Host<L, W, C>, item: ExecItem, c: Carry<W>,
      e1: Exec, c1: Carry<W>, e2: Exec, c2: Carry<W>)
    requires RunsItem(h, item, c, e1, c1) && RunsItem(h, item, c, e2, c2)
    ensures e1 == e2 && c1 == c2
  {
    if item.Call? && Authorize(h, item.call, h.contextOf(c.world), c.grants, c.asks).0.None?
        && h.lookup(item.call.name).Some? {
      var l := h.begin(item.call, h.contextOf(c.world));
      var n: nat, b1 :| RunsTo(h, item.call.name, l, c.world, n, b1, c1.world)
          && e1.body == Capped(b1, h.hardResultCap);
      var k: nat, b2 :| RunsTo(h, item.call.name, l, c.world, k, b2, c2.world)
          && e2.body == Capped(b2, h.hardResultCap);
      var l1: L :| Steps(h, item.call.name, l, c.world, n, l1, c1.world) && h.done(l1) == Some(b1);
      var l2: L :| Steps(h, item.call.name, l, c.world, k, l2, c2.world) && h.done(l2) == Some(b2);
      StepsDeterministic(h, item.call.name, l, c.world, n, l1, c1.world, k, l2, c2.world);
    }
  }

  /** The reference has one outcome. */
  lemma {:induction false} RunsInOrderDeterministic<L(!new), W(!new), C>(h: Host<L, W, C>, items: seq<ExecItem>,
      c: Carry<W>,
      e1: seq<Exec>, c1: Carry<W>, e2: seq<Exec>, c2: Carry<W>)
    requires RunsInOrder(h, items, c, e1, c1) && RunsInOrder(h, items, c, e2, c2)
    ensures e1 == e2 && c1 == c2
    decreases |items|
  {
    hide RunsItem;
    if items != [] {
      var last := |items| - 1;
      var m1: Carry<W> :| RunsInOrder(h, items[..last], c, e1[..last], m1)
          && RunsItem(h, items[last], m1, e1[last], c1);
      var m2: Carry<W> :| RunsInOrder(h, items[..last], c, e2[..last], m2)
          && RunsItem(h, items[last], m2, e2[last], c2);
      RunsInOrderDeterministic(h, items[..last], c, e1[..last], m1, e2[..last], m2);
      RunsItemDeterministic(h, items[last], m1, e1[last], c1, e2[last], c2);
      assert e1 == e1[..last] + [e1[last]] && e2 == e2[..last] + [e2[last]];
    }
  }

  lemma {:induction false} StepsSnoc<L, W, C>(h: Host<L, W, C>, name: string, l: L, w: W, n: nat, l': L, w': W)
    requires Steps(h, name, l, w, n, l', w') && h.done(l').None?
    ensures Steps(h, name, l, w, n + 1, h.next(name, l', w').0, h.next(name, l', w').1)
    decreases n
  {
    if n > 0 {
      StepsSnoc(h, name, h.next(name, l, w).0, h.next(name, l, w).1, n - 1, l', w');
    } else {
      assert Steps(h, name, h.next(name, l, w).0, h.next(name, l, w).1, 0, h.next(name, l', w').0,
          h.next(name, l', w').1);
    }
  }

  lemma InOrderSnoc<L(!new), W(!new), C>(h: Host<L, W, C>, items: seq<ExecItem>, i: nat, c: Carry<W>,
      execs: seq<Exec>, mid: Carry<W>, c': Carry<W>)
    requires i < |items| && |execs| == i + 1
    requires RunsInOrder(h, items[..i], c, execs[..i], mid) && RunsItem(h, items[i], mid, execs[i], c')
    ensures RunsInOrder(h, items[..i + 1], c, execs, c')
  {
    assert items[..i + 1][..i] == items[..i];
  }

  // ---------------------------------------------------------------------------------------
  // What the reference does, told from the answers of the policy and the user alone
  // ---------------------------------------------------------------------------------------

  /** The policy allows the call, or leaves it to the user, who does not refuse it. */
  ghost predicate LetThrough<L, W, C>(h: Host<L, W, C>, item: ExecItem, c: Carry<W>) {
    item.Call? &&
    match h.check(item.call, h.contextOf(c.world), c.grants)
    case Allow => true
    case Deny(_) => false
    case Ask(question) => !h.ask(c.asks, item.call, question).Refuse?
  }

  /** What a call that is not let through results in. */
  ghost predicate IsRefusal<L, W, C>(h: Host<L, W, C>, item: ExecItem, c: Carry<W>, body: ToolResultBody) {
    item.Call? &&
    match h.check(item.call, h.contextOf(c.world), c.grants)
    case Allow => false
    case Deny(reason) => body == Denied(reason)
    case Ask(question) =>
      var answer := h.ask(c.asks, item.call, question);
      answer.Refuse? && body == Denied(answer.reason)
  }

  /** A question is counted, and only a session-wide answer adds a grant: exactly its rule. */
  ghost predicate GrantsFollow<L, W, C>(h: Host<L, W, C>, item: ExecItem, c: Carry<W>, c': Carry<W>) {
    match item
    case ParseError(_, _, _) => c'.grants == c.grants && c'.asks == c.asks
    case Call(call) =>
      match h.check(call, h.contextOf(c.world), c.grants)
      case Allow => c'.grants == c.grants && c'.asks == c.asks
      case Deny(_) => c'.grants == c.grants && c'.asks == c.asks
      case Ask(question) =>
        && c'.asks == c.asks + 1
        && match h.ask(c.asks, call, question)
           case Once => c'.grants == c.grants
           case ForSession(rule) => c'.grants == c.grants + [rule]
           case Always(rule) => c'.grants == c.grants + [rule]
           case Refuse(_) => c'.grants == c.grants
  }

  ghost predicate IsCapped(raw: ToolResultBody, body: ToolResultBody, cap: nat) {
    if cap > 0 then IsCut(raw, body, cap) else body == raw
  }

  /** The tool, started in the world before the call and running alone, left this body and world. */
  ghost predicate ToolRan<L(!new), W(!new), C>(h: Host<L, W, C>, call: ToolCall, w: W, body: ToolResultBody, w': W) {
    exists n: nat, raw ::
      RunsTo(h, call.name, h.begin(call, h.contextOf(w)), w, n, raw, w') && IsCapped(raw, body, h.hardResultCap)
  }

  /** One call at its turn, between the carries `c` and `c'`. A call that is not let through is
      recorded as refused. What a tool leaves is capped; and where no other call can interfere (a
      barrier, or pure reads) it is what the tool leaves running alone. */
  ghost predicate Rules<L(!new), W(!new), C>(h: Host<L, W, C>, item: ExecItem, c: Carry<W>, c': Carry<W>,
      result: Option<Exec>)
  {
    && GrantsFollow(h, item, c, c')
    && match item
       case ParseError(callId, toolName, error) =>
         result == Some(Exec(callId, toolName, Failed("invalid tool arguments: " + error, true)))
       case Call(call) =>
         && (result.Some? ==> result.value.callId == call.id && result.value.tool == call.name)
         && (!LetThrough(h, item, c) ==> result.Some? && IsRefusal(h, item, c, result.value.body))
         && (LetThrough(h, item, c) && result.Some? && h.lookup(call.name).None? ==>
               result.value.body == Failed("unknown tool: " + call.name, false))
         && (LetThrough(h, item, c) && result.Some? && h.lookup(call.name).Some? && h.hardResultCap > 0 ==>
               FitsCap(result.value.body, h.hardResultCap))
         && (result.Some? && (IsBarrier(h, item) || ParallelPure(h)) ==>
               if LetThrough(h, item, c) && h.lookup(call.name).Some?
               then ToolRan(h, call, c.world, result.value.body, c'.world)
               else c'.world == c.world)
  }

  lemma AuthorizedFollows<L, W, C>(h: Host<L, W, C>, item: ExecItem, c: Carry<W>)
    ensures GrantsFollow(h, item, c, Authorized(h, item, h.contextOf(c.world), c))
    ensures Authorized(h, item, h.contextOf(c.world), c).world == c.world
    ensures item.Call? ==>
              var denied := Authorize(h, item.call, h.contextOf(c.world), c.grants, c.asks).0;
              if denied.Some? then !LetThrough(h, item, c) && IsRefusal(h, item, c, denied.value)
              else LetThrough(h, item, c)
  {
  }

  lemma CappedIsCut(raw: ToolResultBody, cap: nat)
    ensures IsCapped(raw, Capped(raw, cap), cap) && (cap > 0 ==> FitsCap(Capped(raw, cap), cap))
  {
    if cap > 0 {
      TruncationIsCut(raw, cap);
    }
  }

  /** The reference obeys the policy and the user, and reports what the tool left, capped. */
  lemma RunsItemRules<L(!new), W(!new), C>(h: Host<L, W, C>, item: ExecItem, c: Carry<W>, exec: Exec, c': Carry<W>)
    requires RunsItem(h, item, c, exec, c')
    ensures Rules(h, item, c, c', Some(exec))
  {
    AuthorizedFollows(h, item, c);
    hide IsCut, FitsCap, IsRefusal;
    if item.Call? && LetThrough(h, item, c) && h.lookup(item.call.name).Some? {
      var call := item.call;
      var n: nat, raw :| RunsTo(h, call.name, h.begin(call, h.contextOf(c.world)), c.world, n, raw, c'.world)
          && exec.body == Capped(raw, h.hardResultCap);
      CappedIsCut(raw, h.hardResultCap);
      assert ToolRan(h, call, c.world, exec.body, c'.world);
    }
  }

  /** Every call of the reference does, between carries that chain. */
  lemma {:induction false} RunsInOrderRules<L(!new), W(!new), C>(h: Host<L, W, C>, items: seq<ExecItem>, c: Carry<W>,
      execs: seq<Exec>, c': Carry<W>) returns (log: seq<Carry<W>>)
    requires RunsInOrder(h, items, c, execs, c')
    ensures |execs| == |items| && |log| == |items| + 1 && log[0] == c && log[|items|] == c'
    ensures forall i :: 0 <= i < |items| ==> Rules(h, items[i], log[i], log[i + 1], Some(execs[i]))
    decreases |items|
  {
    hide Rules, RunsItem;
    log := [c];
    if items != [] {
      var last := |items| - 1;
      var mid: Carry<W> :| RunsInOrder(h, items[..last], c, execs[..last], mid)
          && RunsItem(h, items[last], mid, execs[last], c');
      log := RunsInOrderRules(h, items[..last], c, execs[..last], mid);
      RunsItemRules(h, items[last], mid, execs[last], c');
      log := log + [c'];
    }
  }

  /** What a batch has done so far, for every host: each call decided on followed the rules, in
      order, and a tool has started only for a call that was let through at its turn. */
  ghost predicate Ruled<L(!new), W(!new), C>(h: Host<L, W, C>, items: seq<ExecItem>, start: Carry<W>,
      log: seq<Carry<W>>, trace: seq<Activity>, results: seq<Option<Exec>>)
  {
    && 0 < |log| <= |items| + 1 && |results| == |items| && log[0] == start
    && (forall i :: 0 <= i < |log| - 1 ==> Rules(h, items[i], log[i], log[i + 1], results[i]))
    && (forall a :: a in trace && a.Start? ==>
          a.index < |log| && a.index < |items| && LetThrough(h, items[a.index], log[a.index]))
  }

  // ---------------------------------------------------------------------------------------
  // Bookkeeping
  // ---------------------------------------------------------------------------------------

  /** The executor's state. The checkpoint outlives the batch; the rest is lost on a drop. */
  datatype State<W> = State(
    results: seq<Option<Exec>>,
    emitted: set<nat>,
    checkpoint: Checkpoint,
    events: seq<Event>,
    world: W,
    grants: seq<string>,
    asks: nat,
    trace: seq<Activity>)

  function CountFor(events: seq<Event>, i: nat): nat {
    if events == [] then 0
    else CountFor(events[..|events| - 1], i) + if events[|events| - 1].index == i then 1 else 0
  }

  /** Each index in `emitted` was announced once; no other index was. */
  ghost predicate AnnouncedOnce(events: seq<Event>, emitted: set<nat>) {
    forall i: nat :: CountFor(events, i) == if i in emitted then 1 else 0
  }

  /** Every announcement carries the recorded result. */
  ghost predicate AnnouncedAsRecorded(events: seq<Event>, results: seq<Option<Exec>>) {
    forall k :: 0 <= k < |events| ==> events[k].index < |results| && results[events[k].index] == Some(events[k].exec)
  }

  ghost predicate Belongs(items: seq<ExecItem>, i: nat, exec: Exec) {
    i < |items| && exec.callId == IdOf(items[i]) && exec.tool == NameOf(items[i])
  }

  /** What holds of the checkpoint at every await point. */
  ghost predicate CheckpointSound(items: seq<ExecItem>, cp: Checkpoint, events: seq<Event>) {
    && |cp.results| == |items|
    && (forall i :: i in cp.emitted ==> i < |items| && cp.results[i].Some?)
    && (forall i :: 0 <= i < |items| && cp.results[i].Some? ==> Belongs(items, i, cp.results[i].value))
    && AnnouncedOnce(events, cp.emitted)
    && AnnouncedAsRecorded(events, cp.results)
  }

  /** The checkpoint mirrors the executor's own tables, and just the recorded calls are announced. */
  ghost predicate Consistent<W>(items: seq<ExecItem>, st: State<W>) {
    && CheckpointSound(items, st.checkpoint, st.events)
    && st.emitted == st.checkpoint.emitted
    && st.results == st.checkpoint.results
    && (forall i: nat :: i in st.emitted <==> i < |items| && items[i].Call? && st.results[i].Some?)
  }

  function Record<W>(st: State<W>, i: nat, exec: Exec): State<W>
    requires i < |st.results| == |st.checkpoint.results|
  {
    st.(results := st.results[i := Some(exec)],
        checkpoint := st.checkpoint.(results := st.checkpoint.results[i := Some(exec)]))
  }

  /** Announce a result and record it; no await separates the two. */
  function Publish<W>(st: State<W>, i: nat, exec: Exec): State<W>
    requires i < |st.results| == |st.checkpoint.results|
  {
    Record(st.(events := st.events + [Event(i, exec)],
               emitted := st.emitted + {i},
               checkpoint := st.checkpoint.(emitted := st.checkpoint.emitted + {i})), i, exec)
  }

  lemma AnnounceOnce(events: seq<Event>, emitted: set<nat>, e: Event)
    requires AnnouncedOnce(events, emitted) && e.index !in emitted
    ensures AnnouncedOnce(events + [e], emitted + {e.index})
  {
  }

  lemma PublishConsistent<W>(items: seq<ExecItem>, st: State<W>, i: nat, exec: Exec)
    requires Consistent(items, st) && Belongs(items, i, exec) && items[i].Call? && st.results[i].None?
    ensures Consistent(items, Publish(st, i, exec))
  {
  }

  // ---------------------------------------------------------------------------------------
  // Scheduling discipline
  // ---------------------------------------------------------------------------------------

  function After(running: set<nat>, a: Activity): set<nat> {
    match a
    case Start(i) => running + {i}
    case Finish(i) => running - {i}
    case _ => running
  }

  /** The calls in flight after the trace. */
  function Running(trace: seq<Activity>): set<nat> {
    if trace == [] then {} else After(Running(trace[..|trace| - 1]), trace[|trace| - 1])
  }

  /** A barrier call runs alone; otherwise only parallel calls run, at most eight of them. */
  ghost predicate Allowed<L, W, C>(h: Host<L, W, C>, items: seq<ExecItem>, running: set<nat>) {
    && (forall i :: i in running ==> i < |items| && items[i].Call?)
    && |running| <= PARALLEL_BOUND
    && (forall i, j :: i in running && j in running && IsBarrier(h, items[i]) ==> i == j)
  }

  ghost predicate Disciplined<L, W, C>(h: Host<L, W, C>, items: seq<ExecItem>, trace: seq<Activity>) {
    forall k :: 0 <= k <= |trace| ==> Allowed(h, items, Running(trace[..k]))
  }

  /** At no time do more than eight calls run, nor a write or exclusive call beside another one. */
  lemma DisciplineTold<L, W, C>(h: Host<L, W, C>, items: seq<ExecItem>, trace: seq<Activity>, k: nat)
    requires Disciplined(h, items, trace) && k <= |trace|
    ensures |Running(trace[..k])| <= 8
    ensures forall i :: i in Running(trace[..k]) ==> i < |items| && items[i].Call?
    ensures forall i, j :: i in Running(trace[..k]) && j in Running(trace[..k]) && i != j ==>
              h.lookup(items[i].call.name) == Some(Parallel)
  {
    assert Allowed(h, items, Running(trace[..k]));
  }

  lemma DisciplinedSnoc<L, W, C>(h: Host<L, W, C>, items: seq<ExecItem>, trace: seq<Activity>, a: Activity)
    requires Disciplined(h, items, trace)
    requires Allowed(h, items, After(Running(trace), a))
    ensures Disciplined(h, items, trace + [a])
    ensures Running(trace + [a]) == After(Running(trace), a)
  {
    hide Allowed;
    var t := trace + [a];
    assert t[..|trace|] == trace && t[..|t|] == t;
    forall k | 0 <= k <= |t|
      ensures Allowed(h, items, Running(t[..k]))
    {
      if k <= |trace| {
        assert t[..k] == trace[..k];
      }
    }
  }

  lemma FinishDisciplined<L, W, C>(h: Host<L, W, C>, items: seq<ExecItem>, trace: seq<Activity>, i: nat)
    requires Disciplined(h, items, trace) && i in Running(trace)
    ensures Disciplined(h, items, trace + [Finish(i)])
    ensures Running(trace + [Finish(i)]) == Running(trace) - {i}
  {
    assert trace[..|trace|] == trace;
    DisciplinedSnoc(h, items, trace, Finish(i));
  }

  /** Refusals and joins do not change what runs. */
  lemma IdleDisciplined<L, W, C>(h: Host<L, W, C>, items: seq<ExecItem>, trace: seq<Activity>, a: Activity)
    requires Disciplined(h, items, trace) && (a.Refused? || a.Join?)
    ensures Disciplined(h, items, trace + [a]) && Running(trace + [a]) == Running(trace)
  {
    assert trace[..|trace|] == trace;
    DisciplinedSnoc(h, items, trace, a);
  }

  // ---------------------------------------------------------------------------------------
  // What is recorded
  // ---------------------------------------------------------------------------------------

  /** The activity that settles a call. */
  ghost predicate Settles<L, W, C>(h: Host<L, W, C>, item: ExecItem, a: Activity) {
    a.Refused? || a.Join? || (a.Finish? && IsBarrier(h, item))
  }

  ghost predicate IsSettled<L, W, C>(h: Host<L, W, C>, items: seq<ExecItem>, i: nat, trace: seq<Activity>)
    requires i < |items|
  {
    || (exists a :: a in trace && a.index == i && Settles(h, items[i], a))
    || (IsBarrier(h, items[i]) && h.lookup(items[i].call.name).None?)
  }

  /** At every await: a call that was refused, joined or, run as a barrier, has finished is recorded,
      and no other call is, except those to unknown tools. */
  ghost predicate Accounted<L, W, C>(h: Host<L, W, C>, items: seq<ExecItem>, trace: seq<Activity>,
      results: seq<Option<Exec>>)
    requires |items| == |results|
  {
    && (forall a :: a in trace ==>
          && a.index < |items| && items[a.index].Call?
          && (Settles(h, items[a.index], a) ==> results[a.index].Some?))
    && (forall i :: 0 <= i < |items| && items[i].Call? && results[i].Some? ==> IsSettled(h, items, i, trace))
  }

  lemma AccountedRuns<L, W, C>(h: Host<L, W, C>, items: seq<ExecItem>, trace: seq<Activity>, trace': seq<Activity>,
      results: seq<Option<Exec>>)
    requires |items| == |results| && Accounted(h, items, trace, results) && trace <= trace'
    requires forall a :: a in trace' ==>
               a in trace || (a.index < |items| && items[a.index].Call? && !Settles(h, items[a.index], a))
    ensures Accounted(h, items, trace', results)
  {
    hide IsBarrier, Settles;
    assert forall a :: a in trace ==> a in trace';
  }

  lemma AccountedSettles<L, W, C>(h: Host<L, W, C>, items: seq<ExecItem>, trace: seq<Activity>, more: seq<Activity>,
      results: seq<Option<Exec>>, i: nat, exec: Exec)
    requires i < |items| == |results| && Accounted(h, items, trace, results) && items[i].Call?
    requires forall a :: a in more ==> a.index == i
    requires IsSettled(h, items, i, trace + more)
    ensures Accounted(h, items, trace + more, results[i := Some(exec)])
  {
    hide IsBarrier, Settles;
    forall k | 0 <= k < |items| && items[k].Call? && results[i := Some(exec)][k].Some?
      ensures IsSettled(h, items, k, trace + more)
    {
      if k != i {
        assert IsSettled(h, items, k, trace);
      }
    }
  }

  /** Every new activity belongs to one of the given calls. */
  ghost predicate ActsOn(before: seq<Activity>, after: seq<Activity>, calls: seq<nat>) {
    forall a :: a in after ==> a in before || a.index in calls
  }

  // ---------------------------------------------------------------------------------------
  // Concurrent tasks
  // ---------------------------------------------------------------------------------------

  datatype Task<L> = Live(local: L) | Finished(body: ToolResultBody)

  function LiveSet<L>(tasks: map<nat, Task<L>>): set<nat> {
    set i | i in tasks && tasks[i].Live?
  }

  /** Where a spawned call stands, compared with the same call running alone in world `w`. */
  ghost predicate OnTrack<L(!new), W(!new), C>(h: Host<L, W, C>, item: ExecItem, w: W, task: Task<L>)
    requires item.Call?
  {
    var l0 := h.begin(item.call, h.contextOf(w));
    match task
    case Live(l) => exists n: nat :: Steps(h, item.call.name, l0, w, n, l, w)
    case Finished(body) => exists n: nat :: RunsTo(h, item.call.name, l0, w, n, body, w)
  }

  ghost predicate TasksOnTrack<L(!new), W(!new), C>(h: Host<L, W, C>, items: seq<ExecItem>, w: W,
      tasks: map<nat, Task<L>>)
  {
    forall i :: i in tasks ==> i < |items| && IsParallel(h, items[i]) && OnTrack(h, items[i], w, tasks[i])
  }

  lemma StepOnTrack<L(!new), W(!new), C>(h: Host<L, W, C>, item: ExecItem, w: W, l: L)
    requires ParallelPure(h) && IsParallel(h, item) && OnTrack(h, item, w, Live(l))
    ensures h.done(l).Some? ==> OnTrack(h, item, w, Finished(h.done(l).value))
    ensures h.done(l).None? ==>
        h.next(item.call.name, l, w).1 == w && OnTrack(h, item, w, Live(h.next(item.call.name, l, w).0))
  {
    var name, l0 := item.call.name, h.begin(item.call, h.contextOf(w));
    var n: nat :| Steps(h, name, l0, w, n, l, w);
    if h.done(l).Some? {
      assert RunsTo(h, name, l0, w, n, h.done(l).value, w);
    } else {
      StepsSnoc(h, name, l0, w, n, l, w);
      assert h.next(name, l, w).1 == w;
    }
  }

  /** Any finite number of steps of any live tasks, in any order. */
  method Interleave<L(!new), W(!new), C>(h: Host<L, W, C>, items: seq<ExecItem>, tasks0: map<nat, Task<L>>, world0: W,
      trace0: seq<Activity>)
    returns (tasks: map<nat, Task<L>>, world: W, trace: seq<Activity>)
    requires forall i :: i in tasks0 ==> i < |items| && IsParallel(h, items[i])
    requires Disciplined(h, items, trace0) && Running(trace0) == LiveSet(tasks0)
    ensures tasks.Keys == tasks0.Keys
    ensures forall i :: i in tasks0 && tasks0[i].Finished? ==> tasks[i] == tasks0[i]
    ensures Disciplined(h, items, trace) && Running(trace) == LiveSet(tasks)
    ensures trace0 <= trace && forall a :: a in trace ==> a in trace0 || (a.Finish? && a.index in tasks0)
    ensures ParallelPure(h) && TasksOnTrack(h, items, world0, tasks0) ==>
              world == world0 && TasksOnTrack(h, items, world0, tasks)
  {
    hide Disciplined, OnTrack, Steps, IsParallel;
    tasks, world, trace := tasks0, world0, trace0;
    var steps :| 0 <= steps;
    for k := 0 to steps
      invariant tasks.Keys == tasks0.Keys
      invariant forall i :: i in tasks0 && tasks0[i].Finished? ==> tasks[i] == tasks0[i]
      invariant Disciplined(h, items, trace) && Running(trace) == LiveSet(tasks)
      invariant trace0 <= trace && forall a :: a in trace ==> a in trace0 || (a.Finish? && a.index in tasks0)
      invariant ParallelPure(h) && TasksOnTrack(h, items, world0, tasks0) ==>
                  world == world0 && TasksOnTrack(h, items, world0, tasks)
    {
      var live := LiveSet(tasks);
      if live != {} {
        var i :| i in live;
        var l := tasks[i].local;
        if ParallelPure(h) && TasksOnTrack(h, items, world0, tasks0) {
          StepOnTrack(h, items[i], world0, l);
        }
        var finished := h.done(l);
        if finished.Some? {
          FinishDisciplined(h, items, trace, i);
          tasks := tasks[i := Finished(finished.value)];
          trace := trace + [Finish(i)];
        } else {
          var (l', w') := h.next(items[i].call.name, l, world);
          tasks := tasks[i := Live(l')];
          world := w';
          assert LiveSet(tasks) == live;
        }
      }
    }
  }

  /** A parallel call that ran to its recorded result in world `w`, as it would have alone. */
  ghost predicate RanAlone<L(!new), W(!new), C>(h: Host<L, W, C>, item: ExecItem, w: W, exec: Exec)
    requires item.Call?
  {
    && exec.callId == item.call.id && exec.tool == item.call.name
    && exists n: nat, body :: RunsTo(h, item.call.name, h.begin(item.call, h.contextOf(w)), w, n, body, w)
                              && exec.body == Capped(body, h.hardResultCap)
  }

  /** Nothing recorded is replaced and nothing announced is taken back. */
  ghost predicate Extends<W>(st0: State<W>, st: State<W>) {
    && |st.results| == |st0.results|
    && (forall i :: 0 <= i < |st0.results| && st0.results[i].Some? ==> st.results[i] == st0.results[i])
    && st0.events <= st.events
  }

  ghost predicate Quiet<L, W, C>(h: Host<L, W, C>, items: seq<ExecItem>, st: State<W>) {
    Disciplined(h, items, st.trace) && Running(st.trace) == {}
  }

  ghost predicate IsPhase<L, W, C>(h: Host<L, W, C>, items: seq<ExecItem>, phase: seq<nat>, st: State<W>) {
    && |st.results| == |items|
    && (forall k :: 0 <= k < |phase| ==>
        phase[k] < |items| && IsParallel(h, items[phase[k]]) && st.results[phase[k]].None?)
    && (forall j, k :: 0 <= j < k < |phase| ==> phase[j] != phase[k])
  }

  /** The spawned calls of a phase agree with the trace and, for pure tools, with running alone. */
  ghost predicate Tracking<L(!new), W(!new), C>(h: Host<L, W, C>, items: seq<ExecItem>, phase: seq<nat>, w: W,
      tasks: map<nat, Task<L>>, st: State<W>) {
    && (forall i :: i in tasks <==> i in phase)
    && (forall i :: i in tasks ==> i < |items| && IsParallel(h, items[i]))
    && Disciplined(h, items, st.trace) && Running(st.trace) == LiveSet(tasks)
    && (ParallelPure(h) ==> st.world == w && TasksOnTrack(h, items, w, tasks))
  }

  lemma AddOnTrack<L(!new), W(!new), C>(h: Host<L, W, C>, items: seq<ExecItem>, w: W, tasks: map<nat, Task<L>>, i: nat,
      task: Task<L>)
    requires TasksOnTrack(h, items, w, tasks)
    requires i < |items| && IsParallel(h, items[i]) && OnTrack(h, items[i], w, task)
    ensures TasksOnTrack(h, items, w, tasks[i := task])
  {
  }

  lemma AddLive<L>(tasks: map<nat, Task<L>>, i: nat, l: L)
    requires i !in tasks
    ensures LiveSet(tasks[i := Live(l)]) == LiveSet(tasks) + {i}
  {
  }

  lemma SpawnKeepsTracking<L(!new), W(!new), C>(h: Host<L, W, C>, items: seq<ExecItem>, phase: seq<nat>, k: nat, w: W,
      tasks: map<nat, Task<L>>, st: State<W>)
    requires IsPhase(h, items, phase, st) && k < |phase|
    requires Tracking(h, items, phase[..k], w, tasks, st) && |LiveSet(tasks)| < PARALLEL_BOUND
    ensures var i := phase[k];
            Tracking(h, items, phase[..k + 1], w, tasks[i := Live(h.begin(items[i].call, h.contextOf(w)))],
                     st.(trace := st.trace + [Start(i)]))
  {
    hide Disciplined, OnTrack, TasksOnTrack, ParallelPure, Allowed, IsParallel, Running, LiveSet, After;
    var i := phase[k];
    var task := Live(h.begin(items[i].call, h.contextOf(w)));
    assert phase[..k + 1] == phase[..k] + [i];
    assert i !in tasks;
    SpawnAllowed(h, items, tasks, st.trace, i);
    DisciplinedSnoc(h, items, st.trace, Start(i));
    AddLive(tasks, i, task.local);
    AfterStart(Running(st.trace), i);
    if ParallelPure(h) {
      SpawnOnTrack(h, items[i], w);
      AddOnTrack(h, items, w, tasks, i, task);
    }
  }

  lemma AfterStart(running: set<nat>, i: nat)
    ensures After(running, Start(i)) == running + {i}
  {
  }

  lemma ParallelNeverSettles<L, W, C>(h: Host<L, W, C>)
    ensures forall item: ExecItem, a: Activity ::
              IsParallel(h, item) && (a.Start? || a.Finish?) ==> !Settles(h, item, a)
  {
  }

  /** Let the tasks of a phase run for a while. */
  method Advance<L(!new), W(!new), C>(h: Host<L, W, C>, items: seq<ExecItem>, phase: seq<nat>, ghost w: W,
      tasks0: map<nat, Task<L>>, st0: State<W>)
    returns (tasks: map<nat, Task<L>>, st: State<W>)
    requires Tracking(h, items, phase, w, tasks0, st0)
    requires |st0.results| == |items| && Accounted(h, items, st0.trace, st0.results)
    ensures Tracking(h, items, phase, w, tasks, st)
    ensures st == st0.(world := st.world, trace := st.trace) && ActsOn(st0.trace, st.trace, phase)
    ensures Accounted(h, items, st.trace, st.results)
    ensures forall i :: i in tasks0 && tasks0[i].Finished? ==> i in tasks && tasks[i] == tasks0[i]
  {
    hide Disciplined, TasksOnTrack, IsParallel, ParallelPure, Running, LiveSet;
    var world, trace;
    tasks, world, trace := Interleave(h, items, tasks0, st0.world, st0.trace);
    ParallelNeverSettles(h);
    AccountedRuns(h, items, st0.trace, trace, st0.results);
    st := st0.(world := world, trace := trace);
  }

  /** Start the allowed calls of a phase, each as soon as one of the eight permits is free. */
  method SpawnPhase<L(!new), W(!new), C>(h: Host<L, W, C>, items: seq<ExecItem>, phase: seq<nat>, st0: State<W>)
    returns (tasks: map<nat, Task<L>>, st: State<W>, dropped: bool)
    requires IsPhase(h, items, phase, st0) && Quiet(h, items, st0) && Accounted(h, items, st0.trace, st0.results)
    ensures st == st0.(world := st.world, trace := st.trace) && ActsOn(st0.trace, st.trace, phase)
    ensures Disciplined(h, items, st.trace) && Accounted(h, items, st.trace, st.results)
    ensures ParallelPure(h) ==> st.world == st0.world
    ensures if dropped then phase != [] else Tracking(h, items, phase, st0.world, tasks, st)
  {
    hide Disciplined, IsParallel, ParallelPure, Running, Accounted;
    var ctx := h.contextOf(st0.world);
    tasks, st, dropped := map[], st0, true;
    NoTasksOnTrack(h, items, st0.world, tasks);
    hide TasksOnTrack;
    for k := 0 to |phase|
      invariant st == st0.(world := st.world, trace := st.trace) && ActsOn(st0.trace, st.trace, phase)
      invariant Tracking(h, items, phase[..k], st0.world, tasks, st) && Accounted(h, items, st.trace, st.results)
    {
      tasks, st := Advance(h, items, phase[..k], st0.world, tasks, st);
      var drop: bool := *;
      if drop || |LiveSet(tasks)| >= PARALLEL_BOUND {
        return;
      }
      var i := phase[k];
      SpawnKeepsTracking(h, items, phase, k, st0.world, tasks, st);
      ParallelNeverSettles(h);
      AccountedRuns(h, items, st.trace, st.trace + [Start(i)], st.results);
      tasks := tasks[i := Live(h.begin(items[i].call, ctx))];
      st := st.(trace := st.trace + [Start(i)]);
    }
    assert phase[..|phase|] == phase;
    dropped := false;
  }

  lemma NoTasksOnTrack<L(!new), W(!new), C>(h: Host<L, W, C>, items: seq<ExecItem>, w: W, tasks: map<nat, Task<L>>)
    requires tasks == map[]
    ensures TasksOnTrack(h, items, w, tasks)
  {
  }

  lemma SpawnOnTrack<L(!new), W(!new), C>(h: Host<L, W, C>, item: ExecItem, w: W)
    requires item.Call?
    ensures OnTrack(h, item, w, Live(h.begin(item.call, h.contextOf(w))))
  {
    var l0 := h.begin(item.call, h.contextOf(w));
    assert Steps(h, item.call.name, l0, w, 0, l0, w);
  }

  lemma SpawnAllowed<L, W, C>(h: Host<L, W, C>, items: seq<ExecItem>, tasks: map<nat, Task<L>>, trace: seq<Activity>,
      i: nat)
    requires Running(trace) == LiveSet(tasks) && |LiveSet(tasks)| < PARALLEL_BOUND
    requires forall k :: k in tasks ==> k < |items| && IsParallel(h, items[k])
    requires i < |items| && IsParallel(h, items[i])
    ensures Allowed(h, items, After(Running(trace), Start(i)))
  {
  }

  lemma FinishedRanAlone<L(!new), W(!new), C>(h: Host<L, W, C>, items: seq<ExecItem>, w: W, tasks: map<nat, Task<L>>,
      i: nat)
    requires TasksOnTrack(h, items, w, tasks) && i in tasks && tasks[i].Finished?
    ensures RanAlone(h, items[i], w, Exec(items[i].call.id, items[i].call.name, Capped(tasks[i].body, h.hardResultCap)))
  {
  }

  /** The first `k` calls of the phase are announced and recorded; nothing else changed. */
  ghost predicate Joined<L(!new), W(!new), C>(h: Host<L, W, C>, items: seq<ExecItem>, phase: seq<nat>, w: W,
      st0: State<W>, st: State<W>, k: nat)
    requires k <= |phase|
  {
    && Consistent(items, st) && Extends(st0, st) && |st0.results| == |items|
    && st.grants == st0.grants && st.asks == st0.asks
    && (forall i :: 0 <= i < |items| ==> (st.results[i].Some? <==> st0.results[i].Some? || i in phase[..k]))
    && (h.hardResultCap > 0 ==> forall i :: i in phase[..k] ==>
          i < |items| && st.results[i].Some? && FitsCap(st.results[i].value.body, h.hardResultCap))
    && (ParallelPure(h) ==> forall i :: i in phase[..k] ==>
          i < |items| && items[i].Call? && st.results[i].Some? && RanAlone(h, items[i], w, st.results[i].value))
  }

  lemma JoinOne<L(!new), W(!new), C>(h: Host<L, W, C>, items: seq<ExecItem>, phase: seq<nat>, w: W,
      st0: State<W>, st: State<W>, k: nat, exec: Exec)
    requires IsPhase(h, items, phase, st0) && k < |phase|
    requires Joined(h, items, phase, w, st0, st, k)
    requires Belongs(items, phase[k], exec) && (ParallelPure(h) ==> RanAlone(h, items[phase[k]], w, exec))
    requires h.hardResultCap > 0 ==> FitsCap(exec.body, h.hardResultCap)
    ensures phase[k] < |st.results| == |st.checkpoint.results| && st.results[phase[k]].None?
    ensures Joined(h, items, phase, w, st0, Publish(st, phase[k], exec), k + 1)
  {
    hide AnnouncedOnce, AnnouncedAsRecorded, ParallelPure, RanAlone, Belongs, FitsCap;
    var i := phase[k];
    assert phase[..k + 1] == phase[..k] + [i];
    assert i !in phase[..k];
    PublishConsistent(items, st, i, exec);
  }

  lemma JoinedIgnoresWorld<L(!new), W(!new), C>(h: Host<L, W, C>, items: seq<ExecItem>, phase: seq<nat>, w: W,
      st0: State<W>, st: State<W>, st': State<W>, k: nat)
    requires k <= |phase| && Joined(h, items, phase, w, st0, st, k)
    requires st' == st.(world := st'.world, trace := st'.trace)
    ensures Joined(h, items, phase, w, st0, st', k)
  {
  }

  lemma JoinedAtStart<L(!new), W(!new), C>(h: Host<L, W, C>, items: seq<ExecItem>, phase: seq<nat>, w: W, st0: State<W>)
    requires Consistent(items, st0)
    ensures Joined(h, items, phase, w, st0, st0, 0)
  {
  }

  lemma JoinNext<L(!new), W(!new), C>(h: Host<L, W, C>, items: seq<ExecItem>, phase: seq<nat>, w: W,
      tasks: map<nat, Task<L>>, st0: State<W>, st: State<W>, k: nat, exec: Exec)
    requires IsPhase(h, items, phase, st0) && k < |phase|
    requires Joined(h, items, phase, w, st0, st, k) && Tracking(h, items, phase, w, tasks, st)
    requires |st.results| == |items| && Accounted(h, items, st.trace, st.results)
    requires phase[k] in tasks && tasks[phase[k]].Finished?
    requires exec == Exec(items[phase[k]].call.id, items[phase[k]].call.name,
                          Capped(tasks[phase[k]].body, h.hardResultCap))
    ensures phase[k] < |st.results| == |st.checkpoint.results|
    ensures var st' := Publish(st.(trace := st.trace + [Join(phase[k])]), phase[k], exec);
            && Joined(h, items, phase, w, st0, st', k + 1) && Tracking(h, items, phase, w, tasks, st')
            && |st'.results| == |items| && Accounted(h, items, st'.trace, st'.results)
  {
    hide Disciplined, TasksOnTrack, IsParallel, Joined, RanAlone, ParallelPure, Running, Accounted;
    var i := phase[k];
    if ParallelPure(h) {
      FinishedRanAlone(h, items, w, tasks, i);
    }
    CappedIsCut(tasks[i].body, h.hardResultCap);
    JoinOne(h, items, phase, w, st0, st, k, exec);
    IdleDisciplined(h, items, st.trace, Join(i));
    JoinSettles(h, items, st.trace, st.results, i, exec);
    JoinedIgnoresWorld(h, items, phase, w, st0, Publish(st, i, exec),
                       Publish(st.(trace := st.trace + [Join(i)]), i, exec), k + 1);
  }

  lemma TrackingFacts<L(!new), W(!new), C>(h: Host<L, W, C>, items: seq<ExecItem>, phase: seq<nat>, w: W,
      tasks: map<nat, Task<L>>, st: State<W>)
    requires Tracking(h, items, phase, w, tasks, st)
    ensures Disciplined(h, items, st.trace) && (ParallelPure(h) ==> st.world == w)
    ensures forall k :: 0 <= k < |phase| ==>
              phase[k] in tasks && phase[k] < |items| && IsParallel(h, items[phase[k]]) && items[phase[k]].Call?
  {
    hide IsParallel, Disciplined, Running, LiveSet, TasksOnTrack, ParallelPure;
    forall k | 0 <= k < |phase|
      ensures phase[k] in tasks && phase[k] < |items| && IsParallel(h, items[phase[k]]) && items[phase[k]].Call?
    {
      assert phase[k] in phase;
    }
  }

  lemma AllJoined<L(!new), W(!new), C>(h: Host<L, W, C>, items: seq<ExecItem>, phase: seq<nat>, w: W,
      tasks: map<nat, Task<L>>, st: State<W>)
    requires Tracking(h, items, phase, w, tasks, st)
    requires forall j :: 0 <= j < |phase| ==> phase[j] in tasks && tasks[phase[j]].Finished?
    ensures Quiet(h, items, st)
  {
    assert LiveSet(tasks) == {};
  }

  /** Join the tasks in call order, announcing and recording each result. */
  method JoinPhase<L(!new), W(!new), C>(h: Host<L, W, C>, items: seq<ExecItem>, phase: seq<nat>,
      tasks0: map<nat, Task<L>>, st0: State<W>, ghost w: W)
    returns (st: State<W>, dropped: bool, ghost joined: nat)
    requires IsPhase(h, items, phase, st0) && Consistent(items, st0)
    requires Tracking(h, items, phase, w, tasks0, st0) && Accounted(h, items, st0.trace, st0.results)
    ensures Disciplined(h, items, st.trace) && ActsOn(st0.trace, st.trace, phase)
    ensures |st.results| == |items| && Accounted(h, items, st.trace, st.results)
    ensures joined <= |phase| && Joined(h, items, phase, w, st0, st, joined) && (dropped <==> joined < |phase|)
    ensures !dropped ==> Quiet(h, items, st)
    ensures ParallelPure(h) ==> st.world == w
  {
    hide Disciplined, TasksOnTrack, IsParallel, Joined, RanAlone, ParallelPure, Running, Consistent, Accounted,
        Tracking, Quiet, LiveSet, TruncateBody;
    var tasks := tasks0;
    st, dropped, joined := st0, true, 0;
    JoinedAtStart(h, items, phase, w, st0);
    TrackingFacts(h, items, phase, w, tasks, st0);
    for k := 0 to |phase|
      invariant Joined(h, items, phase, w, st0, st, k) && joined == k
      invariant Tracking(h, items, phase, w, tasks, st) && ActsOn(st0.trace, st.trace, phase)
      invariant |st.results| == |items| && Accounted(h, items, st.trace, st.results)
      invariant forall j :: 0 <= j < k ==> phase[j] in tasks && tasks[phase[j]].Finished?
    {
      var i := phase[k];
      ghost var before := st;
      TrackingFacts(h, items, phase, w, tasks, st);
      tasks, st := Advance(h, items, phase, w, tasks, st);
      TrackingFacts(h, items, phase, w, tasks, st);
      JoinedIgnoresWorld(h, items, phase, w, st0, before, st, k);
      var drop: bool := *;
      if drop || tasks[i].Live? {
        return;
      }
      var exec := Exec(items[i].call.id, items[i].call.name, Capped(tasks[i].body, h.hardResultCap));
      JoinNext(h, items, phase, w, tasks, st0, st, k, exec);
      st := Publish(st.(trace := st.trace + [Join(i)]), i, exec);
      joined := k + 1;
    }
    TrackingFacts(h, items, phase, w, tasks, st);
    AllJoined(h, items, phase, w, tasks, st);
    dropped := false;
  }

  lemma JoinSettles<L, W, C>(h: Host<L, W, C>, items: seq<ExecItem>, trace: seq<Activity>, results: seq<Option<Exec>>,
      i: nat, exec: Exec)
    requires i < |items| == |results| && Accounted(h, items, trace, results) && items[i].Call?
    ensures Accounted(h, items, trace + [Join(i)], results[i := Some(exec)])
  {
    hide Accounted;
    assert (trace + [Join(i)])[|trace|] == Join(i);
    assert Join(i) in trace + [Join(i)] && Settles(h, items[i], Join(i));
    AccountedSettles(h, items, trace, [Join(i)], results, i, exec);
  }

  // ---------------------------------------------------------------------------------------
  // Phases
  // ---------------------------------------------------------------------------------------

  /** The permission check and, if it asks, the prompt; a drop can only come while the prompt is
      open, and leaves no grant behind. */
  method AuthorizeCall<L, W, C>(h: Host<L, W, C>, i: nat, call: ToolCall, ctx: C, st0: State<W>)
    returns (denied: Option<ToolResultBody>, st: State<W>, dropped: bool)
    ensures st == st0.(grants := st.grants, asks := st.asks, trace := st.trace)
    ensures !dropped ==>
              && (denied, st.grants, st.asks) == Authorize(h, call, ctx, st0.grants, st0.asks)
              && st.trace == if denied.Some? then st0.trace + [Refused(i)] else st0.trace
    ensures dropped ==> st == st0 && h.check(call, ctx, st0.grants).Ask?
  {
    denied, st, dropped := None, st0, false;
    match h.check(call, ctx, st0.grants) {
      case Allow =>
      case Deny(reason) => denied := Some(Denied(reason));
      case Ask(reason) =>
        dropped := *;
        if dropped {
          return;
        }
        st := st.(asks := st.asks + 1);
        match h.ask(st0.asks, call, reason) {
          case Once =>
          case ForSession(rule) => st := st.(grants := st.grants + [rule]);
          case Always(rule) => st := st.(grants := st.grants + [rule]);
          case Refuse(why) => denied := Some(Denied(why));
        }
    }
    if denied.Some? {
      st := st.(trace := st.trace + [Refused(i)]);
    }
  }

  function CarryOf<W>(st: State<W>): Carry<W> {
    Carry(st.world, st.grants, st.asks)
  }

  ghost predicate Denies<L, W, C>(h: Host<L, W, C>, item: ExecItem, c: Carry<W>) {
    item.Call? && Authorize(h, item.call, h.contextOf(c.world), c.grants, c.asks).0.Some?
  }

  /** The permission check leaves the call to the user. */
  ghost predicate Asks<L, W, C>(h: Host<L, W, C>, item: ExecItem, c: Carry<W>) {
    item.Call? && h.check(item.call, h.contextOf(c.world), c.grants).Ask?
  }

  /** Slots `[p, i)` of a phase have been authorised in order: `carries` follows the grants, the
      refused ones are recorded as the reference has them, the others wait in `allowed`. */
  ghost predicate PhaseAuthorized<L(!new), W(!new), C>(h: Host<L, W, C>, items: seq<ExecItem>, p: nat, i: nat,
      carries: seq<Carry<W>>, allowed: seq<nat>, results: seq<Option<Exec>>)
    requires p <= i <= |items| == |results|
  {
    && |carries| == i - p + 1
    && (forall k :: p <= k < i ==>
          carries[k - p + 1] == Authorized(h, items[k], h.contextOf(carries[0].world), carries[k - p]))
    && (forall k :: 0 <= k < |allowed| ==> p <= allowed[k] < i)
    && (forall j, k :: 0 <= j < k < |allowed| ==> allowed[j] < allowed[k])
    && (forall k :: p <= k < i ==>
        SlotAuthorized(h, items[k], carries[k - p], carries[k - p + 1], results[k], k in allowed))
  }

  ghost predicate SlotAuthorized<L(!new), W(!new), C>(h: Host<L, W, C>, item: ExecItem, c: Carry<W>, c': Carry<W>,
      result: Option<Exec>, allowed: bool)
  {
    && (item.ParseError? || IsParallel(h, item))
    && (allowed <==> item.Call? && !Denies(h, item, c))
    && (if allowed then result.None? else result.Some? && RunsItem(h, item, c, result.value, c'))
  }

  /** A stretch of parallel calls and parse errors, the latter already recorded. */
  ghost predicate IsStretch<L, W, C>(h: Host<L, W, C>, items: seq<ExecItem>, p: nat, c: nat, results: seq<Option<Exec>>)
    requires c <= |items| == |results|
  {
    forall k :: p <= k < c ==>
      if items[k].ParseError? then results[k] == Some(ParseErrorExec(items[k]))
      else IsParallel(h, items[k]) && results[k].None?
  }

  lemma CarriesKeepWorld<L(!new), W(!new), C>(h: Host<L, W, C>, items: seq<ExecItem>, p: nat, i: nat, k: nat,
      carries: seq<Carry<W>>, allowed: seq<nat>, results: seq<Option<Exec>>)
    requires p <= i <= |items| == |results| && p <= k <= i
    requires PhaseAuthorized(h, items, p, i, carries, allowed, results)
    ensures carries[k - p].world == carries[0].world
    decreases k
  {
    if k > p {
      CarriesKeepWorld(h, items, p, i, k - 1, carries, allowed, results);
      assert carries[k - 1 - p + 1] == Authorized(h, items[k - 1], h.contextOf(carries[0].world), carries[k - 1 - p]);
    }
  }

  ghost predicate OnlyChanged(p: nat, i: nat, before: seq<Option<Exec>>, after: seq<Option<Exec>>) {
    |after| == |before| && forall k :: 0 <= k < |before| && !(p <= k < i) ==> after[k] == before[k]
  }

  lemma AuthorizeOne<L(!new), W(!new), C>(h: Host<L, W, C>, items: seq<ExecItem>, p: nat, i: nat,
      carries: seq<Carry<W>>, allowed: seq<nat>, results: seq<Option<Exec>>, next: Carry<W>, result: Option<Exec>,
          run: bool)
    requires p <= i < |items| == |results|
    requires PhaseAuthorized(h, items, p, i, carries, allowed, results)
    requires next == Authorized(h, items[i], h.contextOf(carries[0].world), carries[i - p])
    requires SlotAuthorized(h, items[i], carries[i - p], next, result, run)
    ensures PhaseAuthorized(h, items, p, i + 1, carries + [next], if run then allowed + [i] else allowed,
        results[i := result])
  {
    hide SlotAuthorized, Authorized;
    var carries', allowed', results' := carries + [next], if run then allowed + [i] else allowed, results[i := result];
    assert carries'[..i - p + 1] == carries;
    assert i !in allowed;
    forall k | p <= k < i + 1
      ensures SlotAuthorized(h, items[k], carries'[k - p], carries'[k - p + 1], results'[k], k in allowed')
    {
      if k < i {
        assert k in allowed' <==> k in allowed;
      } else {
        assert i in allowed' <==> run;
      }
    }
  }

  /** Authorise one slot; a refusal is announced and recorded at once. */
  method AuthorizeSlot<L(!new), W(!new), C>(h: Host<L, W, C>, items: seq<ExecItem>, i: nat, st0: State<W>)
    returns (st: State<W>, run: bool, dropped: bool)
    requires i < |items| && Consistent(items, st0) && |st0.results| == |items|
        && IsStretch(h, items, i, i + 1, st0.results)
    requires Quiet(h, items, st0) && Accounted(h, items, st0.trace, st0.results)
    ensures Consistent(items, st) && Extends(st0, st) && Quiet(h, items, st)
    ensures st.world == st0.world && forall a :: a in st.trace ==> a in st0.trace || a == Refused(i)
    ensures |st.results| == |items| && st.results == st0.results[i := st.results[i]]
    ensures Accounted(h, items, st.trace, st.results) && (items[i].ParseError? ==> st == st0)
    ensures dropped ==> st == st0 && IsParallel(h, items[i]) && Asks(h, items[i], CarryOf(st0))
    ensures !dropped ==>
              && CarryOf(st) == Authorized(h, items[i], h.contextOf(st0.world), CarryOf(st0))
              && SlotAuthorized(h, items[i], CarryOf(st0), CarryOf(st), st.results[i], run)
  {
    hide RunsItem, CheckpointSound, Authorized, SlotAuthorized, IsParallel, Accounted, Disciplined, Running;
    st, run, dropped := st0, false, false;
    match items[i] {
      case ParseError(_, _, _) =>
        ParseErrorSlot(h, items[i], CarryOf(st0), st.results[i]);
        assert Authorized(h, items[i], h.contextOf(st0.world), CarryOf(st0)) == CarryOf(st0);
      case Call(call) =>
        assert IsParallel(h, items[i]) && st0.results[i].None?;
        CallSlot(h, items[i], CarryOf(st0));
        var denied;
        denied, st, dropped := AuthorizeCall(h, i, call, h.contextOf(st0.world), st0);
        if dropped {
          return;
        }
        run := denied.None?;
        if denied.Some? {
          var exec := Exec(call.id, call.name, denied.value);
          ConsistentLength(items, st);
          PublishConsistent(items, st, i, exec);
          RefusalSettles(h, items, st0.trace, st.results, i, exec);
          st := Publish(st, i, exec);
        }
    }
  }

  lemma RefusalSettles<L, W, C>(h: Host<L, W, C>, items: seq<ExecItem>, trace: seq<Activity>,
      results: seq<Option<Exec>>, i: nat, exec: Exec)
    requires i < |items| == |results| && Accounted(h, items, trace, results) && items[i].Call?
    requires Disciplined(h, items, trace) && Running(trace) == {}
    ensures Accounted(h, items, trace + [Refused(i)], results[i := Some(exec)])
    ensures Disciplined(h, items, trace + [Refused(i)]) && Running(trace + [Refused(i)]) == {}
  {
    hide Accounted, Disciplined, Running;
    IdleDisciplined(h, items, trace, Refused(i));
    assert (trace + [Refused(i)])[|trace|] == Refused(i);
    assert Refused(i) in trace + [Refused(i)] && Settles(h, items[i], Refused(i));
    AccountedSettles(h, items, trace, [Refused(i)], results, i, exec);
  }

  /** Authorise the slots of a phase one after the other. */
  method AuthorizePhase<L(!new), W(!new), C>(h: Host<L, W, C>, items: seq<ExecItem>, p: nat, c: nat, st0: State<W>)
    returns (st: State<W>, allowed: seq<nat>, ghost carries: seq<Carry<W>>, dropped: bool)
    requires p <= c <= |items| && Consistent(items, st0) && |st0.results| == |items|
        && IsStretch(h, items, p, c, st0.results)
    requires Quiet(h, items, st0) && Accounted(h, items, st0.trace, st0.results)
    ensures Consistent(items, st) && Extends(st0, st) && Quiet(h, items, st) && st.world == st0.world
    ensures 0 < |carries| <= c - p + 1
    ensures var i := p + |carries| - 1;
            && |st.results| == |items| && OnlyChanged(p, i, st0.results, st.results)
            && Accounted(h, items, st.trace, st.results)
            && PhaseAuthorized(h, items, p, i, carries, allowed, st.results)
            && (forall a :: a in st.trace ==> a in st0.trace || (a.Refused? && p <= a.index < i))
            && (if dropped then i < c && IsParallel(h, items[i]) && Asks(h, items[i], CarryOf(st)) else i == c)
    ensures carries[0] == CarryOf(st0) && carries[|carries| - 1] == CarryOf(st)
  {
    hide RunsItem, IsParallel, Consistent, Authorized, SlotAuthorized, PhaseAuthorized, Accounted, Quiet, Asks;
    st, allowed, dropped := st0, [], false;
    carries := [CarryOf(st0)];
    NothingAuthorized(h, items, p, carries, st0.results);
    for i := p to c
      invariant Consistent(items, st) && Extends(st0, st) && Quiet(h, items, st) && st.world == st0.world
      invariant |st.results| == |items| && OnlyChanged(p, i, st0.results, st.results)
      invariant Accounted(h, items, st.trace, st.results)
      invariant forall a :: a in st.trace ==> a in st0.trace || (a.Refused? && p <= a.index < i)
      invariant |carries| == i - p + 1 && PhaseAuthorized(h, items, p, i, carries, allowed, st.results)
      invariant carries[0] == CarryOf(st0) && carries[i - p] == CarryOf(st)
    {
      ghost var before := st;
      var run;
      st, run, dropped := AuthorizeSlot(h, items, i, st);
      ExtendsTransitive(st0, before, st);
      if dropped {
        return;
      }
      AuthorizeOne(h, items, p, i, carries, allowed, before.results, CarryOf(st), st.results[i], run);
      carries := carries + [CarryOf(st)];
      allowed := if run then allowed + [i] else allowed;
    }
  }

  lemma NothingAuthorized<L(!new), W(!new), C>(h: Host<L, W, C>, items: seq<ExecItem>, p: nat, carries: seq<Carry<W>>,
      results: seq<Option<Exec>>)
    requires p <= |items| == |results| && |carries| == 1
    ensures PhaseAuthorized(h, items, p, p, carries, [], results)
  {
  }

  lemma ConsistentLength<W>(items: seq<ExecItem>, st: State<W>)
    requires Consistent(items, st)
    ensures |st.results| == |items| && |st.checkpoint.results| == |items|
  {
  }

  lemma ParseErrorSlot<L(!new), W(!new), C>(h: Host<L, W, C>, item: ExecItem, c: Carry<W>, result: Option<Exec>)
    requires item.ParseError? && result == Some(ParseErrorExec(item))
    ensures forall ctx :: Authorized(h, item, ctx, c) == c
    ensures SlotAuthorized(h, item, c, c, result, false)
  {
  }

  lemma CallSlot<L(!new), W(!new), C>(h: Host<L, W, C>, item: ExecItem, c: Carry<W>)
    requires IsParallel(h, item)
    ensures var r := Authorize(h, item.call, h.contextOf(c.world), c.grants, c.asks);
            var c' := Authorized(h, item, h.contextOf(c.world), c);
            && c' == Carry(c.world, r.1, r.2)
            && (r.0.Some? ==>
                SlotAuthorized(h, item, c, c', Some(Exec(item.call.id, item.call.name, r.0.value)), false))
            && (r.0.None? ==> SlotAuthorized(h, item, c, c', None, true))
            && Belongs([item], 0, Exec(item.call.id, item.call.name, Interrupted))
  {
  }

  function Execs(results: seq<Option<Exec>>, n: nat): (r: seq<Exec>)
    requires n <= |results| && forall i :: 0 <= i < n ==> results[i].Some?
    ensures |r| == n
    ensures forall i :: 0 <= i < n ==> r[i] == results[i].value
  {
    seq(n, i requires 0 <= i < n => results[i].value)
  }

  /** All slots of `[p, c)` are recorded and each result is the reference's. */
  ghost predicate PhaseRun<L(!new), W(!new), C>(h: Host<L, W, C>, items: seq<ExecItem>, p: nat, c: nat,
      carries: seq<Carry<W>>, results: seq<Option<Exec>>)
    requires p <= c <= |items| == |results|
  {
    && |carries| == c - p + 1
    && forall k :: p <= k < c ==>
        results[k].Some? && RunsItem(h, items[k], carries[k - p], results[k].value, carries[k - p + 1])
  }

  lemma {:induction false} PhaseInOrder<L(!new), W(!new), C>(h: Host<L, W, C>, items: seq<ExecItem>, p: nat, c: nat,
      i: nat,
      carries: seq<Carry<W>>, results: seq<Option<Exec>>, start: Carry<W>)
    requires p <= i <= c <= |items| == |results|
    requires forall k :: 0 <= k < c ==> results[k].Some?
    requires PhaseRun(h, items, p, c, carries, results)
    requires RunsInOrder(h, items[..p], start, Execs(results, p), carries[0])
    ensures RunsInOrder(h, items[..i], start, Execs(results, i), carries[i - p])
    decreases i
  {
    hide RunsItem;
    if i > p {
      PhaseInOrder(h, items, p, c, i - 1, carries, results, start);
      assert Execs(results, i)[..i - 1] == Execs(results, i - 1);
      assert RunsItem(h, items[i - 1], carries[i - 1 - p], results[i - 1].value, carries[i - 1 - p + 1]);
      InOrderSnoc(h, items, i - 1, start, Execs(results, i), carries[i - 1 - p], carries[i - p]);
    }
  }

  lemma AllowedRuns<L(!new), W(!new), C>(h: Host<L, W, C>, item: ExecItem, c: Carry<W>, exec: Exec)
    requires IsParallel(h, item) && !Denies(h, item, c) && RanAlone(h, item, c.world, exec)
    ensures RunsItem(h, item, c, exec, Authorized(h, item, h.contextOf(c.world), c))
  {
  }

  // ---------------------------------------------------------------------------------------
  // Where a batch can be dropped
  // ---------------------------------------------------------------------------------------

  /** The await at which a batch is dropped: the prompt for the first call not yet authorised; the
      join of `next`, or the permit for it, in a stretch that has been authorised as a whole; or
      the barrier call that is running. The calls before `p` are settled, and `carries` is what was
      carried before and after each slot authorised since. */
  datatype Drop<W> =
    | AtPrompt(p: nat, carries: seq<Carry<W>>)
    | InPhase(p: nat, carries: seq<Carry<W>>, next: nat)
    | InBarrier(p: nat, carries: seq<Carry<W>>)

  /** The slots authorised since `p`: those refused and those joined, which come before `joined`,
      are recorded, the other ones are not. What was refused is recorded as the reference has it,
      and for pure tools everything recorded is. */
  ghost predicate PhaseSlots<L(!new), W(!new), C>(h: Host<L, W, C>, items: seq<ExecItem>, p: nat, joined: nat,
      carries: seq<Carry<W>>, results: seq<Option<Exec>>)
    requires 0 < |carries| && p + |carries| - 1 <= |items| == |results|
  {
    forall k :: p <= k < p + |carries| - 1 ==>
      SlotStands(h, items[k], h.contextOf(carries[0].world), carries[k - p], carries[k - p + 1], results[k], k < joined)
  }

  ghost predicate SlotStands<L(!new), W(!new), C>(h: Host<L, W, C>, item: ExecItem, ctx: C, c: Carry<W>, c': Carry<W>,
      result: Option<Exec>, joined: bool)
  {
    && c' == Authorized(h, item, ctx, c)
    && (item.ParseError? || IsParallel(h, item))
    && (result.Some? <==> joined || item.ParseError? || Denies(h, item, c))
    && (result.Some? ==> result.value.callId == IdOf(item) && result.value.tool == NameOf(item))
    && (result.Some? && item.Call? && !Denies(h, item, c) && h.hardResultCap > 0 ==>
          FitsCap(result.value.body, h.hardResultCap))
    && (result.Some? && (ParallelPure(h) || item.ParseError? || Denies(h, item, c)) ==>
          RunsItem(h, item, c, result.value, c'))
  }

  /** The executor's state at the await of the drop. At a prompt nothing of the phase has run and no
      grant has come of the question; in a phase the grants and questions are those of authorising
      every slot, and pure reads have left the world alone; a barrier call was let through, and the
      world is the one before it plus the steps it has taken. */
  ghost predicate StoppedAt<L(!new), W(!new), C>(h: Host<L, W, C>, items: seq<ExecItem>, at: Drop<W>, st: State<W>)
    requires 0 < |at.carries| && at.p + |at.carries| - 1 <= |items| == |st.results|
  {
    var q, last := at.p + |at.carries| - 1, at.carries[|at.carries| - 1];
    match at
    case AtPrompt(p, _) =>
      && q < |items| && (p < q ==> IsParallel(h, items[q])) && Asks(h, items[q], last)
      && CarryOf(st) == last
      && (forall a :: a in st.trace && p <= a.index ==> a.Refused?)
    case InPhase(p, _, next) =>
      && (q == |items| || IsBarrier(h, items[q]))
      && p <= next < q && st.results[next].None?
      && st.grants == last.grants && st.asks == last.asks
      && (ParallelPure(h) ==> st.world == last.world)
    case InBarrier(p, _) =>
      && p == q < |items| && IsBarrier(h, items[p]) && h.lookup(items[p].call.name).Some? && !Denies(h, items[p], last)
      && Start(p) in st.trace && IsUnfinished(h, items[p].call, last.world, st.world)
      && CarryOf(st) == Authorized(h, items[p], h.contextOf(last.world), last).(world := st.world)
  }

  /** The first call of a phase that is not joined. */
  function OpenAt<W>(at: Drop<W>): nat {
    if at.InPhase? then at.next else at.p
  }

  lemma PhaseStands<L(!new), W(!new), C>(h: Host<L, W, C>, items: seq<ExecItem>, p: nat,
      carries: seq<Carry<W>>, allowed: seq<nat>, w: W, st0: State<W>, st: State<W>, n: nat, joined: nat)
    requires 0 < |carries| && p + |carries| - 1 <= |items| == |st0.results|
    requires PhaseAuthorized(h, items, p, p + |carries| - 1, carries, allowed, st0.results) && carries[0].world == w
    requires n <= |allowed| && Joined(h, items, allowed, w, st0, st, n)
    requires (n == 0 && joined == p) || (n < |allowed| && joined == allowed[n])
        || (n == |allowed| && joined == p + |carries| - 1)
    ensures OnlyChanged(p, p + |carries| - 1, st0.results, st.results)
    ensures PhaseSlots(h, items, p, joined, carries, st.results)
  {
    hide IsParallel, RunsItem, Denies, RanAlone, ParallelPure, Authorized, FitsCap, AnnouncedOnce, AnnouncedAsRecorded;
    var i := p + |carries| - 1;
    ConsistentLength(items, st);
    forall k | 0 <= k < |items| && !(p <= k < i)
      ensures st.results[k] == st0.results[k]
    {
      assert k !in allowed[..n];
    }
    forall k | p <= k < i
      ensures SlotStands(h, items[k], h.contextOf(w), carries[k - p], carries[k - p + 1], st.results[k], k < joined)
    {
      assert SlotAuthorized(h, items[k], carries[k - p], carries[k - p + 1], st0.results[k], k in allowed);
      assert k in allowed ==> (k in allowed[..n] <==> k < joined);
      if k in allowed[..n] && ParallelPure(h) {
        CarriesKeepWorld(h, items, p, i, k, carries, allowed, st0.results);
        AllowedRuns(h, items[k], carries[k - p], st.results[k].value);
      }
    }
  }

  /** Equal, the world included if the Parallel tools are pure. */
  ghost predicate SameButWorld<L(!new), W(!new), C>(h: Host<L, W, C>, c: Carry<W>, c': Carry<W>) {
    c'.grants == c.grants && c'.asks == c.asks && (ParallelPure(h) ==> c'.world == c.world)
  }

  /** An activity of the stretch `[p, c)`; a tool starts only for an authorised call. */
  ghost predicate PhaseActs<L, W, C>(h: Host<L, W, C>, items: seq<ExecItem>, p: nat, carries: seq<Carry<W>>, c: nat,
      a: Activity)
    requires c <= |items|
  {
    && p <= a.index < c && IsParallel(h, items[a.index])
    && (a.Start? ==> a.index < p + |carries| - 1 && !Denies(h, items[a.index], carries[a.index - p]))
  }

  lemma StopsAtPrompt<L(!new), W(!new), C>(h: Host<L, W, C>, items: seq<ExecItem>, p: nat, carries: seq<Carry<W>>,
      st0: State<W>, st: State<W>)
    requires 0 < |carries| && p + |carries| - 1 < |items| == |st.results|
    requires IsParallel(h, items[p + |carries| - 1]) && Asks(h, items[p + |carries| - 1], CarryOf(st))
    requires carries[|carries| - 1] == CarryOf(st)
    requires forall a :: a in st0.trace ==> a.index < p
    requires forall a :: a in st.trace ==> a in st0.trace || a.Refused?
    ensures StoppedAt(h, items, AtPrompt(p, carries), st)
  {
  }

  lemma StopsInPhase<L(!new), W(!new), C>(h: Host<L, W, C>, items: seq<ExecItem>, p: nat, carries: seq<Carry<W>>,
      next: nat, st: State<W>)
    requires 0 < |carries| && p + |carries| - 1 <= |items| == |st.results|
    requires p + |carries| - 1 == |items| || IsBarrier(h, items[p + |carries| - 1])
    requires p <= next < p + |carries| - 1 && st.results[next].None?
    requires SameButWorld(h, carries[|carries| - 1], CarryOf(st))
    ensures StoppedAt(h, items, InPhase(p, carries, next), st)
  {
  }

  lemma IsSameButWorld<L(!new), W(!new), C>(h: Host<L, W, C>, c: Carry<W>, st: State<W>)
    requires st.grants == c.grants && st.asks == c.asks && (ParallelPure(h) ==> st.world == c.world)
    ensures SameButWorld(h, c, CarryOf(st))
  {
  }

  lemma SamePhase<L, W, C>(h: Host<L, W, C>, items: seq<ExecItem>, phase: seq<nat>, st0: State<W>, st: State<W>)
    requires IsPhase(h, items, phase, st0) && st.results == st0.results
    ensures IsPhase(h, items, phase, st)
  {
  }

  lemma QuietDisciplined<L, W, C>(h: Host<L, W, C>, items: seq<ExecItem>, st: State<W>)
    requires Quiet(h, items, st)
    ensures Disciplined(h, items, st.trace)
  {
  }

  lemma OnlyChangedTwice(p: nat, i: nat, a: seq<Option<Exec>>, b: seq<Option<Exec>>, c: seq<Option<Exec>>)
    requires OnlyChanged(p, i, a, b) && OnlyChanged(p, i, b, c)
    ensures OnlyChanged(p, i, a, c)
  {
  }

  lemma RunningKeeps<W>(items: seq<ExecItem>, st0: State<W>, st1: State<W>, st: State<W>)
    requires Consistent(items, st1) && Extends(st0, st1) && st == st1.(world := st.world, trace := st.trace)
    ensures Consistent(items, st) && Extends(st0, st)
  {
  }

  lemma JoiningKeeps<L(!new), W(!new), C>(h: Host<L, W, C>, items: seq<ExecItem>, phase: seq<nat>, w: W,
      st0: State<W>, st1: State<W>, st: State<W>, k: nat)
    requires k <= |phase| && Joined(h, items, phase, w, st1, st, k) && Extends(st0, st1)
    ensures Consistent(items, st) && Extends(st0, st) && st.grants == st1.grants && st.asks == st1.asks
  {
  }

  /** The awaited call is open. */
  lemma JoinedOpen<L(!new), W(!new), C>(h: Host<L, W, C>, items: seq<ExecItem>, phase: seq<nat>, w: W,
      st0: State<W>, st: State<W>, k: nat)
    requires k < |phase| && IsPhase(h, items, phase, st0) && Joined(h, items, phase, w, st0, st, k)
    ensures phase[k] < |st.results| == |items| && st.results[phase[k]].None?
  {
  }

  ghost predicate PhaseTrace<L, W, C>(h: Host<L, W, C>, items: seq<ExecItem>, p: nat, carries: seq<Carry<W>>, c: nat,
      before: seq<Activity>, after: seq<Activity>)
    requires c <= |items|
  {
    forall a :: a in after ==> a in before || PhaseActs(h, items, p, carries, c, a)
  }

  lemma PhaseTraceMore<L, W, C>(h: Host<L, W, C>, items: seq<ExecItem>, p: nat, carries: seq<Carry<W>>, c: nat,
      before: seq<Activity>, now: seq<Activity>, after: seq<Activity>, allowed: seq<nat>)
    requires c <= |items| && PhaseTrace(h, items, p, carries, c, before, now) && ActsOn(now, after, allowed)
    requires forall a: Activity :: a.index in allowed ==> PhaseActs(h, items, p, carries, c, a)
    ensures PhaseTrace(h, items, p, carries, c, before, after)
  {
    hide PhaseActs;
  }

  lemma PhaseTraceBound<L, W, C>(h: Host<L, W, C>, items: seq<ExecItem>, p: nat, carries: seq<Carry<W>>, c: nat,
      before: seq<Activity>, after: seq<Activity>)
    requires c <= |items| && PhaseTrace(h, items, p, carries, c, before, after)
    ensures forall a :: a in after ==> a in before || p <= a.index < c
  {
    hide Denies, IsParallel;
  }

  /** What a stretch has done, settled or dropped. */
  ghost predicate PhaseRan<L(!new), W(!new), C>(h: Host<L, W, C>, items: seq<ExecItem>, p: nat, c: nat, st0: State<W>,
      st: State<W>, carries: seq<Carry<W>>, dropped: bool, at: Drop<W>)
    requires p <= c <= |items|
  {
    && |st.results| == |items| && Consistent(items, st) && Extends(st0, st) && Disciplined(h, items, st.trace)
    && Accounted(h, items, st.trace, st.results)
    && 0 < |carries| <= c - p + 1 && carries[0] == CarryOf(st0)
    && OnlyChanged(p, p + |carries| - 1, st0.results, st.results)
    && PhaseSlots(h, items, p, if dropped then OpenAt(at) else c, carries, st.results)
    && (if dropped then at.p == p && at.carries == carries && !at.InBarrier? && StoppedAt(h, items, at, st)
        else Quiet(h, items, st) && |carries| == c - p + 1 && SameButWorld(h, carries[c - p], CarryOf(st)))
    && PhaseTrace(h, items, p, carries, c, st0.trace, st.trace)
  }

  /** Authorise a stretch of parallel calls, then run the allowed ones concurrently. */
  method RunParallelPhase<L(!new), W(!new), C>(h: Host<L, W, C>, items: seq<ExecItem>, p: nat, c: nat, st0: State<W>)
    returns (st: State<W>, ghost carries: seq<Carry<W>>, dropped: bool, ghost at: Drop<W>)
    requires p <= c <= |items| == |st0.results| && Consistent(items, st0) && Quiet(h, items, st0)
    requires IsStretch(h, items, p, c, st0.results) && (c == |items| || IsBarrier(h, items[c]))
    requires Accounted(h, items, st0.trace, st0.results) && forall a :: a in st0.trace ==> a.index < p
    ensures PhaseRan(h, items, p, c, st0, st, carries, dropped, at)
  {
    hide Disciplined, Running, RunsItem, IsParallel, CheckpointSound, ParallelPure, RanAlone, Authorized, Tracking;
    hide PhaseSlots, PhaseAuthorized, Asks, Accounted, IsBarrier, PhaseActs, Joined, Extends, Consistent, OnlyChanged,
        Quiet, StoppedAt, PhaseTrace, ActsOn, IsPhase, SameButWorld;
    var allowed;
    ConsistentLength(items, st0);
    st, allowed, carries, dropped := AuthorizePhase(h, items, p, c, st0);
    QuietDisciplined(h, items, st);
    ghost var i := p + |carries| - 1;
    ghost var st1 := st;
    at := AtPrompt(p, carries);
    RefusalsAct(h, items, p, c, carries, allowed, st0, st1);
    if dropped {
      JoinedAtStart(h, items, allowed, st0.world, st1);
      PhaseStands(h, items, p, carries, allowed, st0.world, st1, st1, 0, p);
      StopsAtPrompt(h, items, p, carries, st0, st);
      return;
    }
    AllowedIsPhase(h, items, p, c, carries, allowed, st);
    AllowedAct(h, items, p, c, carries, allowed, st1);
    var tasks;
    tasks, st, dropped := SpawnPhase(h, items, allowed, st);
    IsSameButWorld(h, carries[i - p], st);
    SamePhase(h, items, allowed, st1, st);
    RunningKeeps(items, st0, st1, st);
    PhaseTraceMore(h, items, p, carries, c, st0.trace, st1.trace, st.trace, allowed);
    if dropped {
      JoinedAtStart(h, items, allowed, st0.world, st);
      PhaseStands(h, items, p, carries, allowed, st0.world, st, st, 0, allowed[0]);
      JoinedOpen(h, items, allowed, st0.world, st, st, 0);
      StopsInPhase(h, items, p, carries, allowed[0], st);
      at := InPhase(p, carries, allowed[0]);
      return;
    }
    ghost var st2 := st;
    ghost var k;
    st, dropped, k := JoinPhase(h, items, allowed, tasks, st, st0.world);
    JoiningKeeps(h, items, allowed, st0.world, st0, st2, st, k);
    PhaseTraceMore(h, items, p, carries, c, st0.trace, st2.trace, st.trace, allowed);
    IsSameButWorld(h, carries[i - p], st);
    PhaseStands(h, items, p, carries, allowed, st0.world, st2, st, k, if dropped then allowed[k] else c);
    OnlyChangedTwice(p, i, st0.results, st2.results, st.results);
    if dropped {
      JoinedOpen(h, items, allowed, st0.world, st2, st, k);
      StopsInPhase(h, items, p, carries, allowed[k], st);
      at := InPhase(p, carries, allowed[k]);
    }
  }

  lemma RefusalsAct<L(!new), W(!new), C>(h: Host<L, W, C>, items: seq<ExecItem>, p: nat, c: nat,
      carries: seq<Carry<W>>, allowed: seq<nat>, st0: State<W>, st: State<W>)
    requires 0 < |carries| && p + |carries| - 1 <= c <= |items| == |st.results|
    requires Accounted(h, items, st.trace, st.results)
    requires PhaseAuthorized(h, items, p, p + |carries| - 1, carries, allowed, st.results)
    requires forall a :: a in st.trace ==> a in st0.trace || (a.Refused? && p <= a.index < p + |carries| - 1)
    ensures PhaseTrace(h, items, p, carries, c, st0.trace, st.trace)
  {
    hide RunsItem, IsParallel, Denies, Authorized;
  }

  lemma AllowedAct<L(!new), W(!new), C>(h: Host<L, W, C>, items: seq<ExecItem>, p: nat, c: nat,
      carries: seq<Carry<W>>, allowed: seq<nat>, st: State<W>)
    requires p <= c <= |items| == |st.results| && |carries| == c - p + 1
    requires PhaseAuthorized(h, items, p, c, carries, allowed, st.results)
    ensures forall a: Activity :: a.index in allowed ==> PhaseActs(h, items, p, carries, c, a)
  {
    hide RunsItem, IsParallel, Denies, Authorized;
    forall a: Activity | a.index in allowed
      ensures PhaseActs(h, items, p, carries, c, a)
    {
      var k := a.index;
      assert SlotAuthorized(h, items[k], carries[k - p], carries[k - p + 1], st.results[k], k in allowed);
    }
  }

  lemma ExtendsTransitive<W>(a: State<W>, b: State<W>, c: State<W>)
    requires Extends(a, b) && Extends(b, c)
    ensures Extends(a, c)
  {
  }

  lemma AllowedIsPhase<L(!new), W(!new), C>(h: Host<L, W, C>, items: seq<ExecItem>, p: nat, c: nat,
      carries: seq<Carry<W>>, allowed: seq<nat>, st: State<W>)
    requires p <= c <= |items| == |st.results|
    requires PhaseAuthorized(h, items, p, c, carries, allowed, st.results)
    ensures IsPhase(h, items, allowed, st)
    ensures forall k :: k in allowed ==> p <= k < c && IsParallel(h, items[k])
  {
  }

  lemma SlotsRun<L(!new), W(!new), C>(h: Host<L, W, C>, items: seq<ExecItem>, p: nat, c: nat,
      carries: seq<Carry<W>>, results: seq<Option<Exec>>)
    requires p <= c <= |items| == |results| && |carries| == c - p + 1
    requires PhaseSlots(h, items, p, c, carries, results)
    ensures forall k :: p <= k < c ==> results[k].Some?
    ensures ParallelPure(h) ==> PhaseRun(h, items, p, c, carries, results)
  {
    hide IsParallel, RunsItem, Denies, ParallelPure, Authorized, FitsCap;
    forall k | p <= k < c
      ensures results[k].Some?
      ensures ParallelPure(h) ==> RunsItem(h, items[k], carries[k - p], results[k].value, carries[k - p + 1])
    {
      assert SlotStands(h, items[k], h.contextOf(carries[0].world), carries[k - p], carries[k - p + 1], results[k],
                        k < c);
    }
  }

  // ---------------------------------------------------------------------------------------
  // Barriers
  // ---------------------------------------------------------------------------------------

  /** The call, started in world `w0`, has taken some steps to world `w` and is not done. */
  ghost predicate IsUnfinished<L(!new), W(!new), C>(h: Host<L, W, C>, call: ToolCall, w0: W, w: W) {
    exists n: nat, l: L :: Steps(h, call.name, h.begin(call, h.contextOf(w0)), w0, n, l, w) && h.done(l).None?
  }

  /** Run one call inline to completion; the batch may be dropped between any two steps. */
  method RunOne<L(!new), W(!new), C>(h: Host<L, W, C>, call: ToolCall, w0: W)
    returns (body: ToolResultBody, w: W, dropped: bool)
    ensures !dropped ==> exists n: nat :: RunsTo(h, call.name, h.begin(call, h.contextOf(w0)), w0, n, body, w)
    ensures dropped ==> IsUnfinished(h, call, w0, w)
  {
    hide Steps;
    var l := h.begin(call, h.contextOf(w0));
    ghost var l0 := l;
    body, w, dropped := Interrupted, w0, true;
    SpawnSteps(h, call.name, l0, w0);
    var steps :| 0 <= steps;
    for k := 0 to steps
      invariant exists n: nat :: Steps(h, call.name, l0, w0, n, l, w)
    {
      ghost var n: nat :| Steps(h, call.name, l0, w0, n, l, w);
      if h.done(l).Some? {
        break;
      }
      StepsSnoc(h, call.name, l0, w0, n, l, w);
      var (l', w') := h.next(call.name, l, w);
      l, w := l', w';
    }
    ghost var n: nat :| Steps(h, call.name, l0, w0, n, l, w);
    var finished := h.done(l);
    if finished.Some? {
      body, dropped := finished.value, false;
      assert RunsTo(h, call.name, l0, w0, n, body, w);
    }
  }

  lemma SpawnSteps<L, W, C>(h: Host<L, W, C>, name: string, l: L, w: W)
    ensures Steps(h, name, l, w, 0, l, w)
  {
  }

  lemma BarrierTrace<L, W, C>(h: Host<L, W, C>, items: seq<ExecItem>, i: nat, trace: seq<Activity>)
    requires i < |items| && items[i].Call? && Disciplined(h, items, trace) && Running(trace) == {}
    ensures Disciplined(h, items, trace + [Start(i)])
    ensures Disciplined(h, items, trace + [Start(i)] + [Finish(i)]) && Running(trace + [Start(i)] + [Finish(i)]) == {}
  {
    DisciplinedSnoc(h, items, trace, Start(i));
    FinishDisciplined(h, items, trace + [Start(i)], i);
  }

  lemma BarrierDenied<L(!new), W(!new), C>(h: Host<L, W, C>, call: ToolCall, c: Carry<W>)
    ensures var r := Authorize(h, call, h.contextOf(c.world), c.grants, c.asks);
            && (r.0.Some? ==> RunsItem(h, Call(call), c, Exec(call.id, call.name, r.0.value), Carry(c.world, r.1, r.2)))
            && (r.0.None? && h.lookup(call.name).None? ==>
                RunsItem(h, Call(call), c, UnknownExec(call), Carry(c.world, r.1, r.2)))
  {
  }

  lemma BarrierRuns<L(!new), W(!new), C>(h: Host<L, W, C>, call: ToolCall, c: Carry<W>, n: nat, body: ToolResultBody,
      w: W)
    requires Authorize(h, call, h.contextOf(c.world), c.grants, c.asks).0.None? && h.lookup(call.name).Some?
    requires RunsTo(h, call.name, h.begin(call, h.contextOf(c.world)), c.world, n, body, w)
    ensures var r := Authorize(h, call, h.contextOf(c.world), c.grants, c.asks);
            RunsItem(h, Call(call), c, Exec(call.id, call.name, Capped(body, h.hardResultCap)), Carry(w, r.1, r.2))
  {
  }

  /** What a barrier call has done, settled or dropped. */
  ghost predicate BarrierRan<L(!new), W(!new), C>(h: Host<L, W, C>, items: seq<ExecItem>, i: nat, st0: State<W>,
      st: State<W>, dropped: bool, at: Drop<W>)
    requires i < |items| == |st0.results|
  {
    && |st.results| == |items| && Consistent(items, st) && Extends(st0, st) && Disciplined(h, items, st.trace)
    && Accounted(h, items, st.trace, st.results)
    && ActsOn(st0.trace, st.trace, [i]) && (Start(i) in st.trace ==> LetThrough(h, items[i], CarryOf(st0)))
    && if dropped then
         && st.results == st0.results
         && at.p == i && at.carries == [CarryOf(st0)] && !at.InPhase? && StoppedAt(h, items, at, st)
       else
         && Quiet(h, items, st)
         && st.results[i].Some? && st.results == st0.results[i := st.results[i]]
         && RunsItem(h, items[i], CarryOf(st0), st.results[i].value, CarryOf(st))
  }

  /** A write, an exclusive call or a call to an unknown tool: authorised, then run alone. */
  method RunBarrier<L(!new), W(!new), C>(h: Host<L, W, C>, items: seq<ExecItem>, i: nat, st0: State<W>)
    returns (st: State<W>, dropped: bool, ghost at: Drop<W>)
    requires i < |items| == |st0.results| && IsBarrier(h, items[i]) && st0.results[i].None?
    requires Consistent(items, st0) && Quiet(h, items, st0) && Accounted(h, items, st0.trace, st0.results)
    requires forall a :: a in st0.trace ==> a.index < i
    ensures BarrierRan(h, items, i, st0, st, dropped, at)
  {
    hide Disciplined, Running, RunsItem, CheckpointSound, Accounted, LetThrough;
    var call := items[i].call;
    var denied;
    AuthorizedFollows(h, items[i], CarryOf(st0));
    BarrierDenied(h, call, CarryOf(st0));
    denied, st, dropped := AuthorizeCall(h, i, call, h.contextOf(st0.world), st0);
    at := AtPrompt(i, [CarryOf(st0)]);
    if dropped {
      return;
    }
    ConsistentLength(items, st);
    var exec;
    if denied.Some? {
      exec := Exec(call.id, call.name, denied.value);
      RefusalSettles(h, items, st0.trace, st.results, i, exec);
    } else if h.lookup(call.name).None? {
      exec := UnknownExec(call);
      UnknownSettles(h, items, st.trace, st.results, i, exec);
    } else {
      BarrierTrace(h, items, i, st.trace);
      BarrierSettles(h, items, st.trace, st.results, i);
      st := st.(trace := st.trace + [Start(i)]);
      var body, w;
      body, w, dropped := RunOne(h, call, st.world);
      st := st.(world := w);
      if dropped {
        at := InBarrier(i, [CarryOf(st0)]);
        return;
      }
      ghost var n: nat :| RunsTo(h, call.name, h.begin(call, h.contextOf(st0.world)), st0.world, n, body, w);
      BarrierRuns(h, call, CarryOf(st0), n, body, w);
      st := st.(trace := st.trace + [Finish(i)]);
      exec := Exec(call.id, call.name, Capped(body, h.hardResultCap));
    }
    PublishConsistent(items, st, i, exec);
    st := Publish(st, i, exec);
  }

  lemma UnknownSettles<L, W, C>(h: Host<L, W, C>, items: seq<ExecItem>, trace: seq<Activity>,
      results: seq<Option<Exec>>, i: nat, exec: Exec)
    requires i < |items| == |results| && Accounted(h, items, trace, results) && IsBarrier(h, items[i])
    requires h.lookup(items[i].call.name).None?
    ensures Accounted(h, items, trace, results[i := Some(exec)])
  {
    hide Accounted;
    assert trace + [] == trace;
    AccountedSettles(h, items, trace, [], results, i, exec);
  }

  lemma BarrierSettles<L, W, C>(h: Host<L, W, C>, items: seq<ExecItem>, trace: seq<Activity>,
      results: seq<Option<Exec>>, i: nat)
    requires i < |items| == |results| && Accounted(h, items, trace, results) && IsBarrier(h, items[i])
    ensures Accounted(h, items, trace + [Start(i)], results)
    ensures forall exec :: Accounted(h, items, trace + [Start(i)] + [Finish(i)], results[i := Some(exec)])
  {
    hide Accounted;
    AccountedRuns(h, items, trace, trace + [Start(i)], results);
    var done := trace + [Start(i)] + [Finish(i)];
    assert done[|done| - 1] == Finish(i);
    assert Finish(i) in done && Settles(h, items[i], Finish(i));
    forall exec
      ensures Accounted(h, items, done, results[i := Some(exec)])
    {
      AccountedSettles(h, items, trace + [Start(i)], [Finish(i)], results, i, exec);
    }
  }

  // ---------------------------------------------------------------------------------------
  // The batch
  // ---------------------------------------------------------------------------------------

  function Indices(n: nat): (r: set<nat>)
    ensures forall i: nat :: i in r <==> i < n
  {
    if n == 0 then {} else Indices(n - 1) + {n - 1}
  }

  function Fresh<W>(n: nat, world: W, grants: seq<string>, asks: nat): State<W> {
    var blank := seq(n, _ => None);
    State(blank, {}, Checkpoint(blank, {}), [], world, grants, asks, [])
  }

  /** Slots before the cursor and parse errors are recorded, nothing else is, nothing runs, and
      for pure parallel tools everything so far is the reference's. */
  ghost predicate AtCursor<L(!new), W(!new), C>(h: Host<L, W, C>, items: seq<ExecItem>, start: Carry<W>, st: State<W>,
      cursor: nat)
  {
    && cursor <= |items| == |st.results|
    && Consistent(items, st) && Quiet(h, items, st)
    && (forall i :: 0 <= i < |items| ==> (st.results[i].Some? <==> i < cursor || items[i].ParseError?))
    && (forall i :: 0 <= i < |items| && items[i].ParseError? ==> st.results[i] == Some(ParseErrorExec(items[i])))
    && (forall a :: a in st.trace ==> a.index < cursor)
    && Accounted(h, items, st.trace, st.results)
    && (ParallelPure(h) ==> RunsInOrder(h, items[..cursor], start, Execs(st.results, cursor), CarryOf(st)))
  }

  lemma CursorStep<L(!new), W(!new), C>(h: Host<L, W, C>, items: seq<ExecItem>, start: Carry<W>, st0: State<W>,
      st: State<W>, i: nat)
    requires i < |items| && AtCursor(h, items, start, st0, i)
    requires Consistent(items, st) && Quiet(h, items, st) && |st.results| == |items|
    requires st.results[i].Some? && st.results == st0.results[i := st.results[i]]
    requires RunsItem(h, items[i], CarryOf(st0), st.results[i].value, CarryOf(st))
    requires items[i].ParseError? ==> st.results[i] == Some(ParseErrorExec(items[i]))
    requires ActsOn(st0.trace, st.trace, [i]) && Accounted(h, items, st.trace, st.results)
    ensures AtCursor(h, items, start, st, i + 1)
  {
    hide RunsItem, Consistent, Quiet, ParallelPure, Accounted;
    if ParallelPure(h) {
      assert Execs(st.results, i + 1)[..i] == Execs(st0.results, i);
      InOrderSnoc(h, items, i, start, Execs(st.results, i + 1), CarryOf(st0), CarryOf(st));
    }
  }

  lemma CursorPhase<L(!new), W(!new), C>(h: Host<L, W, C>, items: seq<ExecItem>, start: Carry<W>, st0: State<W>,
      st: State<W>,
      p: nat, c: nat, carries: seq<Carry<W>>)
    requires p <= c <= |items| && AtCursor(h, items, start, st0, p) && IsStretch(h, items, p, c, st0.results)
    requires Consistent(items, st) && Quiet(h, items, st) && |st.results| == |items|
    requires OnlyChanged(p, c, st0.results, st.results) && Extends(st0, st)
    requires PhaseTrace(h, items, p, carries, c, st0.trace, st.trace)
    requires Accounted(h, items, st.trace, st.results)
    requires |carries| == c - p + 1 && PhaseSlots(h, items, p, c, carries, st.results)
    requires carries[0] == CarryOf(st0) && SameButWorld(h, carries[c - p], CarryOf(st))
    ensures AtCursor(h, items, start, st, c)
  {
    SlotsRun(h, items, p, c, carries, st.results);
    PhaseTraceBound(h, items, p, carries, c, st0.trace, st.trace);
    hide PhaseSlots, PhaseTrace, Denies;
    hide RunsItem, Consistent, Quiet, ParallelPure, IsParallel, Accounted;
    if ParallelPure(h) {
      assert Execs(st.results, p) == Execs(st0.results, p);
      PhaseInOrder(h, items, p, c, c, carries, st.results, start);
    }
  }

  /** Where a batch stands when it is dropped at `at`. The calls before `at.p` are settled, the slots
      authorised since as `PhaseSlots` says, and nothing later is recorded but parse errors; just the
      recorded calls are announced. What was refused or joined, and every barrier call that finished,
      is recorded, and nothing else is. World, grants and questions are those `StoppedAt` gives; for
      pure parallel tools the calls before `at.p` have left the reference's. A call that started and
      is not recorded is a parallel one that had not been joined, or the barrier cut in mid-run. */
  ghost predicate DroppedAt<L(!new), W(!new), C>(h: Host<L, W, C>, items: seq<ExecItem>, start: Carry<W>, st: State<W>,
      at: Drop<W>)
  {
    var p, q, results := at.p, at.p + |at.carries| - 1, st.checkpoint.results;
    && p <= q <= |items| == |results| && st.results == results
    && (forall i :: 0 <= i < p ==> results[i].Some?)
    && PhaseSlots(h, items, p, OpenAt(at), at.carries, results)
    && (forall i :: q <= i < |items| ==> results[i] == if items[i].Call? then None else Some(ParseErrorExec(items[i])))
    && (forall i: nat :: i in st.checkpoint.emitted <==> i < |items| && items[i].Call? && results[i].Some?)
    && Accounted(h, items, st.trace, results)
    && (forall a :: a in st.trace && results[a.index].None? ==>
          IsParallel(h, items[a.index]) || (at.InBarrier? && a == Start(p)))
    && StoppedAt(h, items, at, st)
    && (ParallelPure(h) ==> RunsInOrder(h, items[..p], start, Execs(results, p), at.carries[0]))
  }

  lemma DroppedInPhase<L(!new), W(!new), C>(h: Host<L, W, C>, items: seq<ExecItem>, start: Carry<W>,
      st0: State<W>, st: State<W>, c: nat, at: Drop<W>)
    requires at.p <= c <= |items| && AtCursor(h, items, start, st0, at.p) && Consistent(items, st)
    requires 0 < |at.carries| <= c - at.p + 1 && |st.results| == |items| && at.carries[0] == CarryOf(st0)
    requires OnlyChanged(at.p, at.p + |at.carries| - 1, st0.results, st.results)
    requires PhaseSlots(h, items, at.p, OpenAt(at), at.carries, st.results) && StoppedAt(h, items, at, st)
    requires PhaseTrace(h, items, at.p, at.carries, c, st0.trace, st.trace)
    requires Accounted(h, items, st.trace, st.results)
    ensures DroppedAt(h, items, start, st, at)
  {
    hide RunsInOrder, PhaseSlots, ParallelPure, CheckpointSound, Quiet, IsParallel, StoppedAt;
    if ParallelPure(h) {
      assert Execs(st.results, at.p) == Execs(st0.results, at.p);
    }
  }

  lemma DroppedAtBarrier<L(!new), W(!new), C>(h: Host<L, W, C>, items: seq<ExecItem>, start: Carry<W>,
      st0: State<W>, st: State<W>, at: Drop<W>)
    requires at.p < |items| && AtCursor(h, items, start, st0, at.p) && Consistent(items, st)
    requires st.results == st0.results && at.carries == [CarryOf(st0)] && !at.InPhase?
    requires StoppedAt(h, items, at, st) && Accounted(h, items, st.trace, st.results)
    requires ActsOn(st0.trace, st.trace, [at.p]) && IsBarrier(h, items[at.p])
    ensures DroppedAt(h, items, start, st, at)
  {
    hide RunsInOrder, ParallelPure, CheckpointSound, Quiet, IsParallel;
  }

  lemma SlotRules<L(!new), W(!new), C>(h: Host<L, W, C>, item: ExecItem, c: Carry<W>, c': Carry<W>, end: Carry<W>,
      result: Option<Exec>, joined: bool)
    requires SlotStands(h, item, h.contextOf(c.world), c, c', result, joined) && SameButWorld(h, c', end)
    ensures Rules(h, item, c, end, result)
  {
    hide RunsItem, FitsCap, ToolRan, ParallelPure;
    AuthorizedFollows(h, item, c);
    if result.Some? && (ParallelPure(h) || item.ParseError? || Denies(h, item, c)) {
      RunsItemRules(h, item, c, result.value, c');
    }
  }

  /** One more call, or one more parse error skipped. */
  lemma RuledStep<L(!new), W(!new), C>(h: Host<L, W, C>, items: seq<ExecItem>, start: Carry<W>, log: seq<Carry<W>>,
      st0: State<W>, st: State<W>, i: nat)
    requires i < |items| && |log| == i + 1 && Ruled(h, items, start, log, st0.trace, st0.results)
    requires |st.results| == |items| && st.results == st0.results[i := st.results[i]] && st.results[i].Some?
    requires RunsItem(h, items[i], log[i], st.results[i].value, CarryOf(st))
    requires ActsOn(st0.trace, st.trace, [i]) && (Start(i) in st.trace ==> LetThrough(h, items[i], log[i]))
    ensures Ruled(h, items, start, log + [CarryOf(st)], st.trace, st.results)
  {
    hide Rules, RunsItem, LetThrough;
    RunsItemRules(h, items[i], log[i], st.results[i].value, CarryOf(st));
    var more := log + [CarryOf(st)];
    forall k | 0 <= k < |more| - 1
      ensures Rules(h, items[k], more[k], more[k + 1], st.results[k])
    {
      assert k < i ==> st.results[k] == st0.results[k];
    }
  }

  lemma {:induction false} SlotsKeepWorld<L(!new), W(!new), C>(h: Host<L, W, C>, items: seq<ExecItem>, p: nat,
      joined: nat, carries: seq<Carry<W>>, results: seq<Option<Exec>>, n: nat)
    requires n < |carries| && p + |carries| - 1 <= |items| == |results|
    requires PhaseSlots(h, items, p, joined, carries, results)
    ensures forall k :: 0 <= k <= n ==> carries[k].world == carries[0].world
  {
    hide RunsItem, Denies, IsParallel, ParallelPure, FitsCap;
    if n > 0 {
      SlotsKeepWorld(h, items, p, joined, carries, results, n - 1);
      var k := p + n - 1;
      assert SlotStands(h, items[k], h.contextOf(carries[0].world), carries[k - p], carries[k - p + 1], results[k],
                        k < joined);
    }
  }

  function PhaseLog<W>(log: seq<Carry<W>>, carries: seq<Carry<W>>, end: Carry<W>): seq<Carry<W>>
    requires log != [] && carries != []
  {
    log[..|log| - 1] + carries[..|carries| - 1] + [end]
  }

  lemma PhaseLogTail<W>(log: seq<Carry<W>>, carries: seq<Carry<W>>, p: nat)
    requires carries != [] && |log| == p + |carries| && log[p..] == carries[..|carries| - 1] + [carries[|carries| - 1]]
    ensures log[p..] == carries
  {
  }

  /** A drop at a barrier decides on no further call. */
  lemma RuledStill<L(!new), W(!new), C>(h: Host<L, W, C>, items: seq<ExecItem>, start: Carry<W>, log: seq<Carry<W>>,
      st0: State<W>, st: State<W>, i: nat)
    requires i < |items| && |log| == i + 1 && Ruled(h, items, start, log, st0.trace, st0.results)
    requires st.results == st0.results && ActsOn(st0.trace, st.trace, [i])
    requires Start(i) in st.trace ==> LetThrough(h, items[i], log[i])
    ensures Ruled(h, items, start, log, st.trace, st.results)
  {
    hide Rules, LetThrough;
  }

  /** The slots of a phase, ended by a carry that may differ from the last one in what impure reads
      did to the world. */
  lemma RuledPhase<L(!new), W(!new), C>(h: Host<L, W, C>, items: seq<ExecItem>, start: Carry<W>, log: seq<Carry<W>>,
      st0: State<W>, st: State<W>, p: nat, c: nat, carries: seq<Carry<W>>, joined: nat, end: Carry<W>)
    requires 0 < |carries| && p + |carries| - 1 <= c <= |items| == |st.results|
    requires |log| == p + 1 && carries[0] == log[p]
    requires Ruled(h, items, start, log, st0.trace, st0.results)
    requires OnlyChanged(p, p + |carries| - 1, st0.results, st.results)
    requires PhaseSlots(h, items, p, joined, carries, st.results)
    requires PhaseTrace(h, items, p, carries, c, st0.trace, st.trace)
    requires SameButWorld(h, carries[|carries| - 1], end) && (|carries| == 1 ==> end == carries[0])
    ensures Ruled(h, items, start, PhaseLog(log, carries, end), st.trace, st.results)
  {
    SlotsKeepWorld(h, items, p, joined, carries, st.results, |carries| - 1);
    hide Rules, RunsItem, LetThrough, SlotStands, Denies, IsParallel, ParallelPure;
    var n := |carries| - 1;
    var more := PhaseLog(log, carries, end);
    forall k | 0 <= k < |more| - 1
      ensures Rules(h, items[k], more[k], more[k + 1], st.results[k])
    {
      if k < p {
        assert more[k] == log[k] && more[k + 1] == log[k + 1] && st.results[k] == st0.results[k];
      } else {
        assert SlotStands(h, items[k], h.contextOf(carries[0].world), carries[k - p], carries[k - p + 1],
                          st.results[k], k < joined);
        assert more[k] == carries[k - p] && more[k + 1] == if k - p + 1 < n then carries[k - p + 1] else end;
        SlotRules(h, items[k], carries[k - p], carries[k - p + 1], more[k + 1], st.results[k], k < joined);
      }
    }
    forall a | a in st.trace && a.Start?
      ensures a.index < |more| && a.index < |items| && LetThrough(h, items[a.index], more[a.index])
    {
      if a in st0.trace {
        assert more[a.index] == log[a.index];
      } else {
        NotDenied(h, items[a.index], carries[a.index - p]);
        assert more[a.index] == carries[a.index - p];
      }
    }
  }

  lemma NotDenied<L, W, C>(h: Host<L, W, C>, item: ExecItem, c: Carry<W>)
    ensures item.Call? && !Denies(h, item, c) <==> LetThrough(h, item, c)
  {
    AuthorizedFollows(h, item, c);
  }

  // ---------------------------------------------------------------------------------------
  // Between phases, and at a drop
  // ---------------------------------------------------------------------------------------

  ghost predicate InProgress<L(!new), W(!new), C>(h: Host<L, W, C>, items: seq<ExecItem>, start: Carry<W>,
      log: seq<Carry<W>>, st: State<W>, cursor: nat)
  {
    && AtCursor(h, items, start, st, cursor)
    && |log| == cursor + 1 && log[cursor] == CarryOf(st) && Ruled(h, items, start, log, st.trace, st.results)
  }

  /** The log of a dropped batch ends with the carries of the phase it was dropped in. */
  ghost predicate LogEnds<W>(log: seq<Carry<W>>, at: Drop<W>) {
    |log| == at.p + |at.carries| && log[at.p..] == at.carries
  }

  ghost predicate Dropped<L(!new), W(!new), C>(h: Host<L, W, C>, items: seq<ExecItem>, start: Carry<W>,
      log: seq<Carry<W>>, st: State<W>, at: Drop<W>)
  {
    && DroppedAt(h, items, start, st, at) && LogEnds(log, at)
    && CheckpointSound(items, st.checkpoint, st.events) && Disciplined(h, items, st.trace)
    && |st.checkpoint.results| == |items| && Accounted(h, items, st.trace, st.checkpoint.results)
    && Ruled(h, items, start, log, st.trace, st.checkpoint.results)
  }

  lemma NothingRuled<L(!new), W(!new), C>(h: Host<L, W, C>, items: seq<ExecItem>, start: Carry<W>,
      results: seq<Option<Exec>>)
    requires |results| == |items|
    ensures Ruled(h, items, start, [start], [], results)
  {
  }

  lemma SkipParseError<L(!new), W(!new), C>(h: Host<L, W, C>, items: seq<ExecItem>, start: Carry<W>,
      log0: seq<Carry<W>>, st: State<W>, i: nat) returns (log: seq<Carry<W>>)
    requires i < |items| && items[i].ParseError? && InProgress(h, items, start, log0, st, i)
    ensures InProgress(h, items, start, log, st, i + 1)
  {
    hide Ruled, CheckpointSound, Quiet, RunsInOrder;
    assert st.results[i := st.results[i]] == st.results;
    CursorStep(h, items, start, st, st, i);
    RuledStep(h, items, start, log0, st, st, i);
    log := log0 + [CarryOf(st)];
  }

  lemma PhaseEnds<L(!new), W(!new), C>(h: Host<L, W, C>, items: seq<ExecItem>, start: Carry<W>, log0: seq<Carry<W>>,
      st0: State<W>, st: State<W>, p: nat, c: nat, carries: seq<Carry<W>>, dropped: bool, at: Drop<W>)
    returns (log: seq<Carry<W>>)
    requires p < c <= |items| && InProgress(h, items, start, log0, st0, p) && IsStretch(h, items, p, c, st0.results)
    requires PhaseRan(h, items, p, c, st0, st, carries, dropped, at)
    ensures if dropped then Dropped(h, items, start, log, st, at) else InProgress(h, items, start, log, st, c)
  {
    hide Ruled, CheckpointSound, Disciplined, Accounted, PhaseSlots, StoppedAt, IsStretch, PhaseActs, RunsInOrder,
        ParallelPure, DroppedAt, Running;
    var end := if dropped then carries[|carries| - 1] else CarryOf(st);
    RuledPhase(h, items, start, log0, st0, st, p, c, carries, if dropped then OpenAt(at) else c, end);
    log := PhaseLog(log0, carries, end);
    if dropped {
      PhaseLogTail(log, carries, p);
      DroppedInPhase(h, items, start, st0, st, c, at);
    } else {
      CursorPhase(h, items, start, st0, st, p, c, carries);
    }
  }

  lemma BarrierEnds<L(!new), W(!new), C>(h: Host<L, W, C>, items: seq<ExecItem>, start: Carry<W>, log0: seq<Carry<W>>,
      st0: State<W>, st: State<W>, i: nat, dropped: bool, at: Drop<W>)
    returns (log: seq<Carry<W>>)
    requires i < |items| && InProgress(h, items, start, log0, st0, i) && IsBarrier(h, items[i])
    requires BarrierRan(h, items, i, st0, st, dropped, at)
    ensures if dropped then Dropped(h, items, start, log, st, at) else InProgress(h, items, start, log, st, i + 1)
  {
    hide Ruled, CheckpointSound, Disciplined, Accounted, StoppedAt, RunsInOrder, ParallelPure, DroppedAt, Running,
        RunsItem, LetThrough;
    log := log0;
    if dropped {
      DroppedAtBarrier(h, items, start, st0, st, at);
      RuledStill(h, items, start, log0, st0, st, i);
    } else {
      CursorStep(h, items, start, st0, st, i);
      RuledStep(h, items, start, log0, st0, st, i);
      log := log0 + [CarryOf(st)];
    }
  }

  /** Parse errors are recorded before anything runs, and announced only at the end. */
  method RecordParseErrors<L(!new), W(!new), C>(h: Host<L, W, C>, items: seq<ExecItem>, world: W, grants: seq<string>,
      asks: nat)
    returns (st: State<W>)
    ensures AtCursor(h, items, Carry(world, grants, asks), st, 0) && CarryOf(st) == Carry(world, grants, asks)
    ensures st.trace == []
  {
    st := Fresh(|items|, world, grants, asks);
    for i := 0 to |items|
      invariant |st.results| == |items| && Consistent(items, st)
      invariant st.trace == [] && st.events == [] && st.emitted == {} && CarryOf(st) == Carry(world, grants, asks)
      invariant forall k :: 0 <= k < |items| ==>
                  st.results[k] == if k < i && items[k].ParseError? then Some(ParseErrorExec(items[k])) else None
    {
      if items[i].ParseError? {
        st := Record(st, i, ParseErrorExec(items[i]));
      }
    }
  }

  /** Announce what was recorded before execution, in whatever order the map yields it. */
  method AnnounceRest<W>(items: seq<ExecItem>, st0: State<W>) returns (st: State<W>)
    requires Consistent(items, st0) && |st0.results| == |items|
    requires forall i :: 0 <= i < |items| ==> st0.results[i].Some?
    ensures st == st0.(checkpoint := st.checkpoint, events := st.events)
        && st.checkpoint.results == st0.checkpoint.results
    ensures CheckpointSound(items, st.checkpoint, st.events) && st0.events <= st.events
    ensures st.checkpoint.emitted == Indices(|items|)
  {
    hide Belongs, AnnouncedOnce;
    st := st0;
    var pending := Indices(|items|) - st0.emitted;
    while pending != {}
      invariant st == st0.(checkpoint := st.checkpoint, events := st.events)
          && st.checkpoint.results == st0.checkpoint.results
      invariant CheckpointSound(items, st.checkpoint, st.events) && st0.events <= st.events
      invariant pending == Indices(|items|) - st.checkpoint.emitted
      decreases pending
    {
      var i :| i in pending;
      AnnounceOnce(st.events, st.checkpoint.emitted, Event(i, st0.results[i].value));
      st := st.(events := st.events + [Event(i, st0.results[i].value)],
                checkpoint := st.checkpoint.(emitted := st.checkpoint.emitted + {i}));
      pending := pending - {i};
    }
  }

  /** The whole batch. Whether it finishes or is dropped at some await, the checkpoint is sound and
      no barrier call has overlapped another call. If it is dropped, nothing that was settled is
      missing from the checkpoint (see `DroppedAt`). If it finishes, every call has been announced
      once with the result returned in its place; and if the Parallel tools are pure reads, the
      results, the world and the grants are those of authorising and running the calls one by one
      in model order, whatever the interleaving was. */
  method ExecuteBatch<L(!new), W(!new), C>(h: Host<L, W, C>, items: seq<ExecItem>, world: W, grants: seq<string>,
      asks: nat)
    returns (results: Option<seq<Exec>>, st: State<W>, ghost at: Drop<W>, ghost log: seq<Carry<W>>)
    ensures CheckpointSound(items, st.checkpoint, st.events) && Disciplined(h, items, st.trace)
    ensures items == [] ==> CarryOf(st) == Carry(world, grants, asks)
    ensures Accounted(h, items, st.trace, st.checkpoint.results)
    ensures Ruled(h, items, Carry(world, grants, asks), log, st.trace, st.checkpoint.results)
    ensures results.None? ==>
              DroppedAt(h, items, Carry(world, grants, asks), st, at) && LogEnds(log, at)
    ensures results.Some? ==> |log| == |items| + 1 && log[|items|] == CarryOf(st)
    ensures results.Some? ==>
              && |results.value| == |items|
              && (forall i :: 0 <= i < |items| ==>
                  Belongs(items, i, results.value[i]) && st.checkpoint.results[i] == Some(results.value[i]))
              && st.checkpoint.emitted == Indices(|items|)
              && Running(st.trace) == {}
    ensures results.Some? && ParallelPure(h) ==>
              RunsInOrder(h, items, Carry(world, grants, asks), results.value, CarryOf(st))
  {
    hide RunsItem, CheckpointSound, ParallelPure, RunsInOrder, Disciplined, Running, DroppedAt, Accounted, Rules,
        LetThrough, PhaseRan, BarrierRan, Ruled;
    at := AtPrompt(0, []);
    ghost var start := Carry(world, grants, asks);
    results := None;
    st := RecordParseErrors(h, items, world, grants, asks);
    log := [start];
    NothingRuled(h, items, start, st.results);
    var cursor := 0;
    while cursor < |items|
      invariant InProgress(h, items, start, log, st, cursor) && (items == [] ==> CarryOf(st) == start)
    {
      ghost var st0 := st;
      var dropped;
      if items[cursor].ParseError? {
        log := SkipParseError(h, items, start, log, st, cursor);
        cursor := cursor + 1;
      } else if IsParallel(h, items[cursor]) {
        var phaseStart := cursor;
        while cursor < |items| && (items[cursor].ParseError? || IsParallel(h, items[cursor]))
          invariant phaseStart <= cursor <= |items|
          invariant forall k :: phaseStart <= k < cursor ==> items[k].ParseError? || IsParallel(h, items[k])
          invariant cursor == phaseStart ==> IsParallel(h, items[phaseStart])
        {
          cursor := cursor + 1;
        }
        ghost var carries;
        st, carries, dropped, at := RunParallelPhase(h, items, phaseStart, cursor, st);
        log := PhaseEnds(h, items, start, log, st0, st, phaseStart, cursor, carries, dropped, at);
        if dropped {
          return;
        }
      } else {
        st, dropped, at := RunBarrier(h, items, cursor, st);
        log := BarrierEnds(h, items, start, log, st0, st, cursor, dropped, at);
        if dropped {
          return;
        }
        cursor := cursor + 1;
      }
    }
    assert items[..cursor] == items;
    results := Some(Execs(st.results, |items|));
    ResultsBelong(items, st);
    st := AnnounceRest(items, st);
  }

  lemma ResultsBelong<W>(items: seq<ExecItem>, st: State<W>)
    requires Consistent(items, st) && |st.results| == |items|
    ensures forall i :: 0 <= i < |items| && st.results[i].Some? ==> Belongs(items, i, st.results[i].value)
    ensures st.checkpoint.results == st.results
  {
  }

  // ---------------------------------------------------------------------------------------
  // Finishing a dropped batch
  // ---------------------------------------------------------------------------------------

  /** The calls of the assistant turn and the batch built from them correspond slot by slot. */
  ghost predicate SameCalls(calls: seq<ToolCall>, items: seq<ExecItem>) {
    && |calls| == |items|
    && forall i :: 0 <= i < |calls| ==> calls[i].id == IdOf(items[i]) && calls[i].name == NameOf(items[i])
  }

  /** The terminal result of a call after a drop: the recorded one, or Interrupted. */
  function FinalBody(cp: Checkpoint, i: nat): ToolResultBody {
    if i < |cp.results| && cp.results[i].Some? then cp.results[i].value.body else Interrupted
  }

  /** Pair every outstanding call with one result turn and one announcement, in call order. */
  method FinishPartialBatch(calls: seq<ToolCall>, cp: Checkpoint, events0: seq<Event>, ghost items: seq<ExecItem>)
    returns (turns: seq<Turn>, events: seq<Event>)
    requires SameCalls(calls, items) && CheckpointSound(items, cp, events0)
    ensures |turns| == |calls|
    ensures forall i :: 0 <= i < |calls| ==> turns[i] == ToolResult(calls[i].id, calls[i].name, FinalBody(cp, i))
    ensures events0 <= events && AnnouncedOnce(events, Indices(|calls|))
    ensures forall k :: 0 <= k < |events| ==>
              events[k].index < |calls| && events[k].exec
                  == Exec(calls[events[k].index].id, calls[events[k].index].name, FinalBody(cp, events[k].index))
  {
    hide AnnouncedOnce;
    turns, events := [], events0;
    ghost var announced := cp.emitted;
    for i := 0 to |calls|
      invariant |turns| == i
      invariant forall k :: 0 <= k < i ==> turns[k] == ToolResult(calls[k].id, calls[k].name, FinalBody(cp, k))
      invariant events0 <= events && announced == cp.emitted + Indices(i)
      invariant AnnouncedOnce(events, announced)
      invariant forall k :: 0 <= k < |events| ==>
                  events[k].index < |calls| && events[k].exec
                      == Exec(calls[events[k].index].id, calls[events[k].index].name, FinalBody(cp, events[k].index))
    {
      var exec := if cp.results[i].Some? then cp.results[i].value else Exec(calls[i].id, calls[i].name, Interrupted);
      assert cp.results[i].Some? ==> Belongs(items, i, exec);
      if cp.results[i].None? || i !in cp.emitted {
        AnnounceOnce(events, announced, Event(i, exec));
        events := events + [Event(i, exec)];
        announced := announced + {i};
      }
      assert announced == cp.emitted + Indices(i + 1);
      turns := turns + [ToolResult(exec.callId, exec.tool, exec.body)];
    }
    assert announced == Indices(|calls|);
  }
}

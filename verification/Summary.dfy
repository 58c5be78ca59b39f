/** The bounded checkpoint text a compaction writes: the newest conversational entries verbatim,
    the oldest one that fits in part cut to its tail. */
module Summary {
  import opened Turns
  import opened Wrappers
  import opened Projection

  const CAP_CHARS: nat := 16_000

  function ElidedMarker(): string {
    "[…older content elided…]"
  }

  function NothingToKeep(): string {
    "No conversational content preceded this compaction."
  }

  function Join(parts: seq<string>, separator: string): string {
    if parts == [] then ""
    else if |parts| == 1 then parts[0]
    else parts[0] + separator + Join(parts[1..], separator)
  }

  function Names(calls: seq<ToolCall>): seq<string> {
    seq(|calls|, i requires 0 <= i < |calls| => calls[i].name)
  }

  /** The checkpoint entry of one turn; tool bodies, reasoning, goals and errors have none. */
  function Entry(turn: Turn): Option<string> {
    match turn
    case User(content) => Some("User: " + content)
    case Assistant(text, _, calls, _, _) =>
      var tools := Join(Names(calls), ", ");
      if IsBlank(text) then if tools == "" then None else Some("Tools used: " + tools)
      else if tools == "" then Some("Assistant: " + text)
      else Some("Assistant: " + text + "\nTools used: " + tools)
    case SystemNote(kind, note) =>
      if kind.Compaction? then Some("Previous summary: " + note)
      else if kind.Notice? || kind.Recovery? then Some("Note: " + note)
      else None
    case _ => None
  }

  function Entries(turns: seq<Turn>): seq<string> {
    if turns == [] then []
    else
      var entry := Entry(turns[|turns| - 1]);
      Entries(turns[..|turns| - 1]) + if entry.Some? then [entry.value] else []
  }

  function Tail(s: string, n: nat): string
    requires n <= |s|
  {
    s[|s| - n..]
  }

  /** What the loop keeps of the entries, oldest first, when `room` characters remain. */
  function Kept(entries: seq<string>, room: nat): seq<string> {
    if entries == [] || room == 0 then []
    else
      var init, last := entries[..|entries| - 1], entries[|entries| - 1];
      if |last| <= room then Kept(init, room - |last|) + [last] else [ElidedMarker() + Tail(last, room)]
  }

  function Summary(turns: seq<Turn>): string {
    var kept := Kept(Entries(turns[ActiveStart(turns)..]), CAP_CHARS);
    if kept == [] then NothingToKeep() else Join(kept, "\n\n")
  }

  method CompactionSummary(turns: seq<Turn>) returns (summary: string)
    ensures summary == Summary(turns)
  {
    var start := ActiveStart(turns);
    var entries := [];
    for i := start to |turns|
      invariant entries == Entries(turns[start..i])
    {
      assert turns[start..i + 1][..i - start] == turns[start..i];
      var entry := Entry(turns[i]);
      if entry.Some? {
        entries := entries + [entry.value];
      }
    }
    assert turns[start..|turns|] == turns[start..];
    var kept := Newest(entries);
    if kept == [] {
      summary := NothingToKeep();
    } else {
      summary := Join(kept, "\n\n");
    }
  }

  method Newest(entries: seq<string>) returns (kept: seq<string>)
    ensures kept == Kept(entries, CAP_CHARS)
  {
    kept := [];
    var used, i := 0, |entries|;
    assert entries[..i] == entries;
    assert Kept(entries, CAP_CHARS) + [] == Kept(entries, CAP_CHARS);
    while i > 0
      invariant 0 <= i <= |entries| && used <= CAP_CHARS
      invariant Kept(entries[..i], CAP_CHARS - used) + kept == Kept(entries, CAP_CHARS)
      decreases i
    {
      var remaining := if used <= CAP_CHARS then CAP_CHARS - used else 0;
      if remaining == 0 {
        return;
      }
      var entry := entries[i - 1];
      assert entries[..i][..i - 1] == entries[..i - 1];
      if |entry| <= remaining {
        used := used + |entry|;
        kept := [entry] + kept;
      } else {
        kept := [ElidedMarker() + Tail(entry, remaining)] + kept;
        return;
      }
      i := i - 1;
    }
  }

  // ---------------------------------------------------------------------------------------
  // What is kept
  // ---------------------------------------------------------------------------------------

  function Chars(entries: seq<string>): nat {
    if entries == [] then 0 else Chars(entries[..|entries| - 1]) + |entries[|entries| - 1]|
  }

  /** An entry of which only the last `cut` characters are kept. */
  function CutEntry(entry: string, cut: nat): (r: string)
    requires cut <= |entry|
    ensures |r| == 24 + cut
  {
    "[…older content elided…]" + entry[|entry| - cut..]
  }

  /** The newest entries win: a suffix of the entries is kept whole, the entry before it may be cut
      to its tail, and nothing more would fit. Short of the cap, everything is kept. */
  lemma {:induction false} NewestWin(entries: seq<string>, room: nat) returns (i: nat, cut: nat)
    ensures i <= |entries| && (cut > 0 ==> i > 0 && cut < |entries[i - 1]|)
    ensures Kept(entries, room) == (if cut > 0 then [CutEntry(entries[i - 1], cut)] else []) + entries[i..]
    ensures Chars(entries[i..]) + cut <= room
    ensures Chars(entries[i..]) + cut == room || (i == 0 && cut == 0)
    decreases |entries|
  {
    hide ElidedMarker, Chars;
    if entries == [] || room == 0 {
      i, cut := |entries|, 0;
      NoChars();
    } else {
      var init, last := entries[..|entries| - 1], entries[|entries| - 1];
      if |last| <= room {
        i, cut := NewestWin(init, room - |last|);
        assert entries[i..] == init[i..] + [last];
        CharsSnoc(init[i..], last);
        assert cut > 0 ==> init[i - 1] == entries[i - 1];
      } else {
        i, cut := |entries|, room;
        NoChars();
        CutIsTail(last, room);
        assert entries[i..] == [];
      }
    }
  }

  lemma CutIsTail(entry: string, cut: nat)
    requires cut <= |entry|
    ensures ElidedMarker() + Tail(entry, cut) == CutEntry(entry, cut)
  {
  }

  /** The entry of one turn, told from the turn: tools are named in call order; tool results,
      reasoning, goals, mode changes, errors and cancellations have none. */
  ghost predicate EntryTold(turn: Turn, entry: Option<string>) {
    match turn
    case User(content) => entry == Some("User: " + content)
    case Assistant(text, _, calls, _, _) =>
      exists tools :: IsListing(tools, calls) &&
        if exists i :: 0 <= i < |text| && !IsWhitespace(text[i]) then
          entry == Some("Assistant: " + text + if tools == "" then "" else "\nTools used: " + tools)
        else if tools != "" then entry == Some("Tools used: " + tools)
        else entry == None
    case SystemNote(kind, note) =>
      (match kind
       case Compaction => entry == Some("Previous summary: " + note)
       case Notice => entry == Some("Note: " + note)
       case Recovery => entry == Some("Note: " + note)
       case _ => entry == None)
    case _ => entry == None
  }

  /** The names of the calls, in order, with commas between them. */
  ghost predicate IsListing(tools: string, calls: seq<ToolCall>)
    decreases |calls|
  {
    if calls == [] then tools == ""
    else if |calls| == 1 then tools == calls[0].name
    else
      var n := |calls[0].name| + 2;
      n <= |tools| && tools[..n] == calls[0].name + ", " && IsListing(tools[n..], calls[1..])
  }

  lemma {:induction false} NamesListed(calls: seq<ToolCall>)
    ensures IsListing(Join(Names(calls), ", "), calls)
    decreases |calls|
  {
    if |calls| > 1 {
      NamesListed(calls[1..]);
      assert Names(calls)[1..] == Names(calls[1..]);
      var tools, rest := Join(Names(calls), ", "), Join(Names(calls[1..]), ", ");
      assert tools == calls[0].name + ", " + rest;
      assert tools[|calls[0].name| + 2..] == rest;
    }
  }

  lemma EntryIsTold(turn: Turn)
    ensures EntryTold(turn, Entry(turn))
  {
    if turn.Assistant? {
      NamesListed(turn.calls);
      var tools := Join(Names(turn.calls), ", ");
      hide IsListing;
      assert IsListing(tools, turn.calls);
      assert "Assistant: " + turn.text + "" == "Assistant: " + turn.text;
      assert "Assistant: " + turn.text + "\nTools used: " + tools ==
             "Assistant: " + turn.text + ("\nTools used: " + tools);
    }
  }

  /** The entries of a session are those of its turns, in order. */
  lemma {:induction false} EntriesTold(turns: seq<Turn>, more: seq<Turn>)
    ensures Entries(turns + more) == Entries(turns) + Entries(more)
    ensures |more| == 1 ==> Entries(more) == if Entry(more[0]).Some? then [Entry(more[0]).value] else []
    decreases |more|
  {
    hide Entry;
    if more == [] {
      assert turns + more == turns;
    } else {
      assert (turns + more)[..|turns + more| - 1] == turns + more[..|more| - 1];
      EntriesTold(turns, more[..|more| - 1]);
      if |more| == 1 {
        assert more[..0] == [];
      }
    }
  }

  /** What is kept is written out with a blank line between entries. */
  lemma {:induction false} JoinTold(parts: seq<string>, more: seq<string>, separator: string)
    requires parts != [] && more != []
    ensures Join(parts + more, separator) == Join(parts, separator) + separator + Join(more, separator)
    ensures |parts| == 1 ==> Join(parts, separator) == parts[0]
    decreases |parts|
  {
    assert (parts + more)[1..] == parts[1..] + more;
    if |parts| == 1 {
      assert parts[1..] + more == more;
    } else {
      JoinTold(parts[1..], more, separator);
    }
  }

  /** The text: the kept entries, or a fixed one when no turn since the last compaction has an entry. */
  lemma SummaryTold(turns: seq<Turn>)
    ensures var entries := Entries(turns[ActiveStart(turns)..]);
            && (entries == [] <==> Kept(entries, 16_000) == [])
            && Summary(turns) == if entries == [] then "No conversational content preceded this compaction."
                                 else Join(Kept(entries, 16_000), "\n\n")
  {
    hide Entries, ActiveStart, Join;
  }

  lemma NoChars()
    ensures Chars([]) == 0
  {
  }

  lemma CharsSnoc(init: seq<string>, last: string)
    ensures Chars(init + [last]) == Chars(init) + |last|
  {
  }

  lemma EntryIsLong(turn: Turn)
    ensures Entry(turn).Some? ==> |Entry(turn).value| >= 6
  {
  }

  lemma {:induction false} EntriesAreLong(turns: seq<Turn>)
    ensures forall i :: 0 <= i < |Entries(turns)| ==> |Entries(turns)[i]| >= 6
  {
    hide Entry;
    if turns != [] {
      EntriesAreLong(turns[..|turns| - 1]);
      EntryIsLong(turns[|turns| - 1]);
    }
  }

  lemma {:induction false} CharsAtLeast(entries: seq<string>)
    requires forall i :: 0 <= i < |entries| ==> |entries[i]| >= 6
    ensures Chars(entries) >= 6 * |entries|
  {
    if entries != [] {
      CharsAtLeast(entries[..|entries| - 1]);
    }
  }

  lemma {:induction false} CharsCons(first: string, rest: seq<string>)
    ensures Chars([first] + rest) == |first| + Chars(rest)
    decreases |rest|
  {
    if rest == [] {
      assert [first] + rest == [first];
      assert [first][..0] == [];
    } else {
      assert ([first] + rest)[..|rest|] == [first] + rest[..|rest| - 1];
      CharsCons(first, rest[..|rest| - 1]);
    }
  }

  lemma {:induction false} JoinLength(parts: seq<string>, separator: string)
    requires parts != []
    ensures |Join(parts, separator)| == Chars(parts) + |separator| * (|parts| - 1)
    decreases |parts|
  {
    assert parts == [parts[0]] + parts[1..];
    CharsCons(parts[0], parts[1..]);
    if |parts| > 1 {
      JoinLength(parts[1..], separator);
      assert |separator| * (|parts| - 1) == |separator| * (|parts| - 2) + |separator|;
    }
  }

  /** The text stays within the cap exactly when all the entries and their separators do, or the
      newest entry fills it on its own: the cap counts neither the separators nor the marker of a cut
      entry. */
  lemma WithinCapExactly(turns: seq<Turn>)
    ensures var entries := Entries(turns[ActiveStart(turns)..]);
            |Summary(turns)| <= CAP_CHARS <==>
              || entries == []
              || Chars(entries) + 2 * (|entries| - 1) <= CAP_CHARS
              || |entries[|entries| - 1]| == CAP_CHARS
  {
    hide Entries, Kept, ElidedMarker, NothingToKeep, ActiveStart, Join, Chars;
    var entries := Entries(turns[ActiveStart(turns)..]);
    EntriesAreLong(turns[ActiveStart(turns)..]);
    FixedTexts();
    KeptWithinCap(entries);
    if Kept(entries, CAP_CHARS) != [] {
      JoinLength(Kept(entries, CAP_CHARS), "\n\n");
    }
  }

  lemma KeptWithinCap(entries: seq<string>)
    requires forall i :: 0 <= i < |entries| ==> |entries[i]| >= 6
    ensures var kept := Kept(entries, CAP_CHARS);
            && (kept == [] <==> entries == [])
            && (entries != [] ==>
                  (Chars(kept) + 2 * (|kept| - 1) <= CAP_CHARS <==>
                     Chars(entries) + 2 * (|entries| - 1) <= CAP_CHARS || |entries[|entries| - 1]| == CAP_CHARS))
  {
    hide Kept, ElidedMarker, Chars;
    NoChars();
    var i, cut := NewestWin(entries, CAP_CHARS);
    if entries != [] {
      var kept := Kept(entries, CAP_CHARS);
      SplitChars(entries, i);
      if cut > 0 {
        FixedTexts();
        CharsCons(CutEntry(entries[i - 1], cut), entries[i..]);
        assert Chars(kept) == CAP_CHARS + 24;
        assert Chars(entries) > CAP_CHARS && |entries[|entries| - 1]| != CAP_CHARS;
      } else {
        assert kept == entries[i..];
        SplitChars(entries, |entries| - 1);
        LastOf(entries, i);
      }
    }
  }

  /** The entries before and behind a cut, each at least six characters. */
  lemma SplitChars(entries: seq<string>, i: nat)
    requires i <= |entries| && forall k :: 0 <= k < |entries| ==> |entries[k]| >= 6
    ensures Chars(entries) == Chars(entries[..i]) + Chars(entries[i..])
    ensures Chars(entries[..i]) >= 6 * i && (i > 0 ==> Chars(entries[..i]) >= |entries[i - 1]|)
    ensures i < |entries| ==> Chars(entries[i..]) >= |entries[|entries| - 1]| + 6 * (|entries| - i - 1)
  {
    hide Chars;
    assert entries == entries[..i] + entries[i..];
    CharsAppend(entries[..i], entries[i..]);
    CharsAtLeast(entries[..i]);
    if i > 0 {
      assert entries[..i] == entries[..i - 1] + [entries[i - 1]];
      CharsSnoc(entries[..i - 1], entries[i - 1]);
    }
    if i < |entries| {
      var last := |entries| - 1;
      assert entries[i..] == entries[i..last] + [entries[last]];
      CharsSnoc(entries[i..last], entries[last]);
      CharsAtLeast(entries[i..last]);
    }
  }

  lemma LastOf(entries: seq<string>, i: nat)
    requires i <= |entries|
    ensures i == |entries| ==> Chars(entries[i..]) == 0
    ensures i == |entries| - 1 ==> Chars(entries[i..]) == |entries[i]|
  {
    hide Chars;
    NoChars();
    if i == |entries| {
      assert entries[i..] == [];
    } else if i == |entries| - 1 {
      assert entries[i..] == [] + [entries[i]];
      CharsSnoc([], entries[i]);
    }
  }

  lemma {:induction false} CharsAppend(a: seq<string>, b: seq<string>)
    ensures Chars(a + b) == Chars(a) + Chars(b)
    decreases |b|
  {
    if b == [] {
      assert a + b == a;
    } else {
      assert (a + b)[..|a + b| - 1] == a + b[..|b| - 1];
      CharsAppend(a, b[..|b| - 1]);
    }
  }

  /** However long the session, the text exceeds the cap by at most 5,356 characters: entries are at
      least six characters each. */
  lemma SummaryIsBounded(turns: seq<Turn>)
    ensures |Summary(turns)| <= 21_356
  {
    hide Entries, Kept, ElidedMarker, NothingToKeep, ActiveStart, Join;
    var entries := Entries(turns[ActiveStart(turns)..]);
    EntriesAreLong(turns[ActiveStart(turns)..]);
    FixedTexts();
    if Kept(entries, CAP_CHARS) != [] {
      JoinLength(Kept(entries, CAP_CHARS), "\n\n");
      KeptIsBounded(entries);
    }
  }

  lemma FixedTexts()
    ensures |ElidedMarker()| == 24 && |NothingToKeep()| < 100
  {
  }

  lemma KeptIsBounded(entries: seq<string>)
    requires forall i :: 0 <= i < |entries| ==> |entries[i]| >= 6
    ensures Chars(Kept(entries, CAP_CHARS)) + 2 * (|Kept(entries, CAP_CHARS)| - 1) <= 21_356
  {
    hide Kept, ElidedMarker, Chars;
    var i, cut := NewestWin(entries, CAP_CHARS);
    CharsAtLeast(entries[i..]);
    FixedTexts();
    if cut > 0 {
      CharsCons(CutEntry(entries[i - 1], cut), entries[i..]);
    } else {
      assert Kept(entries, CAP_CHARS) == entries[i..];
    }
  }

  /** The bound is reached by 2,667 user turns without text: 2,666 entries of six characters and the
      last four characters of one more. */
  lemma BoundIsReached(turns: seq<Turn>)
    requires |turns| == 2_667 && forall i :: 0 <= i < |turns| ==> turns[i] == User("")
    ensures |Summary(turns)| == 21_356
  {
    hide Kept, ElidedMarker, Chars, Join, Entries, ActiveStart;
    UserTurns(turns);
    var entries := Entries(turns);
    assert turns[ActiveStart(turns)..] == turns;
    var i, cut := NewestWin(entries, CAP_CHARS);
    SixEach(entries[i..]);
    FixedTexts();
    CharsCons(CutEntry(entries[i - 1], cut), entries[i..]);
    JoinLength(Kept(entries, CAP_CHARS), "\n\n");
  }

  lemma {:induction false} UserTurns(turns: seq<Turn>)
    requires forall i :: 0 <= i < |turns| ==> turns[i] == User("")
    ensures ActiveStart(turns) == 0
    ensures |Entries(turns)| == |turns| && forall i :: 0 <= i < |turns| ==> |Entries(turns)[i]| == 6
  {
    if turns != [] {
      UserTurns(turns[..|turns| - 1]);
      assert Entry(User("")) == Some("User: " + "");
    }
  }

  lemma {:induction false} SixEach(entries: seq<string>)
    requires forall i :: 0 <= i < |entries| ==> |entries[i]| == 6
    ensures Chars(entries) == 6 * |entries|
  {
    if entries != [] {
      SixEach(entries[..|entries| - 1]);
    }
  }
}

/** The change journal behind `/rewind`: an undo log of pre-mutation file contents with a durable
    append-only form. Files are a map from paths to bytes; `Digest` stands for the content hash. */
module Journal {
  import opened Wrappers

  type Path = string

  type Bytes = seq<bv8>

  type Digest = Bytes -> string

  type Files = map<Path, Bytes>

  datatype Snapshot = Cas(digest: string, len: nat) | Inline(bytes: Bytes)

  datatype ChangeRecord = ChangeRecord(path: Path, prior: Option<Snapshot>, turn: nat)

  /** A line of the durable journal; `Torn` is one that does not parse. */
  datatype Line =
    | TurnLine(turn: nat)
    | ChangeLine(path: Path, priorExists: bool, digest: Option<string>, len: Option<nat>, turn: nat)
    | Torn

  /** Where snapshots go: nowhere (inline only), a temporary directory, or a durable root that also
      holds the line journal. */
  datatype Storage = NoDirectory | Temporary | Durable

  /** `lines` is the journal file; `terminated` says whether its last line ends in a newline. */
  datatype State = State(
    records: seq<ChangeRecord>,
    turn: nat,
    storage: Storage,
    blobs: map<string, Bytes>,
    lines: seq<Line>,
    terminated: bool)

  // ---------------------------------------------------------------------------------------
  // Operations on values
  // ---------------------------------------------------------------------------------------

  /** The entry is written at the end of the file and a newline after it. An entry written behind an
      unterminated line joins it into one line that does not parse. */
  function AppendLine(lines: seq<Line>, terminated: bool, line: Line): seq<Line> {
    if terminated || lines == [] then lines + [line] else lines[..|lines| - 1] + [Torn]
  }

  function Append(s: State, line: Line): State {
    if s.storage.Durable? then s.(lines := AppendLine(s.lines, s.terminated, line), terminated := true) else s
  }

  function Advance(s: State): State {
    Append(s.(turn := s.turn + 1), TurnLine(s.turn + 1))
  }

  /** Store bytes by content; fall back to keeping them inline. */
  function Store(s: State, bytes: Bytes, digest: Digest, writable: bool): (State, Snapshot) {
    var d := digest(bytes);
    if s.storage.NoDirectory? then (s, Inline(bytes))
    else
      var blobs := if d !in s.blobs && writable then s.blobs[d := bytes] else s.blobs;
      (s.(blobs := blobs), if d in blobs && |blobs[d]| == |bytes| then Cas(d, |bytes|) else Inline(bytes))
  }

  function LineOf(r: ChangeRecord): Line {
    match r.prior
    case Some(Cas(d, n)) => ChangeLine(r.path, true, Some(d), Some(n), r.turn)
    case Some(Inline(_)) => ChangeLine(r.path, true, None, None, r.turn)
    case None => ChangeLine(r.path, false, None, None, r.turn)
  }

  function RecordChange(s: State, path: Path, prior: Option<Bytes>, digest: Digest, writable: bool): State {
    var (stored, snapshot) := if prior.Some?
        then var (t, snap) := Store(s, prior.value, digest, writable); (t, Some(snap)) else (s, None);
    var r := ChangeRecord(path, snapshot, s.turn);
    Append(stored.(records := s.records + [r]), LineOf(r))
  }

  function Before(records: seq<ChangeRecord>, earliest: nat): seq<ChangeRecord> {
    if records == [] then []
    else Before(records[..|records| - 1], earliest) + if records[|records| - 1].turn < earliest
        then [records[|records| - 1]] else []
  }

  function From(records: seq<ChangeRecord>, earliest: nat): seq<ChangeRecord> {
    if records == [] then []
    else From(records[..|records| - 1], earliest) + if records[|records| - 1].turn >= earliest
        then [records[|records| - 1]] else []
  }

  function Reverse<T>(s: seq<T>): seq<T> {
    if s == [] then [] else [s[|s| - 1]] + Reverse(s[..|s| - 1])
  }

  function Lines(records: seq<ChangeRecord>): (r: seq<Line>)
    ensures |r| == |records|
    ensures forall i :: 0 <= i < |r| ==> r[i] == LineOf(records[i])
  {
    seq(|records|, i requires 0 <= i < |records| => LineOf(records[i]))
  }

  function Back(turn: nat, n: nat): nat {
    if turn < n then 0 else turn - n
  }

  function Rewound(s: State, n: nat): State {
    if n == 0 || s.records == [] then s
    else
      var kept := Before(s.records, Back(s.turn, n) + 1);
      var t := s.(records := kept, turn := Back(s.turn, n));
      if s.storage.Durable? then t.(lines := [TurnLine(t.turn)] + Lines(kept), terminated := true) else t
  }

  /** The popped records, newest first. */
  function Popped(s: State, n: nat): seq<ChangeRecord> {
    if n == 0 || s.records == [] then [] else Reverse(From(s.records, Back(s.turn, n) + 1))
  }

  // ---------------------------------------------------------------------------------------
  // The journal as the program holds it
  // ---------------------------------------------------------------------------------------

  class ChangeJournal {
    var records: seq<ChangeRecord>
    var turn: nat
    const storage: Storage
    var blobs: map<string, Bytes>
    var lines: seq<Line>
    var terminated: bool

    function Value(): State
      reads this
    {
      State(records, turn, storage, blobs, lines, terminated)
    }

    /** A fresh, non-durable journal. */
    constructor (hasDirectory: bool)
      ensures Value() == State([], 0, if hasDirectory then Temporary else NoDirectory, map[], [], true)
    {
      records, turn, blobs, lines, terminated := [], 0, map[], [], true;
      storage := if hasDirectory then Temporary else NoDirectory;
    }

    /** Reopen a durable journal: replay its lines up to the first that does not parse. */
    constructor Open(lines: seq<Line>, terminated: bool, blobs: map<string, Bytes>)
      ensures Value() == Opened(lines, terminated, blobs)
    {
      this.lines, this.terminated, this.blobs, storage := lines, terminated, blobs, Durable;
      records, turn := [], 0;
      new;
      var i := 0;
      while i < |lines| && !lines[i].Torn?
        invariant 0 <= i <= |lines|
        invariant this.lines == lines && this.terminated == terminated && this.blobs == blobs
        invariant forall k :: 0 <= k < i ==> !lines[k].Torn?
        invariant Replay(lines[..i]) == View(turn, records)
      {
        assert lines[..i + 1][..i] == lines[..i];
        CleanPrefix(lines[..i]);
        match lines[i] {
          case TurnLine(saved) => turn := saved;
          case ChangeLine(path, priorExists, digest, len, recordTurn) =>
            turn := if turn >= recordTurn then turn else recordTurn;
            var prior := if digest.Some? && len.Some? then Some(Cas(digest.value, len.value)) else None;
            if !(priorExists && prior.None?) {
              records := records + [ChangeRecord(path, prior, recordTurn)];
            }
        }
        i := i + 1;
      }
      if i < |lines| {
        ReplayStops(lines, i);
      } else {
        assert lines[..i] == lines;
      }
    }

    method AdvanceTurn()
      modifies this`turn, this`lines, this`terminated
      ensures Value() == Advance(old(Value()))
    {
      turn := turn + 1;
      AppendDurable(TurnLine(turn));
    }

    method RecordPrior(path: Path, prior: Option<Bytes>, digest: Digest, writable: bool)
      modifies this`records, this`blobs, this`lines, this`terminated
      ensures Value() == RecordChange(old(Value()), path, prior, digest, writable)
      ensures NoCollision(digest) && Filed(old(blobs), digest) && prior.Some? && !storage.NoDirectory? && writable ==>
                && records[|records| - 1] == ChangeRecord(path, Some(Cas(digest(prior.value), |prior.value|)), turn)
                && blobs == old(blobs)[digest(prior.value) := prior.value]
    {
      if NoCollision(digest) && Filed(blobs, digest) {
        RecordStoresExactly(Value(), path, prior, digest, writable);
      }
      var snapshot := None;
      if prior.Some? {
        var stored := StoreSnapshot(prior.value, digest, writable);
        snapshot := Some(stored);
      }
      var r := ChangeRecord(path, snapshot, turn);
      AppendDurable(LineOf(r));
      records := records + [r];
    }

    method StoreSnapshot(bytes: Bytes, digest: Digest, writable: bool) returns (snapshot: Snapshot)
      modifies this`blobs
      ensures (Value(), snapshot) == Store(old(Value()), bytes, digest, writable)
    {
      if storage.NoDirectory? {
        return Inline(bytes);
      }
      var d := digest(bytes);
      if d !in blobs && writable {
        blobs := blobs[d := bytes];
      }
      snapshot := if d in blobs && |blobs[d]| == |bytes| then Cas(d, |bytes|) else Inline(bytes);
    }

    method AppendDurable(line: Line)
      modifies this`lines, this`terminated
      ensures Value() == Append(old(Value()), line)
    {
      if storage.Durable? {
        if terminated || lines == [] {
          lines := lines + [line];
        } else {
          lines := lines[..|lines| - 1] + [Torn];
        }
        terminated := true;
      }
    }

    method RewriteDurable()
      modifies this`lines, this`terminated
      ensures lines == if storage.Durable? then [TurnLine(turn)] + Lines(records) else old(lines)
      ensures terminated == (storage.Durable? || old(terminated))
    {
      if storage.Durable? {
        var next := [TurnLine(turn)];
        for i := 0 to |records|
          invariant next == [TurnLine(turn)] + Lines(records)[..i]
          invariant lines == old(lines) && terminated == old(terminated)
        {
          next := next + [LineOf(records[i])];
        }
        lines, terminated := next, true;
      }
    }

    /** Pop the records of the last `n` turns, newest first, and step the turn pointer back. */
    method Rewind(n: nat) returns (taken: seq<ChangeRecord>)
      modifies this`records, this`turn, this`lines, this`terminated
      ensures Value() == Rewound(old(Value()), n)
      ensures taken == Popped(old(Value()), n)
    {
      if n == 0 || records == [] {
        return [];
      }
      var earliest := (if turn < n then 0 else turn - n) + 1;
      taken := [];
      var keep := [];
      for i := 0 to |records|
        invariant keep == Before(records[..i], earliest) && taken == From(records[..i], earliest)
        invariant Value() == old(Value())
      {
        assert records[..i + 1][..i] == records[..i];
        if records[i].turn >= earliest {
          taken := taken + [records[i]];
        } else {
          keep := keep + [records[i]];
        }
      }
      assert records[..|records|] == records;
      records := keep;
      turn := if turn < n then 0 else turn - n;
      RewriteDurable();
      taken := Reversed(taken);
    }

    method Reversed(s: seq<ChangeRecord>) returns (r: seq<ChangeRecord>)
      ensures r == Reverse(s)
    {
      r := [];
      for i := 0 to |s|
        invariant r == Reverse(s[..i])
      {
        assert s[..i + 1][..i] == s[..i];
        r := [s[i]] + r;
      }
      assert s[..|s|] == s;
    }
  }

  // ---------------------------------------------------------------------------------------
  // Restoring files
  // ---------------------------------------------------------------------------------------

  function Lookup(files: Files, path: Path): Option<Bytes> {
    if path in files then Some(files[path]) else None
  }

  function Put(files: Files, path: Path, content: Option<Bytes>): Files {
    if content.Some? then files[path := content.value] else files - {path}
  }

  /** A content-addressed snapshot whose blob is missing or has another length cannot be read. */
  function ReadSnapshot(blobs: map<string, Bytes>, s: Snapshot): Option<Bytes> {
    match s
    case Inline(bytes) => Some(bytes)
    case Cas(d, n) => if d in blobs && |blobs[d]| == n then Some(blobs[d]) else None
  }

  /** Put one file back: write the prior contents, or remove the file if it did not exist; an
      unreadable snapshot leaves the file alone. */
  function RestoreOne(files: Files, blobs: map<string, Bytes>, r: ChangeRecord): Files {
    match r.prior
    case None => Put(files, r.path, None)
    case Some(s) => var bytes := ReadSnapshot(blobs, s); if bytes.Some? then Put(files, r.path, bytes) else files
  }

  /** Restoring touches one file only: it gets what the record holds, is removed when there was none,
      and is left alone when the stored contents are gone or have another length. */
  lemma RestoreTold(files: Files, blobs: map<string, Bytes>, r: ChangeRecord, path: Path)
    ensures Lookup(RestoreOne(files, blobs, r), path) ==
            if path != r.path then Lookup(files, path)
            else match r.prior
              case None => None
              case Some(Inline(bytes)) => Some(bytes)
              case Some(Cas(d, n)) => if d in blobs && |blobs[d]| == n then Some(blobs[d]) else Lookup(files, path)
  {
  }

  function RestoreFiles(files: Files, blobs: map<string, Bytes>, records: seq<ChangeRecord>): Files
    decreases |records|
  {
    if records == [] then files else RestoreFiles(RestoreOne(files, blobs, records[0]), blobs, records[1..])
  }

  method RestoreAll(files0: Files, blobs: map<string, Bytes>, records: seq<ChangeRecord>) returns (files: Files)
    ensures files == RestoreFiles(files0, blobs, records)
  {
    files := files0;
    for i := 0 to |records|
      invariant RestoreFiles(files, blobs, records[i..]) == RestoreFiles(files0, blobs, records)
    {
      assert records[i..][1..] == records[i + 1..];
      files := RestoreOne(files, blobs, records[i]);
    }
  }

  // ---------------------------------------------------------------------------------------
  // Undo over whole runs
  // ---------------------------------------------------------------------------------------

  /** What happens to the journal and the files: a new turn, a journaled mutation of one file
      (recorded first), a rewind with its restoration, or a restart of the program, which reopens a
      durable journal and starts any other afresh. */
  datatype Op = NextTurn | Mutate(path: Path, content: Option<Bytes>, writable: bool) | RewindBy(n: nat) | Restart

  /** `atEnd[k]` remembers the files as they were when turn `k` ended. */
  datatype World = World(journal: State, files: Files, atEnd: seq<Files>)

  function TakeOp(w: World, op: Op, digest: Digest): World {
    match op
    case NextTurn => World(Advance(w.journal), w.files, w.atEnd + [w.files])
    case Mutate(path, content, writable) =>
      World(RecordChange(w.journal, path, Lookup(w.files, path), digest, writable), Put(w.files, path, content),
          w.atEnd)
    case RewindBy(n) =>
      var j := Rewound(w.journal, n);
      World(j, RestoreFiles(w.files, w.journal.blobs, Popped(w.journal, n)),
            if j.turn <= |w.atEnd| then w.atEnd[..j.turn] else w.atEnd)
    case Restart =>
      var j := w.journal;
      if j.storage.Durable? then w.(journal := Opened(j.lines, j.terminated, j.blobs))
      else World(State([], 0, j.storage, map[], j.lines, j.terminated), w.files, [])
  }

  function RunOps(w: World, ops: seq<Op>, digest: Digest): World {
    if ops == [] then w else TakeOp(RunOps(w, ops[..|ops| - 1], digest), ops[|ops| - 1], digest)
  }

  /** Different contents have different digests. */
  ghost predicate NoCollision(digest: Digest) {
    forall a: Bytes, b: Bytes :: digest(a) == digest(b) ==> a == b
  }

  /** Undo a list of records, given oldest first, from the newest to the oldest. */
  function Undone(files: Files, blobs: map<string, Bytes>, records: seq<ChangeRecord>): Files
    decreases |records|
  {
    if records == [] then files
    else Undone(RestoreOne(files, blobs, records[|records| - 1]), blobs, records[..|records| - 1])
  }

  lemma {:induction false} RestoreIsUndo(files: Files, blobs: map<string, Bytes>, records: seq<ChangeRecord>)
    ensures RestoreFiles(files, blobs, Reverse(records)) == Undone(files, blobs, records)
    decreases |records|
  {
    if records != [] {
      var last, init := records[|records| - 1], records[..|records| - 1];
      assert Reverse(records)[1..] == Reverse(init);
      RestoreIsUndo(RestoreOne(files, blobs, last), blobs, init);
    }
  }

  lemma {:induction false} UndoneAppend(files: Files, blobs: map<string, Bytes>, a: seq<ChangeRecord>,
      b: seq<ChangeRecord>)
    ensures Undone(files, blobs, a + b) == Undone(Undone(files, blobs, b), blobs, a)
    decreases |b|
  {
    if b == [] {
      assert a + b == a;
    } else {
      assert (a + b)[..|a + b| - 1] == a + b[..|b| - 1];
      UndoneAppend(RestoreOne(files, blobs, b[|b| - 1]), blobs, a, b[..|b| - 1]);
    }
  }

  ghost predicate Readable(blobs: map<string, Bytes>, r: ChangeRecord) {
    r.prior.Some? ==> ReadSnapshot(blobs, r.prior.value).Some?
  }

  ghost predicate Grows(before: map<string, Bytes>, after: map<string, Bytes>) {
    forall d :: d in before ==> d in after && after[d] == before[d]
  }

  lemma {:induction false} UndoneStable(files: Files, before: map<string, Bytes>, after: map<string, Bytes>,
      records: seq<ChangeRecord>)
    requires Grows(before, after)
    requires forall r :: r in records ==> Readable(before, r)
    ensures Undone(files, after, records) == Undone(files, before, records)
    decreases |records|
  {
    if records != [] {
      assert Readable(before, records[|records| - 1]);
      UndoneStable(RestoreOne(files, before, records[|records| - 1]), before, after, records[..|records| - 1]);
    }
  }

  /** Turn stamps never decrease along the journal and never exceed the current turn. */
  ghost predicate Ordered(records: seq<ChangeRecord>, turn: nat) {
    && (forall i, j :: 0 <= i < j < |records| ==> records[i].turn <= records[j].turn)
    && (forall i :: 0 <= i < |records| ==> records[i].turn <= turn)
  }

  lemma {:induction false} BeforeMembers(records: seq<ChangeRecord>, earliest: nat)
    ensures forall r :: r in Before(records, earliest) ==> r in records && r.turn < earliest
  {
    if records != [] {
      BeforeMembers(records[..|records| - 1], earliest);
    }
  }

  /** The records before a turn are again ordered, up to the turn before it. */
  lemma {:induction false} BeforeOrdered(records: seq<ChangeRecord>, turn: nat, last: nat)
    requires Ordered(records, turn)
    ensures Ordered(Before(records, last + 1), last)
  {
    BeforeMembers(records, last + 1);
    if records != [] {
      var init := records[..|records| - 1];
      BeforeOrdered(init, turn, last);
      BeforeMembers(init, last + 1);
    }
  }

  lemma {:induction false} NoneFrom(records: seq<ChangeRecord>, earliest: nat)
    requires forall r :: r in records ==> r.turn < earliest
    ensures From(records, earliest) == []
  {
    if records != [] {
      NoneFrom(records[..|records| - 1], earliest);
    }
  }

  /** A window that reaches further back is an older window followed by the nearer one. */
  lemma {:induction false} FromWithin(records: seq<ChangeRecord>, turn: nat, low: nat, high: nat)
    requires Ordered(records, turn) && low <= high
    ensures From(records, low) == From(Before(records, high), low) + From(records, high)
    ensures Before(Before(records, high), low) == Before(records, low)
    decreases |records|
  {
    if records != [] {
      var init, last := records[..|records| - 1], records[|records| - 1];
      FromWithin(init, turn, low, high);
      assert last.turn < high ==> forall r :: r in records ==> r.turn < high;
      assert records == init + [last];
      FromWithinSnoc(init, last, low, high);
    }
  }

  lemma FromWithinSnoc(init: seq<ChangeRecord>, last: ChangeRecord, low: nat, high: nat)
    requires low <= high && (last.turn < high ==> forall r :: r in init ==> r.turn < high)
    requires From(init, low) == From(Before(init, high), low) + From(init, high)
    requires Before(Before(init, high), low) == Before(init, low)
    ensures From(init + [last], low) == From(Before(init + [last], high), low) + From(init + [last], high)
    ensures Before(Before(init + [last], high), low) == Before(init + [last], low)
  {
    hide Before, From;
    BeforeSnoc(init, last, low);
    BeforeSnoc(init, last, high);
    if last.turn < high {
      NoneFrom(init, high);
      BeforeSnoc(Before(init, high), last, low);
      assert From(init + [last], high) == [];
      assert From(init, low) == From(Before(init, high), low);
    } else {
      assert Before(init + [last], high) == Before(init, high);
      assert From(init + [last], low) == From(Before(init, high), low) + (From(init, high) + [last]);
    }
  }

  lemma BeforeSnoc(records: seq<ChangeRecord>, last: ChangeRecord, earliest: nat)
    ensures Before(records + [last], earliest) == if last.turn < earliest then Before(records, earliest) + [last]
        else Before(records, earliest)
    ensures From(records + [last], earliest) == if last.turn < earliest then From(records, earliest)
        else From(records, earliest) + [last]
  {
  }

  ghost predicate UndoesTo(w: World, k: nat)
    requires k < |w.atEnd|
  {
    Undone(w.files, w.journal.blobs, From(w.journal.records, k + 1)) == w.atEnd[k]
  }

  /** What every run keeps: undoing the records of the turns after `k` gives the files of the end
      of turn `k`. */
  ghost predicate Undoable(w: World, digest: Digest) {
    && |w.atEnd| == w.journal.turn
    && Ordered(w.journal.records, w.journal.turn)
    && (forall r :: r in w.journal.records ==> Readable(w.journal.blobs, r))
    && Filed(w.journal.blobs, digest)
    && (forall k :: 0 <= k < |w.atEnd| ==> UndoesTo(w, k))
  }

  /** Blobs are filed under their own digest. */
  ghost predicate Filed(blobs: map<string, Bytes>, digest: Digest) {
    forall d :: d in blobs ==> digest(blobs[d]) == d
  }

  /** What recording a change keeps of the prior contents, whatever the store holds: a reference to a
      blob of that digest and length, if there is a directory and such a blob is in it or could be
      written, or else the contents themselves. */
  lemma RecordTold(s: State, path: Path, prior: Option<Bytes>, digest: Digest, writable: bool)
    ensures var t := RecordChange(s, path, prior, digest, writable);
            t.records != [] &&
            match (prior, t.records[|t.records| - 1].prior)
            case (None, p) => p.None?
            case (Some(bytes), Some(Cas(d, n))) =>
              && d == digest(bytes) && n == |bytes| && !s.storage.NoDirectory?
              && (if d in s.blobs then |s.blobs[d]| == n && t.blobs == s.blobs
                  else writable && t.blobs == s.blobs[d := bytes])
            case (Some(bytes), Some(Inline(kept))) =>
              && kept == bytes && t.blobs == s.blobs
              && (s.storage.NoDirectory?
                  || (digest(bytes) in s.blobs && |s.blobs[digest(bytes)]| != |bytes|)
                  || (digest(bytes) !in s.blobs && !writable))
            case (Some(_), None) => false
  {
  }

  /** What recording a change adds. The prior contents go into the store, under their digest, unless
      there is no directory, or the store neither holds them nor can be written; only then are they
      kept inline. A file that did not exist is recorded as such. */
  lemma RecordStoresExactly(s: State, path: Path, prior: Option<Bytes>, digest: Digest, writable: bool)
    requires NoCollision(digest) && Filed(s.blobs, digest)
    ensures var t := RecordChange(s, path, prior, digest, writable);
            && |t.records| == |s.records| + 1 && t.records[..|s.records|] == s.records
            && t.turn == s.turn && t.storage == s.storage && Filed(t.blobs, digest)
            && var r := t.records[|s.records|];
               && r.path == path && r.turn == s.turn && (r.prior.Some? <==> prior.Some?)
               && match prior
                  case None => t.blobs == s.blobs
                  case Some(bytes) =>
                    if s.storage.NoDirectory? || (!writable && digest(bytes) !in s.blobs)
                    then r.prior.value == Inline(bytes) && t.blobs == s.blobs
                    else r.prior.value == Cas(digest(bytes), |bytes|) && t.blobs == s.blobs[digest(bytes) := bytes]
  {
    if prior.Some? && digest(prior.value) in s.blobs {
      assert s.blobs[digest(prior.value)] == prior.value;
      assert s.blobs[digest(prior.value) := prior.value] == s.blobs;
    }
  }

  lemma StoreReadsBack(s: State, bytes: Bytes, digest: Digest, writable: bool)
    requires NoCollision(digest)
    requires Filed(s.blobs, digest)
    ensures var (t, snapshot) := Store(s, bytes, digest, writable);
            && t == s.(blobs := t.blobs) && Grows(s.blobs, t.blobs)
            && ReadSnapshot(t.blobs, snapshot) == Some(bytes)
            && Filed(t.blobs, digest)
  {
  }

  /** A record made before a mutation undoes exactly that mutation. */
  lemma RecordUndoes(w: World, path: Path, content: Option<Bytes>, writable: bool, digest: Digest)
    returns (r: ChangeRecord)
    requires NoCollision(digest)
    requires Filed(w.journal.blobs, digest)
    ensures var w' := TakeOp(w, Mutate(path, content, writable), digest);
            && w'.atEnd == w.atEnd && w'.journal.turn == w.journal.turn == r.turn
            && w'.journal.records == w.journal.records + [r]
            && Readable(w'.journal.blobs, r)
            && Grows(w.journal.blobs, w'.journal.blobs)
            && Filed(w'.journal.blobs, digest)
            && RestoreOne(w'.files, w'.journal.blobs, r) == w.files
  {
    hide NoCollision;
    var prior, w' := Lookup(w.files, path), TakeOp(w, Mutate(path, content, writable), digest);
    if prior.Some? {
      StoreReadsBack(w.journal, prior.value, digest, writable);
    }
    r := w'.journal.records[|w.journal.records|];
  }

  lemma MutationUndoes(w: World, w': World, r: ChangeRecord, k: nat)
    requires k < |w.atEnd| && w'.atEnd == w.atEnd && UndoesTo(w, k)
    requires forall r :: r in w.journal.records ==> Readable(w.journal.blobs, r)
    requires w'.journal.records == w.journal.records + [r] && k < r.turn
    requires Grows(w.journal.blobs, w'.journal.blobs)
    requires RestoreOne(w'.files, w'.journal.blobs, r) == w.files
    ensures UndoesTo(w', k)
  {
    var records := w.journal.records;
    var after := From(records, k + 1);
    BeforeSnoc(records, r, k + 1);
    FromReadable(records, w.journal.blobs, k + 1);
    UndoneStable(w.files, w.journal.blobs, w'.journal.blobs, after);
    hide From, Readable, Grows, RestoreOne;
    assert (after + [r])[..|after|] == after;
  }

  lemma MutateUndoable(w: World, path: Path, content: Option<Bytes>, writable: bool, digest: Digest)
    requires NoCollision(digest) && Undoable(w, digest)
    ensures Undoable(TakeOp(w, Mutate(path, content, writable), digest), digest)
  {
    var w' := TakeOp(w, Mutate(path, content, writable), digest);
    hide NoCollision, TakeOp, UndoesTo, RestoreOne, Undone, From;
    var r := RecordUndoes(w, path, content, writable, digest);
    forall k | 0 <= k < |w'.atEnd|
      ensures UndoesTo(w', k)
    {
      MutationUndoes(w, w', r, k);
    }
  }

  lemma {:induction false} FromReadable(records: seq<ChangeRecord>, blobs: map<string, Bytes>, earliest: nat)
    requires forall r :: r in records ==> Readable(blobs, r)
    ensures forall r :: r in From(records, earliest) ==> Readable(blobs, r)
    decreases |records|
  {
    if records != [] {
      FromReadable(records[..|records| - 1], blobs, earliest);
      assert Readable(blobs, records[|records| - 1]);
    }
  }

  lemma NextTurnUndoable(w: World, digest: Digest)
    requires Undoable(w, digest)
    ensures Undoable(TakeOp(w, NextTurn, digest), digest)
  {
    var w' := TakeOp(w, NextTurn, digest);
    forall k | 0 <= k < |w'.atEnd|
      ensures UndoesTo(w', k)
    {
      if k < |w.atEnd| {
        assert UndoesTo(w, k);
      } else {
        NoneFrom(w.journal.records, k + 1);
      }
    }
  }

  lemma RewoundUndoes(w: World, w': World, target: nat, k: nat)
    requires Ordered(w.journal.records, w.journal.turn)
    requires k < target <= |w.atEnd| && w'.atEnd == w.atEnd[..target] && UndoesTo(w, k)
    requires w'.journal.records == Before(w.journal.records, target + 1) && w'.journal.blobs == w.journal.blobs
    requires w'.files == Undone(w.files, w.journal.blobs, From(w.journal.records, target + 1))
    ensures UndoesTo(w', k)
  {
    hide Before, From, Undone, Ordered;
    FromWithin(w.journal.records, w.journal.turn, k + 1, target + 1);
    UndoneAppend(w.files, w.journal.blobs, From(w'.journal.records, k + 1), From(w.journal.records, target + 1));
  }

  /** What a rewind that has something to pop does to the files. */
  lemma RewindApplies(w: World, n: nat, digest: Digest)
    requires n > 0 && w.journal.records != [] && |w.atEnd| == w.journal.turn
    ensures var target := Back(w.journal.turn, n);
            var w' := TakeOp(w, RewindBy(n), digest);
            && w'.files == Undone(w.files, w.journal.blobs, From(w.journal.records, target + 1))
            && w'.atEnd == w.atEnd[..target] && w'.journal.turn == target
            && w'.journal.records == Before(w.journal.records, target + 1) && w'.journal.blobs == w.journal.blobs
  {
    hide Before, From, Undone, RestoreFiles, Reverse;
    RestoreIsUndo(w.files, w.journal.blobs, From(w.journal.records, Back(w.journal.turn, n) + 1));
  }

  lemma RewindUndoable(w: World, n: nat, digest: Digest)
    requires Undoable(w, digest)
    ensures Undoable(TakeOp(w, RewindBy(n), digest), digest)
    ensures n > 0 && w.journal.records != [] && w.journal.turn > 0 ==>
              TakeOp(w, RewindBy(n), digest).files == w.atEnd[Back(w.journal.turn, n)]
  {
    hide Before, From, Undone, RestoreFiles, Ordered;
    var j, w' := w.journal, TakeOp(w, RewindBy(n), digest);
    if n == 0 || j.records == [] {
      RewindNothing(w, n, digest);
    } else {
      hide TakeOp, Readable;
      var target := Back(j.turn, n);
      RewindApplies(w, n, digest);
      BeforeOrdered(j.records, j.turn, target);
      BeforeMembers(j.records, target + 1);
      if target < |w.atEnd| {
        assert UndoesTo(w, target);
      }
      forall k | 0 <= k < |w'.atEnd|
        ensures UndoesTo(w', k)
      {
        hide UndoesTo;
        RewoundUndoes(w, w', target, k);
      }
    }
  }

  lemma {:induction false} RewindNothing(w: World, n: nat, digest: Digest)
    requires |w.atEnd| == w.journal.turn && (n == 0 || w.journal.records == [])
    ensures TakeOp(w, RewindBy(n), digest) == w
  {
  }

  /** A journal that has just been created, over any files. */
  ghost predicate FreshWorld(w: World) {
    && w.journal.records == [] && w.journal.turn == 0 && w.journal.blobs == map[] && w.atEnd == []
    && w.journal.lines == [] && w.journal.terminated
  }

  /** Every snapshot is in the blob store. */
  ghost predicate AllStored(records: seq<ChangeRecord>) {
    forall r :: r in records ==> !IsInline(r)
  }

  predicate IsInline(r: ChangeRecord) {
    r.prior.Some? && r.prior.value.Inline?
  }

  /** No durable journal has an inline snapshot when the program is restarted. */
  ghost predicate StoredAtRestarts(w: World, ops: seq<Op>, digest: Digest) {
    forall i :: 0 <= i < |ops| && ops[i].Restart? ==>
      var j := RunOps(w, ops[..i], digest).journal; j.storage.Durable? ==> AllStored(j.records)
  }

  lemma StoredBefore(w: World, ops: seq<Op>, digest: Digest)
    requires StoredAtRestarts(w, ops, digest) && ops != []
    ensures StoredAtRestarts(w, ops[..|ops| - 1], digest)
  {
    var init := ops[..|ops| - 1];
    forall i | 0 <= i < |init| && init[i].Restart?
      ensures var j := RunOps(w, init[..i], digest).journal; j.storage.Durable? ==> AllStored(j.records)
    {
      assert init[..i] == ops[..i] && ops[i].Restart?;
    }
  }

  /** What every run keeps: everything can be undone and, for a durable journal, the file mirrors
      the memory. */
  lemma {:induction false} RunUndoable(w: World, ops: seq<Op>, digest: Digest)
    requires NoCollision(digest) && FreshWorld(w) && StoredAtRestarts(w, ops, digest)
    ensures var v := RunOps(w, ops, digest);
            && Undoable(v, digest) && v.journal.storage == w.journal.storage
            && (v.journal.storage.Durable? ==> Persisted(v.journal))
    decreases |ops|
  {
    if ops == [] {
      NothingPersisted(w.journal);
    } else {
      var before := RunOps(w, ops[..|ops| - 1], digest);
      StoredBefore(w, ops, digest);
      RunUndoable(w, ops[..|ops| - 1], digest);
      assert ops[|ops| - 1].Restart? && before.journal.storage.Durable? ==> AllStored(before.journal.records);
      hide Undoable, Persisted, NoCollision, FreshWorld, StoredAtRestarts, AllStored;
      StepPersisted(before, ops[|ops| - 1], digest);
      match ops[|ops| - 1]
      case NextTurn => NextTurnUndoable(before, digest);
      case Mutate(path, content, writable) => MutateUndoable(before, path, content, writable, digest);
      case RewindBy(n) => RewindUndoable(before, n, digest);
      case Restart => RestartUndoable(before, digest);
    }
  }

  ghost predicate Writable(ops: seq<Op>) {
    forall i :: 0 <= i < |ops| && ops[i].Mutate? ==> ops[i].writable
  }

  lemma {:induction false} WritableStores(w: World, ops: seq<Op>, digest: Digest)
    requires NoCollision(digest) && FreshWorld(w) && Writable(ops)
    ensures KeepsStored(RunOps(w, ops, digest).journal, digest)
    decreases |ops|
  {
    if ops != [] {
      hide NoCollision, KeepsStored, TakeOp, FreshWorld;
      var init := ops[..|ops| - 1];
      assert forall i :: 0 <= i < |init| ==> init[i] == ops[i];
      WritableStores(w, init, digest);
      StepStores(RunOps(w, init, digest), ops[|ops| - 1], digest);
    }
  }

  ghost predicate KeepsStored(j: State, digest: Digest) {
    Filed(j.blobs, digest) && (j.storage.Durable? ==> AllStored(j.records))
  }

  lemma StepStores(w: World, op: Op, digest: Digest)
    requires NoCollision(digest) && KeepsStored(w.journal, digest) && (op.Mutate? ==> op.writable)
    ensures KeepsStored(TakeOp(w, op, digest).journal, digest)
  {
    match op
    case NextTurn =>
    case Mutate(path, content, writable) => RecordStores(w.journal, path, Lookup(w.files, path), digest);
    case RewindBy(n) => BeforeMembers(w.journal.records, Back(w.journal.turn, n) + 1);
    case Restart => ReplayStored(w.journal.lines);
  }

  lemma RecordStores(s: State, path: Path, prior: Option<Bytes>, digest: Digest)
    requires NoCollision(digest) && KeepsStored(s, digest)
    ensures KeepsStored(RecordChange(s, path, prior, digest, true), digest)
  {
    RecordStoresExactly(s, path, prior, digest, true);
    var t := RecordChange(s, path, prior, digest, true);
    hide RecordChange, NoCollision, Filed;
    if s.storage.Durable? {
      StoredSnoc(s, t);
    }
  }

  lemma {:induction false} ReplayStored(lines: seq<Line>)
    ensures AllStored(Replay(lines).records)
    decreases |lines|
  {
    if lines != [] {
      ReplayStored(lines[..|lines| - 1]);
    }
  }

  lemma StoredSnoc(s: State, t: State)
    requires |t.records| == |s.records| + 1 && t.records[..|s.records|] == s.records
    requires AllStored(s.records) && !IsInline(t.records[|s.records|])
    ensures AllStored(t.records)
  {
    assert t.records == s.records + [t.records[|s.records|]];
  }

  /** When every snapshot could be written, none is inline at a restart. */
  lemma WritableIsStored(w: World, ops: seq<Op>, digest: Digest)
    requires NoCollision(digest) && FreshWorld(w) && Writable(ops)
    ensures StoredAtRestarts(w, ops, digest)
  {
    hide AllStored, NoCollision, FreshWorld, Filed, RunOps;
    forall i | 0 <= i < |ops| && ops[i].Restart?
      ensures var j := RunOps(w, ops[..i], digest).journal; j.storage.Durable? ==> AllStored(j.records)
    {
      assert forall k :: 0 <= k < i ==> ops[..i][k] == ops[k];
      WritableStores(w, ops[..i], digest);
    }
  }

  lemma RestartUndoable(w: World, digest: Digest)
    requires Undoable(w, digest) && (w.journal.storage.Durable? ==>
        Persisted(w.journal) && AllStored(w.journal.records))
    ensures Undoable(TakeOp(w, Restart, digest), digest)
    ensures w.journal.storage.Durable? ==> TakeOp(w, Restart, digest) == w
  {
    if w.journal.storage.Durable? {
      AllSurvive(w.journal.records);
    }
  }

  lemma {:induction false} AllSurvive(records: seq<ChangeRecord>)
    requires AllStored(records)
    ensures Survivors(records) == records
  {
    if records != [] {
      assert records[|records| - 1] in records;
      AllSurvive(records[..|records| - 1]);
    }
  }

  /** After any run of turns, journaled mutations, rewinds and restarts, rewinding `n` turns restores
      every file exactly as it was when the turn `n` turns ago ended (the oldest turn end when `n`
      reaches further back), if every snapshot had been stored when the program was restarted. */
  lemma RewindRestores(w0: World, ops: seq<Op>, n: nat, digest: Digest)
    requires NoCollision(digest) && FreshWorld(w0) && StoredAtRestarts(w0, ops, digest)
    ensures var w := RunOps(w0, ops, digest);
            && |w.atEnd| == w.journal.turn
            && RestoreFiles(w.files, w.journal.blobs, Popped(w.journal, n)) ==
               if n == 0 || w.journal.turn == 0 then w.files else w.atEnd[Back(w.journal.turn, n)]
  {
    RunUndoable(w0, ops, digest);
    hide RunOps, NoCollision, StoredAtRestarts, Persisted;
    RewindGoesBack(RunOps(w0, ops, digest), n, digest);
  }

  /** When the store can be written, undo works across any turns, mutations, rewinds and restarts. */
  lemma WritableRewindRestores(w0: World, ops: seq<Op>, n: nat, digest: Digest)
    requires NoCollision(digest) && FreshWorld(w0) && Writable(ops)
    ensures var w := RunOps(w0, ops, digest);
            && |w.atEnd| == w.journal.turn
            && RestoreFiles(w.files, w.journal.blobs, Popped(w.journal, n)) ==
               if n == 0 || w.journal.turn == 0 then w.files else w.atEnd[Back(w.journal.turn, n)]
  {
    WritableIsStored(w0, ops, digest);
    RewindRestores(w0, ops, n, digest);
  }

  // ---------------------------------------------------------------------------------------
  // Rewinding after snapshots were lost
  // ---------------------------------------------------------------------------------------

  /** The oldest record of a file. */
  function Oldest(records: seq<ChangeRecord>, path: Path): Option<ChangeRecord> {
    if records == [] then None
    else
      var before := Oldest(records[..|records| - 1], path);
      if before.Some? then before
      else if records[|records| - 1].path == path then Some(records[|records| - 1]) else None
  }

  /** What undoing the records leaves in a file: the contents its oldest record holds. */
  function Expected(files: Files, blobs: map<string, Bytes>, records: seq<ChangeRecord>, path: Path): Option<Bytes> {
    var r := Oldest(records, path);
    if r.None? then Lookup(files, path)
    else if r.value.prior.None? then None
    else ReadSnapshot(blobs, r.value.prior.value)
  }

  lemma {:induction false} UndoneAt(files: Files, blobs: map<string, Bytes>, records: seq<ChangeRecord>, path: Path)
    requires forall r :: r in records ==> Readable(blobs, r)
    ensures Lookup(Undone(files, blobs, records), path) == Expected(files, blobs, records, path)
    decreases |records|
  {
    if records != [] {
      var init, last := records[..|records| - 1], records[|records| - 1];
      assert Readable(blobs, last);
      UndoneAt(RestoreOne(files, blobs, last), blobs, init, path);
    }
  }

  lemma {:induction false} SurvivorsFrom(records: seq<ChangeRecord>, earliest: nat)
    ensures From(Survivors(records), earliest) == Survivors(From(records, earliest))
    ensures forall r :: r in Survivors(records) ==> r in records
  {
    if records != [] {
      var init, last := records[..|records| - 1], records[|records| - 1];
      SurvivorsFrom(init, earliest);
      BeforeSnoc(Survivors(init), last, earliest);
      SurvivorsOfSnoc(From(init, earliest), last);
      assert Survivors(init) + [] == Survivors(init) && From(init, earliest) + [] == From(init, earliest);
    }
  }

  lemma SurvivorsOfSnoc(records: seq<ChangeRecord>, last: ChangeRecord)
    ensures Survivors(records + [last]) == if IsInline(last) then Survivors(records) else Survivors(records) + [last]
  {
  }

  lemma {:induction false} OldestSurvives(records: seq<ChangeRecord>, path: Path)
    ensures var r := Oldest(records, path);
            r.None? || !IsInline(r.value) ==> Oldest(Survivors(records), path) == r
    decreases |records|
  {
    if records != [] {
      var init, last := records[..|records| - 1], records[|records| - 1];
      OldestSurvives(init, path);
      if !IsInline(last) {
        assert Survivors(records)[..|Survivors(init)|] == Survivors(init);
      } else {
        assert Survivors(records) == Survivors(init);
      }
    }
  }

  /** A restart of a durable journal loses the inline snapshots. A rewind after it leaves in each file
      what the oldest remaining record of the undone turns holds: the right contents whenever the
      oldest record of all was not one of those lost. */
  lemma RewindAfterLoss(w: World, n: nat, path: Path, digest: Digest)
    requires Undoable(w, digest) && w.journal.storage.Durable? && Persisted(w.journal) && n > 0 && w.journal.turn > 0
    ensures var target := Back(w.journal.turn, n);
            var undone := From(w.journal.records, target + 1);
            var after := TakeOp(TakeOp(w, Restart, digest), RewindBy(n), digest).files;
            && Lookup(after, path) == Expected(w.files, w.journal.blobs, Survivors(undone), path)
            && Lookup(w.atEnd[target], path) == Expected(w.files, w.journal.blobs, undone, path)
            && (Oldest(undone, path).None? || !IsInline(Oldest(undone, path).value) ==>
                  Lookup(after, path) == Lookup(w.atEnd[target], path))
  {
    hide Before, Undone, RestoreFiles, Ordered, Readable, Expected, Oldest, Survivors, NoCollision;
    var target := Back(w.journal.turn, n);
    var undone := From(w.journal.records, target + 1);
    assert UndoesTo(w, target);
    SurvivorsFrom(w.journal.records, target + 1);
    FromReadable(w.journal.records, w.journal.blobs, target + 1);
    SurvivorsFrom(undone, target + 1);
    UndoneAt(w.files, w.journal.blobs, undone, path);
    UndoneAt(w.files, w.journal.blobs, Survivors(undone), path);
    ReopenedRewind(w, n, digest);
    OldestSurvives(undone, path);
    SameOldest(w.files, w.journal.blobs, undone, Survivors(undone), path);
  }

  lemma SameOldest(files: Files, blobs: map<string, Bytes>, a: seq<ChangeRecord>, b: seq<ChangeRecord>, path: Path)
    ensures Oldest(a, path) == Oldest(b, path) ==> Expected(files, blobs, a, path) == Expected(files, blobs, b, path)
  {
  }

  lemma ReopenedRewind(w: World, n: nat, digest: Digest)
    requires |w.atEnd| == w.journal.turn && Persisted(w.journal) && n > 0
    ensures TakeOp(TakeOp(w, Restart, digest), RewindBy(n), digest).files ==
            Undone(w.files, w.journal.blobs, From(Survivors(w.journal.records), Back(w.journal.turn, n) + 1))
  {
    hide Before, From, Undone, RestoreFiles, Reverse, Ordered, Clean, Forward, Survivors;
    var w' := TakeOp(w, Restart, digest);
    assert w' == w.(journal := w'.journal) && w'.journal.records == Survivors(w.journal.records)
        && w'.journal.turn == w.journal.turn && w'.journal.blobs == w.journal.blobs;
    if w'.journal.records == [] {
      hide TakeOp;
      RewindNothing(w', n, digest);
      NothingLeft(Back(w.journal.turn, n) + 1);
      NothingToUndo(w.files, w.journal.blobs);
    } else {
      hide TakeOp;
      RewindApplies(w', n, digest);
    }
  }

  lemma RewindGoesBack(w: World, n: nat, digest: Digest)
    requires Undoable(w, digest)
    ensures RestoreFiles(w.files, w.journal.blobs, Popped(w.journal, n)) ==
            if n == 0 || w.journal.turn == 0 then w.files else w.atEnd[Back(w.journal.turn, n)]
  {
    hide Rewound, From, Before, Undone, Ordered, Readable;
    RewindUndoable(w, n, digest);
    if n > 0 && w.journal.records == [] {
      NothingLeft(Back(w.journal.turn, n) + 1);
      if w.journal.turn > 0 {
        assert UndoesTo(w, Back(w.journal.turn, n));
        NothingToUndo(w.files, w.journal.blobs);
      }
    } else if w.journal.turn == 0 && n > 0 {
      NothingAfter(w.journal.records);
      NothingLeft(1);
    }
  }

  lemma NothingToUndo(files: Files, blobs: map<string, Bytes>)
    ensures Undone(files, blobs, []) == files
  {
  }

  lemma NothingAfter(records: seq<ChangeRecord>)
    requires Ordered(records, 0)
    ensures From(records, 1) == []
  {
  }

  // ---------------------------------------------------------------------------------------
  // Rewinding in steps
  // ---------------------------------------------------------------------------------------

  lemma {:induction false} ReverseAppend<T>(a: seq<T>, b: seq<T>)
    ensures Reverse(a + b) == Reverse(b) + Reverse(a)
    decreases |b|
  {
    if b == [] {
      assert a + b == a;
    } else {
      assert (a + b)[..|a + b| - 1] == a + b[..|b| - 1];
      ReverseAppend(a, b[..|b| - 1]);
    }
  }

  /** Two rewinds pop the same records, in the same order, as one rewind of the sum. The turn
      pointers agree too, exactly unless the first rewind emptied the journal before the second
      could move the pointer. */
  lemma RewindInSteps(s: State, a: nat, b: nat)
    requires Ordered(s.records, s.turn)
    ensures Popped(s, a) + Popped(Rewound(s, a), b) == Popped(s, a + b)
    ensures Rewound(Rewound(s, a), b).records == Rewound(s, a + b).records
    ensures Rewound(Rewound(s, a), b).turn == Rewound(s, a + b).turn <==>
            s.records == [] || a == 0 || b == 0 || Rewound(s, a).records != [] || s.turn <= a
  {
    hide Before, From, Reverse, Ordered, Rewound, Popped;
    RewindPops(s, a);
    RewindPops(s, b);
    RewindPops(s, a + b);
    RewindPops(Rewound(s, a), b);
    if a > 0 && b > 0 && s.records != [] {
      var s1 := Rewound(s, a);
      var low, high := Back(s.turn, a + b) + 1, Back(s.turn, a) + 1;
      FromWithin(s.records, s.turn, low, high);
      ReverseAppend(From(s1.records, low), From(s.records, high));
      NothingLeft(low);
    }
  }

  lemma RewindPops(s: State, n: nat)
    ensures n == 0 || s.records == [] ==> Rewound(s, n) == s && Popped(s, n) == []
    ensures n > 0 && s.records != [] ==>
              && Rewound(s, n).records == Before(s.records, Back(s.turn, n) + 1)
              && Rewound(s, n).turn == Back(s.turn, n)
              && Rewound(s, n).storage == s.storage
              && Popped(s, n) == Reverse(From(s.records, Back(s.turn, n) + 1))
              && (s.storage.Durable? ==>
                    && Rewound(s, n).terminated
                    && Rewound(s, n).lines == [TurnLine(Rewound(s, n).turn)] + Lines(Rewound(s, n).records))
  {
  }

  lemma NothingLeft(earliest: nat)
    ensures Before([], earliest) == [] && From([], earliest) == [] && Reverse<ChangeRecord>([]) == []
  {
  }

  // ---------------------------------------------------------------------------------------
  // Durable replay
  // ---------------------------------------------------------------------------------------

  /** What a reopened journal shows. */
  datatype Replayed = View(turn: nat, records: seq<ChangeRecord>)

  predicate Clean(lines: seq<Line>) {
    Torn !in lines
  }

  function ReplayLine(v: Replayed, line: Line): Replayed
    requires !line.Torn?
  {
    match line
    case TurnLine(saved) => View(saved, v.records)
    case ChangeLine(path, priorExists, digest, len, recordTurn) =>
      var turn := if v.turn >= recordTurn then v.turn else recordTurn;
      var prior := if digest.Some? && len.Some? then Some(Cas(digest.value, len.value)) else None;
      if priorExists && prior.None? then View(turn, v.records)
      else View(turn, v.records + [ChangeRecord(path, prior, recordTurn)])
  }

  /** Replay stops at the first line that does not parse. */
  function Replay(lines: seq<Line>): Replayed {
    if lines == [] then View(0, [])
    else
      var init := lines[..|lines| - 1];
      var v := Replay(init);
      if Clean(lines) then ReplayLine(v, lines[|lines| - 1]) else v
  }

  /** Reading the lines from the first to the first that does not parse. A turn line sets the turn, a
      change line raises it to its own; the change is brought back when its snapshot was stored, or when
      there was no file. */
  function ReadOn(turn: nat, records: seq<ChangeRecord>, lines: seq<Line>): Replayed
    decreases |lines|
  {
    if lines == [] || lines[0].Torn? then View(turn, records)
    else
      match lines[0]
      case TurnLine(saved) => ReadOn(saved, records, lines[1..])
      case ChangeLine(path, priorExists, digest, len, stamp) =>
        ReadOn(if turn < stamp then stamp else turn,
               records + BroughtBack(path, priorExists, digest, len, stamp), lines[1..])
  }

  function BroughtBack(path: Path, priorExists: bool, digest: Option<string>, len: Option<nat>, stamp: nat)
    : seq<ChangeRecord>
  {
    match (digest, len)
    case (Some(d), Some(n)) => [ChangeRecord(path, Some(Cas(d, n)), stamp)]
    case (_, _) => if priorExists then [] else [ChangeRecord(path, None, stamp)]
  }

  lemma ReadOne(v: Replayed, line: Line)
    requires !line.Torn?
    ensures ReadOn(v.turn, v.records, [line]) == ReplayLine(v, line)
  {
    assert [line][1..] == [];
    if line.ChangeLine? {
      assert v.records + [] == v.records;
    }
  }

  lemma {:induction false} ReadOneMore(turn: nat, records: seq<ChangeRecord>, init: seq<Line>, last: Line)
    ensures ReadOn(turn, records, init + [last]) ==
            if Torn in init then ReadOn(turn, records, init)
            else var v := ReadOn(turn, records, init); ReadOn(v.turn, v.records, [last])
    decreases |init|
  {
    hide BroughtBack;
    if init == [] {
      assert init + [last] == [last];
    } else {
      assert (init + [last])[1..] == init[1..] + [last];
      assert Torn in init <==> init[0].Torn? || Torn in init[1..];
      match init[0]
      case TurnLine(saved) => ReadOneMore(saved, records, init[1..], last);
      case ChangeLine(path, priorExists, digest, len, stamp) =>
        ReadOneMore(if turn < stamp then stamp else turn,
                    records + BroughtBack(path, priorExists, digest, len, stamp), init[1..], last);
      case Torn =>
    }
  }

  /** Replay told from the lines. */
  lemma {:induction false} ReplayTold(lines: seq<Line>)
    ensures Replay(lines) == ReadOn(0, [], lines)
    decreases |lines|
  {
    if lines != [] {
      var init, last := lines[..|lines| - 1], lines[|lines| - 1];
      ReplayTold(init);
      ReadOneMore(0, [], init, last);
      assert lines == init + [last];
      if !last.Torn? {
        ReadOne(Replay(init), last);
      }
      assert Torn in lines <==> Torn in init || last.Torn?;
    }
  }

  lemma CleanPrefix(lines: seq<Line>)
    requires forall k :: 0 <= k < |lines| ==> !lines[k].Torn?
    ensures Clean(lines)
  {
  }

  lemma {:induction false} ReplayStops(lines: seq<Line>, i: nat)
    requires i < |lines| && lines[i].Torn?
    ensures Replay(lines) == Replay(lines[..|lines| - 1])
    ensures Replay(lines) == Replay(lines[..i])
    decreases |lines|
  {
    assert Torn in lines;
    if i < |lines| - 1 {
      ReplayStops(lines[..|lines| - 1], i);
      assert lines[..|lines| - 1][..i] == lines[..i];
    }
  }

  /** An inline snapshot has no durable reference and does not survive a restart. */
  function Survivors(records: seq<ChangeRecord>): seq<ChangeRecord> {
    if records == [] then []
    else
      var last := records[|records| - 1];
      Survivors(records[..|records| - 1]) + if last.prior.Some? && last.prior.value.Inline? then [] else [last]
  }

  function Opened(lines: seq<Line>, terminated: bool, blobs: map<string, Bytes>): State {
    var v := Replay(lines);
    State(v.records, v.turn, Durable, blobs, lines, terminated)
  }

  /** The lines on disk replay to the turn and the surviving records in memory, and the next entry
      will get a line of its own. */
  ghost predicate Mirrors(s: State) {
    && s.storage.Durable? && Clean(s.lines) && s.terminated
    && Replay(s.lines) == View(s.turn, Survivors(s.records))
  }

  /** A turn line never goes back behind the turn replayed so far. */
  ghost predicate Forward(lines: seq<Line>) {
    forall k :: 0 <= k < |lines| && lines[k].TurnLine? ==> Replay(lines[..k]).turn <= lines[k].turn
  }

  ghost predicate Persisted(s: State) {
    Mirrors(s) && Ordered(s.records, s.turn) && Forward(s.lines)
  }

  lemma ForwardSnoc(lines: seq<Line>, line: Line)
    requires Forward(lines) && (line.TurnLine? ==> Replay(lines).turn <= line.turn)
    ensures Forward(lines + [line])
  {
    var more := lines + [line];
    forall k | 0 <= k < |more| && more[k].TurnLine?
      ensures Replay(more[..k]).turn <= more[k].turn
    {
      assert k < |lines| ==> more[..k] == lines[..k];
      assert k == |lines| ==> more[..k] == lines;
    }
  }

  lemma NothingPersisted(j: State)
    requires j.records == [] && j.turn == 0 && j.lines == [] && j.terminated
    ensures j.storage.Durable? ==> Persisted(j)
  {
  }

  lemma ReplaySnoc(lines: seq<Line>, line: Line)
    ensures Clean(lines) && !line.Torn? ==>
        Clean(lines + [line]) && Replay(lines + [line]) == ReplayLine(Replay(lines), line)
    ensures !Clean(lines) || line.Torn? ==> Replay(lines + [line]) == Replay(lines)
  {
  }

  lemma AdvancePersisted(s: State)
    requires Persisted(s)
    ensures Persisted(Advance(s))
  {
    hide Clean, Replay, Forward;
    ReplaySnoc(s.lines, TurnLine(s.turn + 1));
    ForwardSnoc(s.lines, TurnLine(s.turn + 1));
  }

  lemma RecordPersisted(s: State, path: Path, prior: Option<Bytes>, digest: Digest, writable: bool)
    requires Persisted(s)
    ensures Persisted(RecordChange(s, path, prior, digest, writable))
  {
    hide Store, RecordChange, LineOf, Clean, Replay, ReplayLine, Survivors, Ordered, Forward;
    var r := RecordAppends(s, path, prior, digest, writable);
    ReplaySnoc(s.lines, LineOf(r));
    ForwardSnoc(s.lines, LineOf(r));
    SurvivorsSnoc(s.records, r, s.turn);
    OrderedSnoc(s.records, r, s.turn);
  }

  lemma RecordAppends(s: State, path: Path, prior: Option<Bytes>, digest: Digest, writable: bool)
    returns (r: ChangeRecord)
    requires s.storage.Durable? && s.terminated
    ensures RecordChange(s, path, prior, digest, writable) ==
            s.(records := s.records + [r], lines := s.lines + [LineOf(r)],
                blobs := RecordChange(s, path, prior, digest, writable).blobs)
    ensures r.turn == s.turn && LineOf(r).ChangeLine?
  {
    r := RecordChange(s, path, prior, digest, writable).records[|s.records|];
  }

  lemma SurvivorsSnoc(records: seq<ChangeRecord>, last: ChangeRecord, turn: nat)
    requires last.turn <= turn
    ensures ReplayLine(View(turn, Survivors(records)), LineOf(last)) == View(turn, Survivors(records + [last]))
  {
  }

  lemma TurnAlone(turn: nat)
    ensures Clean([TurnLine(turn)]) && Replay([TurnLine(turn)]) == View(turn, Survivors([]))
  {
    ReplaySnoc([], TurnLine(turn));
    assert [TurnLine(turn)] == [] + [TurnLine(turn)];
  }

  lemma {:induction false} RewriteReplays(turn: nat, records: seq<ChangeRecord>)
    requires forall i :: 0 <= i < |records| ==> records[i].turn <= turn
    ensures Clean([TurnLine(turn)] + Lines(records))
    ensures Replay([TurnLine(turn)] + Lines(records)) == View(turn, Survivors(records))
    decreases |records|
  {
    hide Replay, ReplayLine, Survivors, Clean;
    if records == [] {
      TurnAlone(turn);
      assert [TurnLine(turn)] + Lines(records) == [TurnLine(turn)];
    } else {
      var init, last := records[..|records| - 1], records[|records| - 1];
      RewriteReplays(turn, init);
      ReplaySnoc([TurnLine(turn)] + Lines(init), LineOf(last));
      SurvivorsSnoc(init, last, turn);
      assert records == init + [last];
      assert [TurnLine(turn)] + Lines(records) == [TurnLine(turn)] + Lines(init) + [LineOf(last)];
    }
  }

  lemma OrderedSnoc(records: seq<ChangeRecord>, last: ChangeRecord, turn: nat)
    requires Ordered(records, last.turn) && last.turn <= turn
    ensures Ordered(records, turn) && Ordered(records + [last], turn)
  {
  }

  /** A rewind that pops something writes a file that mirrors the memory, whatever was there. */
  lemma RewindMirrors(s: State, n: nat)
    requires s.storage.Durable? && n > 0 && s.records != []
    ensures Mirrors(Rewound(s, n)) && Forward(Rewound(s, n).lines)
  {
    hide Before, From, Reverse, Rewound, Popped, Mirrors, Forward, Lines, Back;
    RewindPops(s, n);
    BeforeMembers(s.records, Back(s.turn, n) + 1);
    RewrittenMirrors(Rewound(s, n));
  }

  lemma RewrittenMirrors(s: State)
    requires s.storage.Durable? && s.terminated && s.lines == [TurnLine(s.turn)] + Lines(s.records)
    requires forall r :: r in s.records ==> r.turn <= s.turn
    ensures Mirrors(s) && Forward(s.lines)
  {
    hide Replay, Survivors, Clean, Forward;
    RewriteReplays(s.turn, s.records);
    RewrittenForward(s.turn, s.records);
  }

  lemma RewrittenForward(turn: nat, records: seq<ChangeRecord>)
    ensures Forward([TurnLine(turn)] + Lines(records))
  {
    var lines := [TurnLine(turn)] + Lines(records);
    assert lines[..0] == [];
  }

  lemma RewindPersisted(s: State, n: nat)
    requires s.storage.Durable? && Persisted(s)
    ensures Persisted(Rewound(s, n))
  {
    hide Before, From, Reverse, Rewound, Popped, Lines, Back, Mirrors, Forward, Ordered;
    RewindPops(s, n);
    if n > 0 && s.records != [] {
      RewindMirrors(s, n);
      BeforeOrdered(s.records, s.turn, Back(s.turn, n));
    }
  }

  lemma {:induction false} SurvivorsOrdered(records: seq<ChangeRecord>, turn: nat)
    requires Ordered(records, turn)
    ensures Ordered(Survivors(records), turn) && Survivors(Survivors(records)) == Survivors(records)
    decreases |records|
  {
    if records != [] {
      var init, last := records[..|records| - 1], records[|records| - 1];
      SurvivorsOrdered(init, last.turn);
      SurvivorsOfSnoc(Survivors(init), last);
      OrderedSnoc(Survivors(init), last, turn);
    }
  }

  lemma RestartPersisted(w: World, digest: Digest)
    requires Persisted(w.journal)
    ensures Persisted(TakeOp(w, Restart, digest).journal)
  {
    SurvivorsOrdered(w.journal.records, w.journal.turn);
    hide Ordered, Clean, Forward, Replay, Survivors;
  }

  lemma StepPersisted(w: World, op: Op, digest: Digest)
    requires w.journal.storage.Durable? ==> Persisted(w.journal)
    ensures TakeOp(w, op, digest).journal.storage == w.journal.storage
    ensures w.journal.storage.Durable? ==> Persisted(TakeOp(w, op, digest).journal)
  {
    hide Persisted, Before, From, RestoreFiles, Lines;
    if w.journal.storage.Durable? {
      match op
      case NextTurn => AdvancePersisted(w.journal);
      case Mutate(path, content, writable) => RecordPersisted(w.journal, path, Lookup(w.files, path), digest, writable);
      case RewindBy(n) => RewindPersisted(w.journal, n);
      case Restart => RestartPersisted(w, digest);
    }
  }

  /** After any sequence of turns, records, rewinds and restarts on a journal whose file is whole,
      reopening the lines gives back the turn number and the records, minus inline snapshots. */
  lemma {:induction false} ReopenAgrees(w: World, ops: seq<Op>, digest: Digest)
    requires w.journal.storage.Durable? && Persisted(w.journal)
    ensures var j := RunOps(w, ops, digest).journal;
            Persisted(j) && Opened(j.lines, j.terminated, j.blobs) == j.(records := Survivors(j.records))
    decreases |ops|
  {
    if ops != [] {
      ReopenAgrees(w, ops[..|ops| - 1], digest);
      var before := RunOps(w, ops[..|ops| - 1], digest);
      assert before.journal.storage.Durable?;
      hide Persisted, TakeOp;
      StepPersisted(before, ops[|ops| - 1], digest);
      PersistedReopens(RunOps(w, ops, digest).journal);
    } else {
      PersistedReopens(w.journal);
    }
  }

  lemma PersistedReopens(j: State)
    requires Persisted(j)
    ensures Opened(j.lines, j.terminated, j.blobs) == j.(records := Survivors(j.records))
  {
  }

  /** How many lines the file had when it was last rewritten, or at the start. */
  function Since(w: World, ops: seq<Op>, digest: Digest): nat {
    if ops == [] then |w.journal.lines|
    else
      var init, op := ops[..|ops| - 1], ops[|ops| - 1];
      if op.RewindBy? && op.n > 0 && RunOps(w, init, digest).journal.records != []
      then |RunOps(w, ops, digest).journal.lines|
      else Since(w, init, digest)
  }

  lemma AppendsAtMostOne(w: World, op: Op, digest: Digest)
    requires w.journal.storage.Durable? && w.journal.terminated
    requires !op.RewindBy? || op.n == 0 || w.journal.records == []
    ensures var lines, lines' := w.journal.lines, TakeOp(w, op, digest).journal.lines;
            lines' == lines || (|lines'| == |lines| + 1 && lines'[..|lines|] == lines)
  {
  }

  /** Any cut of the lines written since the last rewrite is the file as it was after some of the
      operations. */
  lemma {:induction false} CutWasReached(w: World, ops: seq<Op>, digest: Digest, p: nat) returns (k: nat)
    requires w.journal.storage.Durable? && Persisted(w.journal)
    requires Since(w, ops, digest) <= p <= |RunOps(w, ops, digest).journal.lines|
    ensures k <= |ops| && RunOps(w, ops[..k], digest).journal.lines == RunOps(w, ops, digest).journal.lines[..p]
    decreases |ops|
  {
    var lines := RunOps(w, ops, digest).journal.lines;
    if p == |lines| {
      k := |ops|;
      assert ops[..k] == ops && lines[..p] == lines;
    } else {
      var init, op := ops[..|ops| - 1], ops[|ops| - 1];
      var before := RunOps(w, init, digest);
      ReopenAgrees(w, init, digest);
      assert before.journal.storage.Durable? && before.journal.terminated;
      hide TakeOp, Persisted;
      AppendsAtMostOne(before, op, digest);
      k := CutWasReached(w, init, digest, p);
      assert ops[..k] == init[..k];
      assert lines[..p] == before.journal.lines[..p];
    }
  }

  /** A crash that keeps any part of the lines written since the last rewrite, whole or with a torn
      line behind them, with or without the last newline, reopens to a state the journal passed
      through. */
  lemma TornTailReplays(w: World, ops: seq<Op>, digest: Digest, p: nat, torn: bool) returns (k: nat)
    requires w.journal.storage.Durable? && Persisted(w.journal)
    requires Since(w, ops, digest) <= p <= |RunOps(w, ops, digest).journal.lines|
    ensures k <= |ops|
    ensures var q, kept := RunOps(w, ops[..k], digest).journal, RunOps(w, ops, digest).journal.lines[..p];
            Replay(kept + if torn then [Torn] else []) == View(q.turn, Survivors(q.records)) && Forward(kept)
  {
    k := CutWasReached(w, ops, digest, p);
    ReopenAgrees(w, ops[..k], digest);
    hide RunOps, Replay, Forward;
    var q := RunOps(w, ops[..k], digest).journal;
    ReplaySnoc(q.lines, Torn);
    assert q.lines + [] == q.lines;
  }

  // ---------------------------------------------------------------------------------------
  // Appending after a crash
  // ---------------------------------------------------------------------------------------

  /** What an entry written to a reopened file does to the next replay. Behind a torn line it is not
      seen. Behind a whole line whose newline was lost it is not seen either, and that line, which
      the reopening had still recovered, is gone as well. */
  lemma AppendedReplays(lines: seq<Line>, terminated: bool, line: Line)
    requires !line.Torn?
    ensures var after := Replay(AppendLine(lines, terminated, line));
            if !Clean(lines) then after == Replay(lines)
            else if !terminated && lines != [] then after == Replay(lines[..|lines| - 1])
            else after == ReplayLine(Replay(lines), line)
  {
    hide ReplayLine, Replay;
    if terminated || lines == [] {
      ReplaySnoc(lines, line);
    } else {
      var init := lines[..|lines| - 1];
      ReplaySnoc(init, Torn);
      if !Clean(lines) {
        var i :| 0 <= i < |lines| && lines[i] == Torn;
        ReplayStops(lines, i);
      }
    }
  }

  /** The turn begun after a reopening is seen by the next reopening exactly when every line parses
      and the last one has its newline. */
  lemma AppendSeenExactly(lines: seq<Line>, terminated: bool, blobs: map<string, Bytes>)
    requires Forward(lines)
    ensures var s := Advance(Opened(lines, terminated, blobs));
            Opened(s.lines, s.terminated, s.blobs) == s <==> Clean(lines) && (terminated || lines == [])
  {
    var s := Opened(lines, terminated, blobs);
    AppendedReplays(lines, terminated, TurnLine(s.turn + 1));
    if Clean(lines) && !terminated && lines != [] {
      LastLineForward(lines);
    }
  }

  lemma LastLineForward(lines: seq<Line>)
    requires Forward(lines) && lines != []
    ensures Replay(lines[..|lines| - 1]).turn <= Replay(lines).turn
  {
  }

  /** A crash between an entry and its newline: turn 7 is recovered, but beginning turn 8 loses both. */
  lemma LostNewline(blobs: map<string, Bytes>)
    ensures var s := Opened([TurnLine(7)], false, blobs);
            && s.turn == 7 && Forward([TurnLine(7)])
            && Replay(Advance(s).lines) == View(0, [])
  {
    assert [TurnLine(7)][..0] == [];
    ReplaySnoc([], TurnLine(7));
    assert [] + [TurnLine(7)] == [TurnLine(7)];
    AppendedReplays([TurnLine(7)], false, TurnLine(8));
  }

  /** A rewind that pops something rewrites the file and heals it: torn lines and a lost newline
      included. */
  lemma RewindHeals(lines: seq<Line>, terminated: bool, blobs: map<string, Bytes>, n: nat)
    requires n > 0 && Replay(lines).records != []
    ensures Mirrors(Rewound(Opened(lines, terminated, blobs), n))
  {
    RewindMirrors(Opened(lines, terminated, blobs), n);
  }
}

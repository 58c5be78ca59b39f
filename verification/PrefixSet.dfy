/** The replicated set of cached prefixes: per fingerprint, the newest entry and the newest
    tombstone, merged by last-writer-wins. */
module PrefixSet {
  import opened Wrappers

  datatype Entry = Entry(fingerprint: nat, contextKey: seq<nat>, epoch: nat)

  /** The two maps of a replica. */
  datatype Replica = Replica(entries: map<nat, Entry>, tombstones: map<nat, nat>)

  const EMPTY: Replica := Replica(map[], map[])

  // ---------------------------------------------------------------------------------------
  // One fingerprint at a time
  // ---------------------------------------------------------------------------------------

  /** What a replica knows about one fingerprint. */
  datatype Cell = Cell(entry: Option<Entry>, tombstone: Option<nat>)

  function CellOf(s: Replica, fp: nat): Cell {
    Cell(if fp in s.entries then Some(s.entries[fp]) else None,
         if fp in s.tombstones then Some(s.tombstones[fp]) else None)
  }

  predicate Suppressed(epoch: nat, tombstone: Option<nat>) {
    tombstone.Some? && epoch <= tombstone.value
  }

  function AddCell(c: Cell, e: Entry): Cell {
    if Suppressed(e.epoch, c.tombstone) then c
    else if c.entry.Some? && c.entry.value.epoch > e.epoch then c
    else c.(entry := Some(e))
  }

  function EvictCell(c: Cell, epoch: nat): Cell {
    Cell(if c.entry.Some? && c.entry.value.epoch <= epoch then None else c.entry,
         if c.tombstone.Some? && c.tombstone.value > epoch then c.tombstone else Some(epoch))
  }

  function JoinCell(a: Cell, b: Cell): Cell {
    var added := if b.entry.Some? then AddCell(a, b.entry.value) else a;
    if b.tombstone.Some? then EvictCell(added, b.tombstone.value) else added
  }

  /** A live entry is filed under its own fingerprint and lies strictly above its tombstone. */
  predicate ValidCell(fp: nat, c: Cell) {
    c.entry.Some? ==> c.entry.value.fingerprint == fp && !Suppressed(c.entry.value.epoch, c.tombstone)
  }

  /** Every entry is filed under its own fingerprint. */
  ghost predicate Filed(s: Replica) {
    forall fp: nat :: fp in s.entries ==> s.entries[fp].fingerprint == fp
  }

  ghost predicate Valid(s: Replica) {
    forall fp: nat :: ValidCell(fp, CellOf(s, fp))
  }

  lemma SameCells(s: Replica, t: Replica)
    requires forall fp: nat :: CellOf(s, fp) == CellOf(t, fp)
    ensures s == t
  {
    forall fp: nat
      ensures fp in s.entries <==> fp in t.entries
      ensures fp in s.tombstones <==> fp in t.tombstones
      ensures fp in s.entries ==> s.entries[fp] == t.entries[fp]
      ensures fp in s.tombstones ==> s.tombstones[fp] == t.tombstones[fp]
    {
      assert CellOf(s, fp) == CellOf(t, fp);
    }
    assert s.entries == t.entries;
    assert s.tombstones == t.tombstones;
  }

  // ---------------------------------------------------------------------------------------
  // Replicas
  // ---------------------------------------------------------------------------------------

  function AddTo(s: Replica, e: Entry): Replica {
    var fp := e.fingerprint;
    if fp in s.tombstones && e.epoch <= s.tombstones[fp] then s
    else if fp in s.entries && s.entries[fp].epoch > e.epoch then s
    else s.(entries := s.entries[fp := e])
  }

  function EvictFrom(s: Replica, fp: nat, epoch: nat): Replica {
    Replica(if fp in s.entries && s.entries[fp].epoch <= epoch then s.entries - {fp} else s.entries,
            if fp in s.tombstones && s.tombstones[fp] > epoch then s.tombstones else s.tombstones[fp := epoch])
  }

  lemma AddIsLocal(s: Replica, e: Entry, fp: nat)
    ensures CellOf(AddTo(s, e), fp) == if fp == e.fingerprint then AddCell(CellOf(s, fp), e) else CellOf(s, fp)
  {
  }

  lemma EvictIsLocal(s: Replica, f: nat, epoch: nat, fp: nat)
    ensures CellOf(EvictFrom(s, f, epoch), fp) == if fp == f then EvictCell(CellOf(s, fp), epoch) else CellOf(s, fp)
  {
  }

  ghost predicate IsJoin(a: Replica, b: Replica, r: Replica) {
    forall fp: nat :: CellOf(r, fp) == JoinCell(CellOf(a, fp), CellOf(b, fp))
  }

  function JoinOf(a: Replica, b: Replica): (r: Replica)
    ensures IsJoin(a, b, r)
  {
    var cell := (fp: nat) => JoinCell(CellOf(a, fp), CellOf(b, fp));
    Replica(map fp: nat | fp in a.entries.Keys + b.entries.Keys && cell(fp).entry.Some? :: cell(fp).entry.value,
            map fp: nat | fp in a.tombstones.Keys + b.tombstones.Keys
                && cell(fp).tombstone.Some? :: cell(fp).tombstone.value)
  }

  lemma JoinUnique(a: Replica, b: Replica, r: Replica)
    requires IsJoin(a, b, r)
    ensures r == JoinOf(a, b)
  {
    SameCells(r, JoinOf(a, b));
  }

  /** The replicated set as the program holds it. */
  class PrefixSet {
    var entries: map<nat, Entry>
    var tombstones: map<nat, nat>

    function State(): Replica
      reads this
    {
      Replica(entries, tombstones)
    }

    constructor ()
      ensures State() == EMPTY
    {
      entries, tombstones := map[], map[];
    }

    constructor Clone(other: PrefixSet)
      ensures State() == other.State()
    {
      entries, tombstones := other.entries, other.tombstones;
    }

    method Add(entry: Entry)
      modifies this`entries
      ensures State() == AddTo(old(State()), entry)
    {
      var fp := entry.fingerprint;
      if fp in tombstones {
        if entry.epoch <= tombstones[fp] {
          return;
        }
      }
      if fp in entries && entries[fp].epoch > entry.epoch {
        // older than current; keep current
      } else {
        entries := entries[fp := entry];
      }
    }

    method Evict(fp: nat, epoch: nat)
      modifies this
      ensures State() == EvictFrom(old(State()), fp, epoch)
    {
      var tomb := if fp in tombstones then tombstones[fp] else 0;
      if epoch >= tomb {
        tombstones := tombstones[fp := epoch];
      }
      if fp in entries && entries[fp].epoch <= epoch {
        entries := entries - {fp};
      }
    }

    method Contains(fp: nat) returns (live: bool)
      ensures live <==> fp in entries && !Suppressed(entries[fp].epoch, CellOf(State(), fp).tombstone)
      ensures Valid(State()) ==> (live <==> fp in entries)
    {
      if fp in entries {
        assert Valid(State()) ==> ValidCell(fp, CellOf(State(), fp));
        live := !(fp in tombstones && tombstones[fp] >= entries[fp].epoch);
      } else {
        live := false;
      }
    }

    /** On every reachable replica the tombstone filter removes nothing. */
    method Live() returns (r: map<nat, Entry>)
      ensures forall fp :: fp in r <==> fp in entries && !Suppressed(entries[fp].epoch, CellOf(State(), fp).tombstone)
      ensures forall fp :: fp in r ==> r[fp] == entries[fp]
      ensures Valid(State()) ==> r == entries
    {
      r := map fp | fp in entries && !(fp in tombstones && tombstones[fp] >= entries[fp].epoch) :: entries[fp];
      if Valid(State()) {
        forall fp | fp in entries
          ensures fp in r
        {
          assert ValidCell(fp, CellOf(State(), fp));
        }
      }
    }

    /** Merge: add the other side's entries, then evict by its tombstones, in any order. */
    method Join(other: PrefixSet) returns (out: PrefixSet)
      requires Filed(other.State())
      ensures fresh(out)
      ensures out.State() == JoinOf(State(), other.State())
    {
      out := new PrefixSet.Clone(this);
      var a, b := State(), other.State();
      var pending := b.entries.Keys;
      while pending != {}
        invariant pending <= b.entries.Keys && fresh(out)
        invariant State() == a && other.State() == b
        invariant forall fp: nat :: CellOf(out.State(), fp) ==
                    if fp in b.entries && fp !in pending then AddCell(CellOf(a, fp), b.entries[fp]) else CellOf(a, fp)
        decreases pending
      {
        var fp :| fp in pending;
        ghost var before := out.State();
        out.Add(b.entries[fp]);
        forall k: nat
          ensures CellOf(out.State(), k) == if k == fp then AddCell(CellOf(before, k), b.entries[fp])
              else CellOf(before, k)
        {
          AddIsLocal(before, b.entries[fp], k);
        }
        pending := pending - {fp};
      }
      var added := out.State();
      var tombs := b.tombstones.Keys;
      while tombs != {}
        invariant tombs <= b.tombstones.Keys && fresh(out)
        invariant State() == a && other.State() == b
        invariant forall fp: nat :: CellOf(out.State(), fp) ==
                    if fp in b.tombstones && fp !in tombs then EvictCell(CellOf(added, fp), b.tombstones[fp])
                        else CellOf(added, fp)
        decreases tombs
      {
        var fp :| fp in tombs;
        ghost var before := out.State();
        out.Evict(fp, b.tombstones[fp]);
        forall k: nat
          ensures CellOf(out.State(), k) == if k == fp then EvictCell(CellOf(before, k), b.tombstones[fp])
              else CellOf(before, k)
        {
          EvictIsLocal(before, fp, b.tombstones[fp], k);
        }
        tombs := tombs - {fp};
      }
      JoinUnique(a, b, out.State());
    }
  }

  // ---------------------------------------------------------------------------------------
  // What a replica means
  // ---------------------------------------------------------------------------------------

  datatype Op = Added(entry: Entry) | Evicted(fingerprint: nat, epoch: nat)

  /** The cell that remains of a set of operations: the newest tombstone, and a newest entry if it
      lies strictly above that tombstone. */
  ghost predicate Summarizes(ops: set<Op>, fp: nat, c: Cell) {
    && (match c.tombstone
        case Some(t) => Evicted(fp, t) in ops && forall e: nat :: Evicted(fp, e) in ops ==> e <= t
        case None => forall e: nat :: Evicted(fp, e) !in ops)
    && (match c.entry
        case Some(e) =>
          && Added(e) in ops && e.fingerprint == fp && !Suppressed(e.epoch, c.tombstone)
          && forall e': Entry :: Added(e') in ops && e'.fingerprint == fp ==> e'.epoch <= e.epoch
        case None => forall e': Entry :: Added(e') in ops && e'.fingerprint == fp ==> Suppressed(e'.epoch, c.tombstone))
  }

  ghost predicate Represents(s: Replica, ops: set<Op>) {
    forall fp: nat :: Summarizes(ops, fp, CellOf(s, fp))
  }

  /** Fingerprint and epoch determine the entry. */
  ghost predicate Agreeing(ops: set<Op>) {
    forall a: Entry, b: Entry ::
      Added(a) in ops && Added(b) in ops && a.fingerprint == b.fingerprint && a.epoch == b.epoch ==> a == b
  }

  lemma AddSummary(ops: set<Op>, fp: nat, c: Cell, e: Entry)
    requires Summarizes(ops, fp, c)
    ensures Summarizes(ops + {Added(e)}, fp, if e.fingerprint == fp then AddCell(c, e) else c)
  {
  }

  lemma EvictSummary(ops: set<Op>, fp: nat, c: Cell, f: nat, epoch: nat)
    requires Summarizes(ops, fp, c)
    ensures Summarizes(ops + {Evicted(f, epoch)}, fp, if f == fp then EvictCell(c, epoch) else c)
  {
  }

  lemma JoinSummary(ops1: set<Op>, ops2: set<Op>, fp: nat, a: Cell, b: Cell)
    requires Summarizes(ops1, fp, a) && Summarizes(ops2, fp, b)
    ensures Summarizes(ops1 + ops2, fp, JoinCell(a, b))
  {
  }

  lemma SummaryUnique(ops: set<Op>, fp: nat, a: Cell, b: Cell)
    requires Agreeing(ops) && Summarizes(ops, fp, a) && Summarizes(ops, fp, b)
    ensures a == b
  {
  }

  lemma SummaryValid(s: Replica, ops: set<Op>)
    requires Represents(s, ops)
    ensures Valid(s)
  {
  }

  // ---------------------------------------------------------------------------------------
  // Gossip
  // ---------------------------------------------------------------------------------------

  /** A step of the network: a local operation at a replica, or one replica merging another's state. */
  datatype Step = LocalAdd(at: nat, entry: Entry) | LocalEvict(at: nat, fingerprint: nat, epoch: nat) | Gossip(at: nat,
      from: nat)

  predicate StepOf(n: nat, s: Step) {
    s.at < n && (s.Gossip? ==> s.from < n)
  }

  datatype Network = Network(states: seq<Replica>, absorbed: seq<set<Op>>)

  function Start(n: nat): Network {
    Network(seq(n, _ => EMPTY), seq(n, _ => {}))
  }

  function Take(net: Network, s: Step): Network
    requires |net.states| == |net.absorbed| && StepOf(|net.states|, s)
  {
    var i := s.at;
    match s
    case LocalAdd(_, e) => Network(net.states[i := AddTo(net.states[i], e)],
        net.absorbed[i := net.absorbed[i] + {Added(e)}])
    case LocalEvict(_, fp, epoch) =>
      Network(net.states[i := EvictFrom(net.states[i], fp, epoch)],
          net.absorbed[i := net.absorbed[i] + {Evicted(fp, epoch)}])
    case Gossip(_, from) =>
      Network(net.states[i := JoinOf(net.states[i], net.states[from])],
          net.absorbed[i := net.absorbed[i] + net.absorbed[from]])
  }

  /** The network of `n` replicas after any sequence of steps. */
  function RunNetwork(n: nat, steps: seq<Step>): (net: Network)
    requires forall k :: 0 <= k < |steps| ==> StepOf(n, steps[k])
    ensures |net.states| == |net.absorbed| == n
  {
    if steps == [] then Start(n) else Take(RunNetwork(n, steps[..|steps| - 1]), steps[|steps| - 1])
  }

  lemma TakeRepresents(net: Network, s: Step, r: nat)
    requires |net.states| == |net.absorbed| && StepOf(|net.states|, s) && r < |net.states|
    requires forall k :: 0 <= k < |net.states| ==> Represents(net.states[k], net.absorbed[k])
    ensures Represents(Take(net, s).states[r], Take(net, s).absorbed[r])
  {
    var net' := Take(net, s);
    forall fp: nat
      ensures Summarizes(net'.absorbed[r], fp, CellOf(net'.states[r], fp))
    {
      assert Represents(net.states[r], net.absorbed[r]);
      var c := CellOf(net.states[r], fp);
      if r == s.at {
        match s
        case LocalAdd(_, e) => AddIsLocal(net.states[r], e, fp); AddSummary(net.absorbed[r], fp, c, e);
        case LocalEvict(_, f, epoch) => EvictIsLocal(net.states[r], f, epoch, fp); EvictSummary(net.absorbed[r], fp, c,
            f, epoch);
        case Gossip(_, from) =>
          assert Represents(net.states[from], net.absorbed[from]);
          JoinSummary(net.absorbed[r], net.absorbed[from], fp, c, CellOf(net.states[from], fp));
      }
    }
  }

  /** Every replica of every run is the summary of what it has absorbed. */
  lemma {:induction false} NetworkRepresents(n: nat, steps: seq<Step>, r: nat)
    requires forall k :: 0 <= k < |steps| ==> StepOf(n, steps[k])
    requires r < n
    ensures var net := RunNetwork(n, steps); Represents(net.states[r], net.absorbed[r])
    decreases |steps|
  {
    if steps == [] {
      assert RunNetwork(n, steps).states[r] == EMPTY && RunNetwork(n, steps).absorbed[r] == {};
    } else {
      var before := RunNetwork(n, steps[..|steps| - 1]);
      forall k | 0 <= k < n
        ensures Represents(before.states[k], before.absorbed[k])
      {
        NetworkRepresents(n, steps[..|steps| - 1], k);
      }
      TakeRepresents(before, steps[|steps| - 1], r);
    }
  }

  /** Strong eventual consistency: two replicas, of any networks and after any interleaving of
      local operations and gossip, that have absorbed the same operations are in the same state. */
  lemma Convergence(n1: nat, steps1: seq<Step>, r1: nat, n2: nat, steps2: seq<Step>, r2: nat)
    requires forall k :: 0 <= k < |steps1| ==> StepOf(n1, steps1[k])
    requires forall k :: 0 <= k < |steps2| ==> StepOf(n2, steps2[k])
    requires r1 < n1 && r2 < n2
    requires RunNetwork(n1, steps1).absorbed[r1] == RunNetwork(n2, steps2).absorbed[r2]
    requires Agreeing(RunNetwork(n1, steps1).absorbed[r1])
    ensures RunNetwork(n1, steps1).states[r1] == RunNetwork(n2, steps2).states[r2]
  {
    NetworkRepresents(n1, steps1, r1);
    NetworkRepresents(n2, steps2, r2);
    var s, t, ops := RunNetwork(n1, steps1).states[r1], RunNetwork(n2, steps2).states[r2],
        RunNetwork(n1, steps1).absorbed[r1];
    forall fp: nat
      ensures CellOf(s, fp) == CellOf(t, fp)
    {
      SummaryUnique(ops, fp, CellOf(s, fp), CellOf(t, fp));
    }
    SameCells(s, t);
  }

  /** A fingerprint is live exactly when some absorbed add of it is newer than every absorbed
      eviction of it. */
  lemma LiveExactly(n: nat, steps: seq<Step>, r: nat, fp: nat)
    requires forall k :: 0 <= k < |steps| ==> StepOf(n, steps[k])
    requires r < n
    ensures var net := RunNetwork(n, steps);
            && Valid(net.states[r])
            && (fp in net.states[r].entries <==>
                exists e: Entry :: Added(e) in net.absorbed[r] && e.fingerprint == fp
                                   && forall t: nat :: Evicted(fp, t) in net.absorbed[r] ==> t < e.epoch)
  {
    var net := RunNetwork(n, steps);
    NetworkRepresents(n, steps, r);
    SummaryValid(net.states[r], net.absorbed[r]);
    var c := CellOf(net.states[r], fp);
    assert Summarizes(net.absorbed[r], fp, c);
    if c.entry.Some? {
      var e := c.entry.value;
      assert Added(e) in net.absorbed[r];
    }
  }

  // ---------------------------------------------------------------------------------------
  // The join as a semilattice
  // ---------------------------------------------------------------------------------------

  /** Joining a replica with itself changes nothing exactly when no entry it holds is suppressed by its
      own tombstone, which no reachable replica does. */
  lemma JoinIdempotent(a: Replica)
    requires Filed(a)
    ensures JoinOf(a, a) == a <==> Valid(a)
  {
    hide JoinOf;
    forall fp: nat
      ensures CellOf(JoinOf(a, a), fp) == CellOf(a, fp) <==> ValidCell(fp, CellOf(a, fp))
    {
      assert CellOf(JoinOf(a, a), fp) == JoinCell(CellOf(a, fp), CellOf(a, fp));
    }
    hide JoinCell, ValidCell, CellOf;
    if Valid(a) {
      SameCells(JoinOf(a, a), a);
    }
  }

  function Newer(a: Option<Entry>, b: Option<Entry>): Option<Entry> {
    if b.None? then a else if a.Some? && a.value.epoch > b.value.epoch then a else b
  }

  function Later(s: Option<nat>, t: Option<nat>): Option<nat> {
    if t.None? then s else if s.Some? && s.value > t.value then s else t
  }

  function Above(e: Option<Entry>, t: Option<nat>): Option<Entry> {
    if e.Some? && Suppressed(e.value.epoch, t) then None else e
  }

  /** The left operand's entry survives though its own tombstone suppresses it: nothing on the right
      evicts it or takes its place. */
  predicate Lingers(a: Cell, b: Cell) {
    && a.entry.Some? && Suppressed(a.entry.value.epoch, a.tombstone) && !Suppressed(a.entry.value.epoch, b.tombstone)
    && (b.entry.Some? ==> Suppressed(b.entry.value.epoch, a.tombstone))
  }

  /** The join in closed form: the later tombstone, and the newer entry if it lies above it. Only a
      suppressed entry on the left, which no reachable replica holds, may linger. */
  lemma JoinCellForm(fp: nat, a: Cell, b: Cell)
    ensures var t := Later(a.tombstone, b.tombstone);
            JoinCell(a, b) == Cell(if Lingers(a, b) then a.entry else Above(Newer(a.entry, b.entry), t), t)
    ensures ValidCell(fp, a) ==> !Lingers(a, b)
    ensures ValidCell(fp, a) && ValidCell(fp, b) ==> ValidCell(fp, JoinCell(a, b))
  {
  }

  /** Joining with an entry alone, and with a tombstone alone. */
  function AddHeld(c: Cell, e: Option<Entry>): Cell {
    if e.Some? then AddCell(c, e.value) else c
  }

  function EvictHeld(c: Cell, t: Option<nat>): Cell {
    if t.Some? then EvictCell(c, t.value) else c
  }

  /** An entry added between two evictions is the entry left of the two, added before both. */
  lemma AddBetween(c: Cell, s: Option<nat>, e: Option<Entry>, t: Option<nat>)
    ensures EvictHeld(AddHeld(EvictHeld(c, s), e), t) == EvictHeld(AddHeld(c, Above(e, s)), Later(s, t))
  {
  }

  lemma AddTwice(c: Cell, x: Option<Entry>, s: Option<nat>, y: Option<Entry>, t: Option<nat>)
    ensures EvictHeld(AddHeld(AddHeld(c, x), Above(y, s)), Later(s, t)) ==
            EvictHeld(AddHeld(c, JoinCell(Cell(x, s), Cell(y, t)).entry), Later(s, t))
  {
  }

  lemma JoinCellAssociative(a: Cell, b: Cell, c: Cell)
    ensures JoinCell(JoinCell(a, b), c) == JoinCell(a, JoinCell(b, c))
  {
    AddBetween(AddHeld(a, b.entry), b.tombstone, c.entry, c.tombstone);
    AddTwice(a, b.entry, b.tombstone, c.entry, c.tombstone);
    assert JoinCell(b, c).tombstone == Later(b.tombstone, c.tombstone);
    hide AddCell, EvictCell, Later, Above;
  }

  /** Associativity holds of any replicas, suppressed entries and ties included. */
  lemma JoinAssociative(a: Replica, b: Replica, c: Replica)
    ensures JoinOf(JoinOf(a, b), c) == JoinOf(a, JoinOf(b, c))
  {
    hide JoinCell, CellOf, JoinOf;
    var left, right := JoinOf(JoinOf(a, b), c), JoinOf(a, JoinOf(b, c));
    forall fp: nat
      ensures CellOf(left, fp) == CellOf(right, fp)
    {
      JoinCellAssociative(CellOf(a, fp), CellOf(b, fp), CellOf(c, fp));
      assert CellOf(left, fp) == JoinCell(CellOf(JoinOf(a, b), fp), CellOf(c, fp));
      assert CellOf(right, fp) == JoinCell(CellOf(a, fp), CellOf(JoinOf(b, c), fp));
    }
    SameCells(left, right);
  }

  /** Two cells hold different entries at the same epoch, above both tombstones. */
  predicate Tie(a: Cell, b: Cell) {
    && a.entry.Some? && b.entry.Some? && a.entry.value.epoch == b.entry.value.epoch && a.entry != b.entry
    && !Suppressed(a.entry.value.epoch, a.tombstone) && !Suppressed(b.entry.value.epoch, b.tombstone)
  }

  lemma JoinCellCommutesExactly(a: Cell, b: Cell)
    ensures JoinCell(a, b) == JoinCell(b, a) <==> !Tie(a, b) && !Lingers(a, b) && !Lingers(b, a)
  {
  }

  /** The two replicas hold no different entries for one fingerprint at one epoch, and neither holds
      a suppressed entry that would survive a merge. */
  ghost predicate NoTie(a: Replica, b: Replica) {
    forall fp: nat ::
      var x, y := CellOf(a, fp), CellOf(b, fp);
      !Tie(x, y) && !Lingers(x, y) && !Lingers(y, x)
  }

  /** The join is right-biased on equal epochs and keeps the left operand's suppressed entries: it
      commutes exactly when there is no tie to break and nothing lingers. */
  lemma JoinCommutesExactly(a: Replica, b: Replica)
    ensures JoinOf(a, b) == JoinOf(b, a) <==> NoTie(a, b)
  {
    hide JoinCell, CellOf, JoinOf, Tie, Lingers;
    var ab, ba := JoinOf(a, b), JoinOf(b, a);
    forall fp: nat
      ensures var x, y := CellOf(a, fp), CellOf(b, fp);
              CellOf(ab, fp) == CellOf(ba, fp) <==> !Tie(x, y) && !Lingers(x, y) && !Lingers(y, x)
    {
      JoinCellCommutesExactly(CellOf(a, fp), CellOf(b, fp));
    }
    if NoTie(a, b) {
      SameCells(ab, ba);
    }
  }

  lemma AgreeingCells(fp: nat, a: Cell, ops1: set<Op>, b: Cell, ops2: set<Op>)
    requires Summarizes(ops1, fp, a) && Summarizes(ops2, fp, b) && Agreeing(ops1 + ops2)
    ensures !Tie(a, b) && !Lingers(a, b) && !Lingers(b, a)
  {
    if a.entry.Some? && b.entry.Some? {
      assert Added(a.entry.value) in ops1 + ops2 && Added(b.entry.value) in ops1 + ops2;
    }
  }

  /** On replicas whose operations agree, gossip direction does not matter. */
  lemma ReachableJoinCommutes(a: Replica, ops1: set<Op>, b: Replica, ops2: set<Op>)
    requires Represents(a, ops1) && Represents(b, ops2) && Agreeing(ops1 + ops2)
    ensures JoinOf(a, b) == JoinOf(b, a)
  {
    hide Summarizes, CellOf, Tie, Lingers, Agreeing, JoinOf;
    forall fp: nat
      ensures var x, y := CellOf(a, fp), CellOf(b, fp); !Tie(x, y) && !Lingers(x, y) && !Lingers(y, x)
    {
      AgreeingCells(fp, CellOf(a, fp), ops1, CellOf(b, fp), ops2);
    }
    JoinCommutesExactly(a, b);
  }

  /** An eviction hides an entry exactly when its epoch is the entry's or a later one, whichever of
      the two came first. */
  lemma EvictionHidesExactly(s: Replica, e: Entry, epoch: nat)
    requires CellOf(s, e.fingerprint) == Cell(None, None)
    ensures e.fingerprint in EvictFrom(AddTo(s, e), e.fingerprint, epoch).entries <==> epoch < e.epoch
    ensures e.fingerprint in AddTo(EvictFrom(s, e.fingerprint, epoch), e).entries <==> epoch < e.epoch
  {
  }

  /** Two replicas that add different entries for one fingerprint at one epoch merge differently
      in the two directions. */
  lemma TiesDiverge()
    ensures var a, b := AddTo(EMPTY, Entry(7, [0], 1)), AddTo(EMPTY, Entry(7, [1], 1));
            Valid(a) && Valid(b) && JoinOf(a, b) != JoinOf(b, a)
  {
  }
}

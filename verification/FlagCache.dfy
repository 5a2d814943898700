/**
 The versioned cache in front of the feature flags: readers, late fills, expiries and toggles on any
 number of instances, and why no reader is answered with flags older than a finished toggle.
 */
module FlagCache {
  import opened Domain

  type FlagKey = nat

  datatype Flag = Flag(enabled: bool, rolloutPercent: nat)

  // One field at a time, or both.
  datatype Patch = Patch(key: FlagKey, enabled: Option<bool>, rolloutPercent: Option<nat>)

  type Table = map<FlagKey, Flag>

  // What the cache stores: the rows, and the counter they were read under.
  datatype Payload = Payload(version: nat, rows: Table)

  datatype CacheRead = Hit(rows: Table) | Miss(version: nat)

  /* ---- the flag store and the cache ---- */

  function Patched(table: Table, patch: Patch): Table {
    var before := if patch.key in table then table[patch.key] else Flag(false, 0);
    table[patch.key := Flag(if patch.enabled.Some? then patch.enabled.value else before.enabled,
                            if patch.rolloutPercent.Some? then patch.rolloutPercent.value else before.rolloutPercent)]
  }

  function KnownRows(table: Table, known: set<FlagKey>): Table {
    map key <- table.Keys * known :: table[key]
  }

  // One round trip for the value and the counter: a payload is read only under the counter it carries.
  function Lookup(value: Option<Payload>, counter: nat): CacheRead {
    if value.Some? && value.value.version == counter then Hit(value.value.rows) else Miss(counter)
  }

  class FlagStore {
    var table: Table
    const known: set<FlagKey>

    constructor (known: set<FlagKey>)
      ensures table == map[] && this.known == known
    {
      table := map[];
      this.known := known;
    }

    method WriteFlag(patch: Patch)
      modifies this
      ensures table == Patched(old(table), patch)
      ensures forall key <- old(table) :: key != patch.key ==> key in table && table[key] == old(table)[key]
    {
      if patch.key !in table {
        table := table[patch.key := Flag(patch.enabled.Some? && patch.enabled.value,
                                         if patch.rolloutPercent.Some? then patch.rolloutPercent.value else 0)];
      } else {
        var flag := table[patch.key];
        if patch.enabled.Some? {
          flag := flag.(enabled := patch.enabled.value);
        }
        if patch.rolloutPercent.Some? {
          flag := flag.(rolloutPercent := patch.rolloutPercent.value);
        }
        table := table[patch.key := flag];
      }
    }

    method ReadFlagRows() returns (rows: Table)
      ensures rows == KnownRows(table, known)
    {
      rows := map key | key in table.Keys * known :: table[key];
    }
  }

  class RedisFlagCache {
    var value: Option<Payload>
    var counter: nat

    constructor ()
      ensures value == None && counter == 0
    {
      value, counter := None, 0;
    }

    method Read() returns (read: CacheRead)
      ensures read == Lookup(value, counter)
    {
      if value.Some? && value.value.version == counter {
        read := Hit(value.value.rows);
      } else {
        read := Miss(counter);
      }
    }

    method Write(rows: Table, version: nat)
      modifies this`value
      ensures value == Some(Payload(version, rows))
    {
      value := Some(Payload(version, rows));
    }

    method Invalidate()
      modifies this`counter
      ensures counter == old(counter) + 1
    {
      counter := counter + 1;
    }
  }

  // Cache first, table second; a read that failed observed no version, so it does not fill.
  method LoadFlags(store: FlagStore, cache: RedisFlagCache, readFails: bool, writeFails: bool) returns (rows: Table)
    modifies cache`value
    ensures rows == (if !readFails && Lookup(old(cache.value), cache.counter).Hit?
                     then Lookup(old(cache.value), cache.counter).rows else KnownRows(store.table, store.known))
    ensures readFails || writeFails || Lookup(old(cache.value), cache.counter).Hit? ==> cache.value == old(cache.value)
    ensures !readFails ==> Lookup(cache.value, cache.counter) == Hit(rows) || (writeFails && cache.value == old(cache.value))
  {
    if readFails {
      rows := store.ReadFlagRows();
      return;
    }
    var cached := cache.Read();
    match cached
    case Hit(hit) => rows := hit;
    case Miss(version) =>
      rows := store.ReadFlagRows();
      if !writeFails {
        cache.Write(rows, version);
      }
  }

  /* ---- any interleaving ---- */

  // One call of `loadFlags`. `began` is how many invalidations had completed when it started; `asOf` is
  // how many flag writes the rows in hand include.
  datatype Reader =
    | Started(began: nat)
    | ReadTable(began: nat, missed: Option<nat>)
    | Filling(began: nat, version: nat, asOf: nat)
    | Answered(began: nat, asOf: nat, rows: Table)

  // A payload on its way to the cache, or in it, with how much of the log its rows include.
  datatype Fill = Fill(payload: Payload, asOf: nat)

  // `log` lists the committed flag writes, `invalidations` the write each completed INCR belongs to; the
  // counter is their number.
  datatype Fleet = Fleet(
    known: set<FlagKey>, log: seq<Patch>, invalidations: seq<nat>, cached: Option<Fill>, inFlight: set<Fill>,
    readers: map<Id, Reader>)

  datatype Move =
    | Commit(patch: Patch)
    | Invalidated(write: nat)
    | Begin(r: Id)
    | LookUp(r: Id)
    | LookUpFails(r: Id)
    | Query(r: Id)
    | SendFill(r: Id)
    | LandFill(fill: Fill)
    | Expire

  function TableAt(log: seq<Patch>): Table {
    if log == [] then map[] else Patched(TableAt(log[..|log| - 1]), log[|log| - 1])
  }

  function RowsAt(f: Fleet, asOf: nat): Table
    requires asOf <= |f.log|
  {
    KnownRows(TableAt(f.log[..asOf]), f.known)
  }

  function With(f: Fleet, r: Id, reader: Reader): Fleet {
    f.(readers := f.readers[r := reader])
  }

  function LookUpStep(f: Fleet, r: Id, reader: Reader): Fleet {
    var counter := |f.invalidations|;
    match Lookup(if f.cached.Some? then Some(f.cached.value.payload) else None, counter)
    case Hit(rows) => With(f, r, Answered(reader.began, f.cached.value.asOf, rows))
    case Miss(version) => With(f, r, ReadTable(reader.began, Some(version)))
  }

  function QueryStep(f: Fleet, r: Id, reader: Reader): Fleet
    requires reader.ReadTable?
  {
    var asOf := |f.log|;
    match reader.missed
    case None => With(f, r, Answered(reader.began, asOf, RowsAt(f, asOf)))
    case Some(version) => With(f, r, Filling(reader.began, version, asOf))
  }

  // The fill is on its way, and the answer is given whether it ever lands or not.
  function SendFillStep(f: Fleet, r: Id, reader: Reader): Fleet
    requires reader.Filling?
  {
    if reader.asOf > |f.log| then f
    else
      var rows := RowsAt(f, reader.asOf);
      With(f, r, Answered(reader.began, reader.asOf, rows)).(
        inFlight := f.inFlight + {Fill(Payload(reader.version, rows), reader.asOf)})
  }

  function Step(f: Fleet, move: Move): Fleet {
    match move
    case Commit(patch) => f.(log := f.log + [patch])
    case Invalidated(write) => if write < |f.log| then f.(invalidations := f.invalidations + [write]) else f
    case Begin(r) => if r in f.readers then f else With(f, r, Started(|f.invalidations|))
    case LookUp(r) => if r in f.readers && f.readers[r].Started? then LookUpStep(f, r, f.readers[r]) else f
    case LookUpFails(r) =>
      if r in f.readers && f.readers[r].Started? then With(f, r, ReadTable(f.readers[r].began, None)) else f
    case Query(r) => if r in f.readers && f.readers[r].ReadTable? then QueryStep(f, r, f.readers[r]) else f
    case SendFill(r) => if r in f.readers && f.readers[r].Filling? then SendFillStep(f, r, f.readers[r]) else f
    case LandFill(fill) => if fill in f.inFlight then f.(cached := Some(fill)) else f
    case Expire => f.(cached := None)
  }

  function Opening(known: set<FlagKey>): Fleet {
    Fleet(known, [], [], None, {}, map[])
  }

  function Run(known: set<FlagKey>, moves: seq<Move>): Fleet {
    if moves == [] then Opening(known) else Step(Run(known, moves[..|moves| - 1]), moves[|moves| - 1])
  }

  /* ---- what the table holds ---- */

  /** One write: a field that is not named stays what it was, and a flag nobody has written yet is off and at zero. */
  lemma PatchesExactly(table: Table, patch: Patch)
    ensures var after := Patched(table, patch);
      && after.Keys == table.Keys + {patch.key}
      && (forall key <- table :: key != patch.key ==> after[key] == table[key])
      && (patch.enabled.Some? ==> after[patch.key].enabled == patch.enabled.value)
      && (patch.rolloutPercent.Some? ==> after[patch.key].rolloutPercent == patch.rolloutPercent.value)
      && (patch.enabled.None? ==> after[patch.key].enabled == (patch.key in table && table[patch.key].enabled))
      && (patch.rolloutPercent.None? ==>
            after[patch.key].rolloutPercent == if patch.key in table then table[patch.key].rolloutPercent else 0)
  {
  }

  // Write `i` named the field of the flag and none after it did.
  predicate IsLastToSet(log: seq<Patch>, key: FlagKey, i: nat) {
    && i < |log| && log[i].key == key && log[i].enabled.Some?
    && forall j :: i < j < |log| && log[j].key == key ==> log[j].enabled.None?
  }

  predicate IsLastToRoll(log: seq<Patch>, key: FlagKey, i: nat) {
    && i < |log| && log[i].key == key && log[i].rolloutPercent.Some?
    && forall j :: i < j < |log| && log[j].key == key ==> log[j].rolloutPercent.None?
  }

  predicate NeverSet(log: seq<Patch>, key: FlagKey) {
    forall i :: 0 <= i < |log| && log[i].key == key ==> log[i].enabled.None?
  }

  predicate NeverRolled(log: seq<Patch>, key: FlagKey) {
    forall i :: 0 <= i < |log| && log[i].key == key ==> log[i].rolloutPercent.None?
  }

  /** Any number of writes: of each field of a flag the last write that named it wins, whoever wrote since. */
  lemma {:induction false} LastWriteWins(log: seq<Patch>, key: FlagKey)
    ensures key in TableAt(log) <==> exists i :: 0 <= i < |log| && log[i].key == key
    ensures forall i: nat :: IsLastToSet(log, key, i) ==> key in TableAt(log) && Some(TableAt(log)[key].enabled) == log[i].enabled
    ensures forall i: nat :: IsLastToRoll(log, key, i) ==>
      key in TableAt(log) && Some(TableAt(log)[key].rolloutPercent) == log[i].rolloutPercent
    ensures key in TableAt(log) && NeverSet(log, key) ==> !TableAt(log)[key].enabled
    ensures key in TableAt(log) && NeverRolled(log, key) ==> TableAt(log)[key].rolloutPercent == 0
  {
    if log != [] {
      var init, last := log[..|log| - 1], log[|log| - 1];
      LastWriteWins(init, key);
      PatchesExactly(TableAt(init), last);
      hide Patched;
      assert forall i :: 0 <= i < |init| ==> init[i] == log[i];
      forall i: nat | IsLastToSet(log, key, i) && i < |init| ensures IsLastToSet(init, key, i) {
      }
      forall i: nat | IsLastToRoll(log, key, i) && i < |init| ensures IsLastToRoll(init, key, i) {
      }
    }
  }

  /** What a reader is shown of it: exactly the flags this build knows. */
  lemma ShowsExactly(table: Table, known: set<FlagKey>)
    ensures KnownRows(table, known).Keys == table.Keys * known
    ensures forall key <- KnownRows(table, known) :: KnownRows(table, known)[key] == table[key]
  {
  }

  /** A payload cached under the counter as it is answers without a look at the table; any other does not. */
  lemma CachedIsUsedExactly(f: Fleet, r: Id)
    requires r in f.readers && f.readers[r].Started?
    ensures var after, began := Step(f, LookUp(r)).readers[r], f.readers[r].began;
      if f.cached.Some? && f.cached.value.payload.version == |f.invalidations|
      then after == Answered(began, f.cached.value.asOf, f.cached.value.payload.rows)
      else after == ReadTable(began, Some(|f.invalidations|))
  {
  }

  /* ---- freshness ---- */

  // Rows that include `asOf` writes include every write of the first `n` completed invalidations.
  predicate Covers(f: Fleet, n: nat, asOf: nat) {
    n <= |f.invalidations| && asOf <= |f.log| && forall c :: 0 <= c < n ==> f.invalidations[c] < asOf
  }

  predicate FillOk(f: Fleet, fill: Fill) {
    Covers(f, fill.payload.version, fill.asOf) && fill.payload.rows == RowsAt(f, fill.asOf)
  }

  predicate ReaderOk(f: Fleet, reader: Reader) {
    && reader.began <= |f.invalidations|
    && (reader.ReadTable? && reader.missed.Some? ==> reader.began <= reader.missed.value <= |f.invalidations|)
    && (reader.Filling? ==> Covers(f, reader.began, reader.asOf) && Covers(f, reader.version, reader.asOf))
    && (reader.Answered? ==> Covers(f, reader.began, reader.asOf) && reader.rows == RowsAt(f, reader.asOf))
  }

  predicate FleetOk(f: Fleet) {
    && (forall c :: 0 <= c < |f.invalidations| ==> f.invalidations[c] < |f.log|)
    && (f.cached.Some? ==> FillOk(f, f.cached.value))
    && (forall fill <- f.inFlight :: FillOk(f, fill))
    && (forall r <- f.readers :: ReaderOk(f, f.readers[r]))
  }

  // Logs only grow.
  predicate Extends(f: Fleet, after: Fleet) {
    f.known == after.known && f.log <= after.log && f.invalidations <= after.invalidations
  }

  lemma ExtendsKeepsRows(f: Fleet, after: Fleet, asOf: nat)
    requires Extends(f, after) && asOf <= |f.log|
    ensures RowsAt(after, asOf) == RowsAt(f, asOf)
  {
    assert after.log[..asOf] == f.log[..asOf];
  }

  lemma ExtendsKeepsFill(f: Fleet, after: Fleet, fill: Fill)
    requires Extends(f, after) && FillOk(f, fill)
    ensures FillOk(after, fill)
  {
    ExtendsKeepsRows(f, after, fill.asOf);
  }

  lemma ExtendsKeepsReader(f: Fleet, after: Fleet, reader: Reader)
    requires Extends(f, after) && ReaderOk(f, reader)
    ensures ReaderOk(after, reader)
  {
    if reader.Answered? { ExtendsKeepsRows(f, after, reader.asOf); }
  }

  lemma GrowthKeepsFleet(f: Fleet, after: Fleet)
    requires FleetOk(f) && Extends(f, after)
    requires after == f.(log := after.log, invalidations := after.invalidations)
    requires forall c :: 0 <= c < |after.invalidations| ==> after.invalidations[c] < |after.log|
    ensures FleetOk(after)
  {
    if after.cached.Some? { ExtendsKeepsFill(f, after, after.cached.value); }
    forall fill | fill in after.inFlight ensures FillOk(after, fill) {
      ExtendsKeepsFill(f, after, fill);
    }
    forall r | r in after.readers ensures ReaderOk(after, after.readers[r]) {
      ExtendsKeepsReader(f, after, after.readers[r]);
    }
  }

  lemma ReaderStepKeepsFleet(f: Fleet, after: Fleet, r: Id)
    requires FleetOk(f) && r in after.readers && after == f.(readers := f.readers[r := after.readers[r]], inFlight := after.inFlight)
    requires ReaderOk(after, after.readers[r])
    requires forall fill <- after.inFlight :: fill in f.inFlight || FillOk(after, fill)
    ensures FleetOk(after)
  {
    forall u | u in after.readers ensures ReaderOk(after, after.readers[u]) {
      if u != r { ExtendsKeepsReader(f, after, f.readers[u]); }
    }
    forall fill | fill in after.inFlight ensures FillOk(after, fill) {
      if fill in f.inFlight { ExtendsKeepsFill(f, after, fill); }
    }
    if f.cached.Some? { ExtendsKeepsFill(f, after, f.cached.value); }
  }

  lemma {:induction false} StepKeepsFleet(f: Fleet, move: Move)
    requires FleetOk(f)
    ensures FleetOk(Step(f, move))
  {
    var after := Step(f, move);
    match move
    case Commit(patch) => GrowthKeepsFleet(f, after);
    case Invalidated(write) => if write < |f.log| { GrowthKeepsFleet(f, after); }
    case Begin(r) => if r !in f.readers { ReaderStepKeepsFleet(f, after, r); }
    case LookUpFails(r) => if after != f { ReaderStepKeepsFleet(f, after, r); }
    case LookUp(r) => LookUpKeepsFleet(f, r);
    case Query(r) => QueryKeepsFleet(f, r);
    case SendFill(r) => SendFillKeepsFleet(f, r);
    case _ =>
  }

  lemma LookUpKeepsFleet(f: Fleet, r: Id)
    requires FleetOk(f)
    ensures FleetOk(Step(f, LookUp(r)))
  {
    if r in f.readers && f.readers[r].Started? {
      assert ReaderOk(f, f.readers[r]);
      ReaderStepKeepsFleet(f, Step(f, LookUp(r)), r);
    }
  }

  lemma QueryKeepsFleet(f: Fleet, r: Id)
    requires FleetOk(f)
    ensures FleetOk(Step(f, Query(r)))
  {
    if r in f.readers && f.readers[r].ReadTable? {
      assert ReaderOk(f, f.readers[r]);
      ReaderStepKeepsFleet(f, Step(f, Query(r)), r);
    }
  }

  lemma SendFillKeepsFleet(f: Fleet, r: Id)
    requires FleetOk(f)
    ensures FleetOk(Step(f, SendFill(r)))
  {
    if r in f.readers && f.readers[r].Filling? {
      assert ReaderOk(f, f.readers[r]);
      ReaderStepKeepsFleet(f, Step(f, SendFill(r)), r);
    }
  }

  lemma {:induction false} RunIsOk(known: set<FlagKey>, moves: seq<Move>)
    ensures FleetOk(Run(known, moves))
  {
    hide FleetOk, Step;
    if moves == [] {
      OpeningIsOk(known);
    } else {
      RunIsOk(known, moves[..|moves| - 1]);
      StepKeepsFleet(Run(known, moves[..|moves| - 1]), moves[|moves| - 1]);
    }
  }

  lemma OpeningIsOk(known: set<FlagKey>)
    ensures FleetOk(Opening(known))
  {
  }

  /**
   Every answer is the table as it once stood, and no older than any flag write whose invalidation had
   completed when the call began, whatever fills land late, expire or cross on the way.
   */
  lemma AnswersAreFresh(known: set<FlagKey>, moves: seq<Move>, r: Id)
    requires var f := Run(known, moves); r in f.readers && f.readers[r].Answered?
    ensures var f := Run(known, moves); var answer := f.readers[r];
      && answer.began <= |f.invalidations| && answer.asOf <= |f.log|
      && answer.rows == KnownRows(TableAt(f.log[..answer.asOf]), known)
      && forall c :: 0 <= c < answer.began ==> f.invalidations[c] < answer.asOf
  {
    RunIsOk(known, moves);
    KnownStays(known, moves);
    var f := Run(known, moves);
    assert ReaderOk(f, f.readers[r]);
  }

  lemma {:induction false} KnownStays(known: set<FlagKey>, moves: seq<Move>)
    ensures Run(known, moves).known == known
  {
    if moves != [] { KnownStays(known, moves[..|moves| - 1]); }
  }
}

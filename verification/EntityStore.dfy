/** The sequenced entity store: snapshots replace a family, deltas change one record, and a delta older
    than its family is dropped. */
module EntityStore {
  import opened Arithmetic
  import opened Wrappers

  type Fields = map<string, string>

  datatype Record = Record(id: string, fields: Fields)

  /** Records in the order a Map keeps them. */
  type Table = seq<Record>

  datatype Frame =
    | Snapshot(family: string, records: seq<Record>, sequence: Option<int>)
    | Upsert(family: string, id: string, fields: Option<Fields>, sequence: Option<int>)
    | Patch(family: string, id: string, fields: Option<Fields>, sequence: Option<int>)
    | Remove(family: string, id: string, sequence: Option<int>)
  {
    predicate Delta() { !Snapshot? }
  }

  /** One family: its records and the last sequence recorded for it. */
  datatype Family = Family(table: Table, sequence: Option<int>)

  const NO_FAMILY := Family([], None)

  // ---------------------------------------------------------------------------
  // Tables.
  // ---------------------------------------------------------------------------

  function Find(table: Table, id: string): Option<Fields> {
    if table == [] then None
    else if table[0].id == id then Some(table[0].fields)
    else Find(table[1..], id)
  }

  /** An existing record keeps its place. */
  function Set(table: Table, record: Record): Table {
    if table == [] then [record]
    else if table[0].id == record.id then [record] + table[1..]
    else [table[0]] + Set(table[1..], record)
  }

  function Delete(table: Table, id: string): Table {
    if table == [] then []
    else if table[0].id == id then table[1..]
    else [table[0]] + Delete(table[1..], id)
  }

  function TableOf(records: seq<Record>): Table {
    if records == [] then [] else Set(TableOf(records[..|records| - 1]), records[|records| - 1])
  }

  // ---------------------------------------------------------------------------
  // Applying a frame.
  // ---------------------------------------------------------------------------

  predicate Stale(family: Family, sequence: Option<int>) {
    sequence.Some? && family.sequence.Some? && sequence.value < family.sequence.value
  }

  function Recorded(current: Option<int>, sequence: Option<int>): Option<int> {
    if sequence.None? then current
    else if current.None? || sequence.value > current.value then sequence
    else current
  }

  function ApplyTo(family: Family, frame: Frame): Family {
    match frame
    case Snapshot(_, records, sequence) =>
      Family(TableOf(records), if sequence.Some? then sequence else family.sequence)
    case Remove(_, id, sequence) =>
      if Stale(family, sequence) then family
      else Family(Delete(family.table, id), Recorded(family.sequence, sequence))
    case Upsert(_, id, fields, sequence) =>
      if Stale(family, sequence) || fields.None? then family
      else Family(Set(family.table, Record(id, fields.value["id" := id])), Recorded(family.sequence, sequence))
    case Patch(_, id, fields, sequence) =>
      if Stale(family, sequence) || fields.None? then family
      else
        var before := Find(family.table, id);
        var patch := fields.value["id" := id];
        Family(Set(family.table, Record(id, if before.Some? then before.value + patch else patch)),
               Recorded(family.sequence, sequence))
  }

  type Store = map<string, Family>

  function FamilyOf(store: Store, name: string): Family { if name in store then store[name] else NO_FAMILY }

  function Apply(store: Store, frame: Frame): Store {
    store[frame.family := ApplyTo(FamilyOf(store, frame.family), frame)]
  }

  function Run(store: Store, frames: seq<Frame>): Store {
    if frames == [] then store else Apply(Run(store, frames[..|frames| - 1]), frames[|frames| - 1])
  }

  // ---------------------------------------------------------------------------
  // Families are independent, snapshots start afresh.
  // ---------------------------------------------------------------------------

  /** Frames of different families commute. */
  lemma FamiliesCommute(store: Store, a: Frame, b: Frame)
    requires a.family != b.family
    ensures Apply(Apply(store, a), b) == Apply(Apply(store, b), a)
  {
    var one := store[a.family := ApplyTo(FamilyOf(store, a.family), a)];
    assert FamilyOf(one, b.family) == FamilyOf(store, b.family);
  }

  /** Those of the frames that belong to a family, in order. */
  function Only(frames: seq<Frame>, name: string): seq<Frame> {
    if frames == [] then []
    else
      Only(frames[..|frames| - 1], name)
      + if frames[|frames| - 1].family == name then [frames[|frames| - 1]] else []
  }

  function RunFamily(family: Family, frames: seq<Frame>): Family {
    if frames == [] then family else ApplyTo(RunFamily(family, frames[..|frames| - 1]), frames[|frames| - 1])
  }

  /** What a family ends as depends on its own frames alone. */
  lemma {:induction false} FamilyAlone(store: Store, frames: seq<Frame>, name: string)
    ensures FamilyOf(Run(store, frames), name) == RunFamily(FamilyOf(store, name), Only(frames, name))
  {
    if frames != [] {
      var front, last := frames[..|frames| - 1], frames[|frames| - 1];
      hide ApplyTo;
      FamilyAlone(store, front, name);
      var only := Only(frames, name);
      if last.family == name {
        assert only == Only(front, name) + [last];
        assert only[..|only| - 1] == Only(front, name);
      } else {
        assert only == Only(front, name);
      }
    }
  }

  lemma RunMore(store: Store, frames: seq<Frame>, frame: Frame)
    ensures Run(store, frames + [frame]) == Apply(Run(store, frames), frame)
  {
    hide Apply;
    assert (frames + [frame])[..|frames|] == frames;
  }

  /** A snapshot makes everything before it in its family irrelevant exactly when it is sequenced, or the
      sequence kept from before is the same anyway. */
  lemma SnapshotForgetsIff(a: Family, b: Family, frame: Frame)
    requires frame.Snapshot?
    ensures ApplyTo(a, frame) == ApplyTo(b, frame) <==> frame.sequence.Some? || a.sequence == b.sequence
  {
  }

  /** After a sequenced snapshot, a family is what the frames from the snapshot on make of it. */
  lemma SnapshotStartsAfresh(store: Store, before: seq<Frame>, snapshot: Frame, after: seq<Frame>)
    requires snapshot.Snapshot? && snapshot.sequence.Some?
    ensures FamilyOf(Run(store, before + [snapshot] + after), snapshot.family)
         == RunFamily(NO_FAMILY, [snapshot] + Only(after, snapshot.family))
  {
    var name := snapshot.family;
    FamilyAlone(store, before + [snapshot] + after, name);
    OnlyConcat(before + [snapshot], after, name);
    OnlyConcat(before, [snapshot], name);
    assert [snapshot][..0] == [];
    assert Only([snapshot], name) == [snapshot];
    Restart(FamilyOf(store, name), Only(before, name), snapshot, Only(after, name));
    assert Only(before, name) + [snapshot] + Only(after, name) == Only(before + [snapshot] + after, name);
  }

  lemma {:induction false} OnlyConcat(a: seq<Frame>, b: seq<Frame>, name: string)
    ensures Only(a + b, name) == Only(a, name) + Only(b, name)
  {
    if b == [] {
      assert a + b == a;
    } else {
      assert (a + b)[..|a + b| - 1] == a + b[..|b| - 1];
      OnlyConcat(a, b[..|b| - 1], name);
    }
  }

  lemma {:induction false} Restart(family: Family, before: seq<Frame>, snapshot: Frame, after: seq<Frame>)
    requires snapshot.Snapshot? && snapshot.sequence.Some?
    ensures RunFamily(family, before + [snapshot] + after) == RunFamily(NO_FAMILY, [snapshot] + after)
    decreases |after|
  {
    var all := before + [snapshot] + after;
    if after == [] {
      assert all[..|all| - 1] == before && [snapshot] + after == [snapshot];
      assert [snapshot][..0] == [];
    } else {
      assert all[..|all| - 1] == before + [snapshot] + after[..|after| - 1];
      assert ([snapshot] + after)[..|after|] == [snapshot] + after[..|after| - 1];
      Restart(family, before, snapshot, after[..|after| - 1]);
    }
  }

  // ---------------------------------------------------------------------------
  // What a family holds after a frame.
  // ---------------------------------------------------------------------------

  /** The ids of a table, in the order a Map keeps them. */
  function IdsOf(table: Table): seq<string> {
    if table == [] then [] else [table[0].id] + IdsOf(table[1..])
  }

  /** The record a snapshot gives an id: the last one under it. */
  function LastUnder(records: seq<Record>, id: string): Option<Fields> {
    if records == [] then None
    else if records[|records| - 1].id == id then Some(records[|records| - 1].fields)
    else LastUnder(records[..|records| - 1], id)
  }

  /** The ids of a snapshot, each at its first place. */
  function FirstPlaces(records: seq<Record>): seq<string> {
    if records == [] then []
    else
      var before, last := FirstPlaces(records[..|records| - 1]), records[|records| - 1].id;
      if last in before then before else before + [last]
  }

  function WithoutId(ids: seq<string>, id: string): seq<string> {
    if ids == [] then [] else if ids[0] == id then WithoutId(ids[1..], id) else [ids[0]] + WithoutId(ids[1..], id)
  }

  /** The record an id has after a frame: a delta touches its own id only, and not when it is stale or empty. */
  function FoundAfter(family: Family, frame: Frame, id: string): Option<Fields> {
    match frame
    case Snapshot(_, records, _) => LastUnder(records, id)
    case Remove(_, gone, sequence) => if gone == id && !Stale(family, sequence) then None else Find(family.table, id)
    case Upsert(_, other, fields, sequence) =>
      if other == id && !Stale(family, sequence) && fields.Some? then Some(fields.value["id" := id]) else Find(family.table, id)
    case Patch(_, other, fields, sequence) =>
      if other != id || Stale(family, sequence) || fields.None? then Find(family.table, id)
      else if Find(family.table, id).None? then Some(fields.value["id" := id])
      else Some(Find(family.table, id).value + fields.value["id" := id])
  }

  /** The ids after a frame: a record that is new comes last, one that was there keeps its place. */
  function IdsAfter(family: Family, frame: Frame): seq<string> {
    var ids := IdsOf(family.table);
    match frame
    case Snapshot(_, records, _) => FirstPlaces(records)
    case Remove(_, id, sequence) => if Stale(family, sequence) then ids else WithoutId(ids, id)
    case _ => if Stale(family, frame.sequence) || frame.fields.None? || frame.id in ids then ids else ids + [frame.id]
  }

  lemma {:induction false} FoundInIds(table: Table, id: string)
    ensures Find(table, id).Some? <==> id in IdsOf(table)
  {
    if table != [] { FoundInIds(table[1..], id); }
  }

  lemma {:induction false} SetLeaves(table: Table, record: Record, id: string)
    ensures Find(Set(table, record), id) == if id == record.id then Some(record.fields) else Find(table, id)
    ensures IdsOf(Set(table, record)) == IdsOf(table) + if record.id in IdsOf(table) then [] else [record.id]
  {
    if table == [] {
      assert [record][1..] == [];
    } else if table[0].id == record.id {
      assert Set(table, record) == [record] + table[1..];
      assert ([record] + table[1..])[1..] == table[1..];
    } else {
      SetLeaves(table[1..], record, id);
      assert ([table[0]] + Set(table[1..], record))[1..] == Set(table[1..], record);
    }
  }

  lemma {:induction false} DeleteLeaves(table: Table, gone: string, id: string)
    requires Keyed(table)
    ensures Find(Delete(table, gone), id) == if id == gone then None else Find(table, id)
    ensures IdsOf(Delete(table, gone)) == WithoutId(IdsOf(table), gone)
  {
    if table != [] {
      if table[0].id == gone {
        Absent(table[1..], gone);
        NotAmong(table[1..], gone);
      } else {
        DeleteLeaves(table[1..], gone, id);
        assert ([table[0]] + Delete(table[1..], gone))[1..] == Delete(table[1..], gone);
      }
    }
  }

  lemma {:induction false} NotAmong(table: Table, id: string)
    requires forall k :: 0 <= k < |table| ==> table[k].id != id
    ensures WithoutId(IdsOf(table), id) == IdsOf(table)
  {
    if table != [] { NotAmong(table[1..], id); }
  }

  lemma {:induction false} TableHolds(records: seq<Record>, id: string)
    ensures Find(TableOf(records), id) == LastUnder(records, id) && IdsOf(TableOf(records)) == FirstPlaces(records)
  {
    if records != [] {
      TableHolds(records[..|records| - 1], id);
      SetLeaves(TableOf(records[..|records| - 1]), records[|records| - 1], id);
    }
  }

  /** What a family holds after any frame, record by record and in which order; its sequence is the snapshot's, or
      the larger of its own and the delta's. */
  lemma ApplyExact(family: Family, frame: Frame, id: string)
    requires Keyed(family.table)
    ensures Find(ApplyTo(family, frame).table, id) == FoundAfter(family, frame, id)
    ensures IdsOf(ApplyTo(family, frame).table) == IdsAfter(family, frame)
    ensures frame.sequence.Some? && (frame.Snapshot? || family.sequence.None?) && (frame.Upsert? || frame.Patch? ==> frame.fields.Some?)
      ==> ApplyTo(family, frame).sequence == frame.sequence
    ensures frame.Delta() && frame.sequence.Some? && family.sequence.Some? && (!frame.Remove? ==> frame.fields.Some?) ==>
      ApplyTo(family, frame).sequence == Some(MaxInt(family.sequence.value, frame.sequence.value))
    ensures frame.sequence.None? ==> ApplyTo(family, frame).sequence == family.sequence
  {
    hide Find, Set, Delete, IdsOf, Keyed;
    match frame {
      case Snapshot(_, records, _) => TableHolds(records, id);
      case Remove(_, gone, _) => DeleteLeaves(family.table, gone, id);
      case Upsert(_, other, fields, _) =>
        if fields.Some? { SetLeaves(family.table, Record(other, fields.value["id" := other]), id); }
      case Patch(_, other, fields, _) =>
        if fields.Some? {
          var before, patch := Find(family.table, other), fields.value["id" := other];
          SetLeaves(family.table, Record(other, if before.Some? then before.value + patch else patch), id);
        }
    }
  }

  // ---------------------------------------------------------------------------
  // Redelivery.
  // ---------------------------------------------------------------------------

  lemma {:induction false} SetFinds(table: Table, record: Record)
    ensures Find(Set(table, record), record.id) == Some(record.fields)
    ensures Set(Set(table, record), record) == Set(table, record)
  {
    if table != [] && table[0].id != record.id { SetFinds(table[1..], record); }
  }

  /** Each id once. */
  ghost predicate Keyed(table: Table) {
    forall j, k :: 0 <= j < k < |table| ==> table[j].id != table[k].id
  }

  lemma {:induction false} SetKeyed(table: Table, record: Record)
    requires Keyed(table)
    ensures Keyed(Set(table, record))
    ensures forall k :: 0 <= k < |Set(table, record)| ==>
      Set(table, record)[k].id == record.id || exists j :: 0 <= j < |table| && table[j].id == Set(table, record)[k].id
  {
    if table != [] && table[0].id != record.id { SetKeyed(table[1..], record); }
  }

  lemma NotFirst(first: Record, rest: Table, id: string)
    ensures first.id != id ==> Find([first] + rest, id) == Find(rest, id)
  {
    assert ([first] + rest)[1..] == rest;
  }

  /** The first record stays when another id is deleted. */
  lemma DeletedFirst(table: Table, id: string)
    requires table != [] && table[0].id != id && Keyed(table)
    requires var left := Delete(table[1..], id);
      && Keyed(left) && Find(left, id).None?
      && forall k :: 0 <= k < |left| ==> left[k].id != id && exists j :: 0 <= j < |table[1..]| && table[1..][j] == left[k]
    ensures Keyed(Delete(table, id)) && Find(Delete(table, id), id).None?
    ensures forall k :: 0 <= k < |Delete(table, id)| ==>
      Delete(table, id)[k].id != id && exists j :: 0 <= j < |table| && table[j] == Delete(table, id)[k]
  {
    hide Find;
    var rest, left := table[1..], Delete(table[1..], id);
    assert Delete(table, id) == [table[0]] + left;
    NotFirst(table[0], left, id);
    assert ([table[0]] + left)[1..] == left;
    forall k | 0 <= k < |left| ensures left[k].id != table[0].id && exists j :: 0 <= j < |table| && table[j] == left[k] {
      var j :| 0 <= j < |rest| && rest[j] == left[k];
      assert table[j + 1] == left[k];
    }
  }

  lemma {:induction false} DeleteKeyed(table: Table, id: string)
    requires Keyed(table)
    ensures Keyed(Delete(table, id)) && Find(Delete(table, id), id).None?
    ensures forall k :: 0 <= k < |Delete(table, id)| ==>
      Delete(table, id)[k].id != id && exists j :: 0 <= j < |table| && table[j] == Delete(table, id)[k]
  {
    if table != [] {
      var rest := table[1..];
      assert forall k :: 0 <= k < |rest| ==> rest[k] == table[k + 1];
      if table[0].id == id {
        Absent(rest, id);
      } else {
        DeleteKeyed(rest, id);
        DeletedFirst(table, id);
      }
    }
  }

  lemma {:induction false} Absent(table: Table, id: string)
    requires forall k :: 0 <= k < |table| ==> table[k].id != id
    ensures Find(table, id).None? && Delete(table, id) == table
  {
    if table != [] { Absent(table[1..], id); }
  }

  lemma {:induction false} TableKeyed(records: seq<Record>)
    ensures Keyed(TableOf(records))
  {
    if records != [] {
      TableKeyed(records[..|records| - 1]);
      SetKeyed(TableOf(records[..|records| - 1]), records[|records| - 1]);
    }
  }

  lemma ApplyKeyed(family: Family, frame: Frame)
    requires Keyed(family.table)
    ensures Keyed(ApplyTo(family, frame).table)
  {
    match frame {
      case Snapshot(_, records, _) => TableKeyed(records);
      case Remove(_, id, _) => DeleteKeyed(family.table, id);
      case Upsert(_, id, fields, _) =>
        if fields.Some? { SetKeyed(family.table, Record(id, fields.value["id" := id])); }
      case Patch(_, id, fields, _) =>
        if fields.Some? {
          var before, patch := Find(family.table, id), fields.value["id" := id];
          SetKeyed(family.table, Record(id, if before.Some? then before.value + patch else patch));
        }
    }
  }

  /** A delta applied twice in a row is applied once. */
  lemma ApplyTwice(family: Family, frame: Frame)
    requires frame.Delta() && Keyed(family.table)
    ensures ApplyTo(ApplyTo(family, frame), frame) == ApplyTo(family, frame)
  {
    match frame {
      case Remove(_, id, _) =>
        DeleteKeyed(family.table, id);
        Absent(Delete(family.table, id), id);
      case Upsert(_, id, fields, _) =>
        if fields.Some? { SetFinds(family.table, Record(id, fields.value["id" := id])); }
      case Patch(_, id, fields, _) =>
        if fields.Some? {
          var before, patch := Find(family.table, id), fields.value["id" := id];
          var merged := if before.Some? then before.value + patch else patch;
          SetFinds(family.table, Record(id, merged));
          assert merged + patch == merged;
        }
    }
  }

  /** Applying the delta to this table changes no record. */
  predicate Settled(table: Table, d: Frame)
    requires d.Delta()
  {
    var held := Find(table, d.id);
    match d
    case Remove(_, _, _) => held.None?
    case Upsert(_, id, fields, _) => fields.Some? ==> held == Some(fields.value["id" := id])
    case Patch(_, id, fields, _) => fields.Some? ==> held.Some? && held.value + fields.value["id" := id] == held.value
  }

  lemma {:induction false} SetSameIff(table: Table, record: Record)
    ensures Set(table, record) == table <==> Find(table, record.id) == Some(record.fields)
  {
    if table != [] && table[0].id != record.id {
      SetSameIff(table[1..], record);
      assert table == [table[0]] + table[1..];
    } else if table != [] {
      assert table == [table[0]] + table[1..];
      assert Set(table, record)[0] == record;
    }
  }

  lemma {:induction false} DeleteSameIff(table: Table, id: string)
    ensures Delete(table, id) == table <==> Find(table, id).None?
  {
    if table != [] && table[0].id != id {
      DeleteSameIff(table[1..], id);
      assert table == [table[0]] + table[1..];
    }
  }

  /** Exactly when a sequenced delta changes nothing: it is stale, it carries no record, or the family is at
      its very sequence and its records are settled under it. */
  lemma ReapplyIff(family: Family, d: Frame)
    requires d.Delta() && d.sequence.Some?
    ensures ApplyTo(family, d) == family <==>
      || Stale(family, d.sequence) || (!d.Remove? && d.fields.None?)
      || (family.sequence == d.sequence && Settled(family.table, d))
  {
    match d {
      case Remove(_, id, _) => DeleteSameIff(family.table, id);
      case Upsert(_, id, fields, _) => if fields.Some? { SetSameIff(family.table, Record(id, fields.value["id" := id])); }
      case Patch(_, id, fields, _) =>
        if fields.Some? {
          var before, patch := Find(family.table, id), fields.value["id" := id];
          SetSameIff(family.table, Record(id, if before.Some? then before.value + patch else patch));
        }
    }
  }

  /** Sequenced frames whose deltas carry records. */
  predicate Sequenced(frames: seq<Frame>) {
    forall k :: 0 <= k < |frames| ==>
      frames[k].sequence.Some? && (frames[k].Upsert? || frames[k].Patch? ==> frames[k].fields.Some?)
  }

  /** Each id once in every family: so is the empty store, and frames keep it so (`RunKeyed`). */
  ghost predicate KeyedStore(store: Store) { forall name :: Keyed(FamilyOf(store, name).table) }

  function After(store: Store, frames: seq<Frame>, n: nat, name: string): Family
    requires n <= |frames|
  {
    FamilyOf(Run(store, frames[..n]), name)
  }

  lemma AfterMore(store: Store, frames: seq<Frame>, n: nat, name: string)
    requires n < |frames|
    ensures After(store, frames, n + 1, name)
      == if frames[n].family == name then ApplyTo(After(store, frames, n, name), frames[n]) else After(store, frames, n, name)
  {
    hide ApplyTo;
    assert frames[..n + 1] == frames[..n] + [frames[n]];
    RunMore(store, frames[..n], frames[n]);
  }

  lemma {:induction false} AfterKeyed(store: Store, frames: seq<Frame>, n: nat, name: string)
    requires KeyedStore(store)
    requires n <= |frames|
    ensures Keyed(After(store, frames, n, name).table)
  {
    hide ApplyTo;
    if n != 0 {
      AfterKeyed(store, frames, n - 1, name);
      AfterMore(store, frames, n - 1, name);
      if frames[n - 1].family == name { ApplyKeyed(After(store, frames, n - 1, name), frames[n - 1]); }
    }
  }

  /** Frames keep a store keyed. */
  lemma RunKeyed(store: Store, frames: seq<Frame>)
    requires KeyedStore(store)
    ensures KeyedStore(Run(store, frames))
  {
    hide Run, Keyed;
    AllOf(frames);
    forall name ensures Keyed(FamilyOf(Run(store, frames), name).table) { AfterKeyed(store, frames, |frames|, name); }
  }

  /** What frame k does to delta i delivered before it: a snapshot has a larger sequence, another delta of the
      same sequence is stale on arrival; or else the delta is settled in the records it leaves. */
  predicate Keeps(store: Store, frames: seq<Frame>, i: nat, k: nat)
    requires i < k < |frames| && Sequenced(frames) && frames[i].Delta()
  {
    var si, sk, name := frames[i].sequence.value, frames[k].sequence.value, frames[i].family;
    var settled := Settled(After(store, frames, k + 1, name).table, frames[i]);
    frames[k].family == name ==>
      if frames[k].Snapshot? then si < sk || (si == sk && settled)
      else si == sk ==> Stale(After(store, frames, k, name), frames[k].sequence) || settled
  }

  ghost predicate Guarded(store: Store, frames: seq<Frame>)
    requires Sequenced(frames)
  {
    forall i: nat, k: nat :: i < k < |frames| && frames[i].Delta() ==> Keeps(store, frames, i, k)
  }

  /** Delivering delta i again after n frames leaves the whole store as it is. */
  predicate Harmless(store: Store, frames: seq<Frame>, i: nat, n: nat)
    requires i < n <= |frames|
  {
    Run(store, frames[..n] + [frames[i]]) == Run(store, frames[..n])
  }

  lemma {:induction false} FamilyKnown(store: Store, frames: seq<Frame>, i: nat, n: nat)
    requires i < n <= |frames|
    ensures frames[i].family in Run(store, frames[..n])
  {
    hide ApplyTo;
    assert frames[..n] == frames[..n - 1] + [frames[n - 1]];
    RunMore(store, frames[..n - 1], frames[n - 1]);
    if i < n - 1 { FamilyKnown(store, frames, i, n - 1); }
  }

  lemma HarmlessIff(store: Store, frames: seq<Frame>, i: nat, n: nat)
    requires i < n <= |frames|
    ensures Harmless(store, frames, i, n) <==> ApplyTo(After(store, frames, n, frames[i].family), frames[i]) == After(store, frames, n, frames[i].family)
  {
    hide ApplyTo;
    FamilyKnown(store, frames, i, n);
    RunMore(store, frames[..n], frames[i]);
  }

  /** The family is past the delta, or at its sequence with its records settled under it. */
  predicate Past(family: Family, d: Frame)
    requires d.Delta() && d.sequence.Some?
  {
    family.sequence.Some? &&
    (d.sequence.value < family.sequence.value || (d.sequence == family.sequence && Settled(family.table, d)))
  }

  lemma PastIff(store: Store, frames: seq<Frame>, i: nat, n: nat)
    requires i < n <= |frames| && Sequenced(frames) && frames[i].Delta()
    ensures Harmless(store, frames, i, n) <==> Past(After(store, frames, n, frames[i].family), frames[i])
  {
    hide ApplyTo, Settled, After;
    HarmlessIff(store, frames, i, n);
    ReapplyIff(After(store, frames, n, frames[i].family), frames[i]);
  }

  /** A delta that has just arrived is past. */
  lemma ArrivalPast(store: Store, frames: seq<Frame>, i: nat)
    requires KeyedStore(store)
    requires i < |frames| && Sequenced(frames) && frames[i].Delta()
    ensures Past(After(store, frames, i + 1, frames[i].family), frames[i])
  {
    hide Settled, Set, Delete, Find;
    var name := frames[i].family;
    AfterMore(store, frames, i, name);
    AfterKeyed(store, frames, i, name);
    ApplyTwice(After(store, frames, i, name), frames[i]);
    ReapplyIff(After(store, frames, i + 1, name), frames[i]);
  }

  lemma PastStep(store: Store, frames: seq<Frame>, i: nat, k: nat)
    requires i < k < |frames| && Sequenced(frames) && frames[i].Delta()
    requires Past(After(store, frames, k, frames[i].family), frames[i])
    ensures Past(After(store, frames, k + 1, frames[i].family), frames[i]) <==> Keeps(store, frames, i, k)
  {
    hide Settled, Set, Delete, Find, After, TableOf;
    AfterMore(store, frames, k, frames[i].family);
  }

  lemma {:induction false} GuardedPast(store: Store, frames: seq<Frame>, i: nat, n: nat)
    requires KeyedStore(store)
    requires i < n <= |frames| && Sequenced(frames) && frames[i].Delta() && Guarded(store, frames)
    ensures Past(After(store, frames, n, frames[i].family), frames[i])
  {
    hide Past, Keeps, After;
    if i == n - 1 {
      ArrivalPast(store, frames, i);
    } else {
      GuardedPast(store, frames, i, n - 1);
      PastStep(store, frames, i, n - 1);
    }
  }

  /** Every delta may come again, at every later point of the stream. */
  ghost predicate AlwaysHarmless(store: Store, frames: seq<Frame>) {
    forall i: nat, n: nat :: i < n <= |frames| && frames[i].Delta() ==> Harmless(store, frames, i, n)
  }

  /** Exactly when redelivery to a store already in use is always harmless: no later frame fails `Keeps` for a delta before it. */
  lemma RedeliveryHarmlessIff(store: Store, frames: seq<Frame>)
    requires KeyedStore(store)
    requires Sequenced(frames)
    ensures AlwaysHarmless(store, frames) <==> Guarded(store, frames)
  {
    hide Past, Keeps, After, Harmless;
    if Guarded(store, frames) {
      forall i: nat, n: nat | i < n <= |frames| && frames[i].Delta() ensures Harmless(store, frames, i, n) {
        GuardedPast(store, frames, i, n);
        PastIff(store, frames, i, n);
      }
    }
    if AlwaysHarmless(store, frames) {
      forall i: nat, k: nat | i < k < |frames| && frames[i].Delta() ensures Keeps(store, frames, i, k) {
        assert Harmless(store, frames, i, k) && Harmless(store, frames, i, k + 1);
        PastIff(store, frames, i, k);
        PastIff(store, frames, i, k + 1);
        PastStep(store, frames, i, k);
      }
    }
  }

  /** Sequences alone suffice, whatever the records and the order of arrival: no two deltas of a family carry
      the same one, and a snapshot a larger one than every delta delivered before it. */
  predicate Apart(frames: seq<Frame>)
    requires Sequenced(frames)
  {
    forall i, k :: 0 <= i < k < |frames| && frames[i].Delta() && frames[i].family == frames[k].family ==>
      if frames[k].Snapshot? then frames[i].sequence.value < frames[k].sequence.value
      else frames[i].sequence != frames[k].sequence
  }

  lemma ApartIsGuarded(store: Store, frames: seq<Frame>)
    requires Sequenced(frames) && Apart(frames)
    ensures Guarded(store, frames)
  {
    hide Settled, After;
  }

  /** One delivery: a frame for the first time, or again a frame delivered before. */
  datatype Delivery = New(frame: Frame) | Again(index: nat)

  function News(deliveries: seq<Delivery>): seq<Frame> {
    if deliveries == [] then []
    else
      News(deliveries[..|deliveries| - 1])
      + if deliveries[|deliveries| - 1].New? then [deliveries[|deliveries| - 1].frame] else []
  }

  /** Only deltas already delivered come again. */
  ghost predicate Redelivers(deliveries: seq<Delivery>) {
    deliveries == [] ||
      var front, last := deliveries[..|deliveries| - 1], deliveries[|deliveries| - 1];
      Redelivers(front) && (last.Again? ==> last.index < |News(front)| && News(front)[last.index].Delta())
  }

  function Delivered(deliveries: seq<Delivery>): seq<Frame>
    requires Redelivers(deliveries)
  {
    if deliveries == [] then []
    else
      var front, last := deliveries[..|deliveries| - 1], deliveries[|deliveries| - 1];
      Delivered(front) + [if last.New? then last.frame else News(front)[last.index]]
  }

  lemma AllOf(frames: seq<Frame>)
    ensures frames[..|frames|] == frames
  {
  }

  lemma GuardedFront(store: Store, frames: seq<Frame>, frame: Frame)
    requires Sequenced(frames + [frame]) && Guarded(store, frames + [frame])
    ensures Sequenced(frames) && Guarded(store, frames)
  {
    hide Settled, Run;
    var all := frames + [frame];
    assert forall k :: 0 <= k < |frames| ==> frames[k] == all[k];
    forall i: nat, k: nat | i < k < |frames| && frames[i].Delta() ensures Keeps(store, frames, i, k) {
      assert frames[..k] == all[..k] && frames[..k + 1] == all[..k + 1];
      assert Keeps(store, all, i, k);
    }
  }

  /** However often deltas already delivered come again, and wherever in the stream, the store is the one
      exactly-once delivery gives: every family, every record, in the same order. */
  lemma {:induction false} RedeliveryChangesNothing(store: Store, deliveries: seq<Delivery>)
    requires KeyedStore(store)
    requires Redelivers(deliveries) && Sequenced(News(deliveries)) && Guarded(store, News(deliveries))
    ensures Run(store, Delivered(deliveries)) == Run(store, News(deliveries))
  {
    hide Apply, Run, Guarded, Sequenced, Harmless;
    if deliveries == [] {
    } else {
      var front, last := deliveries[..|deliveries| - 1], deliveries[|deliveries| - 1];
      if last.New? { GuardedFront(store, News(front), last.frame); } else { assert News(deliveries) == News(front); }
      var frame := if last.New? then last.frame else News(front)[last.index];
      RedeliveryChangesNothing(store, front);
      RunMore(store, Delivered(front), frame);
      RunMore(store, News(front), frame);
      if last.Again? { ComesAgain(store, News(front), last.index); }
    }
  }

  lemma ComesAgain(store: Store, frames: seq<Frame>, i: nat)
    requires KeyedStore(store)
    requires Sequenced(frames) && Guarded(store, frames) && i < |frames| && frames[i].Delta()
    ensures Run(store, frames + [frames[i]]) == Run(store, frames)
  {
    hide Run, Past, Settled;
    AllOf(frames);
    GuardedPast(store, frames, i, |frames|);
    PastIff(store, frames, i, |frames|);
  }

  const ONE := Upsert("f", "a", Some(map["v" := "1"]), Some(5))
  const TWO := Upsert("f", "a", Some(map["v" := "2"]), Some(5))

  /** With equal sequences the guard is open: an older delta that comes again undoes a newer one. */
  lemma EqualSequencesReapply()
    ensures Run(map[], [ONE, TWO]) != Run(map[], [ONE, TWO, ONE])
  {
    RunsOfTwo();
    assert FIRST["v"] != SECOND["v"];
    assert Run(map[], [ONE, TWO])["f"].table[0].fields != Run(map[], [ONE, TWO, ONE])["f"].table[0].fields;
  }

  const FIRST := map["v" := "1", "id" := "a"]
  const SECOND := map["v" := "2", "id" := "a"]

  lemma RunsOfTwo()
    ensures "f" in Run(map[], [ONE, TWO]) && Run(map[], [ONE, TWO])["f"] == Family([Record("a", SECOND)], Some(5))
    ensures "f" in Run(map[], [ONE, TWO, ONE]) && Run(map[], [ONE, TWO, ONE])["f"] == Family([Record("a", FIRST)], Some(5))
  {
    var none: seq<Frame> := [];
    RunMore(map[], none, ONE);
    RunMore(map[], [ONE], TWO);
    RunMore(map[], [ONE, TWO], ONE);
    assert none + [ONE] == [ONE] && [ONE] + [TWO] == [ONE, TWO] && [ONE, TWO] + [ONE] == [ONE, TWO, ONE];
    assert map["v" := "1"]["id" := "a"] == FIRST && map["v" := "2"]["id" := "a"] == SECOND;
    assert Run(map[], [ONE])["f"] == Family([Record("a", FIRST)], Some(5));
  }

  const LOWER := Snapshot("f", [], Some(3))
  const LEVEL := Snapshot("f", [], Some(5))

  /** A snapshot that lowers the sequence, or only repeats it, opens the guard too: a delta delivered before
      it comes back. */
  lemma SnapshotsReopen()
    ensures Run(map[], [ONE, LOWER]) != Run(map[], [ONE, LOWER, ONE])
    ensures Run(map[], [ONE, LEVEL]) != Run(map[], [ONE, LEVEL, ONE])
  {
    Reopens(LOWER);
    Reopens(LEVEL);
  }

  lemma Reopens(snapshot: Frame)
    requires snapshot.Snapshot? && snapshot.family == "f" && snapshot.records == []
    requires snapshot.sequence.Some? && snapshot.sequence.value <= 5
    ensures Run(map[], [ONE, snapshot]) != Run(map[], [ONE, snapshot, ONE])
  {
    hide ApplyTo;
    var frames := [ONE, snapshot];
    assert frames[..2] == frames && frames + [ONE] == [ONE, snapshot, ONE];
    SnapshotForgetsIff(After(map[], frames, 1, "f"), NO_FAMILY, snapshot);
    AfterMore(map[], frames, 1, "f");
    Emptied(snapshot);
    PastIff(map[], frames, 0, 2);
  }

  lemma Emptied(snapshot: Frame)
    requires snapshot.Snapshot? && snapshot.records == [] && snapshot.sequence.Some?
    ensures ApplyTo(NO_FAMILY, snapshot) == Family([], snapshot.sequence)
  {
  }

  // ---------------------------------------------------------------------------
  // The object.
  // ---------------------------------------------------------------------------

  class InMemoryEntityFrameStore {
    var records: map<string, Table>
    var familySequences: map<string, int>

    /** What the store holds of one family. */
    function Held(name: string): Family
      reads this
    {
      Family(if name in records then records[name] else [],
             if name in familySequences then Some(familySequences[name]) else None)
    }

    constructor ()
      ensures forall name :: Held(name) == NO_FAMILY
    {
      records, familySequences := map[], map[];
    }

    predicate IsStaleDelta(name: string, sequence: Option<int>): (stale: bool)
      reads this
      ensures stale == Stale(Held(name), sequence)
    {
      sequence.Some? && name in familySequences && sequence.value < familySequences[name]
    }

    method RecordSequence(name: string, sequence: Option<int>)
      modifies `familySequences
      ensures forall other :: other != name ==> Held(other) == old(Held(other))
      ensures Held(name) == old(Held(name)).(sequence := Recorded(old(Held(name)).sequence, sequence))
    {
      if sequence.None? { return; }
      if name !in familySequences || sequence.value > familySequences[name] {
        familySequences := familySequences[name := sequence.value];
      }
    }

    method ApplySnapshot(name: string, snapshot: seq<Record>, sequence: Option<int>)
      modifies this
      ensures forall other :: other != name ==> Held(other) == old(Held(other))
      ensures Held(name) == ApplyTo(old(Held(name)), Snapshot(name, snapshot, sequence))
    {
      var next: Table := [];
      for k := 0 to |snapshot|
        invariant next == TableOf(snapshot[..k])
      {
        assert snapshot[..k + 1][..k] == snapshot[..k];
        next := Set(next, snapshot[k]);
      }
      assert snapshot[..|snapshot|] == snapshot;
      records := records[name := next];
      if sequence.Some? { familySequences := familySequences[name := sequence.value]; }
    }

    /** One frame changes its own family, as `ApplyTo` says, and no other. */
    method Apply(frame: Frame)
      modifies this
      ensures forall other :: other != frame.family ==> Held(other) == old(Held(other))
      ensures Held(frame.family) == ApplyTo(old(Held(frame.family)), frame)
    {
      if frame.Snapshot? {
        ApplySnapshot(frame.family, frame.records, frame.sequence);
        return;
      }
      if IsStaleDelta(frame.family, frame.sequence) { return; }
      var table := if frame.family in records then records[frame.family] else [];
      records := records[frame.family := table];
      if frame.Remove? {
        records := records[frame.family := Delete(table, frame.id)];
      } else {
        if frame.fields.None? { return; }
        var fields := frame.fields.value["id" := frame.id];
        var before := Find(table, frame.id);
        if frame.Patch? && before.Some? { fields := before.value + fields; }
        records := records[frame.family := Set(table, Record(frame.id, fields))];
      }
      RecordSequence(frame.family, frame.sequence);
    }
  }
}

/** Import plans and operations (packages/archive/src/types.ts). */
module ImportTypes {
  import opened Base
  import opened Records

  datatype Mode = PreserveIds | MappedWorkspace
  datatype ConflictMode = RejectOnError | ReportOnly
  datatype Status = Ready | Rejected | Reported
  datatype Disposition = Insert | AlreadyPresent | Blocked

  /** An action writes a record of some kind, or the bytes of a blob. */
  datatype ActionKind = RecordOf(kind: Kind) | BlobBytes

  datatype Action = Action(
    index: nat, phase: nat, kind: ActionKind, sourceId: string, targetId: string,
    disposition: Disposition, record: Option<Record>, dependsOn: seq<string>)

  datatype Counts = Counts(insert: nat, alreadyPresent: nat, blocked: nat)

  datatype Plan = Plan(
    planId: string, archiveExportId: string, sourceWorkspaceId: string, targetWorkspaceId: string,
    mode: Mode, conflictMode: ConflictMode, status: Status, actions: seq<Action>, counts: Counts)

  /** A record's place in the target. */
  type Key = (Kind, string)

  /** The target's records in insertion order: setting a present key keeps its place. */
  datatype Inventory = Inventory(order: seq<Key>, byKey: map<Key, Record>)

  ghost predicate ValidInventory(inv: Inventory) {
    Distinct(inv.order) && forall k :: k in inv.order <==> k in inv.byKey
  }

  function Put(inv: Inventory, key: Key, record: Record): Inventory {
    Inventory(if key in inv.byKey then inv.order else inv.order + [key], inv.byKey[key := record])
  }

  function PutAll(inv: Inventory, writes: seq<(Key, Record)>): Inventory {
    if writes == [] then inv
    else
      var n := |writes| - 1;
      Put(PutAll(inv, writes[..n]), writes[n].0, writes[n].1)
  }

  /** What a list of writes leaves behind: of several to one key, the last. */
  function WriteMap(writes: seq<(Key, Record)>): map<Key, Record> {
    if writes == [] then map[]
    else
      var n := |writes| - 1;
      WriteMap(writes[..n])[writes[n].0 := writes[n].1]
  }

  lemma {:induction false} PutAllMap(inv: Inventory, writes: seq<(Key, Record)>)
    ensures PutAll(inv, writes).byKey == inv.byKey + WriteMap(writes)
  {
    if writes != [] {
      var n := |writes| - 1;
      PutAllMap(inv, writes[..n]);
      UpdateLast(inv.byKey, WriteMap(writes[..n]), writes[n].0, writes[n].1);
    }
  }

  lemma UpdateLast(a: map<Key, Record>, b: map<Key, Record>, k: Key, r: Record)
    ensures (a + b)[k := r] == a + b[k := r]
  {
  }

  /** New keys are appended in order; writing only present keys keeps the order. */
  lemma {:induction false} PutAllOrder(inv: Inventory, writes: seq<(Key, Record)>)
    ensures inv.order <= PutAll(inv, writes).order
    ensures (forall w :: w in writes ==> w.0 in inv.byKey) ==> PutAll(inv, writes).order == inv.order
    ensures ValidInventory(inv) ==> ValidInventory(PutAll(inv, writes))
  {
    if writes != [] {
      var n := |writes| - 1;
      PutAllOrder(inv, writes[..n]);
      PutAllMap(inv, writes[..n]);
      PutValid(PutAll(inv, writes[..n]), writes[n].0, writes[n].1);
      assert forall w :: w in writes[..n] ==> w in writes;
      assert writes[n] in writes;
    }
  }

  lemma PutValid(inv: Inventory, key: Key, record: Record)
    ensures ValidInventory(inv) ==> ValidInventory(Put(inv, key, record))
  {
    if ValidInventory(inv) && key !in inv.byKey {
      var order := inv.order + [key];
      forall k ensures k in order <==> k in inv.byKey[key := record] {
        assert k in order <==> k in inv.order || k == key;
      }
    }
  }

  lemma {:induction false} WriteMapKeys(writes: seq<(Key, Record)>)
    ensures forall k :: k in WriteMap(writes) <==> exists w :: w in writes && w.0 == k
  {
    if writes != [] {
      var n := |writes| - 1;
      WriteMapKeys(writes[..n]);
      forall k ensures k in WriteMap(writes) <==> exists w :: w in writes && w.0 == k {
        if w :| w in writes && w.0 == k {
          assert w == writes[n] || w in writes[..n];
        }
        assert writes[n] in writes;
        assert forall w :: w in writes[..n] ==> w in writes;
      }
    }
  }

  /** Committing the same records again changes nothing. */
  lemma PutAllIdempotent(inv: Inventory, writes: seq<(Key, Record)>)
    ensures PutAll(PutAll(inv, writes), writes) == PutAll(inv, writes)
  {
    var once := PutAll(inv, writes);
    PutAllMap(inv, writes);
    PutAllMap(once, writes);
    WriteMapKeys(writes);
    PutAllOrder(once, writes);
    assert once.byKey + WriteMap(writes) == once.byKey;
  }
}

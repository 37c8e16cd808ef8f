/** Mapping an archive into another workspace carries its record graph over unchanged. */
module ImportRemap {
  import opened Base
  import opened Json
  import opened Numbers
  import opened Records
  import opened ImportGraph
  import opened ImportMapping

  /** The mapping gives a new id to every scoped record, and to no other reference. */
  ghost predicate Covers(m: Mapping, records: RecordSet) {
    && (forall kind :: Scoped(kind) ==> kind in m.ids && m.ids[kind].Keys == Ids(records, kind))
    && (forall kind :: kind in m.ids ==> Scoped(kind) || kind == Workspaces)
  }

  /** No two ids of one kind are mapped to the same id. */
  ghost predicate NoCollisions(m: Mapping, records: RecordSet) {
    forall kind, a, b :: a in Ids(records, kind) && b in Ids(records, kind) ==>
      MapId(m, kind, a) == MapId(m, kind, b) ==> a == b
  }

  lemma IdOfMapped(m: Mapping, kind: Kind, r: Record)
    ensures HasText(MapRecord(m, kind, r), "id") <==> HasText(r, "id")
    ensures HasText(r, "id") ==> MapRecord(m, kind, r)["id"].s == MapId(m, kind, r["id"].s)
  {
    FieldsMapped(m, kind, r, "id");
  }

  lemma TextMapped(m: Mapping, kind: Kind, r: Record, name: string, ref: Kind)
    requires RoleOf(kind, r, name) == Reference(ref) && name != "mergeParentRevisionIds"
    ensures HasText(MapRecord(m, kind, r), name) <==> HasText(r, name)
    ensures HasText(r, name) ==> MapRecord(m, kind, r)[name].s == MapId(m, ref, r[name].s)
    ensures name in r ==> (MapRecord(m, kind, r)[name] == Null <==> r[name] == Null)
    ensures name in MapRecord(m, kind, r) <==> name in r
  {
    hide RoleOf;
    FieldsMapped(m, kind, r, name);
  }

  lemma PlainKept(m: Mapping, kind: Kind, r: Record, name: string)
    requires RoleOf(kind, r, name) == Plain && name != "mergeParentRevisionIds"
    ensures Prop(MapRecord(m, kind, r), name) == Prop(r, name)
  {
    hide RoleOf;
    FieldsMapped(m, kind, r, name);
  }

  /** The ids after mapping are the images of the ids before. */
  lemma IdsMapped(m: Mapping, records: RecordSet, kind: Kind)
    ensures forall id :: id in Ids(records, kind) ==> MapId(m, kind, id) in Ids(TransformRecords(m, records), kind)
    ensures Ids(records, kind) == {} ==> Ids(TransformRecords(m, records), kind) == {}
  {
    hide MapRecord;
    hide MapId;
    var before, after := Of(records, kind), Of(TransformRecords(m, records), kind);
    assert after == MapList(m, kind, before);
    forall id | id in Ids(records, kind) ensures MapId(m, kind, id) in Ids(TransformRecords(m, records), kind) {
      var r: Record :| r in before && HasText(r, "id") && r["id"].s == id;
      var i :| 0 <= i < |before| && before[i] == r;
      IdOfMapped(m, kind, r);
      assert after[i] in after;
    }
    forall id | id in Ids(TransformRecords(m, records), kind) ensures Ids(records, kind) != {} {
      var r: Record :| r in after && HasText(r, "id") && r["id"].s == id;
      var i :| 0 <= i < |after| && after[i] == r;
      IdOfMapped(m, kind, before[i]);
      assert before[i] in before;
      assert before[i]["id"].s in Ids(records, kind);
    }
  }

  /** A reference that resolves keeps resolving after both ends are mapped. */
  lemma RefCarried(m: Mapping, records: RecordSet, kind: Kind, r: Record, name: string, ref: Kind)
    requires RoleOf(kind, r, name) == Reference(ref) && name != "mergeParentRevisionIds"
    ensures RefOk(Ids(records, ref), r, name, false) ==>
            RefOk(Ids(TransformRecords(m, records), ref), MapRecord(m, kind, r), name, false)
    ensures OptionalRefOk(Ids(records, ref), r, name) ==>
            OptionalRefOk(Ids(TransformRecords(m, records), ref), MapRecord(m, kind, r), name)
  {
    hide RoleOf;
    hide MapRecord;
    hide TransformRecords;
    hide Ids;
    TextMapped(m, kind, r, name, ref);
    IdsMapped(m, records, ref);
  }

  /** Schema packages keep their ids, and references to them stay as they are. */
  lemma SchemaRefCarried(m: Mapping, records: RecordSet, kind: Kind, r: Record)
    requires Covers(m, records) && kind in {Datasets, Revisions}
    requires RefOk(Ids(records, SchemaPackages), r, "schemaPackageId", true)
    ensures RefOk(Ids(TransformRecords(m, records), SchemaPackages), MapRecord(m, kind, r), "schemaPackageId", true)
  {
    hide MapRecord;
    hide TransformRecords;
    hide Ids;
    PlainKept(m, kind, r, "schemaPackageId");
    IdsMapped(m, records, SchemaPackages);
    assert SchemaPackages !in m.ids;
  }

  /** Looking up a mapped id finds the image of the record that the id found before. */
  lemma {:induction false} FindMapped(m: Mapping, kind: Kind, list: seq<Record>, id: string)
    requires forall r: Record :: r in list && HasText(r, "id") && MapId(m, kind, r["id"].s) == MapId(m, kind, id) ==>
               r["id"].s == id
    ensures match Find(list, id)
            case None => Find(MapList(m, kind, list), MapId(m, kind, id)) == None
            case Some(r) => Find(MapList(m, kind, list), MapId(m, kind, id)) == Some(MapRecord(m, kind, r))
  {
    hide MapRecord;
    hide MapId;
    if list != [] {
      var n := |list| - 1;
      IdOfMapped(m, kind, list[n]);
      assert MapList(m, kind, list)[..n] == MapList(m, kind, list[..n]);
      FindMapped(m, kind, list[..n], id);
    }
  }

  lemma {:induction false} FindInIds(list: seq<Record>, id: string)
    ensures Find(list, id).Some? <==> exists r: Record :: r in list && HasText(r, "id") && r["id"].s == id
    ensures Find(list, id).Some? ==> Find(list, id).value in list
  {
    if list != [] {
      var n := |list| - 1;
      FindInIds(list[..n], id);
      assert list[n] in list;
      assert forall r :: r in list[..n] ==> r in list;
      assert forall r :: r in list ==> r in list[..n] || r == list[n];
    }
  }

  lemma Resolves(m: Mapping, records: RecordSet, kind: Kind, id: string)
    requires NoCollisions(m, records) && id in Ids(records, kind)
    ensures Find(Of(records, kind), id).Some?
    ensures Find(Of(TransformRecords(m, records), kind), MapId(m, kind, id))
         == Some(MapRecord(m, kind, Find(Of(records, kind), id).value))
  {
    hide MapRecord;
    hide MapId;
    var list := Of(records, kind);
    FindInIds(list, id);
    forall r: Record | r in list && HasText(r, "id") && MapId(m, kind, r["id"].s) == MapId(m, kind, id)
      ensures r["id"].s == id {
      assert r["id"].s in Ids(records, kind);
    }
    FindMapped(m, kind, list, id);
    assert Of(TransformRecords(m, records), kind) == MapList(m, kind, list);
  }

  /**
   Every reference of every record resolves, after mapping, to the image of the record it
   resolved to before.
   */
  lemma ReferencesResolveToImages(m: Mapping, records: RecordSet, kind: Kind, i: nat, name: string, ref: Kind)
    requires NoCollisions(m, records)
    requires i < |Of(records, kind)| && name != "mergeParentRevisionIds"
    requires RoleOf(kind, Of(records, kind)[i], name) == Reference(ref)
    requires RefOk(Ids(records, ref), Of(records, kind)[i], name, false)
    ensures var old' := Of(records, kind)[i];
            var new' := Of(TransformRecords(m, records), kind)[i];
            && HasText(new', name)
            && Find(Of(records, ref), old'[name].s).Some?
            && Find(Of(TransformRecords(m, records), ref), new'[name].s)
               == Some(MapRecord(m, ref, Find(Of(records, ref), old'[name].s).value))
  {
    hide RoleOf;
    hide MapRecord;
    var r := Of(records, kind)[i];
    TextMapped(m, kind, r, name, ref);
    Resolves(m, records, ref, r[name].s);
  }

  // ---------- the graph checks ----------

  lemma ScopeCarried(m: Mapping, kind: Kind, r: Record)
    requires kind != AuditEvents && ScopeOk(r, m.source)
    ensures ScopeOk(MapRecord(m, kind, r), m.target)
  {
    hide MapRecord;
    FieldsMapped(m, kind, r, "workspaceId");
  }

  lemma ResourceCarried(m: Mapping, records: RecordSet, r: Record)
    requires ResourceOk(records, r)
    ensures ResourceOk(TransformRecords(m, records), MapRecord(m, Resources, r))
  {
    hide MapRecord;
    hide TransformRecords;
    hide Ids;
    RefCarried(m, records, Resources, r, "datasetId", Datasets);
    RefCarried(m, records, Resources, r, "currentRevisionId", Revisions);
    TextMapped(m, Resources, r, "currentRevisionId", Revisions);
  }

  /** A parent keeps its place: same resource, smaller number. */
  lemma ParentCarried(m: Mapping, records: RecordSet, r: Record)
    requires NoCollisions(m, records) && ParentOk(records, r)
    ensures ParentOk(TransformRecords(m, records), MapRecord(m, Revisions, r))
  {
    hide MapRecord;
    hide TransformRecords;
    hide Find;
    hide NumberOf;
    TextMapped(m, Revisions, r, "parentRevisionId", Revisions);
    if HasText(r, "parentRevisionId") {
      var id := r["parentRevisionId"].s;
      FindInIds(Of(records, Revisions), id);
      assert id in Ids(records, Revisions);
      Resolves(m, records, Revisions, id);
      var parent := Find(Of(records, Revisions), id).value;
      ResourceKept(m, parent, r);
      PlainKept(m, Revisions, r, "revisionNumber");
      PlainKept(m, Revisions, parent, "revisionNumber");
    }
  }

  lemma ResourceKept(m: Mapping, a: Record, b: Record)
    requires Prop(a, "resourceId") == Prop(b, "resourceId")
    ensures Prop(MapRecord(m, Revisions, a), "resourceId") == Prop(MapRecord(m, Revisions, b), "resourceId")
  {
    hide MapRecord;
    FieldsMapped(m, Revisions, a, "resourceId");
    FieldsMapped(m, Revisions, b, "resourceId");
    assert RoleOf(Revisions, a, "resourceId") == RoleOf(Revisions, b, "resourceId") == Reference(Resources);
  }

  lemma RevisionCarried(m: Mapping, records: RecordSet, r: Record)
    requires Covers(m, records) && NoCollisions(m, records) && RevisionOk(records, r)
    ensures RevisionOk(TransformRecords(m, records), MapRecord(m, Revisions, r))
  {
    hide MapRecord;
    hide TransformRecords;
    hide Ids;
    hide ParentOk;
    RefCarried(m, records, Revisions, r, "resourceId", Resources);
    RefCarried(m, records, Revisions, r, "datasetId", Datasets);
    SchemaRefCarried(m, records, Revisions, r);
    ParentCarried(m, records, r);
  }

  lemma AttachmentCarried(m: Mapping, records: RecordSet, r: Record)
    requires AttachmentOk(records, r)
    ensures AttachmentOk(TransformRecords(m, records), MapRecord(m, RevisionBlobs, r))
  {
    hide MapRecord;
    hide TransformRecords;
    hide Ids;
    RefCarried(m, records, RevisionBlobs, r, "revisionId", Revisions);
    RefCarried(m, records, RevisionBlobs, r, "blobObjectId", Blobs);
  }

  /** The kind an end names does not change, and its id follows that kind. */
  lemma RelationEndCarried(m: Mapping, records: RecordSet, r: Record, kindName: string, idName: string)
    requires (kindName == "sourceKind" && idName == "sourceId") || (kindName == "targetKind" && idName == "targetId")
    requires RelationEndOk(records, r, kindName, idName)
    ensures RelationEndOk(TransformRecords(m, records), MapRecord(m, Relations, r), kindName, idName)
  {
    hide MapRecord;
    hide TransformRecords;
    hide Ids;
    PlainKept(m, Relations, r, kindName);
    if IsText(r, kindName, "resource") {
      RefCarried(m, records, Relations, r, idName, Resources);
    } else if IsText(r, kindName, "revision") {
      RefCarried(m, records, Relations, r, idName, Revisions);
    } else if IsText(r, kindName, "blob") {
      RefCarried(m, records, Relations, r, idName, Blobs);
    }
  }

  lemma TombstoneCarried(m: Mapping, records: RecordSet, r: Record)
    requires TombstoneOk(records, r)
    ensures TombstoneOk(TransformRecords(m, records), MapRecord(m, Tombstones, r))
  {
    hide MapRecord;
    hide TransformRecords;
    hide Ids;
    PlainKept(m, Tombstones, r, "subjectKind");
    if IsText(r, "subjectKind", "resource") {
      RefCarried(m, records, Tombstones, r, "subjectId", Resources);
    } else if IsText(r, "subjectKind", "dataset") {
      RefCarried(m, records, Tombstones, r, "subjectId", Datasets);
    } else {
      RefCarried(m, records, Tombstones, r, "subjectId", Relations);
    }
    RefCarried(m, records, Tombstones, r, "priorRevisionId", Revisions);
  }

  lemma RecordCarried(m: Mapping, records: RecordSet, kind: Kind, r: Record)
    requires Covers(m, records) && NoCollisions(m, records) && RecordOk(records, kind, r)
    ensures RecordOk(TransformRecords(m, records), kind, MapRecord(m, kind, r))
  {
    hide MapRecord;
    hide TransformRecords;
    hide RefOk;
    hide ResourceOk;
    hide RevisionOk;
    hide AttachmentOk;
    hide RelationEndOk;
    hide TombstoneOk;
    match kind {
      case Datasets => SchemaRefCarried(m, records, Datasets, r);
      case Resources => ResourceCarried(m, records, r);
      case Revisions => RevisionCarried(m, records, r);
      case RevisionBlobs => AttachmentCarried(m, records, r);
      case Relations =>
        RelationEndCarried(m, records, r, "sourceKind", "sourceId");
        RelationEndCarried(m, records, r, "targetKind", "targetId");
      case Tombstones => TombstoneCarried(m, records, r);
      case _ =>
    }
  }

  lemma ClaimMapped(m: Mapping, r: Record)
    ensures match Claim(r)
            case None => Claim(MapRecord(m, Revisions, r)) == None
            case Some((res, n)) => Claim(MapRecord(m, Revisions, r)) == Some((MapId(m, Resources, res), n))
  {
    hide MapRecord;
    TextMapped(m, Revisions, r, "resourceId", Resources);
    PlainKept(m, Revisions, r, "revisionNumber");
  }

  lemma NumbersCarried(m: Mapping, records: RecordSet)
    requires NoCollisions(m, records) && NumbersOk(Of(records, Revisions))
    requires forall r :: r in Of(records, Revisions) ==> RevisionOk(records, r)
    ensures NumbersOk(MapList(m, Revisions, Of(records, Revisions)))
  {
    hide MapRecord;
    hide ParentOk;
    hide Ids;
    var list := Of(records, Revisions);
    var mapped := MapList(m, Revisions, list);
    forall i, j | 0 <= i < j < |mapped| && Claim(mapped[i]).Some? ensures Claim(mapped[i]) != Claim(mapped[j]) {
      ClaimMapped(m, list[i]);
      ClaimMapped(m, list[j]);
      assert list[i] in list && list[j] in list;
      assert Claim(list[i]) != Claim(list[j]);
    }
  }

  lemma KindCarried(m: Mapping, records: RecordSet, kind: Kind)
    requires Covers(m, records) && NoCollisions(m, records) && KindOk(records, kind, m.source)
    ensures KindOk(TransformRecords(m, records), kind, m.target)
  {
    hide MapRecord;
    hide RecordOk;
    hide ScopeOk;
    var before, after := Of(records, kind), Of(TransformRecords(m, records), kind);
    assert after == MapList(m, kind, before);
    forall r | r in after
      ensures (kind != AuditEvents ==> ScopeOk(r, m.target)) && RecordOk(TransformRecords(m, records), kind, r)
    {
      var i :| 0 <= i < |after| && after[i] == r;
      assert before[i] in before;
      RecordCarried(m, records, kind, before[i]);
      if kind != AuditEvents {
        ScopeCarried(m, kind, before[i]);
      }
    }
  }

  /**
   Records that pass the graph and retention checks pass them again after every id and reference
   has been mapped into another workspace, as long as no two ids of one kind collide.
   */
  lemma MappingPreservesGraph(m: Mapping, records: RecordSet)
    requires Covers(m, records) && NoCollisions(m, records)
    requires GraphOk(records, m.source) && RetentionOk(records)
    ensures GraphOk(TransformRecords(m, records), m.target) && RetentionOk(TransformRecords(m, records))
  {
    hide MapRecord;
    hide Covers;
    hide NoCollisions;
    var mapped := TransformRecords(m, records);
    forall kind ensures KindOk(mapped, kind, m.target) {
      KindCarried(m, records, kind);
    }
    RevisionsOk(records, m.source);
    NumbersCarried(m, records);
    assert Of(mapped, Revisions) == MapList(m, Revisions, Of(records, Revisions));
    assert Of(mapped, Datasets) == MapList(m, Datasets, Of(records, Datasets));
    forall r | r in Of(mapped, Datasets) ensures OptionalRefOk(Ids(mapped, Retention), r, "retentionPolicyId") {
      var i :| 0 <= i < |Of(mapped, Datasets)| && Of(mapped, Datasets)[i] == r;
      assert Of(records, Datasets)[i] in Of(records, Datasets);
      RefCarried(m, records, Datasets, Of(records, Datasets)[i], "retentionPolicyId", Retention);
    }
  }

  lemma RevisionsOk(records: RecordSet, workspaceId: string)
    requires GraphOk(records, workspaceId)
    ensures forall r :: r in Of(records, Revisions) ==> RevisionOk(records, r)
  {
    assert KindOk(records, Revisions, workspaceId);
  }

  /** The same for the mapping an import builds: records good in their own workspace are good in the target's. */
  lemma ImportPreservesGraph(h: Hash, records: RecordSet, source: string, target: string)
    requires GraphOk(records, source) && RetentionOk(records)
    requires NoCollisions(BuildIdMappings(h, records, source, target), records)
    ensures var mapped := TransformRecords(BuildIdMappings(h, records, source, target), records);
            GraphOk(mapped, target) && RetentionOk(mapped)
  {
    hide GraphOk;
    hide RetentionOk;
    hide NoCollisions;
    hide TransformRecords;
    hide BuildIdMappings;
    MappingPreservesGraph(BuildIdMappings(h, records, source, target), records);
  }
}

/** What a plan id commits a plan to (packages/archive/src/import-plan.ts, calculateArchiveImportPlanId). */
module ImportIdentity {
  import opened Base
  import opened Json
  import opened Records
  import opened ImportTypes
  import opened ImportPlan
  import opened ImportOrder

  /** Everything about a plan that its id covers. */
  datatype Content = Content(
    archive: Archive, source: string, target: string, mode: Mode, conflictMode: ConflictMode, actions: seq<Action>)

  function IdOf(hash: string -> string, c: Content): string {
    PlanId(hash, c.archive, c.source, c.target, c.mode, c.conflictMode, c.actions)
  }

  /** Two different texts with one digest. */
  predicate Collide(hash: string -> string, x: string, y: string) {
    x != y && hash(x) == hash(y)
  }

  /** The records of two actions print to different texts with one digest. */
  predicate RecordsCollide(hash: string -> string, a: Action, b: Action) {
    a.record.Some? && b.record.Some? && Collide(hash, Canonical(Obj(a.record.value)), Canonical(Obj(b.record.value)))
  }

  /** Two of the texts hashed for the two ids are different and have one digest. */
  ghost predicate TextsCollide(hash: string -> string, a: Content, b: Content) {
    || Collide(hash, Canonical(ContentJson(hash, a)), Canonical(ContentJson(hash, b)))
    || Collide(hash, Canonical(a.archive.manifest), Canonical(b.archive.manifest))
    || exists i :: 0 <= i < |a.actions| && i < |b.actions| && RecordsCollide(hash, a.actions[i], b.actions[i])
  }

  /** The same action, but for its index and disposition. */
  predicate SameAction(a: Action, b: Action) {
    b == a.(index := b.index, disposition := b.disposition)
  }

  lemma SameTextOrCollision(hash: string -> string, v: Json, w: Json)
    requires hash(Canonical(v)) == hash(Canonical(w))
    ensures v == w || Collide(hash, Canonical(v), Canonical(w))
  {
    CanonicalInjective(v, w);
  }

  lemma StringsAgree(a: seq<string>, b: seq<string>)
    requires |a| == |b| && forall i :: 0 <= i < |a| ==> Str(a[i]) == Str(b[i])
    ensures a == b
  {
  }

  function Strings(s: seq<string>): (r: seq<Json>)
    ensures |r| == |s| && forall i :: 0 <= i < |s| ==> r[i] == Str(s[i])
  {
    seq(|s|, i requires 0 <= i < |s| => Str(s[i]))
  }

  lemma ActionFields(hash: string -> string, a: Action)
    ensures var v := ActionJson(hash, a);
            && v.Obj? && Prop(v.fields, "phase") == Some(Int(a.phase))
            && Prop(v.fields, "kind") == Some(Str(ActionKindName(a.kind)))
            && Prop(v.fields, "sourceId") == Some(Str(a.sourceId))
            && Prop(v.fields, "targetId") == Some(Str(a.targetId))
            && Prop(v.fields, "dependsOn") == Some(Arr(Strings(a.dependsOn)))
            && Prop(v.fields, "recordHash") ==
               (match a.record case None => None case Some(r) => Some(Str(hash(Canonical(Obj(r))))))
  {
    hide Canonical;
    hide ActionKindName;
    assert seq(|a.dependsOn|, i requires 0 <= i < |a.dependsOn| => Str(a.dependsOn[i])) == Strings(a.dependsOn);
  }

  lemma ActionCommitted(hash: string -> string, a: Action, b: Action)
    requires ActionJson(hash, a) == ActionJson(hash, b)
    ensures SameAction(a, b) || RecordsCollide(hash, a, b)
  {
    hide ActionJson;
    hide Canonical;
    hide ActionKindName;
    hide Collide;
    ActionFields(hash, a);
    ActionFields(hash, b);
    ActionTagInjective(a.kind, b.kind);
    assert Strings(a.dependsOn) == Strings(b.dependsOn);
    StringsAgree(a.dependsOn, b.dependsOn);
    if a.record.Some? && b.record.Some? {
      SameTextOrCollision(hash, Obj(a.record.value), Obj(b.record.value));
    }
  }

  function ContentJson(hash: string -> string, c: Content): Json {
    Obj(map[
      "format" := Str("trust-import-plan-v1"), "archiveExportId" := Str(c.archive.exportId),
      "archiveManifestHash" := Str(hash(Canonical(c.archive.manifest))), "sourceWorkspaceId" := Str(c.source),
      "targetWorkspaceId" := Str(c.target), "mode" := Str(ModeName(c.mode)),
      "conflictMode" := Str(ConflictModeName(c.conflictMode)), "actions" := Arr(ActionsJson(hash, c.actions))])
  }

  lemma ContentFields(hash: string -> string, c: Content)
    ensures var f := ContentJson(hash, c).fields;
            && Prop(f, "archiveExportId") == Some(Str(c.archive.exportId))
            && Prop(f, "sourceWorkspaceId") == Some(Str(c.source))
            && Prop(f, "archiveManifestHash") == Some(Str(hash(Canonical(c.archive.manifest))))
            && Prop(f, "targetWorkspaceId") == Some(Str(c.target)) && Prop(f, "mode") == Some(Str(ModeName(c.mode)))
            && Prop(f, "conflictMode") == Some(Str(ConflictModeName(c.conflictMode)))
            && Prop(f, "actions") == Some(Arr(ActionsJson(hash, c.actions)))
  {
    hide Canonical;
    hide ActionsJson;
    hide ModeName;
    hide ConflictModeName;
  }

  lemma ModeNamesDiffer(a: Mode, b: Mode, c: ConflictMode, d: ConflictMode)
    ensures ModeName(a) == ModeName(b) ==> a == b
    ensures ConflictModeName(c) == ConflictModeName(d) ==> c == d
  {
    assert "preserve_ids"[0] != "mapped_workspace"[0];
    assert |"reject_on_error"| != |"report_only"|;
  }

  ghost predicate SameContent(a: Content, b: Content) {
    && a.archive.exportId == b.archive.exportId && a.archive.manifest == b.archive.manifest
    && a.source == b.source && a.target == b.target && a.mode == b.mode && a.conflictMode == b.conflictMode
    && |a.actions| == |b.actions| && forall i :: 0 <= i < |a.actions| ==> SameAction(a.actions[i], b.actions[i])
  }

  /** Plans with one id agree on everything but indices and dispositions, or two texts hashed for them collide. */
  lemma PlanIdCommits(hash: string -> string, a: Content, b: Content)
    requires IdOf(hash, a) == IdOf(hash, b)
    ensures SameContent(a, b) || TextsCollide(hash, a, b)
  {
    hide ActionJson;
    hide Canonical;
    hide Collide;
    hide RecordsCollide;
    hide SameAction;
    assert IdOf(hash, a) == hash(Canonical(ContentJson(hash, a)));
    assert IdOf(hash, b) == hash(Canonical(ContentJson(hash, b)));
    hide PlanId;
    SameTextOrCollision(hash, ContentJson(hash, a), ContentJson(hash, b));
    ContentFields(hash, a);
    ContentFields(hash, b);
    hide ContentJson;
    if ContentJson(hash, a) == ContentJson(hash, b) {
      SameTextOrCollision(hash, a.archive.manifest, b.archive.manifest);
      ModeNamesDiffer(a.mode, b.mode, a.conflictMode, b.conflictMode);
      hide ModeName;
      hide ConflictModeName;
      ActionsCommitted(hash, a.actions, b.actions);
    }
  }

  lemma ActionsCommitted(hash: string -> string, a: seq<Action>, b: seq<Action>)
    requires ActionsJson(hash, a) == ActionsJson(hash, b)
    ensures |a| == |b|
    ensures (forall i :: 0 <= i < |a| ==> SameAction(a[i], b[i])) ||
            exists i :: 0 <= i < |a| && i < |b| && RecordsCollide(hash, a[i], b[i])
  {
    hide ActionJson;
    hide SameAction;
    hide RecordsCollide;
    assert |ActionsJson(hash, a)| == |a| && |ActionsJson(hash, b)| == |b|;
    forall i | 0 <= i < |a| ensures SameAction(a[i], b[i]) || RecordsCollide(hash, a[i], b[i]) {
      assert ActionsJson(hash, a)[i] == ActionsJson(hash, b)[i];
      ActionCommitted(hash, a[i], b[i]);
    }
  }
}

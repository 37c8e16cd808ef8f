/**
 The in-memory storage binding registry (apps/trust-api/src/app-storage-bindings.ts,
 InMemoryAppStorageRegistry) as functions on its state, and what every run of commands keeps.
 */
module Registry {
  import opened Base
  import opened Sorting

  datatype CredentialMode = CrossAccountRole | PlatformIam | OtherMode

  /** The part of a storage profile that commands set and rollbacks bring back. */
  datatype Config = Config(
    provider: string, region: string, bucket: string, prefix: string, tier: string, credentialMode: CredentialMode,
    expectedBucketOwner: Option<string>, endpointHost: Option<string>, roleArn: Option<string>,
    declaredPlanCode: Option<string>, declaredCapacityBytes: Option<int>)

  datatype Status = Draft | AwaitingCustomerRole | Configured | Connected | NeedsAttention | Migrating | Disabled

  datatype Binding = Binding(
    id: string, workspaceId: string, applicationId: string, tenantId: Option<string>, profileId: string, status: Status,
    generation: int, lastProbeOk: Option<bool>, disabled: bool)

  datatype Version = Version(bindingId: string, generation: int, config: Config)

  datatype Route = Route(workspaceId: string, sha256: string, bindingId: string, generation: int)

  datatype State = State(
    profiles: map<string, Config>, bindings: map<string, Binding>, versions: seq<Version>, blobs: map<string, Route>)

  datatype Error =
    | NotFound | GenerationConflict | Rejected | NoPreviousVersion | WrongStatus | DigestMismatch | NotAnOverride

  // ---------- finding ----------

  predicate Serves(b: Binding, workspaceId: string, applicationId: string, tenantId: Option<string>) {
    b.workspaceId == workspaceId && b.applicationId == applicationId && b.tenantId == tenantId
  }

  ghost function FindBinding(
    s: State, workspaceId: string, applicationId: string, tenantId: Option<string>): (r: Option<string>)
    ensures match r
            case Some(id) => id in s.bindings && Serves(s.bindings[id], workspaceId, applicationId, tenantId)
            case None => forall id :: id in s.bindings ==> !Serves(s.bindings[id], workspaceId, applicationId, tenantId)
  {
    if exists id :: id in s.bindings && Serves(s.bindings[id], workspaceId, applicationId, tenantId) then
      var id :| id in s.bindings && Serves(s.bindings[id], workspaceId, applicationId, tenantId);
      Some(id)
    else None
  }

  function VersionsOf(versions: seq<Version>, id: string): (r: seq<Version>)
    ensures forall v :: v in r <==> v in versions && v.bindingId == id
  {
    if versions == [] then []
    else
      var n := |versions| - 1;
      assert forall v :: v in versions <==> v in versions[..n] || v == versions[n];
      VersionsOf(versions[..n], id) + if versions[n].bindingId == id then [versions[n]] else []
  }

  function NewestFirst(): (Version, Version) -> bool { (a: Version, b: Version) => b.generation <= a.generation }

  function ListBindingHistory(versions: seq<Version>, id: string, limit: nat): seq<Version> {
    var sorted := Sort(NewestFirst(), VersionsOf(versions, id));
    if |sorted| <= limit then sorted else sorted[..limit]
  }

  // ---------- operations ----------

  datatype Upsert = Upsert(
    workspaceId: string, applicationId: string, tenantId: Option<string>, config: Config,
    expectedGeneration: Option<int>)

  function StatusOnUpdate(c: Config): Status {
    if c.credentialMode == CrossAccountRole && c.roleArn.Some? && c.roleArn.value != "" then Configured
    else if c.credentialMode == PlatformIam then Configured else Draft
  }

  function StatusOnCreate(c: Config): Status {
    if c.credentialMode == CrossAccountRole && (c.roleArn == None || c.roleArn == Some("")) then AwaitingCustomerRole
      else Configured
  }

  function Update(s: State, b: Binding, config: Config): State {
    var b' := b.(generation := b.generation + 1, status := StatusOnUpdate(config), lastProbeOk := None);
    s.(profiles := s.profiles[b.profileId := config], bindings := s.bindings[b.id := b'],
       versions := s.versions + [Version(b.id, b'.generation, config)])
  }

  function Add(s: State, c: Upsert, profileId: string, bindingId: string): State {
    var b := Binding(bindingId, c.workspaceId, c.applicationId, c.tenantId, profileId, StatusOnCreate(c.config), 1,
                     None, false);
    s.(profiles := s.profiles[profileId := c.config], bindings := s.bindings[bindingId := b],
       versions := s.versions + [Version(bindingId, 1, c.config)])
  }

  ghost function UpsertOf(s: State, c: Upsert, profileId: string, bindingId: string): Result<State, Error> {
    match FindBinding(s, c.workspaceId, c.applicationId, c.tenantId)
    case Some(id) =>
      if c.expectedGeneration.Some? && c.expectedGeneration.value != s.bindings[id].generation
        then Err(GenerationConflict)
      else Ok(Update(s, s.bindings[id], c.config))
    case None => Ok(Add(s, c, profileId, bindingId))
  }

  function DisableOf(s: State, id: string): Result<State, Error> {
    if id !in s.bindings then Err(NotFound)
    else
      var b := s.bindings[id];
      Ok(s.(bindings := s.bindings[id := b.(disabled := true, status := Disabled, generation := b.generation + 1)]))
  }

  predicate Routed(s: State, id: string) {
    exists o :: o in s.blobs && s.blobs[o].bindingId == id
  }

  predicate ProfileUsed(bindings: map<string, Binding>, profileId: string) {
    exists id :: id in bindings && bindings[id].profileId == profileId
  }

  function DeleteOf(s: State, id: string, force: bool): Result<State, Error> {
    if id !in s.bindings then Err(NotFound)
    else if !force && s.bindings[id].status in {Connected, Migrating} then Err(Rejected)
    else if !force && Routed(s, id) then Err(Rejected)
    else
      var profileId, bindings := s.bindings[id].profileId, s.bindings - {id};
      Ok(s.(bindings := bindings, profiles := if ProfileUsed(bindings, profileId) then s.profiles
        else s.profiles - {profileId}))
  }

  function ClearOverrideOf(s: State, id: string): Result<State, Error> {
    if id !in s.bindings || s.bindings[id].tenantId == None || s.bindings[id].tenantId == Some("")
    then Err(NotAnOverride)
    else Ok(s.(bindings := s.bindings - {id}))
  }

  function ProbeOf(s: State, id: string, ok: bool, ownerMatches: bool): Result<State, Error> {
    if id !in s.bindings then Err(NotFound)
    else
      var good := ok && ownerMatches;
      var b := s.bindings[id].(lastProbeOk := Some(good), status := if good then Connected else NeedsAttention);
      Ok(s.(bindings := s.bindings[id := b]))
  }

  /** A probe put off for later: a binding that waits for one, or was connected, is configured again. */
  function DeferProbeOf(s: State, id: string): Result<State, Error> {
    if id !in s.bindings then Err(NotFound)
    else
      var b := s.bindings[id];
      Ok(s.(bindings := s.bindings[id := b.(
          lastProbeOk := None, status := if b.status in {Connected, Draft, AwaitingCustomerRole} then Configured
            else b.status)]))
  }

  /** The hardening check; `unsafe` says that the role can be assumed without the external id. */
  function HardenOf(s: State, id: string, unsafe: bool): State {
    if unsafe && id in s.bindings then s.(bindings := s.bindings[id := s.bindings[id].(status := NeedsAttention)])
      else s
  }

  function AcceptPlanOf(s: State, id: string, capacity: int, planCode: string): Result<State, Error> {
    if id !in s.bindings then Err(NotFound)
    else if s.bindings[id].profileId !in s.profiles then Err(NotFound)
    else
      var config := s.profiles[s.bindings[id].profileId];
      var accepted := config.(declaredCapacityBytes := Some(capacity),
                              declaredPlanCode := if planCode != "" then Some(planCode) else config.declaredPlanCode);
      Ok(s.(profiles := s.profiles[s.bindings[id].profileId := accepted]))
  }

  /** Of the two newest versions, the first that is older than the binding. */
  function Previous(versions: seq<Version>, b: Binding): Option<Version> {
    var history := ListBindingHistory(versions, b.id, 2);
    if |history| > 0 && history[0].generation < b.generation then Some(history[0])
    else if |history| > 1 && history[1].generation < b.generation then Some(history[1])
    else None
  }

  function RollbackOf(s: State, id: string): Result<State, Error> {
    if id !in s.bindings then Err(NotFound)
    else
      var b := s.bindings[id];
      match Previous(s.versions, b)
      case None => Err(NoPreviousVersion)
      case Some(v) =>
        var b' := b.(generation := b.generation + 1, status := Configured, lastProbeOk := None, disabled := false);
        Ok(s.(profiles := s.profiles[b.profileId := v.config], bindings := s.bindings[id := b'],
              versions := s.versions + [Version(id, b'.generation, v.config)]))
  }

  function BeginMigrateOf(s: State, id: string): Result<State, Error> {
    if id !in s.bindings then Err(NotFound)
    else if s.bindings[id].status != Connected then Err(WrongStatus)
    else
      var b := s.bindings[id];
      Ok(s.(bindings := s.bindings[id := b.(status := Migrating, generation := b.generation + 1)]))
  }

  /** Moves the listed routes in turn and stops at the first whose digest is not the one listed. */
  function MoveRoutes(
    blobs: map<string, Route>, items: seq<(string, string)>, target: Binding): (map<string, Route>, bool) {
    if items == [] then (blobs, true)
    else
      var (o, digest) := items[0];
      if o !in blobs || blobs[o].sha256 != digest then (blobs, false)
      else MoveRoutes(blobs[o := blobs[o].(bindingId := target.id, generation := target.generation)], items[1..],
                      target)
  }

  predicate CanCutover(s: State, source: string, target: string) {
    source in s.bindings && target in s.bindings && s.bindings[source].status == Migrating
      && s.bindings[target].status == Connected
  }

  /** The state after a cutover and whether it was refused; on a digest mismatch earlier routes have already moved. */
  function CutoverOf(s: State, source: string, target: string, items: seq<(string, string)>): (State, Option<Error>) {
    if source !in s.bindings || target !in s.bindings then (s, Some(NotFound))
    else if !CanCutover(s, source, target) then (s, Some(WrongStatus))
    else
      var t := s.bindings[target];
      var (blobs, ok) := MoveRoutes(s.blobs, items, t);
      if !ok then (s.(blobs := blobs), Some(DigestMismatch))
      else if t.profileId !in s.profiles then (s.(blobs := blobs), Some(NotFound))
      else
        var t' := t.(generation := t.generation + 1);
        (s.(blobs := blobs,
            bindings := s.bindings[source := s.bindings[source].(status := Connected)][target := t'],
            versions := s.versions + [Version(target, t'.generation, s.profiles[t.profileId])]),
         None)
  }

  function CommitBlobOf(s: State, objectId: string, route: Route): State {
    s.(blobs := s.blobs[objectId := route])
  }

  // ---------- what every run keeps ----------

  /** A version's generation lies above those of the binding's earlier versions. */
  ghost predicate Ascends(versions: seq<Version>) {
    forall i, j :: 0 <= i < j < |versions| && versions[i].bindingId == versions[j].bindingId ==>
      versions[i].generation < versions[j].generation
  }

  ghost predicate OneEach(bindings: map<string, Binding>) {
    forall a, b :: a in bindings && b in bindings && a != b ==>
      && !Serves(bindings[a], bindings[b].workspaceId, bindings[b].applicationId, bindings[b].tenantId)
      && bindings[a].profileId != bindings[b].profileId
  }

  ghost predicate BindingOk(s: State, id: string) {
    && id in s.bindings && s.bindings[id].id == id && s.bindings[id].profileId in s.profiles
    && forall i :: 0 <= i < |s.versions| && s.versions[i].bindingId == id ==>
         s.versions[i].generation <= s.bindings[id].generation
  }

  /**
   One binding per workspace, application and tenant, each with a profile of its own that exists;
   version generations of a binding strictly increase and never exceed its generation.
   */
  ghost predicate Inv(s: State) {
    OneEach(s.bindings) && Ascends(s.versions) && forall id :: id in s.bindings ==> BindingOk(s, id)
  }

  predicate NewIds(s: State, profileId: string, bindingId: string) {
    && profileId !in s.profiles && bindingId !in s.bindings
    && (forall id :: id in s.bindings ==> s.bindings[id].profileId != profileId)
    && forall i :: 0 <= i < |s.versions| ==> s.versions[i].bindingId != bindingId
  }

  /** A binding changed in place keeps its identity and does not lose generations. */
  lemma ChangeKeeps(s: State, id: string, b: Binding)
    requires Inv(s) && id in s.bindings
    requires b == s.bindings[id].(status := b.status, generation := b.generation, lastProbeOk := b.lastProbeOk,
                                  disabled := b.disabled)
    requires b.generation >= s.bindings[id].generation
    ensures Inv(s.(bindings := s.bindings[id := b]))
  {
    var s' := s.(bindings := s.bindings[id := b]);
    forall x | x in s'.bindings ensures BindingOk(s', x) {
      assert BindingOk(s, x);
    }
  }

  /** A new version under the binding's new generation. */
  lemma VersionKeeps(s: State, id: string, config: Config)
    requires Inv(s) && id in s.bindings
    requires forall i :: 0 <= i < |s.versions| && s.versions[i].bindingId == id ==>
               s.versions[i].generation < s.bindings[id].generation
    ensures Inv(s.(versions := s.versions + [Version(id, s.bindings[id].generation, config)]))
  {
    var s' := s.(versions := s.versions + [Version(id, s.bindings[id].generation, config)]);
    forall x | x in s'.bindings ensures BindingOk(s', x) {
      assert BindingOk(s, x);
    }
  }

  lemma ProfileKeeps(s: State, id: string, config: Config)
    requires Inv(s) && id in s.bindings
    ensures Inv(s.(profiles := s.profiles[s.bindings[id].profileId := config]))
  {
    var s' := s.(profiles := s.profiles[s.bindings[id].profileId := config]);
    forall x | x in s'.bindings ensures BindingOk(s', x) {
      assert BindingOk(s, x);
    }
  }

  /** Raising the generation, setting the profile and recording the version. */
  lemma RevisedKeeps(s: State, id: string, b: Binding, config: Config)
    requires Inv(s) && id in s.bindings
    requires b == s.bindings[id].(status := b.status, generation := b.generation, lastProbeOk := b.lastProbeOk,
                                  disabled := b.disabled)
    requires b.generation == s.bindings[id].generation + 1
    ensures Inv(s.(profiles := s.profiles[b.profileId := config], bindings := s.bindings[id := b],
                   versions := s.versions + [Version(id, b.generation, config)]))
  {
    assert BindingOk(s, id);
    var s1 := s.(bindings := s.bindings[id := b]);
    ChangeKeeps(s, id, b);
    var s2 := s1.(profiles := s1.profiles[b.profileId := config]);
    ProfileKeeps(s1, id, config);
    VersionKeeps(s2, id, config);
  }

  lemma AddKeeps(s: State, c: Upsert, profileId: string, bindingId: string)
    requires Inv(s) && NewIds(s, profileId, bindingId)
    requires forall id :: id in s.bindings ==> !Serves(s.bindings[id], c.workspaceId, c.applicationId, c.tenantId)
    ensures Inv(Add(s, c, profileId, bindingId))
  {
    var s' := Add(s, c, profileId, bindingId);
    forall x | x in s'.bindings ensures BindingOk(s', x) {
      if x != bindingId {
        assert BindingOk(s, x);
      }
    }
  }

  lemma RemoveKeeps(s: State, id: string, profiles: map<string, Config>)
    requires Inv(s) && id in s.bindings
    requires forall x :: x in s.bindings && x != id ==> s.bindings[x].profileId in profiles
    ensures Inv(s.(bindings := s.bindings - {id}, profiles := profiles))
  {
    var s' := s.(bindings := s.bindings - {id}, profiles := profiles);
    forall x | x in s'.bindings ensures BindingOk(s', x) {
      assert BindingOk(s, x);
    }
  }

  lemma RoutesKeep(s: State, blobs: map<string, Route>)
    requires Inv(s)
    ensures Inv(s.(blobs := blobs))
  {
    var s' := s.(blobs := blobs);
    forall x | x in s'.bindings ensures BindingOk(s', x) {
      assert BindingOk(s, x);
    }
  }

  lemma DeleteKeeps(s: State, id: string, force: bool)
    requires Inv(s) && DeleteOf(s, id, force).Ok?
    ensures Inv(DeleteOf(s, id, force).value)
  {
    var profileId, bindings := s.bindings[id].profileId, s.bindings - {id};
    forall x | x in s.bindings && x != id
      ensures s.bindings[x].profileId in s.profiles && s.bindings[x].profileId in s.profiles - {profileId}
    {
      assert BindingOk(s, x);
    }
    hide Inv;
    RemoveKeeps(s, id, if ProfileUsed(bindings, profileId) then s.profiles else s.profiles - {profileId});
  }

  lemma CutoverKeeps(s: State, source: string, target: string, items: seq<(string, string)>)
    requires Inv(s)
    ensures Inv(CutoverOf(s, source, target, items).0)
  {
    hide Inv;
    hide MoveRoutes;
    if CanCutover(s, source, target) {
      var t := s.bindings[target];
      var (blobs, ok) := MoveRoutes(s.blobs, items, t);
      RoutesKeep(s, blobs);
      if ok && t.profileId in s.profiles {
        CutoverVersions(s.(blobs := blobs), source, target);
      }
    }
  }

  lemma CutoverVersions(s: State, source: string, target: string)
    requires Inv(s) && CanCutover(s, source, target) && s.bindings[target].profileId in s.profiles
    ensures var t := s.bindings[target].(generation := s.bindings[target].generation + 1);
            Inv(s.(bindings := s.bindings[source := s.bindings[source].(status := Connected)][target := t],
                   versions := s.versions + [Version(target, t.generation, s.profiles[t.profileId])]))
  {
    var t := s.bindings[target].(generation := s.bindings[target].generation + 1);
    var s1 := s.(bindings := s.bindings[source := s.bindings[source].(status := Connected)]);
    ChangeKeeps(s, source, s.bindings[source].(status := Connected));
    hide Inv;
    RevisedKeeps(s1, target, t, s.profiles[t.profileId]);
    assert s.profiles[t.profileId := s.profiles[t.profileId]] == s.profiles;
  }

  // ---------- runs ----------

  datatype Command =
    | DoUpsert(upsert: Upsert, profileId: string, bindingId: string)
    | DoDisable(id: string)
    | DoDelete(id: string, force: bool)
    | DoClear(id: string)
    | DoProbe(id: string, ok: bool, ownerMatches: bool)
    | DoDeferProbe(id: string)
    | DoHarden(id: string, unsafe: bool)
    | DoAcceptPlan(id: string, capacity: int, planCode: string)
    | DoRollback(id: string)
    | DoBeginMigrate(id: string)
    | DoCutover(source: string, target: string, items: seq<(string, string)>)
    | DoCommitBlob(objectId: string, route: Route)

  function Kept(s: State, r: Result<State, Error>): State {
    match r
    case Ok(s') => s'
    case Err(_) => s
  }

  ghost function Apply(s: State, c: Command): State {
    match c
    case DoUpsert(u, p, b) => Kept(s, UpsertOf(s, u, p, b))
    case DoDisable(id) => Kept(s, DisableOf(s, id))
    case DoDelete(id, force) => Kept(s, DeleteOf(s, id, force))
    case DoClear(id) => Kept(s, ClearOverrideOf(s, id))
    case DoProbe(id, ok, owner) => Kept(s, ProbeOf(s, id, ok, owner))
    case DoDeferProbe(id) => Kept(s, DeferProbeOf(s, id))
    case DoHarden(id, unsafe) => HardenOf(s, id, unsafe)
    case DoAcceptPlan(id, capacity, code) => Kept(s, AcceptPlanOf(s, id, capacity, code))
    case DoRollback(id) => Kept(s, RollbackOf(s, id))
    case DoBeginMigrate(id) => Kept(s, BeginMigrateOf(s, id))
    case DoCutover(source, target, items) => CutoverOf(s, source, target, items).0
    case DoCommitBlob(o, route) => CommitBlobOf(s, o, route)
  }

  ghost function Run(s: State, commands: seq<Command>): State {
    if commands == [] then s
    else
      var n := |commands| - 1;
      Apply(Run(s, commands[..n]), commands[n])
  }

  /** Generated ids are new when they are used. */
  ghost predicate Legal(s: State, commands: seq<Command>) {
    commands == [] ||
    var n := |commands| - 1;
    && Legal(s, commands[..n])
    && (commands[n].DoUpsert? ==> NewIds(Run(s, commands[..n]), commands[n].profileId, commands[n].bindingId))
  }

  lemma UpsertKeeps(s: State, c: Upsert, profileId: string, bindingId: string)
    requires Inv(s) && NewIds(s, profileId, bindingId) && UpsertOf(s, c, profileId, bindingId).Ok?
    ensures Inv(UpsertOf(s, c, profileId, bindingId).value)
  {
    match FindBinding(s, c.workspaceId, c.applicationId, c.tenantId) {
      case None => AddKeeps(s, c, profileId, bindingId);
      case Some(id) =>
        assert BindingOk(s, id);
        var b := s.bindings[id];
        RevisedKeeps(s, id, b.(generation := b.generation + 1, status := StatusOnUpdate(c.config), lastProbeOk := None),
                     c.config);
    }
  }

  lemma RollbackKeeps(s: State, id: string)
    requires Inv(s) && RollbackOf(s, id).Ok?
    ensures Inv(RollbackOf(s, id).value)
  {
    hide Inv;
    hide Previous;
    var b := s.bindings[id];
    RevisedKeeps(s, id, b.(generation := b.generation + 1, status := Configured, lastProbeOk := None,
                           disabled := false), Previous(s.versions, b).value.config);
  }

  lemma ApplyKeeps(s: State, c: Command)
    requires Inv(s) && (c.DoUpsert? ==> NewIds(s, c.profileId, c.bindingId))
    ensures Inv(Apply(s, c))
  {
    hide Inv;
    hide UpsertOf;
    hide DeleteOf;
    hide RollbackOf;
    hide CutoverOf;
    match c {
      case DoUpsert(u, p, b) => if UpsertOf(s, u, p, b).Ok? { UpsertKeeps(s, u, p, b); }
      case DoDelete(id, force) => if DeleteOf(s, id, force).Ok? { DeleteKeeps(s, id, force); }
      case DoClear(id) => if id in s.bindings { KeepProfiles(s, id); }
      case DoAcceptPlan(id, capacity, code) =>
        if AcceptPlanOf(s, id, capacity, code).Ok? {
          ProfileKeeps(s, id, AcceptPlanOf(s, id, capacity, code).value.profiles[s.bindings[id].profileId]);
        }
      case DoRollback(id) => if RollbackOf(s, id).Ok? { RollbackKeeps(s, id); }
      case DoCutover(source, target, items) => CutoverKeeps(s, source, target, items);
      case DoCommitBlob(o, route) => RoutesKeep(s, s.blobs[o := route]);
      case _ => SimpleKeeps(s, c);
    }
  }

  lemma KeepProfiles(s: State, id: string)
    requires Inv(s) && id in s.bindings
    ensures Inv(s.(bindings := s.bindings - {id}))
  {
    forall x | x in s.bindings && x != id ensures s.bindings[x].profileId in s.profiles {
      assert BindingOk(s, x);
    }
    hide Inv;
    RemoveKeeps(s, id, s.profiles);
  }

  lemma SimpleKeeps(s: State, c: Command)
    requires Inv(s) && (c.DoDisable? || c.DoProbe? || c.DoDeferProbe? || c.DoHarden? || c.DoBeginMigrate?)
    ensures Inv(Apply(s, c))
  {
    hide Inv;
    if c.id in s.bindings && Apply(s, c) != s {
      ChangeKeeps(s, c.id, Apply(s, c).bindings[c.id]);
    }
  }

  /** The registry's invariant holds throughout every run. */
  lemma {:induction false} RunsKeep(s: State, commands: seq<Command>)
    requires Inv(s) && Legal(s, commands)
    ensures Inv(Run(s, commands))
  {
    hide Inv;
    hide Apply;
    hide NewIds;
    if commands != [] {
      var n := |commands| - 1;
      RunsKeep(s, commands[..n]);
      ApplyKeeps(Run(s, commands[..n]), commands[n]);
    }
  }
}

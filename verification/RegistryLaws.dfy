/**
 What the commands of the storage binding registry mean for a binding (apps/trust-api/src/app-storage-bindings.ts):
 which profile a rollback brings back, and how a binding's status, generation and presence may change.
 */
module RegistryLaws {
  import opened Base
  import opened Registry
  import opened RegistryService

  // ---------- rolling back ----------

  /** The version of a binding just before its generation. */
  ghost predicate IsPrevious(s: State, id: string, v: Version) {
    && id in s.bindings && v in s.versions && v.bindingId == id && v.generation < s.bindings[id].generation
    && forall u :: u in s.versions && u.bindingId == id ==>
         u.generation <= v.generation || u.generation >= s.bindings[id].generation
  }

  lemma PredecessorIs(own: seq<Version>, g: int)
    requires Increasing(own) && (own != [] ==> own[|own| - 1].generation <= g)
    ensures match Predecessor(own, g)
            case None => forall v :: v in own ==> v.generation >= g
            case Some(v) =>
              v in own && v.generation < g && forall u :: u in own ==> u.generation <= v.generation || u.generation >= g
  {
    if |own| > 1 {
      SecondIsOlder(own, g);
    }
  }

  lemma PreviousMeans(s: State, id: string)
    requires Inv(s) && id in s.bindings
    ensures match Previous(s.versions, s.bindings[id])
            case None => forall v :: v in s.versions && v.bindingId == id ==> v.generation >= s.bindings[id].generation
            case Some(v) => IsPrevious(s, id, v)
  {
    hide VersionsOf;
    hide Previous;
    hide Predecessor;
    PreviousIs(s, id);
    NoneNewer(s, id);
    VersionsIncrease(s.versions, id);
    PredecessorIs(VersionsOf(s.versions, id), s.bindings[id].generation);
  }

  /**
   A rollback succeeds exactly when the binding has a version older than its generation. It brings back the profile
   of the newest such version, records that under the next generation and leaves every other binding as it was.
   */
  lemma RollbackBringsBack(s: State, id: string)
    requires Inv(s)
    ensures match RollbackOf(s, id)
            case Err(e) =>
              if id !in s.bindings then e == NotFound
              else e == NoPreviousVersion && forall v :: !IsPrevious(s, id, v)
            case Ok(s') =>
              && id in s.bindings && id in s'.bindings
              && (exists v :: IsPrevious(s, id, v) && ConfigOf(s', id) == Some(v.config)
                    && s'.versions == s.versions + [Version(id, s.bindings[id].generation + 1, v.config)])
              && s'.bindings[id].generation == s.bindings[id].generation + 1
              && s'.bindings[id].status == Configured && !s'.bindings[id].disabled
              && s'.blobs == s.blobs && s'.bindings.Keys == s.bindings.Keys
              && forall x :: x in s.bindings && x != id ==>
                   s'.bindings[x] == s.bindings[x] && ConfigOf(s', x) == ConfigOf(s, x)
  {
    hide Previous;
    if id in s.bindings {
      PreviousMeans(s, id);
      ProfileThere(s, id);
      if Previous(s.versions, s.bindings[id]).Some? {
        var v := Previous(s.versions, s.bindings[id]).value;
        assert IsPrevious(s, id, v);
        hide IsPrevious;
        assert ConfigOf(RollbackOf(s, id).value, id) == Some(v.config);
      }
    }
  }

  /**
   Rolling back an update brings back the profile that was recorded last, which is the one before the update exactly
   when that had been recorded.
   */
  lemma UpdateThenRollback(s: State, c: Upsert, profileId: string, bindingId: string)
    requires Inv(s) && NewIds(s, profileId, bindingId) && UpsertOf(s, c, profileId, bindingId).Ok?
    requires var found := FindBinding(s, c.workspaceId, c.applicationId, c.tenantId);
             found.Some? && VersionsOf(s.versions, found.value) != []
    ensures var id := FindBinding(s, c.workspaceId, c.applicationId, c.tenantId).value;
            var own := VersionsOf(s.versions, id);
            match RollbackOf(UpsertOf(s, c, profileId, bindingId).value, id)
            case Err(_) => false
            case Ok(s') =>
              && ConfigOf(s', id) == Some(own[|own| - 1].config)
              && (ConfigOf(s', id) == ConfigOf(s, id) <==> NewestMatches(s, id))
  {
    hide Previous;
    hide Inv;
    hide VersionsOf;
    var id := FindBinding(s, c.workspaceId, c.applicationId, c.tenantId).value;
    ProfileThere(s, id);
    NoneNewer(s, id);
    UpsertKeeps(s, c, profileId, bindingId);
    var s', g := UpsertOf(s, c, profileId, bindingId).value, s.bindings[id].generation;
    PreviousIs(s', id);
    VersionsSnoc(s.versions, Version(id, g + 1, c.config));
    SecondPredecessor(VersionsOf(s.versions, id), Version(id, g + 1, c.config), g);
  }

  /** Accepting a plan changes a profile without recording it. */
  lemma AcceptedPlanUnrecorded(s: State, id: string, capacity: int, planCode: string)
    requires id in s.bindings && NewestMatches(s, id)
    ensures match AcceptPlanOf(s, id, capacity, planCode)
            case Err(_) => false
            case Ok(s') => NewestMatches(s', id) <==> ConfigOf(s', id) == ConfigOf(s, id)
  {
    hide VersionsOf;
  }

  // ---------- profiles are recorded ----------

  /** Every binding's newest version describes its profile. */
  ghost predicate Recorded(s: State) {
    forall id :: id in s.bindings ==> NewestMatches(s, id)
  }

  lemma OtherVersions(versions: seq<Version>, v: Version, id: string)
    requires v.bindingId != id
    ensures VersionsOf(versions + [v], id) == VersionsOf(versions, id)
  {
    assert (versions + [v])[..|versions|] == versions;
  }

  /** A command that sets a binding's profile and records it. */
  lemma RevisionRecords(s: State, s': State, id: string, g: int, config: Config)
    requires Recorded(s) && OneEach(s'.bindings) && id in s'.bindings
    requires forall x :: x in s'.bindings && x != id ==>
               x in s.bindings && s'.bindings[x].profileId == s.bindings[x].profileId
    requires s'.profiles == s.profiles[s'.bindings[id].profileId := config]
    requires s'.versions == s.versions + [Version(id, g, config)]
    ensures Recorded(s')
  {
    hide VersionsOf;
    VersionsSnoc(s.versions, Version(id, g, config));
    forall x | x in s'.bindings ensures NewestMatches(s', x) {
      if x != id {
        OtherVersions(s.versions, Version(id, g, config), x);
        assert NewestMatches(s, x);
      }
    }
  }

  /** A command that records nothing and leaves the profiles of the bindings that stay. */
  lemma NothingRecorded(s: State, s': State)
    requires Recorded(s) && s'.versions == s.versions
    requires forall x :: x in s'.bindings ==> x in s.bindings && ConfigOf(s', x) == ConfigOf(s, x)
    ensures Recorded(s')
  {
    hide VersionsOf;
    forall x | x in s'.bindings ensures NewestMatches(s', x) {
      assert NewestMatches(s, x);
    }
  }

  lemma ApplyRecords(s: State, c: Command)
    requires Inv(s) && Recorded(s) && !c.DoAcceptPlan? && (c.DoUpsert? ==> NewIds(s, c.profileId, c.bindingId))
    ensures Recorded(Apply(s, c))
  {
    hide *;
    match c {
      case DoUpsert(u, p, b) => UpsertRecords(s, u, p, b);
      case DoRollback(id) => RollbackRecords(s, id);
      case DoCutover(source, target, items) => CutoverRecords(s, source, target, items);
      case DoDelete(id, force) => DeleteRecords(s, id, force);
      case DoCommitBlob(_, _) => BlobRecords(s, c);
      case _ => SimpleRecords(s, c);
    }
  }

  lemma BlobRecords(s: State, c: Command)
    requires Recorded(s) && c.DoCommitBlob?
    ensures Recorded(Apply(s, c))
  {
    hide Recorded;
    NothingRecorded(s, Apply(s, c));
  }

  lemma SimpleRecords(s: State, c: Command)
    requires Recorded(s)
    requires c.DoDisable? || c.DoProbe? || c.DoDeferProbe? || c.DoHarden? || c.DoBeginMigrate? || c.DoClear?
    ensures Recorded(Apply(s, c))
  {
    hide Recorded;
    NothingRecorded(s, Apply(s, c));
  }

  lemma OneEachOf(s: State)
    requires Inv(s)
    ensures OneEach(s.bindings)
  {
  }

  lemma UpsertRecords(s: State, u: Upsert, p: string, b: string)
    requires Inv(s) && Recorded(s) && NewIds(s, p, b)
    ensures Recorded(Apply(s, DoUpsert(u, p, b)))
  {
    hide Recorded;
    hide Inv;
    hide OneEach;
    if UpsertOf(s, u, p, b).Ok? {
      var s' := UpsertOf(s, u, p, b).value;
      UpsertKeeps(s, u, p, b);
      OneEachOf(s');
      hide NewIds;
      match FindBinding(s, u.workspaceId, u.applicationId, u.tenantId) {
        case None => RevisionRecords(s, s', b, 1, u.config);
        case Some(id) =>
          ProfileThere(s, id);
          RevisionRecords(s, s', id, s.bindings[id].generation + 1, u.config);
      }
    }
  }

  lemma RollbackRecords(s: State, id: string)
    requires Inv(s) && Recorded(s)
    ensures Recorded(Apply(s, DoRollback(id)))
  {
    hide Recorded;
    hide Previous;
    hide Inv;
    hide OneEach;
    if RollbackOf(s, id).Ok? {
      var s', v := RollbackOf(s, id).value, Previous(s.versions, s.bindings[id]).value;
      RollbackKeeps(s, id);
      OneEachOf(s');
      RevisionRecords(s, s', id, s.bindings[id].generation + 1, v.config);
    }
  }

  /** A cutover changes no profile; if it succeeds it records the target's under the target's next generation. */
  lemma CutoverShape(s: State, source: string, target: string, items: seq<(string, string)>)
    requires Inv(s)
    ensures var (s', error) := CutoverOf(s, source, target, items);
            && s'.profiles == s.profiles
            && if error.Some? then s'.bindings == s.bindings && s'.versions == s.versions
               else
                 && source in s.bindings && target in s.bindings && s.bindings[target].profileId in s.profiles
                 && var t := s.bindings[target];
                    && s'.bindings ==
                       s.bindings[source := s.bindings[source].(status := Connected)]
                                 [target := t.(generation := t.generation + 1)]
                    && s'.versions == s.versions + [Version(target, t.generation + 1, s.profiles[t.profileId])]
  {
    hide MoveRoutes;
    hide Inv;
  }

  lemma CutoverRecords(s: State, source: string, target: string, items: seq<(string, string)>)
    requires Inv(s) && Recorded(s)
    ensures Recorded(Apply(s, DoCutover(source, target, items)))
  {
    hide Recorded;
    hide Inv;
    hide OneEach;
    CutoverShape(s, source, target, items);
    CutoverKeeps(s, source, target, items);
    var (s', error) := CutoverOf(s, source, target, items);
    OneEachOf(s');
    hide CutoverOf;
    if error.Some? {
      NothingRecorded(s, s');
    } else {
      var t := s.bindings[target];
      assert s.profiles[t.profileId := s.profiles[t.profileId]] == s.profiles;
      RevisionRecords(s, s', target, t.generation + 1, s.profiles[t.profileId]);
    }
  }

  lemma DeleteRecords(s: State, id: string, force: bool)
    requires Inv(s) && Recorded(s)
    ensures Recorded(Apply(s, DoDelete(id, force)))
  {
    hide Recorded;
    NothingRecorded(s, Apply(s, DoDelete(id, force)));
  }

  /** In every run without accepted plans the profile of every binding is recorded. */
  lemma {:induction false} RunsRecord(s: State, commands: seq<Command>)
    requires Inv(s) && Recorded(s) && Legal(s, commands)
    requires forall i :: 0 <= i < |commands| ==> !commands[i].DoAcceptPlan?
    ensures Recorded(Run(s, commands))
  {
    hide Inv;
    hide Recorded;
    hide Apply;
    hide NewIds;
    if commands != [] {
      var n := |commands| - 1;
      RunsRecord(s, commands[..n]);
      RunsKeep(s, commands[..n]);
      ApplyRecords(Run(s, commands[..n]), commands[n]);
    }
  }

  // ---------- how a binding may change ----------

  predicate Meant(c: Command, b: Binding) {
    c.DoUpsert? && Serves(b, c.upsert.workspaceId, c.upsert.applicationId, c.upsert.tenantId)
  }

  /** Which commands may give a binding a new status. */
  predicate MayBecome(c: Command, b: Binding, status: Status) {
    match status
    case Connected => c == DoProbe(b.id, true, true) || (c.DoCutover? && c.source == b.id)
    case Migrating => c == DoBeginMigrate(b.id) && b.status == Connected
    case Disabled => c == DoDisable(b.id)
    case NeedsAttention => (c.DoProbe? && c.id == b.id && !(c.ok && c.ownerMatches)) || c == DoHarden(b.id, true)
    case AwaitingCustomerRole => false
    case Draft => Meant(c, b) && c.upsert.config.credentialMode != PlatformIam
    case Configured =>
      Meant(c, b) || c == DoRollback(b.id) ||
      (c == DoDeferProbe(b.id) && b.status in {Connected, Draft, AwaitingCustomerRole})
  }

  /** What a command may do to a binding that stays. */
  ghost predicate FairChange(s: State, c: Command, s': State, id: string)
    requires id in s.bindings && id in s'.bindings
  {
    var b, b' := s.bindings[id], s'.bindings[id];
    && b'.id == b.id && b'.profileId == b.profileId && Serves(b', b.workspaceId, b.applicationId, b.tenantId)
    && (b'.status != b.status ==> MayBecome(c, b, b'.status))
    && (b'.disabled != b.disabled ==> c == if b'.disabled then DoDisable(id) else DoRollback(id))
    && b'.generation >= b.generation
    && (ConfigOf(s', id) != ConfigOf(s, id) ==>
          (c.DoAcceptPlan? && c.id == id) || (b'.generation > b.generation && (Meant(c, b) || c == DoRollback(id))))
  }

  /** What may remove a binding: without force not one that is in use. */
  ghost predicate FairRemoval(s: State, c: Command, id: string)
    requires id in s.bindings
  {
    || (c == DoClear(id) && s.bindings[id].tenantId.Some?)
    || c == DoDelete(id, true)
    || (c == DoDelete(id, false) && s.bindings[id].status !in {Connected, Migrating} && !Routed(s, id))
  }

  /**
   A binding keeps its identity and its generations, and every change of its status, its switch or its profile has
   one of the commands meant for that; it goes away only by being cleared or deleted, and in use only by force.
   */
  lemma ChangesAreFair(s: State, c: Command, id: string)
    requires Inv(s) && id in s.bindings && (c.DoUpsert? ==> NewIds(s, c.profileId, c.bindingId))
    ensures var s' := Apply(s, c);
            if id in s'.bindings then FairChange(s, c, s', id) else FairRemoval(s, c, id)
  {
    ProfileThere(s, id);
    hide *;
    match c {
      case DoUpsert(u, p, b) => UpsertIsFair(s, u, p, b, id);
      case DoRollback(other) => RollbackIsFair(s, other, id);
      case DoCutover(source, target, items) => CutoverIsFair(s, source, target, items, id);
      case DoDelete(other, force) => DeleteIsFair(s, other, force, id);
      case DoClear(other) => ClearIsFair(s, other, id);
      case DoAcceptPlan(_, _, _) => ProfileIsFair(s, c, id);
      case DoCommitBlob(_, _) => ProfileIsFair(s, c, id);
      case _ => StatusIsFair(s, c, id);
    }
  }

  /** A binding that a command leaves as it is, with its profile. */
  lemma SameIsFair(s: State, c: Command, s': State, id: string)
    requires id in s.bindings && id in s'.bindings && s'.bindings[id] == s.bindings[id]
    requires ConfigOf(s', id) == ConfigOf(s, id)
    ensures FairChange(s, c, s', id)
  {
  }

  lemma StatusIsFair(s: State, c: Command, id: string)
    requires id in s.bindings && s.bindings[id].id == id
    requires c.DoDisable? || c.DoProbe? || c.DoDeferProbe? || c.DoHarden? || c.DoBeginMigrate?
    ensures id in Apply(s, c).bindings && FairChange(s, c, Apply(s, c), id)
  {
    if c.id != id {
      SameIsFair(s, c, Apply(s, c), id);
      hide FairChange;
    }
  }

  lemma ClearIsFair(s: State, other: string, id: string)
    requires id in s.bindings
    ensures var s' := Apply(s, DoClear(other));
            if id in s'.bindings then FairChange(s, DoClear(other), s', id) else FairRemoval(s, DoClear(other), id)
  {
    hide Routed;
  }

  lemma DeleteIsFair(s: State, other: string, force: bool, id: string)
    requires Inv(s) && id in s.bindings
    ensures var c := DoDelete(other, force);
            var s' := Apply(s, c);
            if id in s'.bindings then FairChange(s, c, s', id) else FairRemoval(s, c, id)
  {
    ProfileThere(s, id);
    OneEachOf(s);
    hide Inv;
    hide Routed;
    hide ProfileUsed;
    hide FairChange;
    var s' := Apply(s, DoDelete(other, force));
    if id in s'.bindings {
      if other in s.bindings && other != id {
        assert s.bindings[other].profileId != s.bindings[id].profileId;
      }
      hide OneEach;
      SameIsFair(s, DoDelete(other, force), s', id);
    }
  }

  lemma ProfileIsFair(s: State, c: Command, id: string)
    requires Inv(s) && id in s.bindings && (c.DoAcceptPlan? || c.DoCommitBlob?)
    ensures id in Apply(s, c).bindings && FairChange(s, c, Apply(s, c), id)
  {
    ProfileThere(s, id);
    OneEachOf(s);
    hide Inv;
    if c.DoAcceptPlan? && c.id in s.bindings && c.id != id {
      assert s.bindings[c.id].profileId != s.bindings[id].profileId;
    }
  }

  lemma UpsertIsFair(s: State, u: Upsert, p: string, b: string, id: string)
    requires Inv(s) && id in s.bindings && NewIds(s, p, b)
    ensures var s' := Apply(s, DoUpsert(u, p, b)); id in s'.bindings && FairChange(s, DoUpsert(u, p, b), s', id)
  {
    ProfileThere(s, id);
    OneEachOf(s);
    hide FairChange;
    var s' := Apply(s, DoUpsert(u, p, b));
    match FindBinding(s, u.workspaceId, u.applicationId, u.tenantId) {
      case None =>
        hide Inv;
        hide OneEach;
        SameIsFair(s, DoUpsert(u, p, b), s', id);
      case Some(found) =>
        ProfileThere(s, found);
        hide Inv;
        hide NewIds;
        if found == id {
          MeantIsFair(s, u, p, b, id);
        } else {
          assert s.bindings[found].profileId != s.bindings[id].profileId;
          hide OneEach;
          SameIsFair(s, DoUpsert(u, p, b), s', id);
        }
    }
  }

  lemma MeantIsFair(s: State, u: Upsert, p: string, b: string, id: string)
    requires id in s.bindings && s.bindings[id].id == id
    requires FindBinding(s, u.workspaceId, u.applicationId, u.tenantId) == Some(id)
    ensures var s' := Apply(s, DoUpsert(u, p, b)); id in s'.bindings && FairChange(s, DoUpsert(u, p, b), s', id)
  {
  }

  lemma RollbackIsFair(s: State, other: string, id: string)
    requires Inv(s) && id in s.bindings
    ensures var s' := Apply(s, DoRollback(other)); id in s'.bindings && FairChange(s, DoRollback(other), s', id)
  {
    hide Previous;
    ProfileThere(s, id);
    OneEachOf(s);
    if other in s.bindings {
      ProfileThere(s, other);
    }
    hide Inv;
  }

  lemma CutoverIsFair(s: State, source: string, target: string, items: seq<(string, string)>, id: string)
    requires Inv(s) && id in s.bindings
    ensures var c := DoCutover(source, target, items);
            id in Apply(s, c).bindings && FairChange(s, c, Apply(s, c), id)
  {
    ProfileThere(s, id);
    CutoverShape(s, source, target, items);
    hide Inv;
    hide CutoverOf;
  }

  /** What the commands that set a status bring about. */
  lemma CommandsTakeEffect(s: State, id: string)
    requires Inv(s) && id in s.bindings
    ensures var after := Apply(s, DoDisable(id));
            && id in after.bindings && after.bindings[id].disabled && after.bindings[id].status == Disabled
            && after.bindings[id].generation == s.bindings[id].generation + 1
    ensures forall ok, owner :: var after := Apply(s, DoProbe(id, ok, owner));
              && id in after.bindings
              && after.bindings[id].status == (if ok && owner then Connected else NeedsAttention)
              && after.bindings[id].lastProbeOk == Some(ok && owner)
    ensures var after := Apply(s, DoBeginMigrate(id));
            && id in after.bindings
            && if s.bindings[id].status == Connected
               then after.bindings[id].status == Migrating
                 && after.bindings[id].generation == s.bindings[id].generation + 1
               else after == s
    ensures var after := Apply(s, DoDeferProbe(id));
            && id in after.bindings && after.bindings[id].status !in {Connected, Draft, AwaitingCustomerRole}
            && after.bindings[id].lastProbeOk == None
    ensures id !in Apply(s, DoClear(id)).bindings <==>
              s.bindings[id].tenantId.Some? && s.bindings[id].tenantId != Some("")
    ensures forall force :: id !in Apply(s, DoDelete(id, force)).bindings <==>
              force || (s.bindings[id].status !in {Connected, Migrating} && !Routed(s, id))
  {
    hide Inv;
    hide Routed;
  }

  /** A profile that needs a role of the customer and has none. */
  predicate LacksRole(c: Config) {
    c.credentialMode == CrossAccountRole && (c.roleArn == None || c.roleArn.value == "")
  }

  /** The binding serves the tenant with the profile that was asked for, which is recorded. */
  ghost predicate Upserted(s: State, c: Upsert, bindingId: string, s': State, id: string) {
    && id in s'.bindings && Serves(s'.bindings[id], c.workspaceId, c.applicationId, c.tenantId)
    && ConfigOf(s', id) == Some(c.config) && NewestMatches(s', id)
    && (id in s.bindings || (id == bindingId && s'.bindings[id].generation == 1))
    && (LacksRole(c.config) ==> s'.bindings[id].status in {Draft, AwaitingCustomerRole})
    && (c.config.credentialMode != OtherMode && !LacksRole(c.config) ==> s'.bindings[id].status == Configured)
  }

  /** An upsert configures a binding that has what it needs, and never one that lacks its role. */
  lemma UpsertStatus(s: State, c: Upsert, profileId: string, bindingId: string)
    requires Inv(s) && NewIds(s, profileId, bindingId)
    ensures match UpsertOf(s, c, profileId, bindingId)
            case Err(e) =>
              && e == GenerationConflict
              && exists id :: id in s.bindings && Serves(s.bindings[id], c.workspaceId, c.applicationId, c.tenantId)
                              && c.expectedGeneration.Some? && c.expectedGeneration.value != s.bindings[id].generation
            case Ok(s') => exists id :: Upserted(s, c, bindingId, s', id)
  {
    hide VersionsOf;
    match FindBinding(s, c.workspaceId, c.applicationId, c.tenantId) {
      case None =>
        VersionsSnoc(s.versions, Version(bindingId, 1, c.config));
        hide Inv;
        assert Upserted(s, c, bindingId, Add(s, c, profileId, bindingId), bindingId);
      case Some(id) =>
        ProfileThere(s, id);
        VersionsSnoc(s.versions, Version(id, s.bindings[id].generation + 1, c.config));
        hide Inv;
        if UpsertOf(s, c, profileId, bindingId).Ok? {
          assert Upserted(s, c, bindingId, Update(s, s.bindings[id], c.config), id);
        }
    }
  }
}

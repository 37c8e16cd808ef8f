/** Rollback and cutover in the storage binding registry, and the registry class itself. */
module RegistryService {
  import opened Base
  import opened Sorting
  import opened Registry

  // ---------- history, newest first ----------

  function Reversed<T>(s: seq<T>): (r: seq<T>)
    ensures |r| == |s|
  {
    seq(|s|, i requires 0 <= i < |s| => s[|s| - 1 - i])
  }

  ghost predicate Increasing(s: seq<Version>) {
    forall i, j :: 0 <= i < j < |s| ==> s[i].generation < s[j].generation
  }

  lemma {:induction false} NewestGoesFirst(s: seq<Version>, x: Version)
    requires forall v :: v in s ==> v.generation < x.generation
    ensures Insert(NewestFirst(), s, x) == [x] + s
  {
    if s != [] {
      var n := |s| - 1;
      assert s[n] in s;
      assert forall v :: v in s[..n] ==> v in s;
      NewestGoesFirst(s[..n], x);
      assert s == s[..n] + [s[n]];
    }
  }

  lemma ReversedSnoc(s: seq<Version>)
    requires s != []
    ensures Reversed(s) == [s[|s| - 1]] + Reversed(s[..|s| - 1])
  {
    var n := |s| - 1;
    var a, b := Reversed(s), [s[n]] + Reversed(s[..n]);
    forall i | 0 <= i < |s| ensures a[i] == b[i] {
      assert i > 0 ==> b[i] == Reversed(s[..n])[i - 1] == s[..n][n - i];
    }
  }

  lemma ReversedBelow(s: seq<Version>, n: nat)
    requires Increasing(s) && n < |s|
    ensures forall v :: v in Reversed(s[..n]) ==> v.generation < s[n].generation
  {
    var front := Reversed(s[..n]);
    forall v | v in front ensures v.generation < s[n].generation {
      var i :| 0 <= i < |front| && front[i] == v;
      assert v == s[n - 1 - i];
    }
  }

  /** Versions of growing generation sort into their reverse. */
  lemma {:induction false} SortReverses(s: seq<Version>)
    requires Increasing(s)
    ensures Sort(NewestFirst(), s) == Reversed(s)
  {
    hide Reversed;
    hide Insert;
    if s == [] {
      assert |Reversed(s)| == 0;
    } else {
      var n := |s| - 1;
      SortReverses(s[..n]);
      ReversedSnoc(s);
      ReversedBelow(s, n);
      NewestGoesFirst(Reversed(s[..n]), s[n]);
    }
  }

  lemma {:induction false} VersionsIncrease(versions: seq<Version>, id: string)
    requires Ascends(versions)
    ensures Increasing(VersionsOf(versions, id))
  {
    if versions != [] {
      var n := |versions| - 1;
      VersionsIncrease(versions[..n], id);
      var front := VersionsOf(versions[..n], id);
      if versions[n].bindingId == id {
        forall i | 0 <= i < |front| ensures front[i].generation < versions[n].generation {
          assert front[i] in front;
          var k :| 0 <= k < n && versions[k] == front[i];
        }
      }
    }
  }

  /** The history of a binding is its versions from the newest back, as many as asked for. */
  lemma HistoryNewestFirst(versions: seq<Version>, id: string, limit: nat)
    requires Ascends(versions)
    ensures var own := VersionsOf(versions, id);
            var n := if |own| <= limit then |own| else limit;
            && |ListBindingHistory(versions, id, limit)| == n
            && forall i :: 0 <= i < n ==> ListBindingHistory(versions, id, limit)[i] == own[|own| - 1 - i]
  {
    hide Sort;
    hide VersionsOf;
    VersionsIncrease(versions, id);
    SortReverses(VersionsOf(versions, id));
  }

  // ---------- rolling back twice ----------

  function ConfigOf(s: State, id: string): Option<Config> {
    if id in s.bindings && s.bindings[id].profileId in s.profiles then Some(s.profiles[s.bindings[id].profileId])
      else None
  }

  /** The newest version of the binding describes its current profile. */
  ghost predicate NewestMatches(s: State, id: string) {
    var own := VersionsOf(s.versions, id);
    own != [] && ConfigOf(s, id) == Some(own[|own| - 1].config)
  }

  /** The newest version older than `g`, given that none is newer. */
  function Predecessor(own: seq<Version>, g: int): Option<Version> {
    if own == [] then None
    else if own[|own| - 1].generation < g then Some(own[|own| - 1])
    else if |own| > 1 then Some(own[|own| - 2]) else None
  }

  lemma TopTwo(versions: seq<Version>, id: string)
    requires Ascends(versions)
    ensures var own, history := VersionsOf(versions, id), ListBindingHistory(versions, id, 2);
            && |history| == (if |own| <= 2 then |own| else 2)
            && (|own| > 0 ==> history[0] == own[|own| - 1]) && (|own| > 1 ==> history[1] == own[|own| - 2])
  {
    hide ListBindingHistory;
    hide VersionsOf;
    hide Ascends;
    HistoryNewestFirst(versions, id, 2);
  }

  lemma PreviousIs(s: State, id: string)
    requires Inv(s) && id in s.bindings
    ensures Previous(s.versions, s.bindings[id]) == Predecessor(VersionsOf(s.versions, id), s.bindings[id].generation)
  {
    hide ListBindingHistory;
    hide VersionsOf;
    hide Ascends;
    hide OneEach;
    hide Increasing;
    ProfileThere(s, id);
    NoneNewer(s, id);
    VersionsIncrease(s.versions, id);
    TopTwo(s.versions, id);
    hide Inv;
    if |VersionsOf(s.versions, id)| > 1 {
      SecondIsOlder(VersionsOf(s.versions, id), s.bindings[id].generation);
    }
  }

  lemma SecondIsOlder(own: seq<Version>, g: int)
    requires Increasing(own) && |own| > 1 && own[|own| - 1].generation <= g
    ensures own[|own| - 2].generation < g
  {
  }

  lemma NoneNewer(s: State, id: string)
    requires Inv(s) && id in s.bindings
    ensures var own := VersionsOf(s.versions, id); own != [] ==> own[|own| - 1].generation <= s.bindings[id].generation
  {
    hide VersionsOf;
    assert BindingOk(s, id);
    var own := VersionsOf(s.versions, id);
    if own != [] {
      assert own[|own| - 1] in own;
      var i :| 0 <= i < |s.versions| && s.versions[i] == own[|own| - 1];
    }
  }

  lemma VersionsSnoc(versions: seq<Version>, v: Version)
    ensures VersionsOf(versions + [v], v.bindingId) == VersionsOf(versions, v.bindingId) + [v]
  {
    assert (versions + [v])[..|versions|] == versions;
  }

  /** A second rollback brings back the profile that the first one replaced. */
  lemma SecondRollbackRestores(s: State, id: string)
    requires Inv(s) && NewestMatches(s, id) && RollbackOf(s, id).Ok?
    ensures match RollbackOf(RollbackOf(s, id).value, id)
            case Err(_) => false
            case Ok(twice) => ConfigOf(twice, id) == ConfigOf(s, id)
  {
    hide ListBindingHistory;
    hide VersionsOf;
    hide Previous;
    hide Inv;
    var once := RollbackOf(s, id).value;
    var own, g := VersionsOf(s.versions, id), s.bindings[id].generation;
    ProfileThere(s, id);
    NoneNewer(s, id);
    RollbackKeeps(s, id);
    PreviousIs(once, id);
    var v := Version(id, g + 1, Previous(s.versions, s.bindings[id]).value.config);
    VersionsSnoc(s.versions, v);
    assert once.versions == s.versions + [v];
    SecondPredecessor(own, v, g);
  }

  lemma SecondPredecessor(own: seq<Version>, v: Version, g: int)
    requires own != [] && own[|own| - 1].generation <= g && v.generation == g + 1
    ensures Predecessor(own + [v], g + 1) == Some(own[|own| - 1])
  {
  }

  // ---------- cutover ----------

  predicate Listed(items: seq<(string, string)>, o: string) {
    exists i :: 0 <= i < |items| && items[i].0 == o
  }

  /** Route `o` after the listed routes have moved. */
  predicate MovedRight(
    before: map<string, Route>, after: map<string, Route>, items: seq<(string, string)>, target: Binding, o: string) {
    && (o in after <==> o in before)
    && (o in before && o in after ==>
          after[o] == if Listed(items, o) then before[o].(bindingId := target.id, generation := target.generation)
            else before[o])
  }

  /** Moving succeeds exactly when every item names a route with its digest. */
  predicate AllMatch(blobs: map<string, Route>, items: seq<(string, string)>) {
    forall i :: 0 <= i < |items| ==> items[i].0 in blobs && blobs[items[i].0].sha256 == items[i].1
  }

  /** How many items come before the first that names no route or another digest. */
  function Matching(blobs: map<string, Route>, items: seq<(string, string)>): (n: nat)
    ensures n <= |items| && AllMatch(blobs, items[..n])
    ensures n < |items| ==> items[n].0 !in blobs || blobs[items[n].0].sha256 != items[n].1
  {
    if items == [] || items[0].0 !in blobs || blobs[items[0].0].sha256 != items[0].1 then 0
    else
      var m := Matching(blobs, items[1..]);
      assert forall i :: 0 < i < m + 1 ==> items[i] == items[1..][i - 1];
      m + 1
  }

  /** Changing where a route leads does not change which items match. */
  lemma {:induction false} MatchingStays(a: map<string, Route>, b: map<string, Route>, items: seq<(string, string)>)
    requires a.Keys == b.Keys && forall o :: o in a ==> b[o].sha256 == a[o].sha256
    ensures Matching(a, items) == Matching(b, items)
  {
    if items != [] {
      MatchingStays(a, b, items[1..]);
    }
  }

  /**
   Exactly the routes before the first mismatch move, to the target's generation before the cutover;
   no route is lost and no digest changes.
   */
  lemma {:induction false} RoutesMoved(
    blobs: map<string, Route>, items: seq<(string, string)>, target: Binding, o: string)
    ensures var (after, ok) := MoveRoutes(blobs, items, target);
            var n := Matching(blobs, items);
            (ok <==> n == |items|) && MovedRight(blobs, after, items[..n], target, o)
  {
    if items != [] && items[0].0 in blobs && blobs[items[0].0].sha256 == items[0].1 {
      var moved := blobs[items[0].0 := blobs[items[0].0].(bindingId := target.id, generation := target.generation)];
      MatchingStays(blobs, moved, items[1..]);
      RoutesMoved(moved, items[1..], target, o);
      var n := Matching(blobs, items);
      var rest := items[1..][..n - 1];
      assert items[..n] == [items[0]] + rest;
      ListedFirst(items[0], rest, o);
    }
  }

  lemma ListedFirst(item: (string, string), rest: seq<(string, string)>, o: string)
    ensures Listed([item] + rest, o) <==> item.0 == o || Listed(rest, o)
  {
    var all := [item] + rest;
    if i :| 0 <= i < |rest| && rest[i].0 == o {
      assert all[i + 1].0 == o;
    }
    assert all[0] == item;
  }

  /**
   A cutover succeeds exactly when the statuses allow it and all digests match, and then moves exactly the listed
   routes.
   */
  lemma CutoverMoves(s: State, source: string, target: string, items: seq<(string, string)>, o: string)
    requires Inv(s) && CanCutover(s, source, target)
    ensures var (s', error) := CutoverOf(s, source, target, items);
            && (error == None <==> AllMatch(s.blobs, items))
            && (error == None ==>
                 MovedRight(s.blobs, s'.blobs, items, s.bindings[target], o) && s'.bindings[source].status == Connected)
            && (error.Some? ==>
                  s' == s.(blobs := s'.blobs)
                    && MovedRight(s.blobs, s'.blobs, items[..Matching(s.blobs, items)], s.bindings[target], o))
  {
    assert BindingOk(s, target);
    RoutesMoved(s.blobs, items, s.bindings[target], o);
    AllMatchIff(s.blobs, items);
    assert items[..|items|] == items;
    hide MoveRoutes;
    hide Inv;
  }

  lemma AllMatchIff(blobs: map<string, Route>, items: seq<(string, string)>)
    ensures AllMatch(blobs, items) <==> Matching(blobs, items) == |items|
  {
    if Matching(blobs, items) == |items| {
      assert items[..|items|] == items;
    }
  }

  // ---------- the registry ----------

  class InMemoryAppStorageRegistry {
    var profiles: map<string, Config>
    var bindings: map<string, Binding>
    var versions: seq<Version>
    var blobs: map<string, Route>

    constructor ()
      ensures View() == State(map[], map[], [], map[]) && Inv(View())
    {
      profiles, bindings, versions, blobs := map[], map[], [], map[];
    }

    function View(): State
      reads this
    {
      State(profiles, bindings, versions, blobs)
    }

    method UpsertBinding(c: Upsert, profileId: string, bindingId: string) returns (r: Result<Binding, Error>)
      requires Inv(View()) && NewIds(View(), profileId, bindingId)
      modifies this
      ensures Inv(View())
      ensures match UpsertOf(old(View()), c, profileId, bindingId)
              case Err(e) => r == Err(e) && View() == old(View())
              case Ok(s) => View() == s && r.Ok? && r.value.id in bindings && bindings[r.value.id] == r.value
    {
      hide Inv;
      hide NewIds;
      if UpsertOf(View(), c, profileId, bindingId).Ok? {
        UpsertKeeps(View(), c, profileId, bindingId);
      }
      if id :| id in bindings && Serves(bindings[id], c.workspaceId, c.applicationId, c.tenantId) {
        OnlyOne(View(), id, c);
        var existing := bindings[id];
        if c.expectedGeneration.Some? && c.expectedGeneration.value != existing.generation {
          return Err(GenerationConflict);
        }
        profiles := profiles[existing.profileId := c.config];
        existing := existing.(generation := existing.generation + 1, status := StatusOnUpdate(c.config),
                              lastProbeOk := None);
        bindings := bindings[id := existing];
        versions := versions + [Version(id, existing.generation, c.config)];
        return Ok(existing);
      }
      profiles := profiles[profileId := c.config];
      var binding := Binding(bindingId, c.workspaceId, c.applicationId, c.tenantId, profileId, StatusOnCreate(c.config),
                             1, None, false);
      bindings := bindings[bindingId := binding];
      versions := versions + [Version(bindingId, 1, c.config)];
      r := Ok(binding);
    }

    method DisableBinding(id: string) returns (r: Result<Binding, Error>)
      requires Inv(View())
      modifies this`bindings
      ensures Inv(View())
      ensures match DisableOf(old(View()), id)
              case Err(e) => r == Err(e) && View() == old(View())
              case Ok(s) => View() == s && id in bindings && r == Ok(bindings[id])
    {
      hide Inv;
      ApplyKeeps(View(), DoDisable(id));
      if id !in bindings {
        return Err(NotFound);
      }
      bindings := bindings[id :=
          bindings[id].(disabled := true, status := Disabled, generation := bindings[id].generation + 1)];
      r := Ok(bindings[id]);
    }

    method DeleteBinding(id: string, force: bool) returns (r: Result<Binding, Error>)
      requires Inv(View())
      modifies this`bindings, this`profiles
      ensures Inv(View())
      ensures match DeleteOf(old(View()), id, force)
              case Err(e) => r == Err(e) && View() == old(View())
              case Ok(s) => View() == s && r == Ok(old(bindings)[id])
    {
      hide Inv;
      ApplyKeeps(View(), DoDelete(id, force));
      if id !in bindings {
        return Err(NotFound);
      }
      var binding := bindings[id];
      if !force && (binding.status == Connected || binding.status == Migrating) {
        return Err(Rejected);
      }
      if Routed(View(), id) && !force {
        return Err(Rejected);
      }
      bindings := bindings - {id};
      if !ProfileUsed(bindings, binding.profileId) {
        profiles := profiles - {binding.profileId};
      }
      r := Ok(binding);
    }

    method RollbackBinding(id: string) returns (r: Result<Binding, Error>)
      requires Inv(View())
      modifies this`bindings, this`profiles, this`versions
      ensures Inv(View())
      ensures match RollbackOf(old(View()), id)
              case Err(e) => r == Err(e) && View() == old(View())
              case Ok(s) => View() == s && id in bindings && r == Ok(bindings[id])
    {
      hide Inv;
      ApplyKeeps(View(), DoRollback(id));
      if id !in bindings {
        return Err(NotFound);
      }
      ProfileThere(View(), id);
      var binding := bindings[id];
      var previous := Previous(versions, binding);
      hide Previous;
      if previous == None {
        return Err(NoPreviousVersion);
      }
      profiles := profiles[binding.profileId := previous.value.config];
      binding := binding.(generation := binding.generation + 1, status := Configured, lastProbeOk := None,
                          disabled := false);
      bindings := bindings[id := binding];
      versions := versions + [Version(id, binding.generation, previous.value.config)];
      r := Ok(binding);
    }

    method BeginMigrate(id: string) returns (r: Result<Binding, Error>)
      requires Inv(View())
      modifies this`bindings
      ensures Inv(View())
      ensures match BeginMigrateOf(old(View()), id)
              case Err(e) => r == Err(e) && View() == old(View())
              case Ok(s) => View() == s && id in bindings && r == Ok(bindings[id])
    {
      hide Inv;
      ApplyKeeps(View(), DoBeginMigrate(id));
      if id !in bindings {
        return Err(NotFound);
      }
      if bindings[id].status != Connected {
        return Err(WrongStatus);
      }
      bindings := bindings[id := bindings[id].(status := Migrating, generation := bindings[id].generation + 1)];
      r := Ok(bindings[id]);
    }

    /** Moves route after route; a refusal leaves the routes before the mismatch moved. */
    method CutoverMigrate(source: string, target: string, items: seq<(string, string)>) returns (error: Option<Error>)
      requires Inv(View())
      modifies this`bindings, this`versions, this`blobs
      ensures Inv(View())
      ensures (View(), error) == CutoverOf(old(View()), source, target, items)
      ensures old(CanCutover(View(), source, target)) ==> (error == None <==> AllMatch(old(blobs), items))
    {
      hide Inv;
      hide MovedRight;
      hide AllMatch;
      hide Matching;
      CutoverKeeps(View(), source, target, items);
      if CanCutover(View(), source, target) {
        CutoverMoves(View(), source, target, items, "");
        ProfileThere(View(), target);
      }
      if source !in bindings || target !in bindings {
        return Some(NotFound);
      }
      if bindings[source].status != Migrating || bindings[target].status != Connected {
        return Some(WrongStatus);
      }
      var t := bindings[target];
      var i := 0;
      while i < |items|
        invariant 0 <= i <= |items| && bindings == old(bindings) && versions == old(versions)
        invariant MoveRoutes(old(blobs), items, t) == MoveRoutes(blobs, items[i..], t)
      {
        var (o, digest) := items[i];
        assert items[i..][0] == items[i] && items[i..][1..] == items[i + 1..];
        if o !in blobs || blobs[o].sha256 != digest {
          return Some(DigestMismatch);
        }
        blobs := blobs[o := blobs[o].(bindingId := t.id, generation := t.generation)];
        i := i + 1;
      }
      bindings := bindings[source := bindings[source].(status := Connected)];
      bindings := bindings[target := t.(generation := t.generation + 1)];
      versions := versions + [Version(target, t.generation + 1, profiles[t.profileId])];
      error := None;
    }
  }

  lemma ProfileThere(s: State, id: string)
    requires Inv(s) && id in s.bindings
    ensures s.bindings[id].profileId in s.profiles && s.bindings[id].id == id
  {
    assert BindingOk(s, id);
  }

  /** The binding that serves a workspace, application and tenant is the one that is found. */
  lemma OnlyOne(s: State, id: string, c: Upsert)
    requires Inv(s) && id in s.bindings && Serves(s.bindings[id], c.workspaceId, c.applicationId, c.tenantId)
    ensures FindBinding(s, c.workspaceId, c.applicationId, c.tenantId) == Some(id) && s.bindings[id].id == id
  {
    assert BindingOk(s, id);
  }
}

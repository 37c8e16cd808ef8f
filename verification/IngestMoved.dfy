/**
 An ingest resumed in another storage catalogues a blob that is not there (packages/operations/src/object-ingest.ts).
 */
module IngestMoved {
  import opened Base
  import opened Text
  import opened Ingest
  import opened IngestHome

  /** The same request, once for the platform's storage and once for the storage of a binding. */
  function Asked(st: Storage): Input {
    Input("w", "u", "k", [], "m", st)
  }

  function Wanted(env: Env): Request {
    RequestOf(env, Asked(None))
  }

  const UPLOAD := Temporary("w", "o")

  function Final(env: Env): Key {
    Immutable("w", env.hash([]))
  }

  function OperationOf(env: Env, done: set<Checkpoint>, upload: Option<Key>, final: Option<Key>): Operation {
    Operation(Wanted(env), env.requestHash(Wanted(env)), done, upload, final, None, None)
  }

  function StoreOf(op: Operation, all: Storages): Store {
    Store(map[("w", "k") := "o"], map["o" := op], [], [], all)
  }

  /** An attempt that has loaded its operation. */
  function Working(st: Storage, place: Place, branch: Branch, op: Operation): Attempt {
    Running(Asked(st), place, branch, op.checkpoints, op.temporaryKey, op.storageKey, None, false, "b", "t")
  }

  // ---------- one step at a time ----------

  /** A run from the empty system that has led to this store and this one attempt. */
  ghost predicate LeadsTo(env: Env, steps: seq<Step>, s: Store, attempts: map<string, Attempt>) {
    Legal(env, EMPTY, steps) && Run(env, EMPTY, steps) == World(s, attempts)
  }

  lemma Goes(env: Env, steps: seq<Step>, s: Store, attempts: map<string, Attempt>, step: Step)
    requires LeadsTo(env, steps, s, attempts) && Enabled(env, World(s, attempts), step)
    ensures LeadsTo(env, steps + [step], Next(env, World(s, attempts), step).store,
                    Next(env, World(s, attempts), step).attempts)
  {
    assert (steps + [step])[..|steps|] == steps;
  }

  lemma Works(env: Env, steps: seq<Step>, s: Store, a: Attempt) returns (steps': seq<Step>)
    requires LeadsTo(env, steps, s, map["o" := a]) && a.Running? && "o" in s.operations
    ensures LeadsTo(env, steps', StepOf(env, s, "o", a).0, map["o" := StepOf(env, s, "o", a).1])
  {
    hide LeadsTo;
    hide StepOf;
    Goes(env, steps, s, map["o" := a], Work("o"));
    steps' := steps + [Work("o")];
    assert map["o" := a]["o" := StepOf(env, s, "o", a).1] == map["o" := StepOf(env, s, "o", a).1];
  }

  lemma Saved(op: Operation, op': Operation, all: Storages)
    ensures StoreOf(op, all).(operations := StoreOf(op, all).operations["o" := op']) == StoreOf(op', all)
  {
    assert map["o" := op]["o" := op'] == map["o" := op'];
  }

  /** Recording a checkpoint. */
  lemma Marks(env: Env, steps: seq<Step>, st: Storage, branch: Branch, op: Operation, all: Storages, c: Checkpoint)
    returns (steps': seq<Step>)
    requires LeadsTo(env, steps, StoreOf(op, all), map["o" := Working(st, Mark(c), branch, op)]) && c != Completed
    ensures var op' := op.(checkpoints := op.checkpoints + {c});
            LeadsTo(env, steps', StoreOf(op', all), map["o" := Working(st, After(c), branch, op')])
  {
    hide LeadsTo;
    Saved(op, op.(checkpoints := op.checkpoints + {c}), all);
    steps' := Works(env, steps, StoreOf(op, all), Working(st, Mark(c), branch, op));
  }

  // ---------- the first attempt ----------

  lemma Starts(env: Env) returns (steps: seq<Step>)
    ensures var op := OperationOf(env, {}, None, None);
            LeadsTo(env, steps, StoreOf(op, map[]), map["o" := Working(None, At(Authorised), Undecided, op)])
  {
    var step := Begin(Asked(None), "o", "b", "t");
    assert LeadsTo(env, [], EMPTY.store, map[]);
    hide LeadsTo;
    Goes(env, [], EMPTY.store, map[], step);
    steps := [step];
    assert [] + [step] == [step];
  }

  lemma Uploads(env: Env) returns (steps: seq<Step>)
    ensures var op := OperationOf(env, {Authorised, TemporaryUploadCreated}, Some(UPLOAD), None);
            LeadsTo(env, steps, StoreOf(op, map[]), map["o" := Working(None, At(BytesReceived), Fresh, op)])
  {
    hide LeadsTo;
    steps := Starts(env);
    var op := OperationOf(env, {}, None, None);
    steps := Works(env, steps, StoreOf(op, map[]), Working(None, At(Authorised), Undecided, op));
    steps := Marks(env, steps, None, Undecided, op, map[], Authorised);
    op := OperationOf(env, {Authorised}, None, None);
    assert {} + {Authorised} == {Authorised};
    steps := Works(env, steps, StoreOf(op, map[]), Working(None, Look, Undecided, op));
    assert SafeId("w") && SafeId("o");
    Saved(op, op.(temporaryKey := Some(UPLOAD)), map[]);
    steps := Works(env, steps, StoreOf(op, map[]), Working(None, At(TemporaryUploadCreated), Fresh, op));
    op := op.(temporaryKey := Some(UPLOAD));
    steps := Marks(env, steps, None, Fresh, op, map[], TemporaryUploadCreated);
    assert {Authorised} + {TemporaryUploadCreated} == {Authorised, TemporaryUploadCreated};
  }

  const BEFORE_COMMIT := {Authorised, TemporaryUploadCreated, BytesReceived, HashVerified}

  lemma Receives(env: Env) returns (steps: seq<Step>)
    ensures var op := OperationOf(env, BEFORE_COMMIT, Some(UPLOAD), None);
            LeadsTo(env, steps, StoreOf(op, map[None := map[UPLOAD := Object([], "m")]]),
                    map["o" := Working(None, At(ImmutableObjectCommitted), Fresh, op)])
  {
    hide LeadsTo;
    steps := Uploads(env);
    var op := OperationOf(env, {Authorised, TemporaryUploadCreated}, Some(UPLOAD), None);
    PlainMedia();
    hide Trim;
    steps := Works(env, steps, StoreOf(op, map[]), Working(None, At(BytesReceived), Fresh, op));
    var all: Storages := map[None := map[UPLOAD := Object([], "m")]];
    steps := Marks(env, steps, None, Fresh, op, all, BytesReceived);
    op := op.(checkpoints := op.checkpoints + {BytesReceived});
    steps := Works(env, steps, StoreOf(op, all), Working(None, At(HashVerified), Fresh, op));
    steps := Marks(env, steps, None, Fresh, op, all, HashVerified);
    assert op.checkpoints + {HashVerified} == BEFORE_COMMIT;
  }

  lemma PlainMedia()
    ensures Trim("m") != ""
  {
    assert Trim("m") == "m";
  }

  const AFTER_COMMIT := {Authorised, TemporaryUploadCreated, BytesReceived, HashVerified, ImmutableObjectCommitted}

  function Committed(env: Env): Storages {
    map[None := map[Final(env) := Object([], "m")]]
  }

  lemma Commits(env: Env) returns (steps: seq<Step>)
    ensures var op := OperationOf(env, AFTER_COMMIT, Some(UPLOAD), Some(Final(env)));
            LeadsTo(env, steps, StoreOf(op, Committed(env)),
                    map["o" := Working(None, At(MetadataCommitted), Fresh, op)])
  {
    hide LeadsTo;
    steps := Receives(env);
    var op := OperationOf(env, BEFORE_COMMIT, Some(UPLOAD), None);
    var all: Storages := map[None := map[UPLOAD := Object([], "m")]];
    CommitsHere(env);
    hide CommitImmutable;
    steps := Works(env, steps, StoreOf(op, all), Working(None, At(ImmutableObjectCommitted), Fresh, op));
    assert all[None := map[Final(env) := Object([], "m")]] == Committed(env);
    Saved(op, op.(storageKey := Some(Final(env))), Committed(env));
    steps := Works(env, steps, StoreOf(op, Committed(env)), Working(None, SaveKey(Final(env)), Fresh, op));
    op := op.(storageKey := Some(Final(env)));
    steps := Marks(env, steps, None, Fresh, op, Committed(env), ImmutableObjectCommitted);
    assert BEFORE_COMMIT + {ImmutableObjectCommitted} == AFTER_COMMIT;
  }

  lemma CommitsHere(env: Env)
    ensures CommitImmutable(env, map[UPLOAD := Object([], "m")], UPLOAD, Wanted(env), 0) ==
            Ok(map[Final(env) := Object([], "m")])
  {
    PlainMedia();
    hide Trim;
    assert SafeId("w");
    var objects: map<Key, Object> := map[UPLOAD := Object([], "m")];
    assert objects - {UPLOAD} == map[];
  }

  // ---------- the second attempt ----------

  /** Resumed in the storage of binding "x", the attempt skips what is done. */
  lemma ResumesElsewhere(env: Env) returns (steps: seq<Step>)
    ensures var op := OperationOf(env, AFTER_COMMIT, Some(UPLOAD), Some(Final(env)));
            LeadsTo(env, steps, StoreOf(op, Committed(env)),
                    map["o" := Working(Some("x"), At(MetadataCommitted), Fresh, op)])
  {
    hide LeadsTo;
    hide Committed;
    steps := Commits(env);
    var op := OperationOf(env, AFTER_COMMIT, Some(UPLOAD), Some(Final(env)));
    var s := StoreOf(op, Committed(env));
    var first := Working(None, At(MetadataCommitted), Fresh, op);
    Goes(env, steps, s, map["o" := first], Crash("o"));
    assert map["o" := first] - {"o"} == map[];
    steps := steps + [Crash("o")];
    Goes(env, steps, s, map[], Begin(Asked(Some("x")), "p", "b", "t"));
    steps := steps + [Begin(Asked(Some("x")), "p", "b", "t")];
    steps := Works(env, steps, s, Working(Some("x"), At(Authorised), Undecided, op));
    steps := Works(env, steps, s, Working(Some("x"), Look, Undecided, op));
    steps := Works(env, steps, s, Working(Some("x"), At(TemporaryUploadCreated), Fresh, op));
    steps := Works(env, steps, s, Working(Some("x"), At(BytesReceived), Fresh, op));
    steps := Works(env, steps, s, Working(Some("x"), At(HashVerified), Fresh, op));
    steps := Works(env, steps, s, Working(Some("x"), At(ImmutableObjectCommitted), Fresh, op));
  }

  lemma Records(env: Env)
    ensures var op := OperationOf(env, AFTER_COMMIT, Some(UPLOAD), Some(Final(env)));
            var s' := StepOf(env, StoreOf(op, Committed(env)), "o",
                             Working(Some("x"), At(MetadataCommitted), Fresh, op)).0;
            && s'.storages == Committed(env) && |s'.rows| == 1
            && s'.rows[0].bindingId == Some("x") && s'.rows[0].workspaceId == "w"
  {
    hide Committed;
    hide AppendOnce;
  }

  /** The blob is catalogued under binding "x", and the storage of that binding is empty. */
  lemma CataloguedElsewhere(env: Env) returns (steps: seq<Step>)
    ensures Legal(env, EMPTY, steps)
    ensures var s := Run(env, EMPTY, steps).store;
            |s.rows| == 1 && s.rows[0].bindingId == Some("x") && !AtHome(env, s.storages, s.rows[0])
  {
    steps := ResumesElsewhere(env);
    var op := OperationOf(env, AFTER_COMMIT, Some(UPLOAD), Some(Final(env)));
    var s, a := StoreOf(op, Committed(env)), Working(Some("x"), At(MetadataCommitted), Fresh, op);
    hide Run;
    hide Legal;
    hide StepOf;
    steps := Works(env, steps, s, a);
    Records(env);
    assert In(Committed(env), Some("x")) == map[];
    hide Committed;
    hide OperationOf;
  }
}

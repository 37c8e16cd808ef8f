/**
 The first attempt of an ingest when nothing interferes (packages/operations/src/object-ingest.ts): what it answers
 and which row it leaves in the catalog.
 */
module IngestFirst {
  import opened Base
  import opened Text
  import opened Ingest

  /** What an attempt was begun with, and the rows it found. */
  datatype Start = Start(rows: seq<Blob>, id: string, input: Input, newBlobId: string, now: string)

  function Found(env: Env, start: Start): Option<nat> {
    FindByHash(start.rows, start.input.workspaceId, env.hash(start.input.bytes))
  }

  function KeyOf(env: Env, start: Start): Key {
    Immutable(start.input.workspaceId, env.hash(start.input.bytes))
  }

  /** The row of content that was not known: what was handed in, under its digest and with its length. */
  function NewRow(env: Env, start: Start): Blob {
    Blob(start.newBlobId, start.input.workspaceId, env.hash(start.input.bytes), |start.input.bytes|,
         start.input.mediaType, KeyOf(env, start), start.now, start.input.bindingId)
  }

  /** What an attempt needs at all, and what the storage asks of new content. */
  predicate Allowed(input: Input) {
    input.workspaceId != "" && input.actorId != "" && input.idempotencyKey != "" && input.mediaType != ""
  }

  predicate Storable(input: Input, id: string) {
    SafeId(input.workspaceId) && SafeId(id) && Trim(input.mediaType) != ""
  }

  /** Known content keeps its row; other content gets the new one. */
  ghost predicate Recorded(env: Env, start: Start, rows: seq<Blob>, blob: Blob) {
    match Found(env, start)
    case Some(i) => rows == start.rows && i < |start.rows| && blob == start.rows[i]
    case None => rows == start.rows + [NewRow(env, start)] && blob == NewRow(env, start)
  }

  predicate Early(place: Place) {
    place in {At(Authorised), Mark(Authorised), Look}
  }

  /** The checkpoint that an attempt is working on, by its rank. */
  function Level(place: Place): nat {
    match place
    case Look => 1
    case At(c) => Rank(c)
    case SaveKey(_) => 4
    case Mark(c) => Rank(c)
  }

  /** What the storage has asked by now of new content. */
  predicate AskedSoFar(start: Start, place: Place) {
    && (Level(place) >= 2 || place == Mark(TemporaryUploadCreated) ==>
          SafeId(start.input.workspaceId) && SafeId(start.id))
    && (Level(place) >= 3 || place == Mark(BytesReceived) ==> Storable(start.input, start.id))
  }

  ghost predicate Tracks(env: Env, start: Start, s: Store, a: Attempt) {
    match a
    case Failed(_) => true
    case Returned(blob, reused) =>
      && Recorded(env, start, s.rows, blob) && (reused <==> Found(env, start).Some?)
      && Allowed(start.input) && (reused || Storable(start.input, start.id))
    case Running(input, place, branch, completed, _, storageKey, blob, deduplicated, newBlobId, now) =>
      && input == start.input && newBlobId == start.newBlobId && now == start.now
      && (forall c :: c in completed ==> Rank(c) < Level(place))
      && (place == At(Authorised) || Allowed(input)) && (branch == Fresh ==> AskedSoFar(start, place))
      && storageKey in {None, Some(KeyOf(env, start))} && (place.SaveKey? ==> place.key == KeyOf(env, start))
      && if Early(place) then s.rows == start.rows && !deduplicated && branch == Undecided
         else
           && (deduplicated <==> Found(env, start).Some?)
           && branch == (if Found(env, start).Some? then Existing else Fresh)
           && if Level(place) < 5 || place == At(MetadataCommitted)
              then s.rows == start.rows && (branch == Existing ==> blob == Some(start.rows[Found(env, start).value]))
              else blob.Some? && Recorded(env, start, s.rows, blob.value)
  }

  lemma RecordsFirst(env: Env, start: Start, s: Store, id: string)
    requires s.rows == start.rows
    ensures Found(env, start) == None ==>
              CommitVerified(env, s, NewRow(env, start), id).0.rows == s.rows + [NewRow(env, start)]
              && CommitVerified(env, s, NewRow(env, start), id).1 == NewRow(env, start)
    ensures Found(env, start).Some? ==>
              var row := start.rows[Found(env, start).value];
              CommitVerified(env, s, row, id).0.rows == s.rows && CommitVerified(env, s, row, id).1 == row
  {
    if Found(env, start).Some? {
      var i := Found(env, start).value;
      assert s.rows[i := s.rows[i]] == s.rows;
    }
  }

  lemma MetadataTracks(env: Env, start: Start, s: Store, id: string, a: Attempt)
    requires id in s.operations && id == start.id && a.Running? && Tracks(env, start, s, a)
    requires a.place == At(MetadataCommitted)
    ensures var (s', a') := Effect(env, s, id, a, MetadataCommitted); Tracks(env, start, s', a')
  {
    RecordsFirst(env, start, s, id);
    hide CommitVerified;
    hide FindByHash;
  }

  lemma EffectTracks(env: Env, start: Start, s: Store, id: string, a: Attempt, c: Checkpoint)
    requires id in s.operations && id == start.id && a.Running? && Tracks(env, start, s, a)
    requires a.place == At(c)
    ensures var (s', a') := Effect(env, s, id, a, c); Tracks(env, start, s', a')
  {
    if c == MetadataCommitted {
      MetadataTracks(env, start, s, id, a);
    } else {
      hide CommitImmutable;
      hide CommitVerified;
      hide FindByHash;
      hide SafeId;
      hide Trim;
      hide Recorded;
    }
  }

  lemma LookTracks(env: Env, start: Start, s: Store, id: string, a: Attempt)
    requires id in s.operations && id == start.id && a.Running? && Tracks(env, start, s, a)
    requires a.place == Look
    ensures var (s', a') := StepOf(env, s, id, a); Tracks(env, start, s', a')
  {
  }

  lemma MarkTracks(env: Env, start: Start, s: Store, id: string, a: Attempt)
    requires id in s.operations && id == start.id && a.Running? && Tracks(env, start, s, a)
    requires (a.place.Mark? || a.place.SaveKey?)
    ensures var (s', a') := StepOf(env, s, id, a); Tracks(env, start, s', a')
  {
    hide FindByHash;
    hide SafeId;
    hide Trim;
    hide Recorded;
  }

  lemma StepTracks(env: Env, start: Start, s: Store, id: string, a: Attempt)
    requires id in s.operations && id == start.id && a.Running? && Tracks(env, start, s, a)
    ensures var (s', a') := StepOf(env, s, id, a); Tracks(env, start, s', a')
  {
    match a.place {
      case Look => LookTracks(env, start, s, id, a);
      case At(c) =>
        EffectTracks(env, start, s, id, a, c);
        hide Effect;
        hide FindByHash;
      case SaveKey(_) => MarkTracks(env, start, s, id, a);
      case Mark(_) => MarkTracks(env, start, s, id, a);
    }
  }

  lemma BeginTracks(env: Env, id: string, input: Input, newBlobId: string, now: string, s: Store)
    ensures Tracks(env, Start(s.rows, id, input, newBlobId, now), s,
                   Resume(input, NewOperation(env, input), newBlobId, now))
  {
  }

  lemma Answered(env: Env, start: Start, s: Store, a: Attempt)
    requires Tracks(env, start, s, a) && a.Returned?
    ensures Recorded(env, start, s.rows, a.stored) && (a.reused <==> Found(env, start).Some?)
    ensures Allowed(start.input) && (a.reused || Storable(start.input, start.id))
  {
  }
}

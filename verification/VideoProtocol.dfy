/**
  Starting, completing and cleaning up uploads as a transition system. Each transaction and each
  storage call is a step of its own; any number of workers interleave and may stop between steps.
 */
module VideoProtocol {
  import opened Types
  import opened VideoParts
  import opened VideoCatalog

  datatype Session = Session(id: string, parts: seq<Part>)

  /** Open multipart sessions and finished objects (with their sizes) in object storage. */
  datatype Storage = Storage(sessions: map<ObjectKey, Session>, objects: map<ObjectKey, int>)

  datatype Ask = Ask(position: Position, title: string, fileSize: int)

  datatype Worker =
    | Idle
    | Starting(key: ObjectKey, session: string, ask: Ask)
    | AbortingStart(key: ObjectKey, session: string)
    | Listing(id: UploadId, upload: Upload)
    | Merging(id: UploadId, upload: Upload, parts: seq<Part>)
    | Statting(id: UploadId, upload: Upload)
    | Promoting(id: UploadId, upload: Upload)
    | Preparing(id: UploadId, upload: Upload, before: int)
    | Aborting(id: UploadId, upload: Upload)
    | Deleting(id: UploadId, upload: Upload)
    | Finishing(id: UploadId, upload: Upload)

  /** `used` is the set of object keys handed out so far; keys are random and never repeat. */
  datatype Catalog = Catalog(
    maxSize: int, tables: Tables, storage: Storage, used: set<ObjectKey>, workers: map<nat, Worker>)

  datatype Action =
    | CreateSession(w: nat, key: ObjectKey, session: string, ask: Ask)
    | CommitStart(w: nat, existing: Option<VideoId>, video: VideoId, upload: UploadId, expiresAt: int, lost: bool)
    | RefuseStart(w: nat)
    | AbortStart(w: nat)
    | PutParts(key: ObjectKey, parts: seq<Part>)
    | ReadForComplete(w: nat, id: UploadId)
    | ListParts(w: nat)
    | Merge(w: nat)
    | Stat(w: nat)
    | Promote(w: nat, durationMs: Option<nat>)
    | ReadForCleanup(w: nat, id: UploadId, before: int)
    | Prepare(w: nat)
    | AbortSession(w: nat)
    | DeleteObject(w: nat)
    | Finish(w: nat)
    | Stop(w: nat)

  function Phase(workers: map<nat, Worker>, w: nat): Worker {
    if w in workers then workers[w] else Idle
  }

  predicate ValidSize(maxSize: int, size: int) {
    0 < size <= maxSize
  }

  predicate Found(sessions: map<ObjectKey, Session>, key: ObjectKey, session: string) {
    key in sessions && sessions[key].id == session
  }

  ghost predicate FreshPosition(videos: map<VideoId, Video>, existing: Option<VideoId>, p: Position) {
    match existing
    case Some(v) => AtPosition(videos, v, p)
    case None => forall v :: v in videos ==> videos[v].position != p
  }

  ghost predicate Enabled(s: Catalog, a: Action) {
    match a
    case CreateSession(w, key, _, ask) =>
      && Phase(s.workers, w).Idle? && key !in s.used && Managed(key)
      && IsInt64(s.maxSize) && ValidSize(s.maxSize, ask.fileSize)
    case CommitStart(w, existing, video, upload, _, _) =>
      && Phase(s.workers, w).Starting? && FreshPosition(s.tables.videos, existing, Phase(s.workers, w).ask.position)
      && video !in s.tables.videos && upload !in s.tables.uploads
    case RefuseStart(w) => Phase(s.workers, w).Starting?
    case AbortStart(w) => Phase(s.workers, w).AbortingStart?
    case PutParts(key, _) => key in s.storage.sessions
    case ReadForComplete(w, id) => Phase(s.workers, w).Idle? && id in s.tables.uploads
    case ListParts(w) => Phase(s.workers, w).Listing?
    case Merge(w) => Phase(s.workers, w).Merging?
    case Stat(w) => Phase(s.workers, w).Statting?
    case Promote(w, _) => Phase(s.workers, w).Promoting?
    case ReadForCleanup(w, id, _) => Phase(s.workers, w).Idle? && id in s.tables.uploads
    case Prepare(w) => Phase(s.workers, w).Preparing?
    case AbortSession(w) => Phase(s.workers, w).Aborting?
    case DeleteObject(w) => Phase(s.workers, w).Deleting?
    case Finish(w) => Phase(s.workers, w).Finishing?
    case Stop(w) => true
  }

  function Go(s: Catalog, w: nat, phase: Worker): Catalog {
    s.(workers := s.workers[w := phase])
  }

  function Abort(storage: Storage, key: ObjectKey, session: string): Storage {
    if Found(storage.sessions, key, session) then storage.(sessions := storage.sessions - {key}) else storage
  }

  /** The session is opened first; a file with too many parts is turned away afterwards. */
  function CreateSessionStep(s: Catalog, w: nat, key: ObjectKey, session: string, ask: Ask): Catalog {
    var s' := s.(used := s.used + {key},
                 storage := s.storage.(sessions := s.storage.sessions[key := Session(session, [])]));
    Go(s', w, if 0 < PartCount(ask.fileSize) <= MAX_PART_NUMBER then Starting(key, session, ask)
              else AbortingStart(key, session))
  }

  /** A commit whose answer is lost looks like a failure to the worker, which then aborts the session. */
  function CommitStartStep(
    s: Catalog, w: nat, existing: Option<VideoId>, video: VideoId, upload: UploadId, expiresAt: int, lost: bool,
    key: ObjectKey, session: string, ask: Ask): Catalog
    requires existing.Some? ==> existing.value in s.tables.videos
  {
    match StartUpload(s.tables, existing, video, upload, ask.position, ask.title, key, session, ask.fileSize, expiresAt)
    case Err(_) => Go(s, w, AbortingStart(key, session))
    case Ok(tables) => Go(s.(tables := tables), w, if lost then AbortingStart(key, session) else Idle)
  }

  function ReadForCompleteStep(s: Catalog, w: nat, id: UploadId): Catalog
    requires id in s.tables.uploads
  {
    if s.tables.uploads[id].status == Pending then Go(s, w, Listing(id, s.tables.uploads[id])) else s
  }

  function ListPartsStep(s: Catalog, w: nat, id: UploadId, u: Upload): Catalog {
    if !Found(s.storage.sessions, u.objectKey, u.session) then Go(s, w, Statting(id, u))
    else
      var parts := s.storage.sessions[u.objectKey].parts;
      Go(s, w, if Complete(parts, u.fileSize) then Merging(id, u, parts) else Idle)
  }

  /** Storage joins the listed parts if they are all still there; a re-uploaded part has another tag. */
  function MergeStep(s: Catalog, w: nat, id: UploadId, u: Upload, parts: seq<Part>): Catalog {
    if !Found(s.storage.sessions, u.objectKey, u.session) then Go(s, w, Statting(id, u))
    else if exists p :: p in parts && p !in s.storage.sessions[u.objectKey].parts then Go(s, w, Idle)
    else
      var storage := Storage(s.storage.sessions - {u.objectKey}, s.storage.objects[u.objectKey := TotalSize(parts)]);
      Go(s.(storage := storage), w, Statting(id, u))
  }

  function StatStep(s: Catalog, w: nat, id: UploadId, u: Upload): Catalog {
    if u.objectKey in s.storage.objects && ValidSize(s.maxSize, s.storage.objects[u.objectKey])
    then Go(s, w, Promoting(id, u)) else Go(s, w, Idle)
  }

  function PromoteStep(s: Catalog, w: nat, id: UploadId, u: Upload, durationMs: Option<nat>): Catalog {
    match CompleteUpload(s.tables, id, u.video, durationMs)
    case Err(_) => Go(s, w, Idle)
    case Ok(tables) => Go(s.(tables := tables), w, Idle)
  }

  function ReadForCleanupStep(s: Catalog, w: nat, id: UploadId, before: int): Catalog
    requires id in s.tables.uploads
  {
    var u := s.tables.uploads[id];
    if EligibleForCleanup(u, before) && Managed(u.objectKey) then Go(s, w, Preparing(id, u, before)) else s
  }

  function PrepareStep(s: Catalog, w: nat, id: UploadId, u: Upload, before: int): Catalog {
    match PlanCleanup(s.tables, id, u.video, before)
    case Err(_) => Go(s, w, Idle)
    case Ok(plan) =>
      if plan.target.None? then Go(s, w, Idle)
      else Go(s.(tables := plan.tables), w,
              if plan.target.value.session != "" then Aborting(id, plan.target.value)
              else Deleting(id, plan.target.value))
  }

  function AbortSessionStep(s: Catalog, w: nat, id: UploadId, u: Upload): Catalog {
    Go(s.(storage := Abort(s.storage, u.objectKey, u.session)), w, Deleting(id, u))
  }

  function DeleteObjectStep(s: Catalog, w: nat, id: UploadId, u: Upload): Catalog {
    Go(s.(storage := s.storage.(objects := s.storage.objects - {u.objectKey})), w, Finishing(id, u))
  }

  function FinishStep(s: Catalog, w: nat, id: UploadId, u: Upload): Catalog {
    match FinishCleanup(s.tables, id, u.objectKey)
    case Err(_) => Go(s, w, Idle)
    case Ok(tables) => Go(s.(tables := tables), w, Idle)
  }

  ghost function Apply(s: Catalog, a: Action): Catalog
    requires Enabled(s, a)
  {
    match a
    case CreateSession(w, key, session, ask) => CreateSessionStep(s, w, key, session, ask)
    case CommitStart(w, existing, video, upload, expiresAt, lost) =>
      var p := Phase(s.workers, w);
      CommitStartStep(s, w, existing, video, upload, expiresAt, lost, p.key, p.session, p.ask)
    case RefuseStart(w) =>
      var p := Phase(s.workers, w);
      Go(s, w, AbortingStart(p.key, p.session))
    case AbortStart(w) =>
      var p := Phase(s.workers, w);
      Go(s.(storage := Abort(s.storage, p.key, p.session)), w, Idle)
    case PutParts(key, parts) =>
      s.(storage := s.storage.(sessions := s.storage.sessions[key := Session(s.storage.sessions[key].id, parts)]))
    case ReadForComplete(w, id) => ReadForCompleteStep(s, w, id)
    case ListParts(w) =>
      var p := Phase(s.workers, w);
      ListPartsStep(s, w, p.id, p.upload)
    case Merge(w) =>
      var p := Phase(s.workers, w);
      MergeStep(s, w, p.id, p.upload, p.parts)
    case Stat(w) =>
      var p := Phase(s.workers, w);
      StatStep(s, w, p.id, p.upload)
    case Promote(w, durationMs) =>
      var p := Phase(s.workers, w);
      PromoteStep(s, w, p.id, p.upload, durationMs)
    case ReadForCleanup(w, id, before) => ReadForCleanupStep(s, w, id, before)
    case Prepare(w) =>
      var p := Phase(s.workers, w);
      PrepareStep(s, w, p.id, p.upload, p.before)
    case AbortSession(w) =>
      var p := Phase(s.workers, w);
      AbortSessionStep(s, w, p.id, p.upload)
    case DeleteObject(w) =>
      var p := Phase(s.workers, w);
      DeleteObjectStep(s, w, p.id, p.upload)
    case Finish(w) =>
      var p := Phase(s.workers, w);
      FinishStep(s, w, p.id, p.upload)
    case Stop(w) => Go(s, w, Idle)
  }

  // ---------------------------------------------------------------------------------------------
  // The invariant
  // ---------------------------------------------------------------------------------------------

  ghost predicate UploadsOk(uploads: map<UploadId, Upload>, used: set<ObjectKey>) {
    && (forall u :: u in uploads ==>
          && uploads[u].objectKey in used && Managed(uploads[u].objectKey)
          && 0 < uploads[u].fileSize <= MAX_INT64 && uploads[u].session != "")
    && (forall u, v :: u in uploads && v in uploads && uploads[u].objectKey == uploads[v].objectKey ==> u == v)
  }

  predicate StatusMatches(v: VideoStatus, u: UploadStatus) {
    match v
    case Uploading => u == Pending
    case Ready => u == Promoted
    case Failed => u == Abandoned || u == Cleaned
  }

  ghost predicate Holds(uploads: map<UploadId, Upload>, u: UploadId, v: VideoId, video: Video) {
    && u in uploads && uploads[u].video == v && uploads[u].objectKey == video.objectKey
    && StatusMatches(video.status, uploads[u].status)
  }

  ghost predicate HasUpload(uploads: map<UploadId, Upload>, v: VideoId, video: Video) {
    exists u :: Holds(uploads, u, v, video)
  }

  /** A video's status says how the upload that holds its object key ended. */
  ghost predicate VideosOk(tables: Tables) {
    && (forall v :: v in tables.videos ==> HasUpload(tables.uploads, v, tables.videos[v]))
    && (forall v, w ::
          v in tables.videos && w in tables.videos && tables.videos[v].position == tables.videos[w].position ==>
            v == w)
  }

  /** A pending or promoted upload is the one its video points to. */
  ghost predicate CurrentOk(tables: Tables) {
    forall u :: u in tables.uploads && (tables.uploads[u].status == Pending || tables.uploads[u].status == Promoted) ==>
      && tables.uploads[u].video in tables.videos
      && tables.videos[tables.uploads[u].video].objectKey == tables.uploads[u].objectKey
  }

  ghost predicate StoredOk(u: Upload, storage: Storage) {
    && (u.objectKey in storage.objects ==> storage.objects[u.objectKey] == u.fileSize)
    && (u.objectKey in storage.sessions ==> storage.sessions[u.objectKey].id == u.session)
    && (u.status == Promoted ==> u.objectKey in storage.objects)
    && (u.status == Cleaned ==> u.objectKey !in storage.objects && u.objectKey !in storage.sessions)
  }

  ghost predicate StorageOk(uploads: map<UploadId, Upload>, storage: Storage, used: set<ObjectKey>) {
    && storage.sessions.Keys <= used && storage.objects.Keys <= used
    && forall u :: u in uploads ==> StoredOk(uploads[u], storage)
  }

  /** A worker's copy of a row differs from the row at most in the status. */
  ghost predicate CopyOf(u: Upload, id: UploadId, uploads: map<UploadId, Upload>) {
    id in uploads && uploads[id] == u.(status := uploads[id].status)
  }

  ghost predicate Unowned(key: ObjectKey, uploads: map<UploadId, Upload>) {
    forall u :: u in uploads ==> uploads[u].objectKey != key
  }

  ghost predicate Revoked(id: UploadId, uploads: map<UploadId, Upload>) {
    id in uploads && (uploads[id].status == Abandoned || uploads[id].status == Cleaned)
  }

  ghost predicate WorkerOk(p: Worker, uploads: map<UploadId, Upload>, storage: Storage, used: set<ObjectKey>) {
    match p
    case Idle => true
    case Starting(key, session, ask) =>
      && key in used && Managed(key) && Unowned(key, uploads) && key !in storage.objects
      && 0 < ask.fileSize <= MAX_INT64 && (key in storage.sessions ==> storage.sessions[key].id == session)
    case AbortingStart(_, _) => true
    case Listing(id, u) => CopyOf(u, id, uploads)
    case Merging(id, u, parts) => CopyOf(u, id, uploads) && Complete(parts, u.fileSize)
    case Statting(id, u) => CopyOf(u, id, uploads)
    case Promoting(id, u) => CopyOf(u, id, uploads) && (Revoked(id, uploads) || u.objectKey in storage.objects)
    case Preparing(id, u, _) => CopyOf(u, id, uploads)
    case Aborting(id, u) => CopyOf(u, id, uploads) && Revoked(id, uploads)
    case Deleting(id, u) => CopyOf(u, id, uploads) && Revoked(id, uploads) && u.objectKey !in storage.sessions
    case Finishing(id, u) =>
      && CopyOf(u, id, uploads) && Revoked(id, uploads)
      && u.objectKey !in storage.sessions && u.objectKey !in storage.objects
  }

  ghost predicate WorkersOk(
    workers: map<nat, Worker>, uploads: map<UploadId, Upload>, storage: Storage, used: set<ObjectKey>)
  {
    && (forall w :: w in workers ==> WorkerOk(workers[w], uploads, storage, used))
    && StartersDiffer(workers)
  }

  ghost predicate StartersDiffer(workers: map<nat, Worker>) {
    forall w, x :: w in workers && x in workers && w != x && workers[w].Starting? && workers[x].Starting? ==>
      workers[w].key != workers[x].key
  }

  ghost predicate Inv(s: Catalog) {
    && UploadsOk(s.tables.uploads, s.used)
    && VideosOk(s.tables)
    && CurrentOk(s.tables)
    && StorageOk(s.tables.uploads, s.storage, s.used)
    && WorkersOk(s.workers, s.tables.uploads, s.storage, s.used)
  }

  ghost predicate Init(s: Catalog) {
    && s.tables == Tables(map[], map[]) && s.storage == Storage(map[], map[]) && s.used == {} && s.workers == map[]
  }

  ghost predicate Next(s: Catalog, s': Catalog) {
    exists a: Action :: Enabled(s, a) && s' == Apply(s, a)
  }

  ghost predicate IsRun(run: seq<Catalog>) {
    && |run| > 0 && Init(run[0])
    && forall i :: 0 <= i < |run| - 1 ==> Next(run[i], run[i + 1])
  }

  ghost predicate Reachable(s: Catalog) {
    exists run :: IsRun(run) && run[|run| - 1] == s
  }

  // ---------------------------------------------------------------------------------------------
  // Every step keeps it
  // ---------------------------------------------------------------------------------------------

  lemma GoKeeps(s: Catalog, w: nat, p: Worker)
    requires Inv(s) && WorkerOk(p, s.tables.uploads, s.storage, s.used)
    requires p.Starting? ==> forall x :: x in s.workers && s.workers[x].Starting? ==> s.workers[x].key != p.key
    ensures Inv(Go(s, w, p))
  {
  }

  /** Only statuses moved, and an upload that lost its rights does not regain them. */
  ghost predicate RowsMoved(uploads: map<UploadId, Upload>, uploads': map<UploadId, Upload>) {
    && (forall u :: u in uploads ==>
          && u in uploads' && uploads'[u] == uploads[u].(status := uploads'[u].status)
          && (Revoked(u, uploads) ==> Revoked(u, uploads')))
  }

  lemma WorkersMoved(
    workers: map<nat, Worker>, uploads: map<UploadId, Upload>, uploads': map<UploadId, Upload>, storage: Storage,
    used: set<ObjectKey>)
    requires WorkersOk(workers, uploads, storage, used) && RowsMoved(uploads, uploads') && uploads'.Keys == uploads.Keys
    ensures WorkersOk(workers, uploads', storage, used)
  {
    forall w | w in workers ensures WorkerOk(workers[w], uploads', storage, used) {
      assert WorkerOk(workers[w], uploads, storage, used);
    }
  }

  // --- Starting --------------------------------------------------------------------------------

  lemma CreateSessionKeeps(s: Catalog, w: nat, key: ObjectKey, session: string, ask: Ask)
    requires Inv(s) && key !in s.used && Managed(key) && IsInt64(s.maxSize) && ValidSize(s.maxSize, ask.fileSize)
    ensures Inv(CreateSessionStep(s, w, key, session, ask))
  {
    var storage' := s.storage.(sessions := s.storage.sessions[key := Session(session, [])]);
    var s' := s.(used := s.used + {key}, storage := storage');
    forall x | x in s.workers ensures WorkerOk(s.workers[x], s.tables.uploads, storage', s'.used) {
      assert WorkerOk(s.workers[x], s.tables.uploads, s.storage, s.used);
    }
    assert Inv(s');
    if 0 < PartCount(ask.fileSize) <= MAX_PART_NUMBER {
      GoKeeps(s', w, Starting(key, session, ask));
    } else {
      GoKeeps(s', w, AbortingStart(key, session));
    }
  }

  lemma InsertUploads(uploads: map<UploadId, Upload>, used: set<ObjectKey>, id: UploadId, video: VideoId, u: Upload)
    requires UploadsOk(uploads, used) && id !in uploads && Unowned(u.objectKey, uploads)
    requires u.objectKey in used && Managed(u.objectKey) && 0 < u.fileSize <= MAX_INT64 && u.session != ""
    ensures UploadsOk(FailPending(uploads, video)[id := u], used)
  {
  }

  lemma InsertVideos(tables: Tables, id: UploadId, video: VideoId, row: Video, u: Upload, used: set<ObjectKey>)
    requires VideosOk(tables) && CurrentOk(tables) && UploadsOk(tables.uploads, used) && id !in tables.uploads
    requires u.video == video && u.status == Pending && row.objectKey == u.objectKey && row.status == Uploading
    requires Unowned(u.objectKey, tables.uploads)
    requires video in tables.videos ==>
               tables.videos[video].position == row.position && tables.videos[video].status != Ready
    requires video !in tables.videos ==> forall v :: v in tables.videos ==> tables.videos[v].position != row.position
    ensures VideosOk(Tables(tables.videos[video := row], FailPending(tables.uploads, video)[id := u]))
  {
    var uploads' := FailPending(tables.uploads, video)[id := u];
    var videos' := tables.videos[video := row];
    forall v | v in videos' ensures HasUpload(uploads', v, videos'[v]) {
      if v == video {
        assert Holds(uploads', id, v, videos'[v]);
      } else {
        assert HasUpload(tables.uploads, v, tables.videos[v]);
        var x :| Holds(tables.uploads, x, v, tables.videos[v]);
        assert Holds(uploads', x, v, videos'[v]);
      }
    }
  }

  lemma InsertCurrent(tables: Tables, id: UploadId, video: VideoId, row: Video, u: Upload)
    requires VideosOk(tables) && CurrentOk(tables) && id !in tables.uploads
    requires u.video == video && row.objectKey == u.objectKey
    requires video in tables.videos ==> tables.videos[video].status != Ready
    requires forall x, y :: x in tables.uploads && y in tables.uploads && x != y ==>
               tables.uploads[x].objectKey != tables.uploads[y].objectKey
    ensures CurrentOk(Tables(tables.videos[video := row], FailPending(tables.uploads, video)[id := u]))
  {
    var t := Tables(tables.videos[video := row], FailPending(tables.uploads, video)[id := u]);
    forall x | x in t.uploads && x != id && (t.uploads[x].status == Pending || t.uploads[x].status == Promoted)
      ensures t.uploads[x].video in t.videos && t.videos[t.uploads[x].video].objectKey == t.uploads[x].objectKey
    {
      assert t.uploads[x] == tables.uploads[x];
      var v := tables.uploads[x].video;
      assert HasUpload(tables.uploads, v, tables.videos[v]);
      var y :| Holds(tables.uploads, y, v, tables.videos[v]);
      assert x == y;
    }
  }

  lemma InsertStored(
    uploads: map<UploadId, Upload>, storage: Storage, used: set<ObjectKey>, id: UploadId, video: VideoId, u: Upload)
    requires StorageOk(uploads, storage, used) && id !in uploads && u.status == Pending
    requires u.objectKey !in storage.objects
    requires u.objectKey in storage.sessions ==> storage.sessions[u.objectKey].id == u.session
    ensures StorageOk(FailPending(uploads, video)[id := u], storage, used)
  {
    var uploads' := FailPending(uploads, video)[id := u];
    forall x | x in uploads' ensures StoredOk(uploads'[x], storage) {
      if x != id {
        assert StoredOk(uploads[x], storage);
      }
    }
  }

  lemma InsertWorkers(
    workers: map<nat, Worker>, uploads: map<UploadId, Upload>, storage: Storage, used: set<ObjectKey>, id: UploadId,
    video: VideoId, u: Upload, w: nat, p: Worker)
    requires WorkersOk(workers, uploads, storage, used) && id !in uploads && (p.Idle? || p.AbortingStart?)
    requires w in workers && workers[w].Starting? && workers[w].key == u.objectKey
    ensures WorkersOk(workers[w := p], FailPending(uploads, video)[id := u], storage, used)
  {
    var uploads', workers' := FailPending(uploads, video)[id := u], workers[w := p];
    forall x | x in workers' ensures WorkerOk(workers'[x], uploads', storage, used) {
      if x != w {
        assert WorkerOk(workers[x], uploads, storage, used);
      }
    }
  }

  lemma InsertKeeps(s: Catalog, w: nat, id: UploadId, video: VideoId, row: Video, u: Upload, p: Worker)
    requires Inv(s) && w in s.workers && s.workers[w].Starting? && s.workers[w].key == u.objectKey
    requires s.workers[w].session == u.session && s.workers[w].ask.fileSize == u.fileSize
    requires u.video == video && u.status == Pending && row.objectKey == u.objectKey && row.status == Uploading
    requires u.session != "" && (p.Idle? || p.AbortingStart?) && id !in s.tables.uploads
    requires video in s.tables.videos ==>
               s.tables.videos[video].position == row.position && s.tables.videos[video].status != Ready
    requires video !in s.tables.videos ==>
               forall v :: v in s.tables.videos ==> s.tables.videos[v].position != row.position
    ensures Inv(s.(tables := Tables(s.tables.videos[video := row], FailPending(s.tables.uploads, video)[id := u]),
                   workers := s.workers[w := p]))
  {
    assert WorkerOk(s.workers[w], s.tables.uploads, s.storage, s.used);
    InsertUploads(s.tables.uploads, s.used, id, video, u);
    InsertVideos(s.tables, id, video, row, u, s.used);
    InsertCurrent(s.tables, id, video, row, u);
    InsertStored(s.tables.uploads, s.storage, s.used, id, video, u);
    InsertWorkers(s.workers, s.tables.uploads, s.storage, s.used, id, video, u, w, p);
  }

  lemma CommitStartKeeps(
    s: Catalog, w: nat, existing: Option<VideoId>, video: VideoId, upload: UploadId, expiresAt: int, lost: bool)
    requires Inv(s) && w in s.workers && s.workers[w].Starting?
    requires FreshPosition(s.tables.videos, existing, s.workers[w].ask.position)
    requires video !in s.tables.videos && upload !in s.tables.uploads
    ensures var p := s.workers[w];
            Inv(CommitStartStep(s, w, existing, video, upload, expiresAt, lost, p.key, p.session, p.ask))
  {
    hide Inv, FailPending, Managed;
    var p := s.workers[w];
    var started := StartUpload(s.tables, existing, video, upload, p.ask.position, p.ask.title, p.key, p.session,
                               p.ask.fileSize, expiresAt);
    if started.Err? {
      GoKeeps(s, w, AbortingStart(p.key, p.session));
    } else {
      var v := if existing.Some? then existing.value else video;
      var row := if existing.Some? then RestartVideo(s.tables.videos[v], p.ask.title, p.key).value
                 else NewVideo(p.ask.position, p.ask.title, p.key).value;
      assert Blank("");
      InsertKeeps(s, w, upload, v, row, NewUpload(v, p.key, p.session, p.ask.fileSize, expiresAt).value,
                  if lost then AbortingStart(p.key, p.session) else Idle);
    }
  }

  // --- Storage calls ---------------------------------------------------------------------------

  lemma FewerSessionsKeep(s: Catalog, key: ObjectKey)
    requires Inv(s)
    ensures Inv(s.(storage := s.storage.(sessions := s.storage.sessions - {key})))
  {
    var storage' := s.storage.(sessions := s.storage.sessions - {key});
    forall x | x in s.workers ensures WorkerOk(s.workers[x], s.tables.uploads, storage', s.used) {
      assert WorkerOk(s.workers[x], s.tables.uploads, s.storage, s.used);
    }
    forall u | u in s.tables.uploads ensures StoredOk(s.tables.uploads[u], storage') {
      assert StoredOk(s.tables.uploads[u], s.storage);
    }
  }

  lemma AbortKeeps(s: Catalog, key: ObjectKey, session: string)
    requires Inv(s)
    ensures Inv(s.(storage := Abort(s.storage, key, session)))
  {
    hide Inv;
    if Found(s.storage.sessions, key, session) {
      FewerSessionsKeep(s, key);
    }
  }

  lemma PutPartsKeeps(s: Catalog, key: ObjectKey, parts: seq<Part>)
    requires Inv(s) && key in s.storage.sessions
    ensures var sessions := s.storage.sessions[key := Session(s.storage.sessions[key].id, parts)];
            Inv(s.(storage := s.storage.(sessions := sessions)))
  {
    var storage' := s.storage.(sessions := s.storage.sessions[key := Session(s.storage.sessions[key].id, parts)]);
    forall x | x in s.workers ensures WorkerOk(s.workers[x], s.tables.uploads, storage', s.used) {
      assert WorkerOk(s.workers[x], s.tables.uploads, s.storage, s.used);
    }
    forall u | u in s.tables.uploads ensures StoredOk(s.tables.uploads[u], storage') {
      assert StoredOk(s.tables.uploads[u], s.storage);
    }
  }

  /** Joining the listed parts creates an object of exactly the declared size. */
  lemma MergedKeeps(s: Catalog, id: UploadId, key: ObjectKey, size: int)
    requires Inv(s) && id in s.tables.uploads && s.tables.uploads[id].objectKey == key
    requires key in s.storage.sessions && size == s.tables.uploads[id].fileSize
    ensures Inv(s.(storage := Storage(s.storage.sessions - {key}, s.storage.objects[key := size])))
  {
    var storage' := Storage(s.storage.sessions - {key}, s.storage.objects[key := size]);
    assert key in s.used;
    forall x | x in s.workers ensures WorkerOk(s.workers[x], s.tables.uploads, storage', s.used) {
      assert WorkerOk(s.workers[x], s.tables.uploads, s.storage, s.used);
    }
    forall u | u in s.tables.uploads ensures StoredOk(s.tables.uploads[u], storage') {
      assert StoredOk(s.tables.uploads[u], s.storage);
    }
  }

  lemma MergeKeeps(s: Catalog, w: nat)
    requires Inv(s) && w in s.workers && s.workers[w].Merging?
    ensures var p := s.workers[w]; Inv(MergeStep(s, w, p.id, p.upload, p.parts))
  {
    var p := s.workers[w];
    assert WorkerOk(p, s.tables.uploads, s.storage, s.used);
    assert IsInt64(p.upload.fileSize);
    hide Inv;
    if !Found(s.storage.sessions, p.upload.objectKey, p.upload.session) {
      GoKeeps(s, w, Statting(p.id, p.upload));
    } else if exists q :: q in p.parts && q !in s.storage.sessions[p.upload.objectKey].parts {
      GoKeeps(s, w, Idle);
    } else {
      CompleteParts(p.parts, p.upload.fileSize);
      MergedKeeps(s, p.id, p.upload.objectKey, TotalSize(p.parts));
      var storage := Storage(s.storage.sessions - {p.upload.objectKey},
                             s.storage.objects[p.upload.objectKey := TotalSize(p.parts)]);
      GoKeeps(s.(storage := storage), w, Statting(p.id, p.upload));
    }
  }

  /** Deleting touches only the object of an upload that can no longer be promoted. */
  lemma DeletedKeeps(s: Catalog, id: UploadId, key: ObjectKey)
    requires Inv(s) && Revoked(id, s.tables.uploads) && s.tables.uploads[id].objectKey == key
    ensures Inv(s.(storage := s.storage.(objects := s.storage.objects - {key})))
  {
    var storage' := s.storage.(objects := s.storage.objects - {key});
    forall x | x in s.workers ensures WorkerOk(s.workers[x], s.tables.uploads, storage', s.used) {
      assert WorkerOk(s.workers[x], s.tables.uploads, s.storage, s.used);
    }
    forall u | u in s.tables.uploads ensures StoredOk(s.tables.uploads[u], storage') {
      assert StoredOk(s.tables.uploads[u], s.storage);
    }
  }

  // --- Transactions over existing rows ---------------------------------------------------------

  lemma MovedUploads(uploads: map<UploadId, Upload>, id: UploadId, status: UploadStatus, used: set<ObjectKey>)
    requires UploadsOk(uploads, used) && id in uploads
    ensures UploadsOk(uploads[id := uploads[id].(status := status)], used)
  {
  }

  lemma MovedVideos(tables: Tables, id: UploadId, status: UploadStatus, v: VideoId, row: Video)
    requires VideosOk(tables) && id in tables.uploads && v == tables.uploads[id].video && v in tables.videos
    requires tables.videos[v].objectKey == tables.uploads[id].objectKey
    requires row == tables.videos[v].(status := row.status, durationMs := row.durationMs)
    requires StatusMatches(row.status, status)
    ensures VideosOk(Tables(tables.videos[v := row], tables.uploads[id := tables.uploads[id].(status := status)]))
  {
    var t := Tables(tables.videos[v := row], tables.uploads[id := tables.uploads[id].(status := status)]);
    forall x | x in t.videos ensures HasUpload(t.uploads, x, t.videos[x]) {
      if x == v {
        assert Holds(t.uploads, id, x, t.videos[x]);
      } else {
        assert HasUpload(tables.uploads, x, tables.videos[x]);
        var u :| Holds(tables.uploads, u, x, tables.videos[x]);
        assert Holds(t.uploads, u, x, t.videos[x]);
      }
    }
  }

  lemma MovedCurrent(tables: Tables, id: UploadId, status: UploadStatus, v: VideoId, row: Video)
    requires CurrentOk(tables) && id in tables.uploads && v == tables.uploads[id].video && v in tables.videos
    requires tables.videos[v].objectKey == tables.uploads[id].objectKey == row.objectKey
    ensures CurrentOk(Tables(tables.videos[v := row], tables.uploads[id := tables.uploads[id].(status := status)]))
  {
  }

  lemma MovedStored(
    uploads: map<UploadId, Upload>, storage: Storage, used: set<ObjectKey>, id: UploadId, status: UploadStatus)
    requires StorageOk(uploads, storage, used) && id in uploads
    requires status == Promoted ==> uploads[id].objectKey in storage.objects
    requires status == Cleaned ==>
               uploads[id].objectKey !in storage.objects && uploads[id].objectKey !in storage.sessions
    ensures StorageOk(uploads[id := uploads[id].(status := status)], storage, used)
  {
    assert StoredOk(uploads[id], storage);
  }

  /** The upload that holds its video's key moves together with the video. */
  lemma MovedKeeps(s: Catalog, id: UploadId, status: UploadStatus, v: VideoId, row: Video)
    requires Inv(s) && id in s.tables.uploads && v == s.tables.uploads[id].video && v in s.tables.videos
    requires s.tables.videos[v].objectKey == s.tables.uploads[id].objectKey
    requires row == s.tables.videos[v].(status := row.status, durationMs := row.durationMs)
    requires StatusMatches(row.status, status)
    requires status == Promoted ==> s.tables.uploads[id].objectKey in s.storage.objects
    requires status == Cleaned ==>
               s.tables.uploads[id].objectKey !in s.storage.objects
                 && s.tables.uploads[id].objectKey !in s.storage.sessions
    requires Revoked(id, s.tables.uploads) ==> status == Abandoned || status == Cleaned
    ensures Inv(s.(tables := Tables(s.tables.videos[v := row],
                                    s.tables.uploads[id := s.tables.uploads[id].(status := status)])))
  {
    var uploads' := s.tables.uploads[id := s.tables.uploads[id].(status := status)];
    MovedUploads(s.tables.uploads, id, status, s.used);
    MovedVideos(s.tables, id, status, v, row);
    MovedCurrent(s.tables, id, status, v, row);
    MovedStored(s.tables.uploads, s.storage, s.used, id, status);
    WorkersMoved(s.workers, s.tables.uploads, uploads', s.storage, s.used);
  }

  /** An upload that its video no longer points to moves alone. */
  lemma MovedAlone(s: Catalog, id: UploadId, status: UploadStatus)
    requires Inv(s) && Revoked(id, s.tables.uploads) && (status == Abandoned || status == Cleaned)
    requires status == Cleaned ==>
               s.tables.uploads[id].objectKey !in s.storage.objects
                 && s.tables.uploads[id].objectKey !in s.storage.sessions
    ensures Inv(s.(tables := s.tables.(uploads := s.tables.uploads[id := s.tables.uploads[id].(status := status)])))
  {
    var uploads' := s.tables.uploads[id := s.tables.uploads[id].(status := status)];
    MovedUploads(s.tables.uploads, id, status, s.used);
    MovedStored(s.tables.uploads, s.storage, s.used, id, status);
    WorkersMoved(s.workers, s.tables.uploads, uploads', s.storage, s.used);
    hide WorkersOk, StorageOk, UploadsOk;
    RevokedVideos(s.tables, id, status);
  }

  lemma RevokedVideos(tables: Tables, id: UploadId, status: UploadStatus)
    requires VideosOk(tables) && CurrentOk(tables) && Revoked(id, tables.uploads)
    requires status == Abandoned || status == Cleaned
    ensures var t := tables.(uploads := tables.uploads[id := tables.uploads[id].(status := status)]);
            VideosOk(t) && CurrentOk(t)
  {
    var t := tables.(uploads := tables.uploads[id := tables.uploads[id].(status := status)]);
    forall x | x in t.videos ensures HasUpload(t.uploads, x, t.videos[x]) {
      assert HasUpload(tables.uploads, x, tables.videos[x]);
      var u :| Holds(tables.uploads, u, x, tables.videos[x]);
      assert Holds(t.uploads, u, x, t.videos[x]);
    }
  }

  lemma PromoteKeeps(s: Catalog, w: nat, durationMs: Option<nat>)
    requires Inv(s) && w in s.workers && s.workers[w].Promoting?
    ensures var p := s.workers[w]; Inv(PromoteStep(s, w, p.id, p.upload, durationMs))
  {
    var p := s.workers[w];
    assert WorkerOk(p, s.tables.uploads, s.storage, s.used);
    hide Inv;
    var v := p.upload.video;
    var done := CompleteUpload(s.tables, p.id, v, durationMs);
    if done.Ok? && s.tables.uploads[p.id].status != Promoted {
      MovedKeeps(s, p.id, Promoted, v, CompleteVideo(s.tables.videos[v], durationMs).value);
      GoKeeps(s.(tables := done.value), w, Idle);
    } else {
      GoKeeps(s, w, Idle);
    }
  }

  /** The status of the upload that holds a video's key. */
  lemma HolderStatus(s: Catalog, id: UploadId, v: VideoId)
    requires Inv(s) && id in s.tables.uploads && v in s.tables.videos
    requires s.tables.videos[v].objectKey == s.tables.uploads[id].objectKey
    ensures s.tables.uploads[id].video == v && StatusMatches(s.tables.videos[v].status, s.tables.uploads[id].status)
  {
    assert HasUpload(s.tables.uploads, v, s.tables.videos[v]);
    var u :| Holds(s.tables.uploads, u, v, s.tables.videos[v]);
    assert u == id;
  }

  /** A pending upload is the holder of its video's key. */
  lemma PendingHolds(s: Catalog, id: UploadId)
    requires Inv(s) && id in s.tables.uploads && s.tables.uploads[id].status == Pending
    ensures var v := s.tables.uploads[id].video;
            v in s.tables.videos && s.tables.videos[v].objectKey == s.tables.uploads[id].objectKey
  {
  }

  /** The cleanup transaction never meets a ready video. */
  lemma PlanNeverInUse(s: Catalog, id: UploadId, before: int)
    requires Inv(s) && id in s.tables.uploads
    ensures PlanCleanup(s.tables, id, s.tables.uploads[id].video, before) != Err(ObjectStillInUse)
  {
    var v := s.tables.uploads[id].video;
    if v in s.tables.videos && s.tables.videos[v].objectKey == s.tables.uploads[id].objectKey {
      HolderStatus(s, id, v);
    }
  }

  lemma PlannedTables(s: Catalog, id: UploadId, before: int)
    requires Inv(s) && id in s.tables.uploads
    ensures var plan := PlanCleanup(s.tables, id, s.tables.uploads[id].video, before);
            plan.Ok? ==>
              && Inv(s.(tables := plan.value.tables))
              && (plan.value.target.None? ==> plan.value.tables == s.tables)
              && (plan.value.target.Some? ==>
                    && plan.value.target.value == s.tables.uploads[id]
                    && Revoked(id, plan.value.tables.uploads)
                    && CopyOf(s.tables.uploads[id], id, plan.value.tables.uploads))
  {
    var u := s.tables.uploads[id];
    var v := u.video;
    var plan := PlanCleanup(s.tables, id, v, before);
    if plan.Ok? && plan.value.target.Some? {
      if u.status == Pending {
        PendingHolds(s, id);
        HolderStatus(s, id, v);
        hide Inv;
        MovedKeeps(s, id, Abandoned, v, s.tables.videos[v].(status := Failed));
      } else {
        if v in s.tables.videos && s.tables.videos[v].objectKey == u.objectKey {
          HolderStatus(s, id, v);
        }
        hide Inv;
        MovedAlone(s, id, Abandoned);
        assert plan.value.tables.videos == s.tables.videos;
      }
    }
  }

  lemma PrepareKeeps(s: Catalog, w: nat)
    requires Inv(s) && w in s.workers && s.workers[w].Preparing?
    ensures var p := s.workers[w]; Inv(PrepareStep(s, w, p.id, p.upload, p.before))
  {
    var p := s.workers[w];
    assert WorkerOk(p, s.tables.uploads, s.storage, s.used);
    assert p.upload.session != "";
    PlannedTables(s, p.id, p.before);
    hide Inv, PlanCleanup;
    var plan := PlanCleanup(s.tables, p.id, p.upload.video, p.before);
    if plan.Ok? && plan.value.target.Some? {
      GoKeeps(s.(tables := plan.value.tables), w, Aborting(p.id, plan.value.target.value));
    } else {
      GoKeeps(s, w, Idle);
    }
  }

  lemma AbortSessionKeeps(s: Catalog, w: nat)
    requires Inv(s) && w in s.workers && s.workers[w].Aborting?
    ensures var p := s.workers[w]; Inv(AbortSessionStep(s, w, p.id, p.upload))
  {
    var p := s.workers[w];
    assert WorkerOk(p, s.tables.uploads, s.storage, s.used);
    assert StoredOk(s.tables.uploads[p.id], s.storage);
    hide Inv;
    AbortKeeps(s, p.upload.objectKey, p.upload.session);
    GoKeeps(s.(storage := Abort(s.storage, p.upload.objectKey, p.upload.session)), w, Deleting(p.id, p.upload));
  }

  lemma DeleteObjectKeeps(s: Catalog, w: nat)
    requires Inv(s) && w in s.workers && s.workers[w].Deleting?
    ensures var p := s.workers[w]; Inv(DeleteObjectStep(s, w, p.id, p.upload))
  {
    var p := s.workers[w];
    assert WorkerOk(p, s.tables.uploads, s.storage, s.used);
    hide Inv;
    DeletedKeeps(s, p.id, p.upload.objectKey);
    var storage' := s.storage.(objects := s.storage.objects - {p.upload.objectKey});
    GoKeeps(s.(storage := storage'), w, Finishing(p.id, p.upload));
  }

  lemma FinishKeeps(s: Catalog, w: nat)
    requires Inv(s) && w in s.workers && s.workers[w].Finishing?
    ensures var p := s.workers[w]; Inv(FinishStep(s, w, p.id, p.upload))
  {
    var p := s.workers[w];
    assert WorkerOk(p, s.tables.uploads, s.storage, s.used);
    hide Inv;
    var uploads := s.tables.uploads;
    if uploads[p.id].status == Cleaned {
      assert uploads[p.id := uploads[p.id]] == uploads;
      GoKeeps(s, w, Idle);
    } else {
      MovedAlone(s, p.id, Cleaned);
      GoKeeps(s.(tables := s.tables.(uploads := uploads[p.id := uploads[p.id].(status := Cleaned)])), w, Idle);
    }
  }

  lemma PhaseOk(s: Catalog, w: nat)
    requires Inv(s)
    ensures WorkerOk(Phase(s.workers, w), s.tables.uploads, s.storage, s.used)
  {
  }

  lemma WorkStepKeeps(s: Catalog, a: Action)
    requires Inv(s) && Enabled(s, a)
    requires a.ReadForComplete? || a.ListParts? || a.Merge? || a.Stat? || a.Promote? || a.Stop? || a.RefuseStart?
    ensures Inv(Apply(s, a))
  {
    hide Inv, CompleteUpload, Complete;
    PhaseOk(s, a.w);
    var p := Phase(s.workers, a.w);
    match a {
      case RefuseStart(w) => GoKeeps(s, w, AbortingStart(p.key, p.session));
      case ReadForComplete(w, id) => GoKeeps(s, w, Listing(id, s.tables.uploads[id]));
      case ListParts(w) =>
        if !Found(s.storage.sessions, p.upload.objectKey, p.upload.session) {
          GoKeeps(s, w, Statting(p.id, p.upload));
        } else if Complete(s.storage.sessions[p.upload.objectKey].parts, p.upload.fileSize) {
          GoKeeps(s, w, Merging(p.id, p.upload, s.storage.sessions[p.upload.objectKey].parts));
        } else {
          GoKeeps(s, w, Idle);
        }
      case Merge(w) => MergeKeeps(s, w);
      case Stat(w) =>
        if p.upload.objectKey in s.storage.objects {
          GoKeeps(s, w, Promoting(p.id, p.upload));
        }
        GoKeeps(s, w, Idle);
      case Promote(w, durationMs) => PromoteKeeps(s, w, durationMs);
      case Stop(w) => GoKeeps(s, w, Idle);
    }
  }

  /** The invariant is inductive. */
  lemma StepKeeps(s: Catalog, a: Action)
    requires Inv(s) && Enabled(s, a)
    ensures Inv(Apply(s, a))
  {
    hide Inv, CommitStartStep, CreateSessionStep, PrepareStep, AbortSessionStep, DeleteObjectStep, FinishStep, Abort;
    match a {
      case CreateSession(w, key, session, ask) => CreateSessionKeeps(s, w, key, session, ask);
      case CommitStart(w, existing, video, upload, expiresAt, lost) =>
        CommitStartKeeps(s, w, existing, video, upload, expiresAt, lost);
      case AbortStart(w) =>
        var p := Phase(s.workers, w);
        AbortKeeps(s, p.key, p.session);
        GoKeeps(s.(storage := Abort(s.storage, p.key, p.session)), w, Idle);
      case PutParts(key, parts) => PutPartsKeeps(s, key, parts);
      case ReadForCleanup(w, id, before) =>
        GoKeeps(s, w, Preparing(id, s.tables.uploads[id], before));
      case Prepare(w) => PrepareKeeps(s, w);
      case AbortSession(w) => AbortSessionKeeps(s, w);
      case DeleteObject(w) => DeleteObjectKeeps(s, w);
      case Finish(w) => FinishKeeps(s, w);
      case RefuseStart(_) => WorkStepKeeps(s, a);
      case ReadForComplete(_, _) => WorkStepKeeps(s, a);
      case ListParts(_) => WorkStepKeeps(s, a);
      case Merge(_) => WorkStepKeeps(s, a);
      case Stat(_) => WorkStepKeeps(s, a);
      case Promote(_, _) => WorkStepKeeps(s, a);
      case Stop(_) => WorkStepKeeps(s, a);
    }
  }

  lemma {:induction false} RunKeeps(run: seq<Catalog>, n: nat)
    requires IsRun(run) && n < |run|
    ensures Inv(run[n])
  {
    hide Enabled, Apply;
    if n > 0 {
      hide Inv;
      RunKeeps(run, n - 1);
      assert Next(run[n - 1], run[n - 1 + 1]);
      var a: Action :| Enabled(run[n - 1], a) && run[n] == Apply(run[n - 1], a);
      StepKeeps(run[n - 1], a);
    }
  }

  lemma ReachableKeeps(s: Catalog)
    requires Reachable(s)
    ensures Inv(s)
  {
    hide Inv, Init, Next;
    var run :| IsRun(run) && run[|run| - 1] == s;
    RunKeeps(run, |run| - 1);
  }

  // ---------------------------------------------------------------------------------------------
  // What holds in every run
  // ---------------------------------------------------------------------------------------------

  /** A video is uploading, ready or failed exactly as the upload holding its key is pending, promoted or given up. */
  lemma VideoStatusMeans(s: Catalog, v: VideoId) returns (u: UploadId)
    requires Reachable(s) && v in s.tables.videos
    ensures u in s.tables.uploads && s.tables.uploads[u].video == v
    ensures forall x ::
              x in s.tables.uploads && s.tables.uploads[x].objectKey == s.tables.videos[v].objectKey <==> x == u
    ensures s.tables.videos[v].status == Uploading <==> s.tables.uploads[u].status == Pending
    ensures s.tables.videos[v].status == Ready <==> s.tables.uploads[u].status == Promoted
    ensures s.tables.videos[v].status == Failed <==>
            s.tables.uploads[u].status == Abandoned || s.tables.uploads[u].status == Cleaned
  {
    ReachableKeeps(s);
    assert HasUpload(s.tables.uploads, v, s.tables.videos[v]);
    u :| Holds(s.tables.uploads, u, v, s.tables.videos[v]);
  }

  /** A ready video's object is in storage and has the size that was declared for its upload. */
  lemma ReadyHasObject(s: Catalog, v: VideoId) returns (u: UploadId)
    requires Reachable(s) && v in s.tables.videos && s.tables.videos[v].status == Ready
    ensures u in s.tables.uploads && s.tables.uploads[u].objectKey == s.tables.videos[v].objectKey
    ensures s.tables.videos[v].objectKey in s.storage.objects
    ensures s.storage.objects[s.tables.videos[v].objectKey] == s.tables.uploads[u].fileSize
  {
    u := VideoStatusMeans(s, v);
    ReachableKeeps(s);
    assert StoredOk(s.tables.uploads[u], s.storage);
  }

  /** At most one upload of a video is pending, and none while the video is ready. */
  lemma OnePending(s: Catalog, a: UploadId, b: UploadId)
    requires Reachable(s) && a in s.tables.uploads && b in s.tables.uploads
    requires s.tables.uploads[a].video == s.tables.uploads[b].video && s.tables.uploads[a].status == Pending
    ensures s.tables.uploads[b].status == Pending || s.tables.uploads[b].status == Promoted ==> a == b
  {
    ReachableKeeps(s);
  }

  /** No cleanup is ever refused because a ready video uses the object. */
  lemma StillInUseUnreachable(s: Catalog, w: nat)
    requires Reachable(s) && Phase(s.workers, w).Preparing?
    ensures var p := Phase(s.workers, w);
            PlanCleanup(s.tables, p.id, p.upload.video, p.before) != Err(ObjectStillInUse)
  {
    ReachableKeeps(s);
    PhaseOk(s, w);
    hide Inv;
    PlanNeverInUse(s, Phase(s.workers, w).id, Phase(s.workers, w).before);
  }

  /** A cleaned upload leaves neither an object nor an open session behind. */
  lemma CleanedLeavesNothing(s: Catalog, u: UploadId)
    requires Reachable(s) && u in s.tables.uploads && s.tables.uploads[u].status == Cleaned
    ensures s.tables.uploads[u].objectKey !in s.storage.objects
    ensures s.tables.uploads[u].objectKey !in s.storage.sessions
  {
    ReachableKeeps(s);
    assert StoredOk(s.tables.uploads[u], s.storage);
  }

  /** Ready is final: no step moves a ready video, changes its key or deletes its object. */
  lemma ReadyStaysReady(s: Catalog, a: Action, v: VideoId)
    requires Reachable(s) && Enabled(s, a) && v in s.tables.videos && s.tables.videos[v].status == Ready
    ensures v in Apply(s, a).tables.videos && Apply(s, a).tables.videos[v] == s.tables.videos[v]
    ensures s.tables.videos[v].objectKey in Apply(s, a).storage.objects
  {
    ReachableKeeps(s);
    ReadyRowStays(s, a, v);
    StepKeeps(s, a);
    var s' := Apply(s, a);
    assert HasUpload(s'.tables.uploads, v, s'.tables.videos[v])
           && StorageOk(s'.tables.uploads, s'.storage, s'.used) by {
      hide Enabled, Apply;
    }
    hide Inv, Apply, Enabled;
    var u :| Holds(s'.tables.uploads, u, v, s'.tables.videos[v]);
    assert StoredOk(s'.tables.uploads[u], s'.storage);
  }

  lemma ReadyRowStays(s: Catalog, a: Action, v: VideoId)
    requires Inv(s) && Enabled(s, a) && v in s.tables.videos && s.tables.videos[v].status == Ready
    ensures v in Apply(s, a).tables.videos && Apply(s, a).tables.videos[v] == s.tables.videos[v]
  {
    hide Inv, Complete, PlanCleanup, StartUpload, CompleteUpload;
    match a {
      case Prepare(w) =>
        PhaseOk(s, w);
        PlannedReady(s, Phase(s.workers, w).id, Phase(s.workers, w).before, v);
      case CommitStart(w, existing, video, upload, expiresAt, _) =>
        StartedReady(s.tables, existing, video, upload, Phase(s.workers, w).ask, Phase(s.workers, w).key,
                     Phase(s.workers, w).session, expiresAt, v);
      case Promote(w, durationMs) =>
        PromotedReady(s.tables, Phase(s.workers, w).id, Phase(s.workers, w).upload.video, durationMs, v);
      case _ =>
    }
  }

  lemma StartedReady(
    tables: Tables, existing: Option<VideoId>, video: VideoId, upload: UploadId, ask: Ask, key: ObjectKey,
    session: string, expiresAt: int, v: VideoId)
    requires (existing.Some? ==> existing.value in tables.videos) && video !in tables.videos
    requires v in tables.videos && tables.videos[v].status == Ready
    ensures var started := StartUpload(tables, existing, video, upload, ask.position, ask.title, key, session,
                                       ask.fileSize, expiresAt);
            started.Ok? ==> v in started.value.videos && started.value.videos[v] == tables.videos[v]
  {
  }

  lemma PromotedReady(tables: Tables, id: UploadId, video: VideoId, durationMs: Option<nat>, v: VideoId)
    requires v in tables.videos && tables.videos[v].status == Ready
    ensures var done := CompleteUpload(tables, id, video, durationMs);
            done.Ok? ==> v in done.value.videos && done.value.videos[v] == tables.videos[v]
  {
  }

  lemma PlannedReady(s: Catalog, id: UploadId, before: int, v: VideoId)
    requires Inv(s) && id in s.tables.uploads && v in s.tables.videos && s.tables.videos[v].status == Ready
    ensures var plan := PlanCleanup(s.tables, id, s.tables.uploads[id].video, before);
            plan.Ok? ==> v in plan.value.tables.videos && plan.value.tables.videos[v] == s.tables.videos[v]
  {
  }

  /** Once ready, a video keeps its row and its object for the rest of every run. */
  lemma {:induction false} ReadyForever(run: seq<Catalog>, i: nat, j: nat, v: VideoId)
    requires IsRun(run) && i <= j < |run|
    requires v in run[i].tables.videos && run[i].tables.videos[v].status == Ready
    ensures v in run[j].tables.videos && run[j].tables.videos[v] == run[i].tables.videos[v]
    ensures run[i].tables.videos[v].objectKey in run[j].storage.objects
    decreases j
  {
    hide Enabled, Apply, Inv;
    assert IsRun(run[..j + 1]) && run[..j + 1][j] == run[j];
    assert Reachable(run[j]);
    if i == j {
      var u := ReadyHasObject(run[j], v);
    } else {
      ReadyForever(run, i, j - 1, v);
      assert IsRun(run[..j]) && run[..j][j - 1] == run[j - 1];
      assert Reachable(run[j - 1]);
      assert Next(run[j - 1], run[j - 1 + 1]);
      var a: Action :| Enabled(run[j - 1], a) && run[j] == Apply(run[j - 1], a);
      ReadyStaysReady(run[j - 1], a, v);
    }
  }
}

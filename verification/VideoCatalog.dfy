/** Course videos and their upload attempts: the two row state machines and the transactions over them. */
module VideoCatalog {
  import opened Types

  type VideoId = nat
  type UploadId = nat
  type ObjectKey = string

  datatype VideoKind = Preview | Lesson

  datatype VideoStatus = Uploading | Ready | Failed

  datatype UploadStatus = Pending | Promoted | Abandoned | Cleaned

  /** A slot of a course: the database keeps at most one video per position. */
  datatype Position = Position(course: nat, kind: VideoKind, sortOrder: nat)

  datatype Video = Video(position: Position, objectKey: ObjectKey, status: VideoStatus, durationMs: Option<nat>)

  /** One attempt to upload a video, with an object key of its own. `Abandoned` is the row status "failed". */
  datatype Upload = Upload(
    video: VideoId, objectKey: ObjectKey, session: string, fileSize: int, status: UploadStatus, expiresAt: int)

  datatype VideoError = NotFound | InvalidVideo | NotUploadable | NotCompletable | ObjectStillInUse

  datatype Tables = Tables(videos: map<VideoId, Video>, uploads: map<UploadId, Upload>)

  const MANAGED_PREFIX := "course-videos/"

  predicate Managed(key: ObjectKey) {
    |key| > |MANAGED_PREFIX| && key[..|MANAGED_PREFIX|] == MANAGED_PREFIX
  }

  predicate ValidPosition(p: Position) {
    p.course != 0 && (p.kind == Preview <==> p.sortOrder == 0)
  }

  predicate EligibleForCleanup(u: Upload, before: int) {
    u.expiresAt <= before && (u.status == Pending || u.status == Abandoned)
  }

  // --- Row transitions -------------------------------------------------------------------------

  function NewUpload(video: VideoId, key: ObjectKey, session: string, fileSize: int, expiresAt: int)
    : Result<Upload, VideoError>
  {
    if video == 0 || Blank(key) || Blank(session) || fileSize <= 0 || expiresAt == ZERO_TIME then Err(InvalidVideo)
    else Ok(Upload(video, key, session, fileSize, Pending, expiresAt))
  }

  function PromoteUpload(u: Upload): Result<Upload, VideoError> {
    if u.status == Pending then Ok(u.(status := Promoted)) else Err(NotCompletable)
  }

  function FailUpload(u: Upload): Result<Upload, VideoError> {
    if u.status == Abandoned then Ok(u)
    else if u.status == Pending then Ok(u.(status := Abandoned))
    else Err(NotCompletable)
  }

  function CleanUpload(u: Upload): Result<Upload, VideoError> {
    if u.status == Cleaned then Ok(u)
    else if u.status == Abandoned then Ok(u.(status := Cleaned))
    else Err(NotCompletable)
  }

  function FinalizeUpload(u: Upload, key: ObjectKey): Result<Upload, VideoError> {
    if u.status == Cleaned then Ok(u)
    else if u.objectKey != key then Err(NotCompletable)
    else CleanUpload(u)
  }

  function NewVideo(position: Position, title: string, key: ObjectKey): Result<Video, VideoError> {
    if !ValidPosition(position) || Blank(title) || Blank(key) then Err(InvalidVideo)
    else Ok(Video(position, key, Uploading, None))
  }

  function CompleteVideo(v: Video, durationMs: Option<nat>): Result<Video, VideoError> {
    if v.status != Uploading then Err(NotUploadable)
    else if durationMs == Some(0) then Err(InvalidVideo)
    else Ok(v.(status := Ready, durationMs := durationMs))
  }

  function FailVideo(v: Video): Result<Video, VideoError> {
    if v.status == Failed then Ok(v)
    else if v.status == Uploading then Ok(v.(status := Failed))
    else Err(NotUploadable)
  }

  function RestartVideo(v: Video, title: string, key: ObjectKey): Result<Video, VideoError> {
    if Blank(title) || Blank(key) || v.status == Ready then Err(NotUploadable)
    else Ok(v.(objectKey := key, status := Uploading))
  }

  predicate Completes(u: Upload, v: VideoId, video: Video) {
    u.status == Pending && u.video == v && u.objectKey == video.objectKey
  }

  datatype Preparation = Preparation(clean: bool, upload: Upload, video: Option<Video>)

  /** Takes away an expired upload's right to complete, together with its video's upload state. */
  function PrepareCleanup(u: Upload, video: Option<Video>, before: int): Result<Preparation, VideoError> {
    if !EligibleForCleanup(u, before) then Ok(Preparation(false, u, video))
    else if video.Some? && video.value.objectKey == u.objectKey && video.value.status == Ready
    then Err(ObjectStillInUse)
    else
      var video' := if video.Some? && video.value.objectKey == u.objectKey && video.value.status == Uploading
                    then Some(FailVideo(video.value).value) else video;
      Ok(Preparation(true, FailUpload(u).value, video'))
  }

  // --- Transactions ----------------------------------------------------------------------------

  /** Every pending attempt of the video is superseded. */
  function FailPending(uploads: map<UploadId, Upload>, video: VideoId): map<UploadId, Upload> {
    map u | u in uploads ::
      if uploads[u].video == video && uploads[u].status == Pending then uploads[u].(status := Abandoned) else uploads[u]
  }

  function InsertUpload(tables: Tables, id: UploadId, video: VideoId, row: Video, key: ObjectKey, session: string,
                        fileSize: int, expiresAt: int): Result<Tables, VideoError>
  {
    match NewUpload(video, key, session, fileSize, expiresAt)
    case Err(e) => Err(e)
    case Ok(upload) =>
      Ok(Tables(tables.videos[video := row], FailPending(tables.uploads, video)[id := upload]))
  }

  predicate AtPosition(videos: map<VideoId, Video>, v: VideoId, p: Position) {
    v in videos && videos[v].position == p
  }

  /** The transaction that starts an upload; `existing` is the video found at the position, if any. */
  function StartUpload(
    tables: Tables, existing: Option<VideoId>, newVideo: VideoId, newUpload: UploadId, position: Position,
    title: string, key: ObjectKey, session: string, fileSize: int, expiresAt: int): Result<Tables, VideoError>
    requires existing.Some? ==> existing.value in tables.videos
  {
    if existing.Some? then
      match RestartVideo(tables.videos[existing.value], title, key)
      case Err(e) => Err(e)
      case Ok(row) => InsertUpload(tables, newUpload, existing.value, row, key, session, fileSize, expiresAt)
    else
      match NewVideo(position, title, key)
      case Err(e) => Err(e)
      case Ok(row) => InsertUpload(tables, newUpload, newVideo, row, key, session, fileSize, expiresAt)
  }

  /** The transaction that promotes an upload whose object was found in storage. */
  function CompleteUpload(
    tables: Tables, id: UploadId, video: VideoId, durationMs: Option<nat>): Result<Tables, VideoError>
  {
    if video !in tables.videos || id !in tables.uploads then Err(NotFound)
    else if tables.uploads[id].status == Promoted then Ok(tables)
    else if !Completes(tables.uploads[id], video, tables.videos[video]) then Err(NotCompletable)
    else
      match CompleteVideo(tables.videos[video], durationMs)
      case Err(e) => Err(e)
      case Ok(row) =>
        match PromoteUpload(tables.uploads[id])
        case Err(e) => Err(e)
        case Ok(upload) => Ok(Tables(tables.videos[video := row], tables.uploads[id := upload]))
  }

  /** What the first cleanup transaction leaves and what it tells the storage calls to remove. */
  datatype CleanupPlan = CleanupPlan(tables: Tables, target: Option<Upload>)

  function PlanCleanup(tables: Tables, id: UploadId, video: VideoId, before: int): Result<CleanupPlan, VideoError> {
    if id !in tables.uploads then Err(NotFound)
    else if !EligibleForCleanup(tables.uploads[id], before) then Ok(CleanupPlan(tables, None))
    else if !Managed(tables.uploads[id].objectKey) then Err(InvalidVideo)
    else
      match PrepareCleanup(
              tables.uploads[id], if video in tables.videos then Some(tables.videos[video]) else None, before)
      case Err(e) => Err(e)
      case Ok(p) =>
        Ok(CleanupPlan(Tables(if p.video.Some? then tables.videos[video := p.video.value] else tables.videos,
                              tables.uploads[id := p.upload]),
                       Some(tables.uploads[id])))
  }

  function FinishCleanup(tables: Tables, id: UploadId, key: ObjectKey): Result<Tables, VideoError> {
    if id !in tables.uploads then Err(NotFound)
    else
      match FinalizeUpload(tables.uploads[id], key)
      case Err(e) => Err(e)
      case Ok(upload) => Ok(tables.(uploads := tables.uploads[id := upload]))
  }
}

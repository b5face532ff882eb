/** Video and upload records that change in place, and the transactions that load, change and save them. */
module VideoRecords {
  import opened Types
  import opened VideoCatalog

  /** A record method either succeeds with the new value or fails and leaves the record alone. */
  ghost predicate Follows<T(!new)>(outcome: Result<T, VideoError>, before: T, after: T, error: Option<VideoError>) {
    match outcome
    case Ok(value) => error == None && after == value
    case Err(e) => error == Some(e) && after == before
  }

  class CourseVideoUpload {
    const video: VideoId
    const objectKey: ObjectKey
    const session: string
    const fileSize: int
    const expiresAt: int
    var status: UploadStatus

    constructor (row: Upload)
      ensures Value() == row
    {
      video, objectKey, session := row.video, row.objectKey, row.session;
      fileSize, expiresAt, status := row.fileSize, row.expiresAt, row.status;
    }

    function Value(): Upload
      reads this
    {
      Upload(video, objectKey, session, fileSize, status, expiresAt)
    }

    method Promote() returns (error: Option<VideoError>)
      modifies this`status
      ensures Follows(PromoteUpload(old(Value())), old(Value()), Value(), error)
    {
      if status != Pending {
        return Some(NotCompletable);
      }
      status := Promoted;
      return None;
    }

    method Fail() returns (error: Option<VideoError>)
      modifies this`status
      ensures Follows(FailUpload(old(Value())), old(Value()), Value(), error)
    {
      if status == Abandoned {
        return None;
      }
      if status != Pending {
        return Some(NotCompletable);
      }
      status := Abandoned;
      return None;
    }

    method Clean() returns (error: Option<VideoError>)
      modifies this`status
      ensures Follows(CleanUpload(old(Value())), old(Value()), Value(), error)
    {
      if status == Cleaned {
        return None;
      }
      if status != Abandoned {
        return Some(NotCompletable);
      }
      status := Cleaned;
      return None;
    }

    method FinalizeCleanup(key: ObjectKey) returns (error: Option<VideoError>)
      modifies this`status
      ensures Follows(FinalizeUpload(old(Value()), key), old(Value()), Value(), error)
    {
      if status == Cleaned {
        return None;
      }
      if objectKey != key {
        return Some(NotCompletable);
      }
      error := Clean();
    }
  }

  class CourseVideo {
    const position: Position
    var objectKey: ObjectKey
    var status: VideoStatus
    var durationMs: Option<nat>

    constructor (row: Video)
      ensures Value() == row
    {
      position, objectKey, status, durationMs := row.position, row.objectKey, row.status, row.durationMs;
    }

    function Value(): Video
      reads this
    {
      Video(position, objectKey, status, durationMs)
    }

    method CompleteUpload(duration: Option<nat>) returns (error: Option<VideoError>)
      modifies this
      ensures Follows(CompleteVideo(old(Value()), duration), old(Value()), Value(), error)
    {
      if status != Uploading {
        return Some(NotUploadable);
      }
      if duration == Some(0) {
        return Some(InvalidVideo);
      }
      durationMs := duration;
      status := Ready;
      return None;
    }

    method FailUpload() returns (error: Option<VideoError>)
      modifies this
      ensures Follows(FailVideo(old(Value())), old(Value()), Value(), error)
    {
      if status == Failed {
        return None;
      }
      if status != Uploading {
        return Some(NotUploadable);
      }
      status := Failed;
      return None;
    }

    method RestartUpload(title: string, key: ObjectKey) returns (error: Option<VideoError>)
      modifies this
      ensures Follows(RestartVideo(old(Value()), title, key), old(Value()), Value(), error)
    {
      if Blank(title) || Blank(key) || (status != Uploading && status != Failed) {
        return Some(NotUploadable);
      }
      objectKey := key;
      status := Uploading;
      return None;
    }
  }

  /** Takes away the upload's right to complete and, if the video still points to it, fails the video too. */
  method PrepareRecords(upload: CourseVideoUpload, video: CourseVideo?, before: int)
    returns (clean: bool, error: Option<VideoError>)
    modifies upload`status, video
    ensures var v := if video == null then None else Some(old(video.Value()));
            match PrepareCleanup(old(upload.Value()), v, before)
            case Ok(p) =>
              && error == None && clean == p.clean && upload.Value() == p.upload
              && (video != null ==> p.video == Some(video.Value()))
            case Err(e) => error == Some(e)
  {
    if !EligibleForCleanup(upload.Value(), before) {
      return false, None;
    }
    if video != null && video.objectKey == upload.objectKey {
      match video.status {
        case Uploading =>
          error := video.FailUpload();
          if error.Some? {
            return false, error;
          }
        case Ready => return false, Some(ObjectStillInUse);
        case Failed =>
      }
    }
    error := upload.Fail();
    clean := error == None;
  }

  /** The two tables. A transaction works on loaded records and saves them only when nothing failed. */
  class Repository {
    var videos: map<VideoId, Video>
    var uploads: map<UploadId, Upload>

    function Value(): Tables
      reads this
    {
      Tables(videos, uploads)
    }

    /** Supersedes the pending attempts of a video one by one. */
    method FailPrevious(rows: map<UploadId, Upload>, video: VideoId)
      returns (rows': map<UploadId, Upload>)
      ensures rows' == FailPending(rows, video)
    {
      rows' := rows;
      var todo := set u | u in rows && rows[u].video == video && rows[u].status == Pending;
      var done: set<UploadId> := {};
      ghost var all := todo;
      while todo != {}
        invariant todo * done == {} && todo + done == all && rows'.Keys == rows.Keys
        invariant forall u :: u in rows ==> rows'[u] == if u in done then rows[u].(status := Abandoned) else rows[u]
        decreases todo
      {
        var u :| u in todo;
        var upload := new CourseVideoUpload(rows'[u]);
        var error := upload.Fail();
        rows' := rows'[u := upload.Value()];
        todo, done := todo - {u}, done + {u};
      }
    }

    method StartTransaction(
      existing: Option<VideoId>, newVideo: VideoId, newUpload: UploadId, position: Position, title: string,
      key: ObjectKey, session: string, fileSize: int, expiresAt: int) returns (error: Option<VideoError>)
      requires existing.Some? ==> existing.value in videos
      modifies this
      ensures var started := StartUpload(old(Value()), existing, newVideo, newUpload, position, title, key, session,
                                         fileSize, expiresAt);
              Follows(started, old(Value()), Value(), error)
    {
      var id, row := newVideo, Video(position, key, Uploading, None);
      if existing.Some? {
        id := existing.value;
        var video := new CourseVideo(videos[id]);
        error := video.RestartUpload(title, key);
        if error.Some? {
          return;
        }
        row := video.Value();
      } else if !ValidPosition(position) || Blank(title) || Blank(key) {
        return Some(InvalidVideo);
      }
      var rows := FailPrevious(uploads, id);
      if id == 0 || Blank(key) || Blank(session) || fileSize <= 0 || expiresAt == ZERO_TIME {
        return Some(InvalidVideo);
      }
      videos, uploads := videos[id := row], rows[newUpload := Upload(id, key, session, fileSize, Pending, expiresAt)];
      error := None;
    }

    method CompleteTransaction(id: UploadId, video: VideoId, durationMs: Option<nat>)
      returns (error: Option<VideoError>)
      modifies this
      ensures Follows(CompleteUpload(old(Value()), id, video, durationMs), old(Value()), Value(), error)
    {
      if video !in videos || id !in uploads {
        return Some(NotFound);
      }
      var current := new CourseVideo(videos[video]);
      var upload := new CourseVideoUpload(uploads[id]);
      if upload.status == Promoted {
        return None;
      }
      if upload.status != Pending || upload.video != video || upload.objectKey != current.objectKey {
        return Some(NotCompletable);
      }
      error := current.CompleteUpload(durationMs);
      if error.Some? {
        return;
      }
      error := upload.Promote();
      if error.Some? {
        return;
      }
      videos, uploads := videos[video := current.Value()], uploads[id := upload.Value()];
    }

    method PrepareTransaction(id: UploadId, video: VideoId, before: int)
      returns (target: Option<Upload>, error: Option<VideoError>)
      modifies this
      ensures match PlanCleanup(old(Value()), id, video, before)
              case Ok(plan) => error == None && target == plan.target && Value() == plan.tables
              case Err(e) => error == Some(e) && target == None && Value() == old(Value())
    {
      if id !in uploads {
        return None, Some(NotFound);
      }
      var upload := new CourseVideoUpload(uploads[id]);
      if !EligibleForCleanup(upload.Value(), before) {
        return None, None;
      }
      if !Managed(upload.objectKey) {
        return None, Some(InvalidVideo);
      }
      var current: CourseVideo? := null;
      if video in videos {
        current := new CourseVideo(videos[video]);
      }
      var clean;
      clean, error := PrepareRecords(upload, current, before);
      if error.Some? {
        return None, error;
      }
      target := Some(uploads[id]);
      if current != null {
        videos := videos[video := current.Value()];
      }
      uploads := uploads[id := upload.Value()];
    }

    method FinishTransaction(id: UploadId, key: ObjectKey) returns (error: Option<VideoError>)
      modifies this
      ensures Follows(FinishCleanup(old(Value()), id, key), old(Value()), Value(), error)
    {
      if id !in uploads {
        return Some(NotFound);
      }
      var upload := new CourseVideoUpload(uploads[id]);
      error := upload.FinalizeCleanup(key);
      if error == None {
        uploads := uploads[id := upload.Value()];
      }
    }
  }
}

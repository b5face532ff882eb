/** Values shared by the enrollment models: identifiers, selection results and error kinds. */
module Types {

  datatype Option<+T> = None | Some(value: T)

  datatype Result<+T, +E> = Ok(value: T) | Err(error: E)

  /** A call runs and answers, runs and loses its answer, or does not run. */
  datatype Call = Answered | Lost | Down

  type StudentId = nat
  type CourseId = nat
  type ClassId = nat
  type RoundId = nat
  type TermId = nat
  type AppId = string
  type RequestId = string
  type EnrollmentId = string

  datatype Source = Web | Mobile | Admin | System

  datatype ApplicationState = Created | Reserved | Selected | Rejected | Cancelled

  datatype Failure = Failure(code: string, message: string)

  /** The completed decision about one application; credits count tenths, times count milliseconds. */
  datatype Selection = Selection(
    app: AppId,
    request: RequestId,
    round: RoundId,
    term: TermId,
    student: StudentId,
    course: CourseId,
    teachingClass: ClassId,
    credits: int,
    source: Source,
    state: ApplicationState,
    failure: Option<Failure>,
    appliedAt: int,
    completedAt: int)

  /** Error kinds that the modelled operations tell apart. */
  datatype Error =
    | InvalidParams
    | InvalidState
    | ApplicationCancelled
    | RecordNotFound
    | RoundNotOpen
    | ClassNotOpen
    | ClassFull
    | EligibilityNotMet
    | DuplicateSelection
    | ScheduleConflict
    | CreditQuotaExceeded
    | CourseQuotaExceeded
    | IdempotencyConflict
    | InProgress
    | DuplicateKey
    | Infrastructure

  /** The zero time, the first instant of year 1, counted in milliseconds from 1970. */
  const ZERO_TIME: int := -62_135_596_800_000

  const MAX_APPLICATION_ID := 32
  const MAX_REQUEST_ID := 64

  predicate IsSpace(c: char) {
    || c == ' ' || '\t' <= c <= '\r' || c == '\U{0085}' || c == '\U{00A0}' || c == '\U{1680}'
    || '\U{2000}' <= c <= '\U{200A}' || c == '\U{2028}' || c == '\U{2029}'
    || c == '\U{202F}' || c == '\U{205F}' || c == '\U{3000}'
  }

  predicate Blank(s: string) {
    forall i :: 0 <= i < |s| ==> IsSpace(s[i])
  }

  predicate ValidFailure(f: Failure) {
    f.code != "" && !Blank(f.message)
  }

  /** What the stream and the database demand of a completed result. */
  predicate ValidResult(r: Selection) {
    && !Blank(r.app) && |r.app| <= MAX_APPLICATION_ID
    && !Blank(r.request) && |r.request| <= MAX_REQUEST_ID
    && r.round != 0 && r.term != 0 && r.student != 0 && r.course != 0 && r.teachingClass != 0
    && r.credits > 0
    && r.appliedAt != ZERO_TIME && r.completedAt != ZERO_TIME && r.appliedAt <= r.completedAt
    && match r.state {
         case Selected => r.failure == None
         case Rejected => r.failure.Some? && ValidFailure(r.failure.value)
         case Cancelled => r.failure.Some? && ValidFailure(r.failure.value)
         case Created => false
         case Reserved => false
       }
  }
}

/** The State enumeration: the HTTP-facing outcomes of the transaction
    pipeline and the life-cycle codes stored in the STATE column. */
module States {
  import opened Wrappers
  import opened Text

  datatype State =
    | BadRequest
    | BadRequestJsonDecode
    | BadRequestMandatoryKey
    | BadRequestNotStoreAble
    | BadRequestDBError
    | RequestReceived
    | RequestStored
    | ConflictRequest
    | New
    | InProgress
    | Published
    | Processed
    | Error
  {
    function Code(): int {
      match this
      case BadRequest => 400
      case BadRequestJsonDecode => 400
      case BadRequestMandatoryKey => 400
      case BadRequestNotStoreAble => 400
      case BadRequestDBError => 400
      case RequestReceived => 200
      case RequestStored => 201
      case ConflictRequest => 409
      case New => 1
      case InProgress => 2
      case Published => 3
      case Processed => 4
      case Error => 5
    }

    /** The `reason` property. */
    function Reason(): string {
      match this
      case BadRequest => "request body unsupported"
      case BadRequestJsonDecode => "body could not be decoded as json"
      case BadRequestMandatoryKey => "mandatory key(s) are missing in the body"
      case BadRequestNotStoreAble => "data are not store able "
      case BadRequestDBError => "data base error"
      case RequestReceived => "received"
      case RequestStored => "stored"
      case ConflictRequest => "already stored"
      case New => "new"
      case InProgress => "in progress"
      case Published => "published"
      case Processed => "processed"
      case Error => "error"
    }

    /** Every member carries an empty detail text. */
    function Detail(): string {
      ""
    }

    /** The `message` property: reason and detail joined by a colon. */
    function Message(): string {
      JoinWith([Reason(), Detail()], ":")
    }

    predicate IsBadRequest() {
      BadRequest? || BadRequestJsonDecode? || BadRequestMandatoryKey?
      || BadRequestNotStoreAble? || BadRequestDBError?
    }

    predicate IsLifecycle() {
      New? || InProgress? || Published? || Processed? || Error?
    }
  }

  /** The distributor's success test on a pipeline result: `code in {200, 201}`. */
  predicate IsSuccessCode(code: int) {
    code == 200 || code == 201
  }

  /** The life-cycle member with a given STATE value, if any. */
  function LifecycleOf(code: int): (r: Option<State>)
    ensures r.Some? ==> r.value.IsLifecycle() && r.value.Code() == code
  {
    if code == 1 then Some(New)
    else if code == 2 then Some(InProgress)
    else if code == 3 then Some(Published)
    else if code == 4 then Some(Processed)
    else if code == 5 then Some(Error)
    else None
  }

  /** Life-cycle members are told apart by their codes 1 to 5, and nothing
      else in that range is one. */
  lemma LifecycleCodes(s: State)
    ensures s.IsLifecycle() ==> 1 <= s.Code() <= 5 && LifecycleOf(s.Code()) == Some(s)
    ensures !s.IsLifecycle() ==> s.Code() >= 200 && LifecycleOf(s.Code()) == None
  {
  }

  /** Every bad-request member answers 400 and nothing else does; the
      pipeline's only successes are 200 and 201. */
  lemma HttpCodes(s: State)
    ensures s.IsBadRequest() <==> s.Code() == 400
    ensures IsSuccessCode(s.Code()) <==> s == RequestReceived || s == RequestStored
    ensures s == ConflictRequest <==> s.Code() == 409
  {
  }

  /** The message is the reason followed by a colon. */
  lemma MessageIsReasonColon(s: State)
    ensures s.Message() == s.Reason() + ":"
  {
  }

  /** No two members share a reason, so the text of a response names the
      state that produced it. */
  lemma ReasonsDistinct(s: State, t: State)
    ensures s.Reason() == t.Reason() ==> s == t
  {
  }
}

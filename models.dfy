/** The data objects of the client and its error vocabulary: the status envelope that
    many successful bodies embed, the error object built from a failed body, and the
    resolution of both onto the exported error values. */
module Models {
  import opened Wrappers
  import opened Text

  // Message texts the platform is known to send inside an envelope.
  const BadCredentials := "Username or Password is not valid"
  const ApiException := "Api Exception"
  const NoJobsFound := "No Jobs Found"
  const InvalidToken := "invalid token"

  // Texts the error object is compared against or filled with.
  const ArchivedJob := "archived job"
  const InvalidGrant := "invalid_grant"
  const UnknownShape := "Unkown struct type"

  const StatusUnauthorized := 401
  const StatusGone := 410

  /** What an error returned by the client is, underneath any context wrapped around it
      (what errors.Cause would find). The first three are the exported values a caller
      compares against; the others stand for the errors.Errorf texts and for failures of
      the transport or of decoding. */
  datatype Cause =
    | InvalidCode
    | InvalidUserPassword
    | AuthExpired
    | ApiStatusMissing
    | BadResponse(status: int, message: string, errors: string)
    | ServiceError(statusCode: int, errMsg: string, description: string)
    | NoJobsBack
    | NoAssignmentsBack
    | CustomerNotCreated
    | Transport(reason: string)

  predicate IsTaxonomy(c: Cause) {
    c.InvalidCode? || c.InvalidUserPassword? || c.AuthExpired?
  }

  /** An error value: its cause and the messages wrapped around it, outermost first. */
  datatype Failure = Failure(cause: Cause, context: seq<string>)

  /** errors.New, errors.Errorf or errors.WithStack of a cause: nothing wrapped around it. */
  function New(c: Cause): (f: Failure)
    ensures f.cause == c && f.context == []
  {
    Failure(c, [])
  }

  /** errors.Wrap and errors.Wrapf, and wrapErr (models.go), which wraps the JSON text of
      the request and the response around an error: a nil error stays nil, any other
      keeps its cause and gains one message. */
  function Wrap(err: Option<Failure>, note: string): (r: Option<Failure>)
    ensures r.None? <==> err.None?
    ensures err.Some? ==> r.value.cause == err.value.cause
    ensures err.Some? ==> |r.value.context| == |err.value.context| + 1 && r.value.context[0] == note
  {
    match err
    case None => None
    case Some(f) => Some(Failure(f.cause, [note] + f.context))
  }

  /** apiStatus: the Status/Message/Errors triple; `errors` is the JSON text of Errors. */
  datatype ApiStatus = ApiStatus(status: int, message: string, errors: string)

  /** Two different known messages never meet: one equal to "No Jobs Found" up to case
      cannot contain "Api Exception". */
  lemma NoJobsFoundIsNoException(m: string)
    ensures EqualFold(m, NoJobsFound) ==> !Contains(m, ApiException)
  {
    if EqualFold(m, NoJobsFound) {
      assert Fold(m[0]) == Fold(NoJobsFound[0]) != Fold(ApiException[0]);
      ContainsSameLength(m, ApiException);
    }
  }

  /** apiStatus.Error: what an envelope says about the call (None: it succeeded).
      A missing envelope is an error; status 1 is success whatever the message; the
      known platform messages resolve to the exported errors (case-sensitive substring
      tests) or, for "No Jobs Found" compared without case, to success; anything else is
      a generic error carrying the status and the message. */
  function StatusError(s: Option<ApiStatus>): (r: Option<Failure>)
    ensures s.None? ==> r == Some(New(ApiStatusMissing))
    ensures s.Some? ==>
      (r.None? <==> s.value.status == 1 || (s.value.status == 0 && EqualFold(s.value.message, NoJobsFound)))
    ensures s.Some? ==>
      (r == Some(New(InvalidUserPassword)) <==> s.value.status == 3 && Contains(s.value.message, BadCredentials))
    ensures s.Some? ==>
      (r == Some(New(InvalidCode)) <==>
        (s.value.status == 0 && Contains(s.value.message, ApiException)) ||
        (s.value.status == 2 && Contains(s.value.message, InvalidToken)))
    ensures r.Some? ==> r.value.context == [] && r.value.cause != AuthExpired
    ensures r.Some? && !IsTaxonomy(r.value.cause) ==>
      r.value.cause == (if s.None? then ApiStatusMissing else BadResponse(s.value.status, s.value.message, s.value.errors))
  {
    match s
    case None => Some(New(ApiStatusMissing))
    case Some(a) =>
      NoJobsFoundIsNoException(a.message);
      if a.status == 1 then None
      else if a.status == 3 && Contains(a.message, BadCredentials) then Some(New(InvalidUserPassword))
      else if a.status == 0 && Contains(a.message, ApiException) then Some(New(InvalidCode))
      else if a.status == 0 && EqualFold(a.message, NoJobsFound) then None
      else if a.status == 2 && Contains(a.message, InvalidToken) then Some(New(InvalidCode))
      else Some(New(BadResponse(a.status, a.message, a.errors)))
  }

  // The same envelope resolution written as a table of platform quirks to consult in order.

  datatype Pattern = Substring(text: string) | FoldedEqual(text: string)

  predicate Matches(p: Pattern, message: string) {
    match p
    case Substring(t) => Contains(message, t)
    case FoldedEqual(t) => EqualFold(message, t)
  }

  /** A row of the table: an envelope with this status and a message matching the pattern
      resolves to the verdict (None: the envelope counts as success). */
  datatype Quirk = Quirk(status: int, pattern: Pattern, verdict: Option<Cause>)

  const Quirks: seq<Quirk> := [
    Quirk(3, Substring(BadCredentials), Some(InvalidUserPassword)),
    Quirk(0, Substring(ApiException), Some(InvalidCode)),
    Quirk(0, FoldedEqual(NoJobsFound), None),
    Quirk(2, Substring(InvalidToken), Some(InvalidCode))
  ]

  /** The first row of the table that applies to the envelope. */
  function FirstQuirk(table: seq<Quirk>, status: int, message: string): (r: Option<nat>)
    ensures r.Some? ==> r.value < |table| && table[r.value].status == status && Matches(table[r.value].pattern, message)
    ensures r.Some? ==> forall i :: 0 <= i < r.value ==> !(table[i].status == status && Matches(table[i].pattern, message))
    ensures r.None? ==> forall i :: 0 <= i < |table| ==> !(table[i].status == status && Matches(table[i].pattern, message))
    decreases |table|
  {
    if table == [] then None
    else if table[0].status == status && Matches(table[0].pattern, message) then Some(0)
    else match FirstQuirk(table[1..], status, message)
      case None => None
      case Some(i) => Some(i + 1)
  }

  /** The envelope resolved by looking it up in the table. */
  function TableVerdict(a: ApiStatus): Option<Failure> {
    if a.status == 1 then None
    else match FirstQuirk(Quirks, a.status, a.message)
      case Some(i) => (match Quirks[i].verdict case Some(c) => Some(New(c)) case None => None)
      case None => Some(New(BadResponse(a.status, a.message, a.errors)))
  }

  /** The chain of tests in apiStatus.Error is exactly the quirk table read top to bottom. */
  lemma StatusErrorIsTableLookup(a: ApiStatus)
    ensures StatusError(Some(a)) == TableVerdict(a)
  {
    var r := FirstQuirk(Quirks, a.status, a.message);
    if a.status != 1 {
      if r.Some? {
        assert forall i :: 0 <= i < r.value ==> !(Quirks[i].status == a.status && Matches(Quirks[i].pattern, a.message));
      } else {
        assert !(Quirks[0].status == a.status && Matches(Quirks[0].pattern, a.message));
        assert !(Quirks[1].status == a.status && Matches(Quirks[1].pattern, a.message));
        assert !(Quirks[2].status == a.status && Matches(Quirks[2].pattern, a.message));
        assert !(Quirks[3].status == a.status && Matches(Quirks[3].pattern, a.message));
      }
    }
  }

  /** A message that only contains "No Jobs Found" is not the benign empty result. */
  lemma NoJobsFoundNeedsWholeMessage(pre: string, post: string, errors: string)
    requires pre + post != ""
    ensures Contains(pre + NoJobsFound + post, NoJobsFound)
    ensures StatusError(Some(ApiStatus(0, pre + NoJobsFound + post, errors))).Some?
  {
    ContainsInfix(pre, NoJobsFound, post);
  }

  /** Error: the error object built from a failed body. */
  datatype ErrorInfo = ErrorInfo(errMsg: string, description: string, statusCode: int)

  /** What one json.Unmarshal attempt into a given shape yields. */
  datatype Decoded<T> = Decoded(value: T) | DecodeError(text: string)

  /** The flat error shape {error, error_description, statusCode}. */
  datatype FlatError = FlatError(error: string, description: string, statusCode: int)

  /** An error body: its raw text, the nested message that decoding it as the OAuth shape
      {error: {message}} yields, and what decoding it as the flat shape yields. */
  datatype ErrorBody = ErrorBody(raw: string, asOAuth: Decoded<string>, asFlat: Decoded<FlatError>)

  predicate OAuthUsable(b: ErrorBody) {
    b.asOAuth.Decoded? && |b.asOAuth.value| > 0
  }

  /** The error object `e` after Error.UnmarshalJSON has read body `b` into it. The OAuth
      shape with a non-empty message wins (and turns the status code into 410 when the
      message speaks of an archived job); otherwise the flat shape is copied; when that
      does not decode either, the decoding error and the raw body are kept. A message
      left empty becomes "Unkown struct type" beside the raw body. */
  function Unmarshalled(e: ErrorInfo, b: ErrorBody): (r: ErrorInfo)
    ensures |r.errMsg| > 0
    ensures OAuthUsable(b) ==>
      r.errMsg == b.asOAuth.value && r.description == e.description &&
      r.statusCode == (if Contains(b.asOAuth.value, ArchivedJob) then StatusGone else e.statusCode)
    ensures !OAuthUsable(b) && b.asFlat.Decoded? ==>
      r.statusCode == b.asFlat.value.statusCode &&
      (if b.asFlat.value.error != "" then r.errMsg == b.asFlat.value.error && r.description == b.asFlat.value.description
       else r.errMsg == UnknownShape && r.description == b.raw)
    ensures !OAuthUsable(b) && b.asFlat.DecodeError? ==>
      r.statusCode == e.statusCode && r.description == b.raw &&
      r.errMsg == (if b.asFlat.text != "" then b.asFlat.text else UnknownShape)
  {
    var first :=
      if OAuthUsable(b) then
        e.(errMsg := b.asOAuth.value,
           statusCode := if Contains(b.asOAuth.value, ArchivedJob) then StatusGone else e.statusCode)
      else match b.asFlat
        case Decoded(two) => e.(errMsg := two.error, description := two.description, statusCode := two.statusCode)
        case DecodeError(text) => e.(errMsg := text, description := b.raw);
    if |first.errMsg| == 0 then first.(errMsg := UnknownShape, description := b.raw) else first
  }

  /** An OAuth body whose message mentions an archived job is reported as gone (410),
      whatever status code the object held before. */
  lemma ArchivedJobIsGone(e: ErrorInfo, raw: string, pre: string, post: string, flat: Decoded<FlatError>)
    ensures Unmarshalled(e, ErrorBody(raw, Decoded(pre + ArchivedJob + post), flat)).statusCode == StatusGone
  {
    ContainsInfix(pre, ArchivedJob, post);
  }

  /** "invalid_grant" does not speak of an archived job, so the two rules never meet. */
  lemma GrantIsNoArchivedJob()
    ensures !Contains(InvalidGrant, ArchivedJob)
  {
    var s := InvalidGrant;
    assert !HasPrefix(s, ArchivedJob) by { assert s[..|ArchivedJob|][0] == s[0]; }
    assert !HasPrefix(s[1..], ArchivedJob) by { assert s[1..][..|ArchivedJob|][0] == s[1]; }
    assert s[1..][1..] == s[2..];
    ShorterNotContained(s[2..], ArchivedJob);
  }

  /** The raw body is never lost: unless a decoded shape supplied the message, the
      description is the raw body verbatim. */
  lemma RawBodyKept(e: ErrorInfo, b: ErrorBody)
    requires !OAuthUsable(b)
    requires b.asFlat.DecodeError? || b.asFlat.value.error == ""
    ensures Unmarshalled(e, b).description == b.raw
  {
  }

  /** Error, the object json.Unmarshal fills through its pointer receiver. */
  class Error {
    var errMsg: string
    var description: string
    var statusCode: int

    /** &Error{}: the zero value. */
    constructor ()
      ensures Value() == ErrorInfo("", "", 0)
    {
      errMsg, description, statusCode := "", "", 0;
    }

    function Value(): ErrorInfo
      reads this
    {
      ErrorInfo(errMsg, description, statusCode)
    }

    /** Error.UnmarshalJSON: try the OAuth shape, then the flat shape, then keep the raw
        text; it never reports a failure. */
    method UnmarshalJSON(b: ErrorBody) returns (err: Option<Failure>)
      modifies this
      ensures Value() == Unmarshalled(old(Value()), b)
      ensures err.None?
    {
      if b.asOAuth.Decoded? && |b.asOAuth.value| > 0 {
        errMsg := b.asOAuth.value;
        if Contains(errMsg, ArchivedJob) {
          statusCode := StatusGone;
        }
      } else {
        match b.asFlat
        case Decoded(two) =>
          errMsg := two.error;
          description := two.description;
          statusCode := two.statusCode;
        case DecodeError(text) =>
          errMsg := text;
          description := b.raw;
      }
      if |errMsg| == 0 {
        errMsg := UnknownShape;
        description := b.raw;
      }
      err := None;
    }
  }

  /** Error.Err: a nil object is no error; "invalid_grant" is a bad code, before anything
      else; otherwise 401 means the authorization expired; anything else is a generic error
      carrying the object's three fields. */
  function Err(e: Option<ErrorInfo>): (r: Option<Failure>)
    ensures r.None? <==> e.None?
    ensures e.Some? ==> (r.value.cause == InvalidCode <==> e.value.errMsg == InvalidGrant)
    ensures e.Some? ==>
      (r.value.cause == AuthExpired <==> e.value.errMsg != InvalidGrant && e.value.statusCode == StatusUnauthorized)
    ensures e.Some? ==>
      (!IsTaxonomy(r.value.cause) <==> r.value.cause == ServiceError(e.value.statusCode, e.value.errMsg, e.value.description))
    ensures e.Some? ==> r.value.cause != InvalidUserPassword
    ensures e.Some? && IsTaxonomy(r.value.cause) ==> r.value.context == [e.value.description]
  {
    match e
    case None => None
    case Some(x) =>
      if x.errMsg == InvalidGrant then Wrap(Some(New(InvalidCode)), x.description)
      else if x.statusCode == StatusUnauthorized then Wrap(Some(New(AuthExpired)), x.description)
      else Some(New(ServiceError(x.statusCode, x.errMsg, x.description)))
  }
}

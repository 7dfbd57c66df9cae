# service-works client, modelled in Dafny

A model of the Go client for the Service Works field-service platform. The client logs in with an API key. Then it lists booking time ranges, creates jobs and schedules their trips, lists jobs by date, and searches for and creates customers. Every call goes through the same path:

- `send` settles the base URL and adds a JSON content type when there is a body. It copies the header map onto the request.
- `finish` sorts the HTTP answer by status. A well-formed 4xx body, other than on a 410, goes to `Error.UnmarshalJSON`. `Error.Err` turns the error object into one of the package's error values.
- Most calls then read the `apiStatus` envelope the platform puts in every 2xx body, and apply a small post-processing rule of their own.

The model keeps that path and those rules. HTTP and JSON are left abstract.

## Files

- `wrappers.dfy` — `Option`.
- `text.dfy` — the parts of Go's `strings` and `fmt` the client relies on. These are `strings.HasSuffix`, `strings.Contains`, `strings.EqualFold` and `%d`, with a round trip for `%d`. `HasPrefix` is the model's own helper for `Contains` and for stating results; the client never calls `strings.HasPrefix`.
- `models.dfy` (models.go):
  - the error taxonomy, with errors as a cause plus the messages wrapped around it;
  - the envelope interpreter `StatusError`, together with an equivalent table of platform quirks;
  - the error-body classifier: the class `Error` with its `UnmarshalJSON` method, proved against the function `Unmarshalled`;
  - the resolver `Err`.
- `net.dfy` (net.go):
  - the class `ServiceWorks`, whose `url` field `Send` normalises in place;
  - the class `Header`, standing for the caller's Go map, which `Send` writes into;
  - the header-copy loop, with net/http's canonical header keys;
  - `finish` as the function `Classified` and the method `Finish`.
- `customers.dfy`, `jobs.dfy` and `login.dfy` — the endpoints. Each is a method that sends the request and returns what the Go function returns, plus the request put on the wire. A pure function gives the endpoint's reading of the reply, and the lemmas are about that function.

### How the outside world is represented

- A Go `error` is an `Option<Failure>`. A `Failure` is a `Cause` plus the messages wrapped around it, outermost first:
  - `errors.New` and `errors.Errorf` make a failure with no messages;
  - `errors.WithStack` changes nothing;
  - `errors.Wrap`, `errors.Wrapf` and `wrapErr` add one message (`Models.Wrap`);
  - the text of package errors is represented by the cause alone.
- Each endpoint method takes the network's answer as a `Network` value. It holds whether `http.NewRequestWithContext` refused the request, and otherwise a `Transport`: either a transport error, or a status with a body.
- A body comes with its text and with what decoding it would give:
  - whether it is well-formed JSON at all;
  - the outcome of each of the two error shapes `UnmarshalJSON` tries;
  - the outcome of decoding it into the endpoint's response struct.
- `json.Unmarshal` passes `UnmarshalJSON` the text of the top-level value. That text has no JSON whitespace (space, tab, newline, carriage return) at either end (`Net.JsonValueText`). A body above 499 becomes the error message verbatim.
- The JSON text `wrapErr` adds is a `detail` argument of the endpoint.
- Dates and query strings are arguments already formatted.

### Two behaviours to note

- The envelope checks for "Username or Password is not valid", "Api Exception" and "invalid token" are case-sensitive. The code uses `strings.Contains` for them (models.go:58-72), so "api exception" in lower case is not recognised. Only "No Jobs Found" is compared ignoring case, with `strings.EqualFold` (models.go:66). The model is case-sensitive for the first three and ignores case only for the last.
- The comment at models.go:67 says a "No Jobs Found" envelope just means the search found no jobs. The code only returns a nil error there. It leaves whatever records came with the envelope in place (jobs.go:187-188), so the result is not necessarily empty. `Jobs.Listed` and `Jobs.NoJobsIsNoError` say so.

## Model

| member | source | states |
|---|---|---|
| Text.HasSuffix | net.go:84-85 | `strings.HasSuffix`: the last characters of the string are those of the suffix, one by one |
| Text.Contains | models.go:58-72 | `strings.Contains`: only a string at least as long as the substring contains it; a string contains any string it begins with, and the empty string |
| Text.EqualFold | models.go:66 | `strings.EqualFold`: only strings of equal length match; a string matches itself and any string that replaces some of its characters by their case folds |
| Text.Decimal | login.go:33 | `fmt.Sprintf("%d", n)`: a minus sign exactly for a negative number, then digits, and a leading zero only in "0" |
| Text.ContainsIffOccurs | models.go:58-72 | `strings.Contains`, as the recursive scan the model uses, holds exactly when the substring occurs at some index |
| Text.DecimalRoundTrip | login.go:33 | the `%d` text of any integer is a sign and digits, and reading it back gives the number |
| Text.DecimalInjective | login.go:33 | two integers with the same `%d` text are equal |
| Models.New | models.go:49 | `errors.New`, `errors.Errorf` and `errors.WithStack` of a cause: a failure with that cause and no message wrapped around it |
| Models.Wrap | models.go:144-152 | a nil error stays nil; any other keeps its cause and gains exactly one message, at the head |
| Models.StatusError | models.go:48-76 | a nil envelope is an error ("ApiStatus not found"); no error exactly when status is 1, or status is 0 and the message equals "No Jobs Found" ignoring case; InvalidUserPassword exactly for status 3 with "Username or Password is not valid" in the message; InvalidCode exactly for status 0 with "Api Exception" or status 2 with "invalid token"; anything else is the generic error carrying status, message and errors; never AuthExpired, never wrapped |
| Models.NoJobsFoundIsNoException | models.go:62-68 | a message equal to "No Jobs Found" ignoring case never contains "Api Exception", so the order of the two status-0 checks is immaterial |
| Models.FirstQuirk | models.go:54-72 | the index of the first row of the table that matches the status and message, and none only when no row matches |
| Models.StatusErrorIsTableLookup | models.go:48-76 | the if-chain gives the same result as consulting the table of platform quirks in order, with the generic error when no row matches |
| Models.NoJobsFoundNeedsWholeMessage | models.go:66-68 | a status-0 message that only contains "No Jobs Found" among other text is still an error |
| Models.Unmarshalled | models.go:84-126 | the message is never empty; an OAuth shape with a non-empty message wins and gets code 410 exactly when the message contains "archived job"; otherwise a parsed flat shape is copied; otherwise the message is the parse error and the description the bytes it was given; an empty message becomes "Unkown struct type" with those bytes |
| Models.ArchivedJobIsGone | models.go:93-99 | an OAuth message containing "archived job" anywhere gives the status code 410 |
| Models.GrantIsNoArchivedJob | models.go:131-132 | "invalid_grant" does not contain "archived job", so a grant error is never stamped as gone |
| Models.RawBodyKept | models.go:109-124 | when neither shape supplies a message, the description is the bytes `UnmarshalJSON` was given, verbatim |
| Models.Error.constructor | models.go:79-82 | a fresh error object holds the zero value |
| Models.Error.UnmarshalJSON | models.go:84-126 | the object's new value is `Unmarshalled` of its old value and the body, and the call returns nil |
| Models.Err | models.go:128-142 | nil gives nil; "invalid_grant" gives InvalidCode whatever the code, including 401; otherwise 401 gives AuthExpired; anything else is the generic error with code, message and description; the taxonomy values come wrapped in the description; never InvalidUserPassword |
| Net.NormalizedUrl | net.go:82-90 | the result ends in "api" and extends the old URL: empty becomes the production URL, a URL ending in "api" is kept, one ending in "/" gains "api", any other gains "/api" |
| Net.NormalizedUrlIdempotent | net.go:82-90 | normalising twice is normalising once, so a second send leaves the URL alone |
| Net.CanonicalKey | net.go:95 | the key `req.Header.Set` stores: as long as the key given, and a key with a character outside the HTTP token set is kept as it is |
| Net.CanonicalKeyShape | net.go:95 | for a key of token characters, the first character and each one after a '-' are in upper case and every other letter in lower case |
| Net.CanonicalKeyIdempotent | net.go:95 | a canonical header key is its own canonical form |
| Net.CopiedEntry | net.go:95 | a header entry whose key shares its canonical form with no other arrives with its value under the canonical key |
| Net.CopiedKey | net.go:95 | every header key arrives in its canonical form |
| Net.CopiedExactly | net.go:95 | when each entry has a canonical key of its own, the request's headers are exactly the renamed map |
| Net.CopyHeader | net.go:95 | setting every entry of the map on the request, in whatever order Go visits them, leaves one entry per canonical key, each holding the value of some key of that form |
| Net.Header.constructor | jobs.go:65 | `make(map[string]string)`: a header map with no entries |
| Net.Header.Put | net.go:78 | the Go map write `h[key] = value`: the entry holds the value under the key as given (no canonical form) and no other entry changes |
| Net.Classified | net.go:27-63 | a transport error gives no error object; 410 gives a bare object with code 410; above 499 the body text, verbatim, becomes the message with the HTTP status as code; other 4xx statuses hand the text of the JSON value, without the whitespace around it, to `UnmarshalJSON` when the body is well-formed, with the HTTP status filling a code of 0 and a parsed code kept; below 400 there is no error object and the payload is decoded only when wanted; never both an error and an error object |
| Net.JsonValueText | net.go:52 | the text `json.Unmarshal` passes to `UnmarshalJSON`: the slice of the body that starts where the leading JSON whitespace ends, with only JSON whitespace after it, and beginning and ending with a character that is not JSON whitespace |
| Net.JsonValueTextSurrounded | net.go:52 | a value with any JSON whitespace before and after it is passed as exactly the value |
| Net.ErrorBodyOf | net.go:52 | the error body `UnmarshalJSON` sees: the value's text with the body's two error-shape decodings |
| Net.ErrorBodyLosesSurroundingSpace | net.go:50-57 | a 4xx answer other than 410 whose body matches neither error shape is described by the JSON value without the whitespace around it, with "Unkown struct type" and the HTTP status; a body of "{}" and a newline gives the description "{}" |
| Net.ArchivedJobParsed | models.go:93-99 | an error body whose OAuth message mentions an archived job parses to that message, no description and code 410, and `Err` makes the generic error of it |
| Net.ArchivedJobReportsGone | net.go:50-57 | a 4xx answer with an OAuth message about an archived job is reported as 410 whatever the HTTP status, and resolves to a generic error with code 410 |
| Net.SendReply | net.go:92-98 | a refused request is an error naming the path; otherwise finish's reply with the path wrapped around its error |
| Net.Screened | customers.go:56-57 | the order the endpoints read a reply in: the error first, then the error object resolved by `Err`; none exactly when there is neither |
| Net.ServiceWorks.constructor | models.go:155-157 | the client starts with the given URL |
| Net.ServiceWorks.DefaultHeader | net.go:101-105 | a fresh header map holding only the token |
| Net.ServiceWorks.Finish | net.go:27-63 | the reply is `Classified` of the answer; the error object is built fresh and filled by `UnmarshalJSON` |
| Net.ServiceWorks.Send | net.go:69-99 | the URL is normalised in place; "Content-Type" is added to the caller's map exactly when there is a body, and nothing else is; the request goes to URL + "/" + link with the body as given and the map copied onto it; the reply is `SendReply` |
| Customers.CustomersFound | customers.go:56-70 | an error or error object, then a failing envelope, each give no customers; exactly one customer named "No Customer Found", ignoring case, gives none and no error; any other list is returned unchanged |
| Customers.SearchEmptiesOnlyTheSentinel | customers.go:63-70 | a successful search is empty exactly when the platform sent nothing or only the sentinel, and a list of any other length comes back whole |
| Customers.SentinelIgnoresCase | customers.go:64-67 | the sentinel in capitals is still recognised |
| Customers.NewCustomerRequest | customers.go:78-105 | customer type "0", id 0, address type 2 with the given lines, id 0 and empty Lat and Long; names, phone and email copied into the request and its address; IsSendEmail exactly when the email is non-empty, IsSendSms exactly when the phone is non-empty, and the address notify flags mirror them; every field is determined, as `IsCustomerRequest` |
| Customers.CustomerCreated | customers.go:114-126 | an error or error object, then a failing envelope, are returned; an empty list is "not created"; otherwise the first customer and no error; a customer exactly when no error |
| Customers.SearchCustomers | customers.go:41-71 | a GET to Job/GetCustomerSearch with only the token header and no body, read by `CustomersFound`. A request goes out exactly when `http.NewRequestWithContext` does not refuse it. |
| Customers.CreateCustomer | customers.go:74-127 | a POST to Job/AddEditCustomerDetail with the token and JSON content type, read by `CustomerCreated`; the body is fixed in every field by the caller's arguments (`IsCustomerRequest`): type "0", id 0, names, email and phone on the customer and on an address of type 2 with the given lines, and the send and notify flags set exactly when the email or phone is non-empty. A request goes out exactly when `http.NewRequestWithContext` does not refuse it. |
| Jobs.Listed | jobs.go:73-79 | an error or error object gives no records; otherwise the records whatever the envelope says, with the envelope's verdict wrapped in the request/response detail |
| Jobs.NoJobsIsNoError | jobs.go:183-188 | a status-0 envelope gives the records and no error exactly when the message is "No Jobs Found" ignoring case |
| Jobs.Creation | jobs.go:106-121 | JobCreate goes on to scheduling exactly when there is no error, no error object, a passing envelope, a job and an assignment, and then with the first job and its first assignment; otherwise it stops with the envelope error, "no jobs" or "no assignments", wrapped in the detail |
| Jobs.Scheduled | jobs.go:163-168 | an error or error object is returned; otherwise the envelope's verdict wrapped in the detail |
| Jobs.NewJobRequest | jobs.go:89-99 | the request carries the caller's customer, duration, time range, description and target, and AssignTime "TimeRange" |
| Jobs.NewScheduleRequest | jobs.go:134-157 | the trip fields as given, AssignTime "TimeRange", no description, and one technician per employee id in order, the first of them and no other a supervisor |
| Jobs.OneSupervisor | jobs.go:150-157 | no two technicians supervise, and there is a supervisor exactly when there are employee ids |
| Jobs.JobsListTimeRanges | jobs.go:64-80 | a GET to Job/GetTimeRange with the token header, read by `Listed`. A request goes out exactly when `http.NewRequestWithContext` does not refuse it. |
| Jobs.JobUpdate | jobs.go:129-169 | a POST to Job/SaveSchedule of the schedule request, with the token and JSON content type, read by `Scheduled`. A request goes out exactly when `http.NewRequestWithContext` does not refuse it. |
| Jobs.JobCreate | jobs.go:83-126 | the job request is posted first; when `Creation` stops, no job comes back and no schedule is sent; otherwise the first job comes back next to the schedule call's error, and that call is a POST with the token and JSON content type that schedules the first assignment's ticket, trip and trip number for the caller's duration, time range, target and employees; each request goes out exactly when its `http.NewRequestWithContext` does not refuse it; the URL is normalised once |
| Jobs.ListJobs | jobs.go:172-189 | a GET to Job/GetJob with the default header, read by `Listed`. A request goes out exactly when `http.NewRequestWithContext` does not refuse it. |
| Login.Response | login.go:24-35 | a failing envelope is the error with no result; otherwise the token and time zone as sent, the country code in front of the phone number, and the company id as `%d` text |
| Login.CompanyIdRoundTrip | login.go:33 | the company id text reads back as the platform's number, and two results share the text exactly when they share the number |
| Login.CompanyIdText | login.go:33 | company 373 is reported as "373" |
| Login.LoggedIn | login.go:59-62 | the error as it is, then the error object resolved by `Err`, then the envelope; a result exactly when no error |
| Login.WrongPasswordIsReported | login.go:58-62 | a login answered with status 3 and "Username or Password is not valid" anywhere in the message fails with InvalidUserPassword |
| Login.LoginHeaderOnWire | login.go:50-58 | the login request carries exactly the headers Username, Password and Apikey, the canonical forms of the three keys set |
| Login.Login | login.go:48-63 | a POST to Login/LoginWithKey with no body and exactly the three credential headers, so no content type; read by `LoggedIn`. A request goes out exactly when `http.NewRequestWithContext` does not refuse it. |
| Login.RefreshToken | login.go:67-80 | a POST to Login/RefreshToken with the token header and no body, read by `LoggedIn`. A request goes out exactly when `http.NewRequestWithContext` does not refuse it. |

## Left out

- HTTP transport, contexts and cancellation, reading and closing the body, and the refusal of `http.NewRequestWithContext`. These are I/O; they arrive as the `Network` argument.
- `encoding/json`. A body comes with the outcome of every decode the code attempts, and the model does not say how JSON text yields them. The marshalling of request structs is not modelled; it cannot fail for these plain structs, so the bail-out after `json.Marshal` in `send` is left out.
- The JSON text `wrapErr` and `send` wrap around errors. It is the `detail` argument, and the link, respectively.
- The wording of error messages and stack traces from `github.com/pkg/errors`. A `Failure` keeps the cause and the wrapped messages.
- `time.Format` of the targets and date range, and `url.Values.Encode` of query strings. Endpoints take these already formatted.
- Concurrency. `send` writes the shared `Url` field without a lock; the model is sequential.
- The distinction between a nil and an empty slice. Both are the empty sequence.
- Text.EqualFold: folds ASCII letters, the Kelvin sign and the long s. This is exact whenever one side is ASCII, as every comparison here is. Non-ASCII letters compared only with each other are not folded.
- Net.CanonicalKey: covers keys made of token characters and keys with other bytes (kept as they are). It does not model the bytes net/http rejects.
- Net.ArchivedJobReportsGone: states the resolved error only when the HTTP status is not 410, because on a 410 `finish` builds a bare object without reading the body.
- crew.go (`CrewList`) is not part of this model. It reads the reply with the same precedence as `JobsListTimeRanges`, but it returns the envelope error unwrapped, without `wrapErr` (crew.go:48-49).
- The `JobStatus` constants, which no code uses.

/** The dispatcher every call goes through: send prepares the request (body, headers,
    base URL), finish branches on the HTTP status of the answer. The HTTP exchange itself
    is a parameter: whether the request could be built, and what came back. */
module Net {
  import opened Wrappers
  import opened Text
  import opened Models

  const ProductionUrl := "https://apiapp.service.works/api"
  const ContentType := "Content-Type"
  const JsonContentType := "application/json; charset=utf-8"

  /** The base URL send settles on: the production endpoint when none is configured,
      otherwise the configured one ending in "api". */
  function NormalizedUrl(u: string): (r: string)
    ensures HasSuffix(r, "api")
    ensures u == "" ==> r == ProductionUrl
    ensures u != "" ==> HasPrefix(r, u)
    ensures HasSuffix(u, "api") ==> r == u
    ensures u != "" && !HasSuffix(u, "api") ==> r[|u|..] == (if HasSuffix(u, "/") then "api" else "/api")
  {
    if |u| == 0 then ProductionUrl
    else if HasSuffix(u, "api") then u
    else if HasSuffix(u, "/") then u + "api"
    else u + "/api"
  }

  /** Settling the base URL a second time changes nothing. */
  lemma NormalizedUrlIdempotent(u: string)
    ensures NormalizedUrl(NormalizedUrl(u)) == NormalizedUrl(u)
  {
  }

  // How req.Header.Set stores a key: in the canonical form of textproto.CanonicalMIMEHeaderKey.

  predicate IsTokenChar(c: char) {
    ('a' <= c <= 'z') || ('A' <= c <= 'Z') || ('0' <= c <= '9') || c in {'!', '#', '$', '%', '&', '\'', '*', '+', '-', '.', '^', '_', '`', '|', '~'}
  }

  predicate AllToken(s: string) {
    forall i :: 0 <= i < |s| ==> IsTokenChar(s[i])
  }

  function RecaseChar(c: char, upper: bool): char {
    if upper && 'a' <= c <= 'z' then (c as int - 32) as char
    else if !upper && 'A' <= c <= 'Z' then (c as int + 32) as char
    else c
  }

  /** Upper case at the start and after each '-', lower case elsewhere. */
  function Recase(s: string, upper: bool): (r: string)
    ensures |r| == |s|
    decreases |s|
  {
    if s == [] then []
    else
      var c := RecaseChar(s[0], upper);
      [c] + Recase(s[1..], c == '-')
  }

  /** A key made only of token characters is recased; any other is kept as it is. */
  function CanonicalKey(k: string): (c: string)
    ensures |c| == |k|
    ensures !AllToken(k) ==> c == k
  {
    if AllToken(k) then Recase(k, true) else k
  }

  /** Character by character: the case of each character is set by whether it starts the
      text or follows a '-' of the result. */
  lemma {:induction false} RecaseShape(s: string, upper: bool)
    ensures var r := Recase(s, upper);
      && (s != [] ==> r[0] == RecaseChar(s[0], upper))
      && forall i :: 0 < i < |s| ==> r[i] == RecaseChar(s[i], r[i - 1] == '-')
    decreases |s|
  {
    if s != [] {
      var c := RecaseChar(s[0], upper);
      var r := Recase(s, upper);
      var rest := Recase(s[1..], c == '-');
      assert r == [c] + rest;
      RecaseShape(s[1..], c == '-');
      forall i | 0 < i < |s| ensures r[i] == RecaseChar(s[i], r[i - 1] == '-') {
        assert r[i] == rest[i - 1] && s[i] == s[1..][i - 1];
        if i > 1 {
          assert r[i - 1] == rest[i - 2];
        }
      }
    }
  }

  /** textproto.CanonicalMIMEHeaderKey on a key of token characters: the first character
      and each one after a '-' in upper case, every other letter in lower case. */
  lemma CanonicalKeyShape(k: string)
    requires AllToken(k)
    ensures var c := CanonicalKey(k);
      && (k != [] ==> c[0] == RecaseChar(k[0], true))
      && forall i :: 0 < i < |k| ==> c[i] == RecaseChar(k[i], c[i - 1] == '-')
  {
    RecaseShape(k, true);
  }

  lemma {:induction false} RecaseIdempotent(s: string, upper: bool)
    ensures Recase(Recase(s, upper), upper) == Recase(s, upper)
    ensures AllToken(s) ==> AllToken(Recase(s, upper))
    decreases |s|
  {
    if s != [] {
      var c := RecaseChar(s[0], upper);
      var r := Recase(s, upper);
      assert r[1..] == Recase(s[1..], c == '-');
      RecaseIdempotent(s[1..], c == '-');
      if AllToken(s) {
        assert AllToken(s[1..]) by {
          forall i | 0 <= i < |s[1..]| ensures IsTokenChar(s[1..][i]) {
            assert s[1..][i] == s[i + 1];
          }
        }
        forall i | 0 <= i < |r| ensures IsTokenChar(r[i]) {
          if i > 0 {
            assert r[i] == r[1..][i - 1];
          }
        }
      }
    }
  }

  /** A canonical key is its own canonical form. */
  lemma CanonicalKeyIdempotent(k: string)
    ensures CanonicalKey(CanonicalKey(k)) == CanonicalKey(k)
  {
    RecaseIdempotent(k, true);
  }

  /** `r` holds what setting every entry of `h` in some order leaves: one entry per
      canonical key of `h`, each with the value of some key of `h` of that form. */
  ghost predicate CopiedFrom(h: map<string, string>, r: map<string, string>) {
    && r.Keys == (set k | k in h :: CanonicalKey(k))
    && forall c :: c in r ==> exists k :: k in h && CanonicalKey(k) == c && r[c] == h[k]
  }

  /** When no other key of `h` shares its canonical form, an entry arrives unchanged. */
  lemma CopiedEntry(h: map<string, string>, r: map<string, string>, k: string)
    requires CopiedFrom(h, r) && k in h
    requires forall k' :: k' in h && CanonicalKey(k') == CanonicalKey(k) ==> k' == k
    ensures CanonicalKey(k) in r && r[CanonicalKey(k)] == h[k]
  {
  }

  /** Every key of `h` arrives in its canonical form. */
  lemma CopiedKey(h: map<string, string>, r: map<string, string>, k: string)
    requires CopiedFrom(h, r) && k in h
    ensures CanonicalKey(k) in r
  {
  }

  /** When `t` holds each entry of `h` under its canonical key and nothing else, and no two
      keys of `h` share a canonical form, the copy is exactly `t`. */
  lemma CopiedExactly(h: map<string, string>, r: map<string, string>, t: map<string, string>)
    requires CopiedFrom(h, r)
    requires forall k :: k in h ==> CanonicalKey(k) in t && t[CanonicalKey(k)] == h[k]
    requires forall c :: c in t ==> exists k :: k in h && CanonicalKey(k) == c
    ensures r == t
  {
    forall c | c in r
      ensures c in t && r[c] == t[c]
    {
      var k :| k in h && CanonicalKey(k) == c && r[c] == h[k];
    }
    forall c | c in t
      ensures c in r
    {
      var k :| k in h && CanonicalKey(k) == c;
    }
  }

  /** A Go map[string]string; Go maps are references, so send's write is seen by its caller. */
  class Header {
    var entries: map<string, string>

    constructor ()
      ensures entries == map[]
    {
      entries := map[];
    }

    /** The Go map write `h[key] = value`: the key is stored exactly as given. Canonical keys
        are made only where send copies the map into the request (see CopyHeader). */
    method Put(key: string, value: string)
      modifies this
      ensures entries == old(entries)[key := value]
    {
      entries := entries[key := value];
    }
  }

  /** The request handed to the transport. */
  datatype Request<B> = Request(verb: string, url: string, header: map<string, string>, body: Option<B>)

  // What json.Unmarshal hands to an UnmarshalJSON method: the bytes of the top-level value,
  // without the whitespace JSON allows before and after it.

  predicate IsJsonSpace(c: char) {
    c == ' ' || c == '\t' || c == '\n' || c == '\r'
  }

  predicate AllJsonSpace(s: string) {
    forall i :: 0 <= i < |s| ==> IsJsonSpace(s[i])
  }

  /** Drop the leading whitespace. */
  function TrimStart(s: string): (r: string)
    ensures |r| <= |s| && r == s[|s| - |r|..]
    ensures forall k :: 0 <= k < |s| - |r| ==> IsJsonSpace(s[k])
    ensures r == [] || !IsJsonSpace(r[0])
    decreases |s|
  {
    if s != [] && IsJsonSpace(s[0]) then TrimStart(s[1..]) else s
  }

  /** Drop the trailing whitespace. */
  function TrimEnd(s: string): (r: string)
    ensures |r| <= |s| && r == s[..|r|]
    ensures forall k :: |r| <= k < |s| ==> IsJsonSpace(s[k])
    ensures r == [] || !IsJsonSpace(r[|r| - 1])
    ensures s != [] && !IsJsonSpace(s[0]) ==> r != []
    decreases |s|
  {
    if s != [] && IsJsonSpace(s[|s| - 1]) then TrimEnd(s[..|s| - 1]) else s
  }

  /** The text of a document's top-level value: it stands at the index where the leading
      whitespace ends, only whitespace follows it, and it begins and ends with no whitespace. */
  function JsonValueText(text: string): (v: string)
    ensures var i := |text| - |TrimStart(text)|;
      && i + |v| <= |text| && v == text[i..i + |v|]
      && (forall k :: 0 <= k < i ==> IsJsonSpace(text[k]))
      && (forall k :: i + |v| <= k < |text| ==> IsJsonSpace(text[k]))
    ensures v == [] || (!IsJsonSpace(v[0]) && !IsJsonSpace(v[|v| - 1]))
  {
    TrimEnd(TrimStart(text))
  }

  lemma {:induction false} TrimStartSpace(pre: string, rest: string)
    requires AllJsonSpace(pre) && (rest == [] || !IsJsonSpace(rest[0]))
    ensures TrimStart(pre + rest) == rest
    decreases |pre|
  {
    if pre != [] {
      assert (pre + rest)[1..] == pre[1..] + rest;
      TrimStartSpace(pre[1..], rest);
    } else {
      assert pre + rest == rest;
    }
  }

  lemma {:induction false} TrimEndSpace(rest: string, post: string)
    requires AllJsonSpace(post) && (rest == [] || !IsJsonSpace(rest[|rest| - 1]))
    ensures TrimEnd(rest + post) == rest
    decreases |post|
  {
    if post != [] {
      assert (rest + post)[..|rest + post| - 1] == rest + post[..|post| - 1];
      TrimEndSpace(rest, post[..|post| - 1]);
    } else {
      assert rest + post == rest;
    }
  }

  /** Whatever whitespace surrounds a value, the value's text is exactly what is left. */
  lemma JsonValueTextSurrounded(pre: string, value: string, post: string)
    requires AllJsonSpace(pre) && AllJsonSpace(post)
    requires value != [] && !IsJsonSpace(value[0]) && !IsJsonSpace(value[|value| - 1])
    ensures JsonValueText(pre + value + post) == value
  {
    assert pre + value + post == pre + (value + post);
    TrimStartSpace(pre, value + post);
    TrimEndSpace(value, post);
  }

  /** An answer's body: its text verbatim; what decoding its value as each of the two error
      shapes yields; whether it is syntactically JSON at all; and what decoding it into the
      caller's destination yields. */
  datatype ResponseBody<T> = ResponseBody(text: string, asOAuth: Decoded<string>, asFlat: Decoded<FlatError>,
                                          wellFormed: bool, asOut: Decoded<T>)

  /** What Error.UnmarshalJSON receives from json.Unmarshal for such a body. */
  function ErrorBodyOf<T>(body: ResponseBody<T>): (b: ErrorBody)
    ensures b.asOAuth == body.asOAuth && b.asFlat == body.asFlat
    ensures b.raw == JsonValueText(body.text)
  {
    ErrorBody(JsonValueText(body.text), body.asOAuth, body.asFlat)
  }

  /** What http.DefaultClient.Do gives back. */
  datatype Transport<T> = TransportError(reason: string) | Response(status: int, body: ResponseBody<T>)

  /** The HTTP stack's part of a call: a reason http.NewRequestWithContext rejects the
      request, if it does, and otherwise the outcome of sending it. */
  datatype Network<T> = Network(rejected: Option<string>, transport: Transport<T>)

  /** What finish and send return: the error object, the error, and the decoded payload. */
  datatype Reply<T> = Reply(errObj: Option<ErrorInfo>, err: Option<Failure>, out: Option<T>)

  /** The body most calls decode: the envelope next to a list of records
      (Data, Jobs or Data.Customers, depending on the call). */
  datatype ListResponse<X> = ListResponse(apiStatus: ApiStatus, items: seq<X>)

  /** A reply that reports no error carries its payload. */
  predicate Complete<T>(r: Reply<T>) {
    r.err.None? && r.errObj.None? ==> r.out.Some?
  }

  /** finish, as a function of the answer: 410 is a bare "gone" object; above 499 the body
      is the message, verbatim; from 400 a well-formed body's value is parsed as an error body and the HTTP
      status fills in a missing code; below 400 the payload is decoded when wanted. */
  function Classified<T>(t: Transport<T>, wantOut: bool): (r: Reply<T>)
    ensures !(r.errObj.Some? && r.err.Some?)
    ensures r.errObj.Some? ==> r.out.None?
    ensures wantOut ==> Complete(r)
    ensures t.TransportError? ==> r == Reply(None, Some(New(Transport(t.reason))), None)
    ensures r.errObj.Some? <==> t.Response? && t.status >= 400
    ensures r.errObj.Some? ==> r.errObj.value.statusCode != 0
    ensures t.Response? && t.status == StatusGone ==> r.errObj == Some(ErrorInfo("", "", StatusGone))
    ensures t.Response? && t.status >= 500 ==> r.errObj == Some(ErrorInfo(t.body.text, "", t.status))
    ensures t.Response? && 400 <= t.status < 500 && t.status != StatusGone ==>
      var parsed := if t.body.wellFormed then Unmarshalled(ErrorInfo("", "", 0), ErrorBodyOf(t.body)) else ErrorInfo("", "", 0);
      r.errObj == Some(parsed.(statusCode := if parsed.statusCode == 0 then t.status else parsed.statusCode))
    ensures t.Response? && t.status < 400 ==>
      && (r.out.Some? <==> wantOut && t.body.asOut.Decoded?)
      && (r.out.Some? ==> r.out.value == t.body.asOut.value)
      && (r.err.Some? <==> wantOut && t.body.asOut.DecodeError?)
      && (r.err.Some? ==> r.err.value == New(Transport(t.body.asOut.text)))
  {
    match t
    case TransportError(reason) => Reply(None, Some(New(Transport(reason))), None)
    case Response(status, body) =>
      if status == StatusGone then Reply(Some(ErrorInfo("", "", StatusGone)), None, None)
      else if status > 499 then Reply(Some(ErrorInfo(body.text, "", status)), None, None)
      else if status > 399 then
        var parsed := if body.wellFormed then Unmarshalled(ErrorInfo("", "", 0), ErrorBodyOf(body)) else ErrorInfo("", "", 0);
        Reply(Some(if parsed.statusCode == 0 then parsed.(statusCode := status) else parsed), None, None)
      else if !wantOut then Reply(None, None, None)
      else match body.asOut
        case Decoded(v) => Reply(None, None, Some(v))
        case DecodeError(text) => Reply(None, Some(New(Transport(text))), None)
  }

  /** A client error whose body is an OAuth message about an archived job is reported as
      gone (410), whatever the HTTP status was; Err then reports that code. */
  lemma ArchivedJobReportsGone<T>(status: int, text: string, pre: string, post: string,
                                  flat: Decoded<FlatError>, out: Decoded<T>, wantOut: bool)
    requires 400 <= status < 500
    ensures var body := ResponseBody(text, Decoded(pre + ArchivedJob + post), flat, true, out);
      var r := Classified(Response(status, body), wantOut);
      r.errObj.Some? && r.errObj.value.statusCode == StatusGone &&
      (status != StatusGone ==> Err(r.errObj).value.cause == ServiceError(StatusGone, pre + ArchivedJob + post, ""))
  {
    var body := ResponseBody(text, Decoded(pre + ArchivedJob + post), flat, true, out);
    ArchivedJobParsed(ErrorBodyOf(body), pre, post);
  }

  /** The error object parsed from any error body whose OAuth message mentions an archived
      job, and the error Err makes of it. */
  lemma ArchivedJobParsed(eb: ErrorBody, pre: string, post: string)
    requires eb.asOAuth == Decoded(pre + ArchivedJob + post)
    ensures Unmarshalled(ErrorInfo("", "", 0), eb) == ErrorInfo(pre + ArchivedJob + post, "", StatusGone)
    ensures Err(Some(ErrorInfo(pre + ArchivedJob + post, "", StatusGone))).value.cause
            == ServiceError(StatusGone, pre + ArchivedJob + post, "")
  {
    var message := pre + ArchivedJob + post;
    ContainsInfix(pre, ArchivedJob, post);
    GrantIsNoArchivedJob();
    assert message != InvalidGrant;
  }

  /** A client error's description holds the JSON value alone: when neither error shape
      yields a message, the whitespace around the value is not part of the description. */
  lemma ErrorBodyLosesSurroundingSpace<T>(pre: string, value: string, post: string, status: int,
                                          out: Decoded<T>, wantOut: bool)
    requires AllJsonSpace(pre) && AllJsonSpace(post)
    requires value != [] && !IsJsonSpace(value[0]) && !IsJsonSpace(value[|value| - 1])
    requires 400 <= status < 500 && status != StatusGone
    ensures var body := ResponseBody(pre + value + post, Decoded(""), Decoded(FlatError("", "", 0)), true, out);
      Classified(Response(status, body), wantOut).errObj == Some(ErrorInfo(UnknownShape, value, status))
  {
    JsonValueTextSurrounded(pre, value, post);
  }

  /** send's reply: a rejected request is an error naming the path; otherwise finish's
      reply with the path wrapped around its error. */
  function SendReply<T>(n: Network<T>, wantOut: bool, link: string): (r: Reply<T>)
    ensures !(r.errObj.Some? && r.err.Some?)
    ensures wantOut ==> Complete(r)
    ensures n.rejected.Some? ==> r == Reply(None, Some(Failure(Transport(n.rejected.value), [link])), None)
    ensures n.rejected.None? ==>
      var c := Classified(n.transport, wantOut);
      r.errObj == c.errObj && r.out == c.out && r.err == Wrap(c.err, link)
  {
    if n.rejected.Some? then Reply(None, Some(Failure(Transport(n.rejected.value), [link])), None)
    else
      var c := Classified(n.transport, wantOut);
      c.(err := Wrap(c.err, link))
  }

  /** The order every endpoint reads a reply in: the error first, then the error object. */
  function Screened<T>(r: Reply<T>): (f: Option<Failure>)
    ensures f.None? <==> r.err.None? && r.errObj.None?
    ensures r.err.Some? ==> f == r.err
    ensures r.err.None? ==> f == Err(r.errObj)
  {
    if r.err.Some? then r.err else Err(r.errObj)
  }

  /** The loop that sets every entry of the header map on the request; Go visits the keys
      in an unspecified order, modelled by picking any key not yet visited. */
  method CopyHeader(h: map<string, string>) returns (r: map<string, string>)
    ensures CopiedFrom(h, r)
  {
    var remaining := h.Keys;
    r := map[];
    while remaining != {}
      invariant remaining <= h.Keys
      invariant r.Keys == (set k | k in h.Keys - remaining :: CanonicalKey(k))
      invariant forall c :: c in r ==> exists k :: k in h.Keys - remaining && CanonicalKey(k) == c && r[c] == h[k]
      decreases |remaining|
    {
      var key :| key in remaining;
      ghost var before := r;
      r := r[CanonicalKey(key) := h[key]];
      remaining := remaining - {key};
      forall c | c in r
        ensures exists k :: k in h.Keys - remaining && CanonicalKey(k) == c && r[c] == h[k]
      {
        if c != CanonicalKey(key) {
          assert c in before;
          var k :| k in h.Keys - (remaining + {key}) && CanonicalKey(k) == c && before[c] == h[k];
          assert k in h.Keys - remaining;
        } else {
          assert key in h.Keys - remaining;
        }
      }
    }
  }

  /** ServiceWorks: the client; its only state is the base URL. */
  class ServiceWorks {
    var url: string

    constructor (url: string)
      ensures this.url == url
    {
      this.url := url;
    }

    /** defaultHeader: a fresh header map holding the session token. */
    method DefaultHeader(token: string) returns (header: Header)
      ensures fresh(header) && header.entries == map["Token" := token]
    {
      header := new Header();
      header.Put("Token", token);
    }

    /** finish: branch on the answer's status; the error object is built fresh and, for a
        client error with a JSON body, filled by Error.UnmarshalJSON. */
    method Finish<T>(transport: Transport<T>, wantOut: bool) returns (reply: Reply<T>)
      ensures reply == Classified(transport, wantOut)
    {
      match transport
      case TransportError(reason) =>
        reply := Reply(None, Some(New(Transport(reason))), None);
      case Response(status, body) =>
        if status == StatusGone {
          var errObj := new Error();
          errObj.statusCode := status;
          reply := Reply(Some(errObj.Value()), None, None);
        } else if status > 499 {
          var errObj := new Error();
          errObj.errMsg := body.text;
          errObj.statusCode := status;
          reply := Reply(Some(errObj.Value()), None, None);
        } else if status > 399 {
          var errObj := new Error();
          if body.wellFormed {
            var _ := errObj.UnmarshalJSON(ErrorBodyOf(body));
          }
          if errObj.statusCode == 0 {
            errObj.statusCode := status;
          }
          reply := Reply(Some(errObj.Value()), None, None);
        } else if wantOut {
          match body.asOut
          case Decoded(v) =>
            reply := Reply(None, None, Some(v));
          case DecodeError(text) =>
            reply := Reply(None, Some(New(Transport(text))), None);
        } else {
          reply := Reply(None, None, None);
        }
    }

    /** send: with a body, add the JSON content type to the caller's header map; settle
        the base URL; build the request for base URL + "/" + link with every header
        entry set on it; hand it to finish. */
    method Send<B, T>(verb: string, link: string, header: Header, input: Option<B>, wantOut: bool,
                      network: Network<T>)
      returns (reply: Reply<T>, sent: Option<Request<B>>)
      modifies this, header
      ensures url == NormalizedUrl(old(url))
      ensures header.entries == if input.Some? then old(header.entries)[ContentType := JsonContentType]
                                else old(header.entries)
      ensures reply == SendReply(network, wantOut, link)
      ensures sent.Some? <==> network.rejected.None?
      ensures sent.Some? ==>
        && sent.value.verb == verb
        && sent.value.url == url + "/" + link
        && sent.value.body == input
        && CopiedFrom(header.entries, sent.value.header)
    {
      if input.Some? {
        header.Put(ContentType, JsonContentType);
      }

      if |url| == 0 {
        url := ProductionUrl;
      } else if !HasSuffix(url, "api") {
        if HasSuffix(url, "/") {
          url := url + "api";
        } else {
          url := url + "/api";
        }
      }

      if network.rejected.Some? {
        reply := Reply(None, Some(Failure(Transport(network.rejected.value), [link])), None);
        sent := None;
        return;
      }

      var onWire := CopyHeader(header.entries);
      sent := Some(Request(verb, url + "/" + link, onWire, input));
      var finished := Finish(network.transport, wantOut);
      reply := finished.(err := Wrap(finished.err, link));
    }
  }
}

/** Logging in with an API key and refreshing the session token (login.go). */
module Login {
  import opened Wrappers
  import opened Text
  import opened Models
  import opened Net

  const LoginPath := "Login/LoginWithKey"
  const RefreshPath := "Login/RefreshToken"

  /** respLogin: the envelope and the session fields, as the platform sends them. */
  datatype LoginResponse = LoginResponse(
    apiStatus: ApiStatus, companyId: int,
    token: string, phone: string, phoneCode: string, email: string, timeZoneName: string)

  /** RespLogin: what callers get back. */
  datatype LoginResult = LoginResult(token: string, phone: string, timeZoneName: string, companyId: string)

  /** respLogin.response: a failing envelope is the error; otherwise the token and time zone
      as sent, the phone number behind its country code, and the company id as decimal text. */
  function Response(resp: LoginResponse): (r: (Option<LoginResult>, Option<Failure>))
    ensures r.0.Some? <==> r.1.None?
    ensures r.1.None? <==> StatusError(Some(resp.apiStatus)).None?
    ensures r.1.Some? ==> r.1 == StatusError(Some(resp.apiStatus))
    ensures r.0.Some? ==>
      && r.0.value.token == resp.token && r.0.value.timeZoneName == resp.timeZoneName
      && HasPrefix(r.0.value.phone, resp.phoneCode) && r.0.value.phone[|resp.phoneCode|..] == resp.phone
      && r.0.value.companyId == Decimal(resp.companyId)
  {
    var err := StatusError(Some(resp.apiStatus));
    if err.Some? then (None, err)
    else (Some(LoginResult(resp.token, resp.phoneCode + resp.phone, resp.timeZoneName, Decimal(resp.companyId))), None)
  }

  /** The company id loses nothing on the way: reading the text back gives the platform's
      number, and two logins share the text only when they share the number. */
  lemma CompanyIdRoundTrip(resp: LoginResponse, other: LoginResponse)
    requires Response(resp).0.Some? && Response(other).0.Some?
    ensures var s := Response(resp).0.value.companyId;
      |s| > 0 && (if s[0] == '-' then AllDigits(s[1..]) else AllDigits(s)) && ParseDecimal(s) == resp.companyId
    ensures Response(resp).0.value.companyId == Response(other).0.value.companyId <==> resp.companyId == other.companyId
  {
    DecimalRoundTrip(resp.companyId);
    if Decimal(resp.companyId) == Decimal(other.companyId) {
      DecimalInjective(resp.companyId, other.companyId);
    }
  }

  /** Company 373 is reported as "373". */
  lemma CompanyIdText(resp: LoginResponse)
    requires resp.apiStatus.status == 1 && resp.companyId == 373
    ensures Response(resp).0.Some? && Response(resp).0.value.companyId == "373"
  {
    assert Decimal(373) == NatText(37) + [Digit(3)];
  }

  /** Login and RefreshToken after send: the error, then the error object, then the envelope. */
  function LoggedIn(r: Reply<LoginResponse>): (res: (Option<LoginResult>, Option<Failure>))
    requires Complete(r)
    ensures res.0.Some? <==> res.1.None?
    ensures Screened(r).Some? ==> res == (None, Screened(r))
    ensures Screened(r).None? ==> res == Response(r.out.value)
  {
    if Screened(r).Some? then (None, Screened(r)) else Response(r.out.value)
  }

  /** A login the platform answers with status 3 and the bad-credentials message, anywhere in
      the message, is reported as a wrong user name or password. */
  lemma WrongPasswordIsReported(pre: string, post: string, errors: string, resp: LoginResponse,
                                text: string, oauth: Decoded<string>, flat: Decoded<FlatError>)
    requires resp.apiStatus == ApiStatus(3, pre + BadCredentials + post, errors)
    ensures
      var n := Network(None, Transport.Response(200, ResponseBody(text, oauth, flat, true, Decoded(resp))));
      LoggedIn(SendReply(n, true, LoginPath)) == (None, Some(New(InvalidUserPassword)))
  {
    ContainsInfix(pre, BadCredentials, post);
  }

  // The canonical forms of the three login header keys, one at a time.

  lemma UserNameCanonical()
    ensures CanonicalKey("UserName") == "Username"
  {
    assert AllToken("UserName");
    assert Recase("UserName", true) == "Username";
  }

  lemma PasswordCanonical()
    ensures CanonicalKey("Password") == "Password"
  {
    assert AllToken("Password");
    assert Recase("Password", true) == "Password";
  }

  lemma ApiKeyCanonical()
    ensures CanonicalKey("ApiKey") == "Apikey"
  {
    assert AllToken("ApiKey");
    assert Recase("ApiKey", true) == "Apikey";
  }

  /** Each login header key lands on its canonical form with its value. */
  lemma LoginKeyLands(username: string, password: string, apikey: string, k: string)
    requires k in map["UserName" := username, "Password" := password, "ApiKey" := apikey]
    ensures var target := map["Username" := username, "Password" := password, "Apikey" := apikey];
      CanonicalKey(k) in target &&
      target[CanonicalKey(k)] == map["UserName" := username, "Password" := password, "ApiKey" := apikey][k]
  {
    if k == "UserName" {
      UserNameCanonical();
    } else if k == "Password" {
      PasswordCanonical();
    } else {
      ApiKeyCanonical();
    }
  }

  /** The login headers as they go on the wire: net/http writes each key in its canonical
      form, which lower-cases the inner capitals of UserName and ApiKey. */
  lemma LoginHeaderOnWire(username: string, password: string, apikey: string, wire: map<string, string>)
    requires CopiedFrom(map["UserName" := username, "Password" := password, "ApiKey" := apikey], wire)
    ensures wire == map["Username" := username, "Password" := password, "Apikey" := apikey]
  {
    var h := map["UserName" := username, "Password" := password, "ApiKey" := apikey];
    var target := map["Username" := username, "Password" := password, "Apikey" := apikey];
    forall k | k in h
      ensures CanonicalKey(k) in target && target[CanonicalKey(k)] == h[k]
    {
      LoginKeyLands(username, password, apikey, k);
    }
    forall c | c in target
      ensures exists k :: k in h && CanonicalKey(k) == c
    {
      if c == "Username" {
        UserNameCanonical();
        assert "UserName" in h;
      } else if c == "Password" {
        PasswordCanonical();
        assert "Password" in h;
      } else {
        ApiKeyCanonical();
        assert "ApiKey" in h;
      }
    }
    CopiedExactly(h, wire, target);
  }

  /** Login: POST the credentials as headers, with no body. */
  method Login(sw: ServiceWorks, username: string, password: string, apikey: string,
               network: Network<LoginResponse>)
    returns (result: Option<LoginResult>, err: Option<Failure>, sent: Option<Request<()>>)
    modifies sw
    ensures sw.url == NormalizedUrl(old(sw.url))
    ensures (result, err) == LoggedIn(SendReply(network, true, LoginPath))
    ensures sent.Some? <==> network.rejected.None?
    ensures sent.Some? ==>
      && sent.value.verb == "POST" && sent.value.url == sw.url + "/" + LoginPath && sent.value.body.None?
      && sent.value.header == map["Username" := username, "Password" := password, "Apikey" := apikey]
  {
    var header := new Header();
    header.Put("UserName", username);
    header.Put("Password", password);
    header.Put("ApiKey", apikey);

    var reply;
    reply, sent := sw.Send("POST", LoginPath, header, None, true, network);
    if sent.Some? {
      LoginHeaderOnWire(username, password, apikey, sent.value.header);
    }
    result, err := LoggedIn(reply).0, LoggedIn(reply).1;
  }

  /** RefreshToken: trade the current token for a new session. */
  method RefreshToken(sw: ServiceWorks, token: string, network: Network<LoginResponse>)
    returns (result: Option<LoginResult>, err: Option<Failure>, sent: Option<Request<()>>)
    modifies sw
    ensures sw.url == NormalizedUrl(old(sw.url))
    ensures (result, err) == LoggedIn(SendReply(network, true, RefreshPath))
    ensures sent.Some? <==> network.rejected.None?
    ensures sent.Some? ==>
      && sent.value.verb == "POST" && sent.value.url == sw.url + "/" + RefreshPath && sent.value.body.None?
      && CopiedFrom(map["Token" := token], sent.value.header)
  {
    var header := new Header();
    header.Put("Token", token);

    var reply;
    reply, sent := sw.Send("POST", RefreshPath, header, None, true, network);
    result, err := LoggedIn(reply).0, LoggedIn(reply).1;
  }
}

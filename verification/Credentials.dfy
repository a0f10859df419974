/** Basic credentials of the HTTP proxy: HTTPServer.authenticate (http.go) and Valid (routine.go). */
module Credentials {
  import opened Text
  import Codec

  const COLON: Byte := 58

  type Secret = seq<Byte>

  /** Nil, or the status of the refusal. */
  datatype Verdict = Accepted | ProxyAuthRequired | NotAcceptable | LengthRequired | Unauthorized

  /** Two constant-time comparisons, both of which must succeed. */
  predicate Valid(username: Secret, password: Secret, u: Secret, p: Secret) {
    username == u && password == p
  }

  function TrimBasic(header: string): string {
    if "Basic " <= header then header[6..] else header
  }

  /** `header` is the Proxy-Authorization header, empty when there is none. */
  function Authenticate(required: bool, username: Secret, password: Secret, header: string): Verdict {
    if !required then Accepted
    else if header == "" then ProxyAuthRequired
    else
      match Codec.Decode(TrimBasic(header))
      case None => NotAcceptable
      case Some(str) =>
        match Cut(str, COLON)
        case None => LengthRequired
        case Some((u, p)) => if Valid(username, password, u, p) then Accepted else Unauthorized
  }

  /** user-pass of section 2 of RFC 7617 */
  function UserPass(u: Secret, p: Secret): Secret {
    u + [COLON] + p
  }

  /** The credentials a client sends, by section 2 of RFC 7617. */
  function Header(u: Secret, p: Secret): string {
    "Basic " + Codec.Encode(UserPass(u, p))
  }

  /** For every header whatsoever: what is accepted is the configured pair and nothing else. */
  lemma AcceptedExactly(username: Secret, password: Secret, header: string)
    ensures Authenticate(true, username, password, header).Accepted? <==>
            && header != "" && COLON !in username
            && Codec.Decode(TrimBasic(header)) == Some(UserPass(username, password))
  {
    match Codec.Decode(TrimBasic(header))
    case None =>
    case Some(str) =>
      CutJoins(str, COLON);
      if COLON !in username {
        CutAtFirst(username, COLON, password);
      }
  }

  /** A client's header is accepted exactly when both parts are the configured ones. */
  lemma HeaderAcceptedExactly(username: Secret, password: Secret, u: Secret, p: Secret)
    requires COLON !in u
    ensures Authenticate(true, username, password, Header(u, p)).Accepted? <==> u == username && p == password
  {
    var header := Header(u, p);
    Codec.RoundTrip(UserPass(u, p));
    assert TrimBasic(header) == Codec.Encode(UserPass(u, p));
    AcceptedExactly(username, password, header);
    CutAtFirst(u, COLON, p);
    if COLON !in username {
      CutAtFirst(username, COLON, password);
    }
  }

  /** A configured user name with a colon in it can never log in. */
  lemma ColonInUserNameLocksOut(username: Secret, password: Secret, header: string)
    requires COLON in username
    ensures !Authenticate(true, username, password, header).Accepted?
  {
    AcceptedExactly(username, password, header);
  }

  /** Without configured credentials nobody is asked; with them a request without a header is refused as such. */
  lemma OnlyConfiguredProxiesAsk(username: Secret, password: Secret, header: string)
    ensures Authenticate(false, username, password, header).Accepted?
    ensures Authenticate(true, username, password, header).ProxyAuthRequired? <==> header == ""
  {
  }

  /** The scheme may be left out: the header means what stands after it, or all of it. */
  lemma SchemeIsOptional(username: Secret, password: Secret, text: string)
    requires text != "" && !("Basic " <= text)
    ensures Authenticate(true, username, password, text) == Authenticate(true, username, password, "Basic " + text)
  {
    assert ("Basic " + text)[6..] == text;
  }

  /**
    Which refusal says what, for everything a client may send after the scheme: text that is not
    base64; credentials without a colon; credentials, split at their first colon, that are not the
    configured ones.
   */
  lemma RefusalTellsWhy(username: Secret, password: Secret, text: string)
    ensures var v := Authenticate(true, username, password, "Basic " + text);
            && (v.NotAcceptable? <==> Codec.Decode(text).None?)
            && (v.LengthRequired? <==> Codec.Decode(text).Some? && COLON !in Codec.Decode(text).value)
            && (forall u: Secret, p: Secret | COLON !in u && Codec.Decode(text) == Some(u + [COLON] + p) ::
                  if u == username && p == password then v.Accepted? else v.Unauthorized?)
  {
    assert ("Basic " + text)[6..] == text;
    match Codec.Decode(text)
    case None =>
    case Some(str) =>
      CutJoins(str, COLON);
      forall u: Secret, p: Secret | COLON !in u && str == u + [COLON] + p
        ensures Cut(str, COLON) == Some((u, p))
      {
        CutAtFirst(u, COLON, p);
      }
  }
}

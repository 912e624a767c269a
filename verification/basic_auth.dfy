/**
  * Credential injection for the upstream hop: every forwarded request gets a
  * `Proxy-Authorization` header (RFC 7235 section 4.4) carrying the Basic
  * scheme of RFC 7617 section 2 for the configured user name and password.
  */
module BasicAuth {
  import opened Wrappers
  import opened Bytes
  import Base64

  /** Go's `http.Header`: each header name holds a list of values. */
  type Header = map<string, seq<string>>

  const ProxyAuthorization: string := "Proxy-Authorization"
  const BasicPrefix: string := "Basic "

  /** The byte ':' that separates user name and password. */
  const Colon: byte := Ascii(':')

  /**
    * Go's `Header.Set`: the name's values are replaced by the one value and
    * every other name is left alone.  The names used here are already in
    * canonical MIME form, so Go's key canonicalisation changes nothing.
    */
  function SetHeader(h: Header, name: string, value: string): (r: Header)
    ensures r.Keys == h.Keys + {name}
    ensures r[name] == [value]
    ensures forall k :: k in h && k != name ==> r[k] == h[k]
  {
    h[name := [value]]
  }

  /** The user-pass of RFC 7617 section 2: user name, a colon, password. */
  function UserPass(user: seq<byte>, pass: seq<byte>): seq<byte> {
    user + [Colon] + pass
  }

  /** The value `fmt.Sprintf("Basic %s", base64(user + ":" + pass))`. */
  function BasicCredentials(user: seq<byte>, pass: seq<byte>): (v: string)
    ensures |v| == |BasicPrefix| + 4 * ((|user| + |pass| + 3) / 3)
    ensures v[..|BasicPrefix|] == BasicPrefix
    ensures forall i :: |BasicPrefix| <= i < |v| ==> Base64.IsEncodingChar(v[i])
  {
    BasicPrefix + Base64.Encode(UserPass(user, pass))
  }

  /** The first position of the colon in `s`, if any. */
  function FirstColon(s: seq<byte>): (r: Option<nat>)
    ensures r.Some? ==> r.value < |s| && s[r.value] == Colon && Colon !in s[..r.value]
    ensures r.None? ==> Colon !in s
  {
    if s == [] then None
    else if s[0] == Colon then Some(0)
    else match FirstColon(s[1..])
      case None => None
      case Some(i) => assert s[..i + 1] == [s[0]] + s[1..][..i]; Some(i + 1)
  }

  /**
    * What an upstream proxy recovers from the header value: strip the scheme,
    * decode the base64 and split at the first colon (RFC 7617 section 2).
    */
  function ParseBasicCredentials(v: string): Option<(seq<byte>, seq<byte>)> {
    if |v| < |BasicPrefix| || v[..|BasicPrefix|] != BasicPrefix then None
    else match Base64.Decode(v[|BasicPrefix|..])
      case None => None
      case Some(b) =>
        match FirstColon(b)
        case None => None
        case Some(i) => Some((b[..i], b[i + 1..]))
  }

  /** The header value carries exactly the user-pass bytes: decoding its payload gives them back. */
  lemma CredentialsDecode(user: seq<byte>, pass: seq<byte>)
    ensures var v := BasicCredentials(user, pass);
            Base64.Decode(v[|BasicPrefix|..]) == Some(UserPass(user, pass))
  {
    var v := BasicCredentials(user, pass);
    assert v[|BasicPrefix|..] == Base64.Encode(UserPass(user, pass));
    Base64.DecodeEncode(UserPass(user, pass));
  }

  /**
    * Round trip through the upstream's parser: a user name without a colon (as
    * RFC 7617 section 2 requires) and any password come back unchanged.
    */
  lemma CredentialsRoundTrip(user: seq<byte>, pass: seq<byte>)
    requires Colon !in user
    ensures ParseBasicCredentials(BasicCredentials(user, pass)) == Some((user, pass))
  {
    var v := BasicCredentials(user, pass);
    var b := UserPass(user, pass);
    CredentialsDecode(user, pass);
    var i := FirstColon(b);
    assert b[|user|] == Colon && b[..|user|] == user;
    assert i == Some(|user|);
    assert b[|user| + 1..] == pass;
  }

  /**
    * EasyGate does not reject a colon in the user name, and then the header
    * is ambiguous: user "a:" with password "b" sends the same value as user
    * "a" with password ":b".
    */
  lemma ColonInUserIsAmbiguous()
    ensures BasicCredentials([Ascii('a'), Colon], [Ascii('b')])
         == BasicCredentials([Ascii('a')], [Colon, Ascii('b')])
  {
    assert UserPass([Ascii('a'), Colon], [Ascii('b')]) == UserPass([Ascii('a')], [Colon, Ascii('b')]);
  }

  /** The bytes of "foo:ba": the group "foo", then the group ":ba". */
  lemma FooBaEncoding()
    ensures Base64.Encode([102, 111, 111, 58, 98, 97]) == "Zm9vOmJh"
  {
    Base64.FooGroup();
    assert Base64.EncodeGroup(58, 98, 97) == "OmJh";
    Base64.EncodeCons(58, 98, 97, []);
    assert [58, 98, 97] + [] == [58, 98, 97];
    Base64.EncodeCons(102, 111, 111, [58, 98, 97]);
    assert [102, 111, 111] + [58, 98, 97] == [102, 111, 111, 58, 98, 97];
  }

  /** User "foo" with password "ba" gives the header value "Basic Zm9vOmJh". */
  lemma FooBaCredentials()
    ensures BasicCredentials(AsciiBytes("foo"), AsciiBytes("ba")) == "Basic Zm9vOmJh"
  {
    FooBaEncoding();
    assert UserPass(AsciiBytes("foo"), AsciiBytes("ba")) == [102, 111, 111, 58, 98, 97];
  }

  /** An outgoing request as the proxy's request handlers see it. */
  class Request {
    var url: string
    var header: Header

    constructor (url: string, header: Header)
      ensures this.url == url && this.header == header
    {
      this.url := url;
      this.header := header;
    }
  }

  /**
    * `addBasicAuth`: sets `Proxy-Authorization` to the Basic credentials,
    * replacing any value the client sent, and touches nothing else.
    */
  method AddBasicAuth(req: Request, user: seq<byte>, pass: seq<byte>)
    modifies req`header
    ensures req.header == SetHeader(old(req.header), ProxyAuthorization, BasicCredentials(user, pass))
    ensures req.header[ProxyAuthorization] == [BasicCredentials(user, pass)]
    ensures forall k :: k in old(req.header) && k != ProxyAuthorization ==> k in req.header && req.header[k] == old(req.header)[k]
    ensures req.header.Keys == old(req.header).Keys + {ProxyAuthorization}
  {
    req.header := SetHeader(req.header, ProxyAuthorization, BasicCredentials(user, pass));
  }
}

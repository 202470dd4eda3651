/** What `Player.__init__` sends: the player tag percent-encoded into the
    players URL, and the bearer-token headers. */
module Request {
  import opened Results
  import opened JsonBody

  const PlayersEndpoint: string := "https://api.clashroyale.com/v1/players/"
  const EncodedHash: string := "%23"
  const AuthorizationHeader: string := "Authorization"
  const AcceptHeader: string := "Accept"
  const BearerPrefix: string := "Bearer "
  const JsonMediaType: string := "application/json"

  /** A GET request as the transport receives it. */
  datatype HttpRequest = HttpRequest(url: string, headers: map<string, string>)

  /** What the transport hands back: the status code and the parsed body. */
  datatype HttpResponse = HttpResponse(status: int, body: Json)

  /** `tag.replace("#", "%23")`. */
  function EncodeTag(tag: string): (r: string)
    ensures '#' !in r
    ensures '#' !in tag ==> r == tag
  {
    if tag == [] then []
    else
      (if tag[0] == '#' then EncodedHash else [tag[0]]) + EncodeTag(tag[1..])
  }

  /** Replaces every "%23" by "#", scanning left to right: the inverse of
      EncodeTag on tags without '%'. */
  function DecodeTag(s: string): (r: string)
    ensures |r| <= |s|
    decreases |s|
  {
    if s == [] then []
    else if |s| >= 3 && s[..3] == EncodedHash then "#" + DecodeTag(s[3..])
    else [s[0]] + DecodeTag(s[1..])
  }

  /** Each '#' grows the tag by two characters. */
  lemma {:induction false} EncodeTagLength(tag: string)
    ensures |EncodeTag(tag)| == |tag| + 2 * multiset(tag)['#']
    decreases |tag|
  {
    if tag != [] {
      assert tag == [tag[0]] + tag[1..];
      EncodeTagLength(tag[1..]);
    }
  }

  /** Encoding works character by character: the encoding of a concatenation
      is the concatenation of the encodings. */
  lemma {:induction false} EncodeTagAppend(a: string, b: string)
    ensures EncodeTag(a + b) == EncodeTag(a) + EncodeTag(b)
    decreases |a|
  {
    if a == [] {
      assert a + b == b;
    } else {
      assert (a + b)[0] == a[0];
      assert (a + b)[1..] == a[1..] + b;
      EncodeTagAppend(a[1..], b);
    }
  }

  /** The encoding of a single character: '#' becomes "%23", anything else
      is kept. With EncodeTagAppend this determines EncodeTag on every tag. */
  lemma EncodeTagChar(c: char)
    ensures EncodeTag([c]) == if c == '#' then EncodedHash else [c]
  {
  }

  /** A tag of the usual shape, one '#' and then no other, is sent with
      "%23" in place of its leading '#'. */
  lemma EncodeHashPrefixedTag(rest: string)
    requires '#' !in rest
    ensures EncodeTag("#" + rest) == EncodedHash + rest
  {
    EncodeTagAppend("#", rest);
    EncodeTagChar('#');
  }

  /** Decoding consumes a leading "%23" as one '#'. */
  lemma DecodeEncodedHash(rest: string)
    ensures DecodeTag(EncodedHash + rest) == "#" + DecodeTag(rest)
  {
    assert (EncodedHash + rest)[..3] == EncodedHash;
    assert (EncodedHash + rest)[3..] == rest;
  }

  /** Decoding keeps a leading character other than '%'. */
  lemma DecodePlainChar(c: char, rest: string)
    requires c != '%'
    ensures DecodeTag([c] + rest) == [c] + DecodeTag(rest)
  {
    var s := [c] + rest;
    assert s[1..] == rest;
    assert |s| >= 3 ==> s[..3][0] == c && EncodedHash[0] == '%';
  }

  /** Decoding an encoded tag gives the tag back, provided the tag holds no
      '%' that could be confused with an encoded '#'. */
  lemma {:induction false} DecodeEncodeTag(tag: string)
    requires '%' !in tag
    ensures DecodeTag(EncodeTag(tag)) == tag
    decreases |tag|
  {
    if tag != [] {
      var tail := tag[1..];
      assert tag == [tag[0]] + tail;
      assert '%' !in tail;
      DecodeEncodeTag(tail);
      if tag[0] == '#' {
        assert EncodeTag(tag) == EncodedHash + EncodeTag(tail);
        DecodeEncodedHash(EncodeTag(tail));
      } else {
        assert EncodeTag(tag) == [tag[0]] + EncodeTag(tail);
        DecodePlainChar(tag[0], EncodeTag(tail));
      }
    }
  }

  /** `f"https://api.clashroyale.com/v1/players/{encoded_tag}"`. */
  function PlayersUrl(tag: string): (url: string)
    ensures '#' !in url
    ensures |PlayersEndpoint| <= |url| && url[..|PlayersEndpoint|] == PlayersEndpoint
    ensures url[|PlayersEndpoint|..] == EncodeTag(tag)
    ensures |url| == |PlayersEndpoint| + |tag| + 2 * multiset(tag)['#']
  {
    EncodeTagLength(tag);
    PlayersEndpoint + EncodeTag(tag)
  }

  /** The player tag a players URL names, or None for any other URL. */
  function TagOfUrl(url: string): (r: Option<string>)
    ensures r.Some? <==> |PlayersEndpoint| <= |url| && url[..|PlayersEndpoint|] == PlayersEndpoint
  {
    if |PlayersEndpoint| <= |url| && url[..|PlayersEndpoint|] == PlayersEndpoint
    then Some(DecodeTag(url[|PlayersEndpoint|..]))
    else None
  }

  /** The URL names the tag it was built from. */
  lemma UrlRoundTrip(tag: string)
    requires '%' !in tag
    ensures TagOfUrl(PlayersUrl(tag)) == Some(tag)
  {
    var url := PlayersUrl(tag);
    assert url[..|PlayersEndpoint|] == PlayersEndpoint;
    assert url[|PlayersEndpoint|..] == EncodeTag(tag);
    DecodeEncodeTag(tag);
  }

  /** Distinct tags (without '%') are sent to distinct URLs. */
  lemma UrlInjective(a: string, b: string)
    requires '%' !in a && '%' !in b
    requires PlayersUrl(a) == PlayersUrl(b)
    ensures a == b
  {
    UrlRoundTrip(a);
    UrlRoundTrip(b);
  }

  /** The token an Authorization header carries after "Bearer ", if any. */
  function BearerToken(headers: map<string, string>): (r: Option<string>)
    ensures r.Some? ==> AuthorizationHeader in headers
    ensures r.Some? ==> headers[AuthorizationHeader] == BearerPrefix + r.value
  {
    if AuthorizationHeader in headers
       && |BearerPrefix| <= |headers[AuthorizationHeader]|
       && headers[AuthorizationHeader][..|BearerPrefix|] == BearerPrefix
    then
      var h := headers[AuthorizationHeader];
      assert h == BearerPrefix + h[|BearerPrefix|..];
      Some(h[|BearerPrefix|..])
    else None
  }

  /** The two headers every request carries: the bearer token and the JSON
      media type. */
  function AuthHeaders(token: string): (h: map<string, string>)
    ensures h.Keys == {AuthorizationHeader, AcceptHeader}
    ensures h[AcceptHeader] == JsonMediaType
    ensures BearerToken(h) == Some(token)
  {
    var h := map[AuthorizationHeader := BearerPrefix + token, AcceptHeader := JsonMediaType];
    assert h[AuthorizationHeader][..|BearerPrefix|] == BearerPrefix;
    assert h[AuthorizationHeader][|BearerPrefix|..] == token;
    h
  }

  /** The GET request `Player.__init__` issues for tag with token. */
  function PlayerRequest(tag: string, token: string): (req: HttpRequest)
    ensures '#' !in req.url
    ensures |PlayersEndpoint| <= |req.url| && req.url[..|PlayersEndpoint|] == PlayersEndpoint
    ensures req.url[|PlayersEndpoint|..] == EncodeTag(tag)
    ensures '%' !in tag ==> TagOfUrl(req.url) == Some(tag)
    ensures req.headers == AuthHeaders(token)
    ensures BearerToken(req.headers) == Some(token)
    ensures AcceptHeader in req.headers && req.headers[AcceptHeader] == JsonMediaType
  {
    assert '%' !in tag ==> TagOfUrl(PlayersUrl(tag)) == Some(tag) by {
      if '%' !in tag { UrlRoundTrip(tag); }
    }
    HttpRequest(PlayersUrl(tag), AuthHeaders(token))
  }
}

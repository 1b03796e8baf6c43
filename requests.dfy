/**
 * The requests the bridge sends: the URL of a resource, the HEADERS frame of a GET, PUT or
 * SSE request, and the firmware check that decides whether a bridge speaks CLIP 2.
 */
module Requests {
  import opened Wrappers
  import opened Text

  const APPLICATION_KEY: string := "hue-application-key"
  const ACCEPT: string := "Accept"
  const CONTENT_TYPE: string := "Content-Type"
  const CONTENT_LENGTH: string := "Content-Length"
  const APPLICATION_JSON: string := "application/json"
  const SERVER_SENT_EVENTS: string := "text/event-stream"
  const HTTP_2: string := "HTTP/2.0"
  const CLIP2_MINIMUM_VERSION: int := 1948086000

  /** A resource type (the name of its enum constant) and, optionally, the id of one resource. */
  datatype ResourceReference = ResourceReference(resourceType: string, id: Option<string>)

  /** `https://<host>/clip/v2/resource/` */
  function BaseUrl(host: string): string {
    "https://" + host + "/clip/v2/resource/"
  }

  /** `https://<host>/eventstream/clip/v2` */
  function EventUrl(host: string): string {
    "https://" + host + "/eventstream/clip/v2"
  }

  /**
   * The end point of a reference: the resource base URL followed by the lower-case type name,
   * then by "/" and the id when the reference has a non-empty id.
   */
  function GetUrl(host: string, ref: ResourceReference): (url: string)
    ensures |url| >= |BaseUrl(host)| + |ref.resourceType|
    ensures (ref.id.Some? && ref.id.value != []) <==> |url| > |BaseUrl(host)| + |ref.resourceType|
    ensures url[..|BaseUrl(host)|] == BaseUrl(host)
  {
    var url := BaseUrl(host) + ToLower(ref.resourceType);
    if ref.id.None? || ref.id.value == [] then url else url + "/" + ref.id.value
  }

  /** Index of the first '/' in `s`, or its length. */
  function SlashIndex(s: string): (i: nat)
    ensures i <= |s|
    ensures forall k :: 0 <= k < i ==> s[k] != '/'
    ensures i < |s| ==> s[i] == '/'
  {
    if s == [] || s[0] == '/' then 0 else 1 + SlashIndex(s[1..])
  }

  /** Reads a resource end point back: the type segment and the id after it, if any. */
  function ParseResourceUrl(host: string, url: string): Option<(string, Option<string>)> {
    var base := BaseUrl(host);
    if |url| < |base| || url[..|base|] != base then None
    else
      var path := url[|base|..];
      var i := SlashIndex(path);
      if i == |path| then Some((path, None)) else Some((path[..i], Some(path[i + 1..])))
  }

  predicate NoSlash(s: string) {
    forall k :: 0 <= k < |s| ==> s[k] != '/'
  }

  /**
   * The URL determines the reference it was built from, up to the case of the type name and
   * an empty id, which builds the same URL as no id.
   */
  lemma GetUrlRoundTrip(host: string, ref: ResourceReference)
    requires NoSlash(ref.resourceType)
    ensures ParseResourceUrl(host, GetUrl(host, ref))
            == Some((ToLower(ref.resourceType), if ref.id.Some? && ref.id.value != [] then ref.id else None))
  {
    var base := BaseUrl(host);
    var t := ToLower(ref.resourceType);
    var url := GetUrl(host, ref);
    assert NoSlash(t);
    if ref.id.None? || ref.id.value == [] {
      assert url[|base|..] == t;
      SlashOfNoSlash(t, "");
    } else {
      var path := t + ("/" + ref.id.value);
      assert url == base + path;
      assert url[|base|..] == path;
      SlashOfNoSlash(t, "/" + ref.id.value);
      assert path[|t| + 1..] == ref.id.value;
    }
  }

  lemma {:induction false} SlashOfNoSlash(t: string, rest: string)
    requires NoSlash(t)
    requires rest == [] || rest[0] == '/'
    ensures SlashIndex(t + rest) == |t|
    ensures (t + rest)[..|t|] == t
  {
    if t != [] {
      assert (t + rest)[1..] == t[1..] + rest;
      SlashOfNoSlash(t[1..], rest);
    }
  }

  datatype HttpField = HttpField(name: string, value: string)

  /** The HEADERS frame of a request: method (verb), URI, HTTP version, header fields and the end-of-stream flag. */
  datatype HeadersFrame = HeadersFrame(verb: string, uri: string, version: string, fields: seq<HttpField>, endStream: bool)

  /** The value of the first field with the given name. */
  function Lookup(fields: seq<HttpField>, name: string): Option<string> {
    if fields == [] then None
    else if fields[0].name == name then Some(fields[0].value)
    else Lookup(fields[1..], name)
  }

  /**
   * A request's HEADERS frame: Accept, then Content-Type when one is given, then Content-Length
   * when the length is not negative, then the application key; the frame ends the stream when
   * the request has no body (length zero or less).
   */
  function PrepareHeaders(url: string, accept: string, verb: string, contentLength: int,
                          contentType: Option<string>, applicationKey: string): (h: HeadersFrame)
    ensures h.verb == verb && h.uri == url && h.version == HTTP_2
    ensures h.endStream <==> contentLength <= 0
    ensures Lookup(h.fields, ACCEPT) == Some(accept)
    ensures Lookup(h.fields, CONTENT_TYPE) == contentType
    ensures Lookup(h.fields, CONTENT_LENGTH) == if contentLength >= 0 then Some(LongToString(contentLength)) else None
    ensures Lookup(h.fields, APPLICATION_KEY) == Some(applicationKey)
    ensures |h.fields| == 2 + (if contentType.Some? then 1 else 0) + (if contentLength >= 0 then 1 else 0)
    ensures h.fields[0] == HttpField(ACCEPT, accept)
    ensures h.fields[|h.fields| - 1] == HttpField(APPLICATION_KEY, applicationKey)
  {
    var typeField := if contentType.Some? then [HttpField(CONTENT_TYPE, contentType.value)] else [];
    var lengthField := if contentLength >= 0 then [HttpField(CONTENT_LENGTH, LongToString(contentLength))] else [];
    var keyField := [HttpField(APPLICATION_KEY, applicationKey)];
    var fields := [HttpField(ACCEPT, accept)] + (typeField + (lengthField + keyField));
    LookupPrepared(accept, typeField, lengthField, keyField);
    assert fields == [HttpField(ACCEPT, accept)] + typeField + lengthField + keyField;
    HeadersFrame(verb, url, HTTP_2, fields, contentLength <= 0)
  }

  lemma LookupCons(f: HttpField, rest: seq<HttpField>, name: string)
    ensures Lookup([f] + rest, name) == if f.name == name then Some(f.value) else Lookup(rest, name)
  {
    assert ([f] + rest)[0] == f;
    assert ([f] + rest)[1..] == rest;
  }

  lemma LookupPrepared(accept: string, typeField: seq<HttpField>, lengthField: seq<HttpField>, keyField: seq<HttpField>)
    requires |typeField| <= 1 && forall f :: f in typeField ==> f.name == CONTENT_TYPE
    requires |lengthField| <= 1 && forall f :: f in lengthField ==> f.name == CONTENT_LENGTH
    requires |keyField| == 1 && keyField[0].name == APPLICATION_KEY
    ensures var fields := [HttpField(ACCEPT, accept)] + (typeField + (lengthField + keyField));
            && Lookup(fields, ACCEPT) == Some(accept)
            && Lookup(fields, CONTENT_TYPE) == (if typeField == [] then None else Some(typeField[0].value))
            && Lookup(fields, CONTENT_LENGTH) == (if lengthField == [] then None else Some(lengthField[0].value))
            && Lookup(fields, APPLICATION_KEY) == Some(keyField[0].value)
  {
    var k := keyField[0];
    assert keyField == [k] + [];
    var names := [ACCEPT, CONTENT_TYPE, CONTENT_LENGTH, APPLICATION_KEY];
    forall name | name in names
      ensures Lookup(lengthField + keyField, name) == (if lengthField != [] && name == CONTENT_LENGTH then Some(lengthField[0].value)
                                                       else if name == APPLICATION_KEY then Some(k.value) else None)
    {
      LookupCons(k, [], name);
      if lengthField != [] {
        assert lengthField == [lengthField[0]];
        LookupCons(lengthField[0], keyField, name);
      }
    }
    forall name | name in names
      ensures Lookup(typeField + (lengthField + keyField), name)
              == (if typeField != [] && name == CONTENT_TYPE then Some(typeField[0].value)
                  else Lookup(lengthField + keyField, name))
    {
      if typeField != [] {
        assert typeField == [typeField[0]];
        LookupCons(typeField[0], lengthField + keyField, name);
      } else {
        assert typeField + (lengthField + keyField) == lengthField + keyField;
      }
    }
    forall name | name in names
      ensures Lookup([HttpField(ACCEPT, accept)] + (typeField + (lengthField + keyField)), name)
              == (if name == ACCEPT then Some(accept) else Lookup(typeField + (lengthField + keyField), name))
    {
      LookupCons(HttpField(ACCEPT, accept), typeField + (lengthField + keyField), name);
    }
  }

  /**
   * The HEADERS frame of a plain GET: the general builder with the method "GET", no content
   * length and no content type, so it carries no Content-Type and no Content-Length and it
   * ends the stream.
   */
  function PrepareGetHeaders(url: string, accept: string, applicationKey: string): (h: HeadersFrame)
    ensures h.verb == "GET" && h.uri == url && h.version == HTTP_2 && h.endStream
    ensures Lookup(h.fields, ACCEPT) == Some(accept) && Lookup(h.fields, APPLICATION_KEY) == Some(applicationKey)
    ensures Lookup(h.fields, CONTENT_TYPE).None? && Lookup(h.fields, CONTENT_LENGTH).None?
  {
    PrepareHeaders(url, accept, "GET", -1, None, applicationKey)
  }

  /** The Content-Length field carries the body length, and a reader of the field gets that length back. */
  lemma ContentLengthRoundTrip(url: string, accept: string, verb: string, contentLength: int,
                               contentType: Option<string>, applicationKey: string)
    requires 0 <= contentLength <= LONG_MAX
    ensures var h := PrepareHeaders(url, accept, verb, contentLength, contentType, applicationKey);
            ParseLong(Lookup(h.fields, CONTENT_LENGTH).value) == Some(contentLength)
  {
    ParseLongRoundTrip(contentLength);
  }

  /**
   * Whether a bridge reporting this firmware version speaks CLIP 2: the version must be
   * present, parse as a 64-bit decimal number, and be at least the minimum version.
   */
  function IsClip2Supported(swVersion: Option<string>): (r: bool)
    ensures r ==> swVersion.Some? && ParseLong(swVersion.value).Some?
    ensures r <==> swVersion.Some? && ParseLong(swVersion.value).Some? && ParseLong(swVersion.value).value >= CLIP2_MINIMUM_VERSION
  {
    swVersion.Some? && var v := ParseLong(swVersion.value); v.Some? && v.value >= CLIP2_MINIMUM_VERSION
  }

  /** For a version the bridge reports as a number, support is exactly the comparison with the minimum version. */
  lemma Clip2SupportedIffAtLeastMinimum(version: int)
    requires LONG_MIN <= version <= LONG_MAX
    ensures IsClip2Supported(Some(LongToString(version))) <==> version >= CLIP2_MINIMUM_VERSION
  {
    ParseLongRoundTrip(version);
  }
}

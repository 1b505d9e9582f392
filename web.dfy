/** web/context.go and web/exception.go: the request context's response helpers, HTTP Basic
    credentials, and the HTTP errors handlers return. */
module Web {
  import opened Wrappers
  import opened Strings
  import Base64

  /** HTTPError: the underlying error (by its text), the message shown, and the status code. */
  datatype HTTPError = HTTPError(error: string, message: string, code: int)

  const StatusOK := 200
  const StatusBadRequest := 400
  const StatusNotFound := 404
  const StatusInternalServerError := 500

  /** newHTTPError */
  function NewHTTPError(err: string, msg: string, code: int): (h: HTTPError)
    ensures h.error == err && h.message == msg && h.code == code
  {
    HTTPError(err, msg, code)
  }

  /** serverError: status 500, and the message is the error's own text. */
  function ServerError(err: string): (h: HTTPError)
    ensures h.code == StatusInternalServerError && h.message == err && h.error == err
  {
    NewHTTPError(err, err, StatusInternalServerError)
  }

  /** badRequestError: status 400; a new error carrying msg, whose text is also the message. */
  function BadRequestError(msg: string): (h: HTTPError)
    ensures h.code == StatusBadRequest && h.message == msg && h.error == msg
  {
    NewHTTPError(msg, msg, StatusBadRequest)
  }

  /** notFoundError: status 404 with the given message, which need not be the error's text. */
  function NotFoundError(err: string, msg: string): (h: HTTPError)
    ensures h.code == StatusNotFound && h.message == msg && h.error == err
  {
    NewHTTPError(err, msg, StatusNotFound)
  }

  /** HTTPError.String: "<code> - <message>". */
  function ErrorString(h: HTTPError): string {
    IntToString(h.code) + " - " + h.message
  }

  /** The decimal digits hold no space. */
  lemma NoSpaceInDigits(n: nat)
    ensures ' ' !in NatToString(n)
  {
    var d := NatToString(n);
    forall i | 0 <= i < |d| ensures d[i] != ' ' {
    }
  }

  /** Text without spaces followed by a space is the first field of a split on spaces. */
  lemma FirstField(d: string, rest: string)
    requires ' ' !in d
    ensures Split(d + [' '] + rest, ' ')[0] == d
  {
    SplitAfter(d, ' ', rest);
  }

  /** String tells errors with non-negative codes apart: equal strings mean equal codes and messages. */
  lemma ErrorStringInjective(a: HTTPError, b: HTTPError)
    requires a.code >= 0 && b.code >= 0
    requires ErrorString(a) == ErrorString(b)
    ensures a.code == b.code && a.message == b.message
  {
    var da, db := NatToString(a.code), NatToString(b.code);
    var xa, xb := " - " + a.message, " - " + b.message;
    assert da == db && xa == xb by {
      assert ErrorString(a) == da + xa;
      assert ErrorString(b) == db + xb;
      NoSpaceInDigits(a.code);
      NoSpaceInDigits(b.code);
      SpaceDelimited(da, db, xa, xb);
    }
    NatToStringInjective(a.code, b.code);
    assert a.message == xa[3..] && b.message == xb[3..];
  }

  /** Two texts without spaces, each followed by something that starts with a space, are told
      apart by the first space: equal concatenations mean equal parts. */
  lemma SpaceDelimited(d: string, e: string, x: string, y: string)
    requires ' ' !in d && ' ' !in e && x != [] && y != [] && x[0] == ' ' && y[0] == ' '
    requires d + x == e + y
    ensures d == e && x == y
  {
    assert (e + y)[|d|] == (d + x)[|d|] == ' ';
    assert (d + x)[|e|] == (e + y)[|e|] == ' ';
    assert |d| == |e|;
    assert d == (d + x)[..|d|] && e == (e + y)[..|e|];
    assert x == (d + x)[|d|..] && y == (e + y)[|e|..];
  }

  /** Different codes print differently. */
  lemma NatToStringInjective(m: nat, n: nat)
    requires NatToString(m) == NatToString(n)
    ensures m == n
  {
    DigitsOfNat(m);
    DigitsOfNat(n);
  }

  /** An http.Header: every name with its list of values. */
  type Header = map<string, seq<string>>

  /** Header values, none for an absent name. */
  function Values(h: Header, name: string): seq<string> {
    if name in h then h[name] else []
  }

  /** Header.Get: the first value, or "". */
  function Get(h: Header, name: string): string {
    if |Values(h, name)| > 0 then Values(h, name)[0] else ""
  }

  /** SetHeader's effect on the map: Header.Set when unique, Header.Add otherwise. */
  function WithHeader(h: Header, name: string, val: string, unique: bool): (r: Header)
    ensures r.Keys == h.Keys + {name}
  {
    if unique then h[name := [val]] else h[name := Values(h, name) + [val]]
  }

  /** A unique set leaves exactly the new value; an add keeps the old values and appends the new one,
      so Get still answers the first value. Other names keep their values. */
  lemma WithHeaderSpec(h: Header, name: string, val: string, unique: bool, other: string)
    requires other != name
    ensures var r := WithHeader(h, name, val, unique);
      Values(r, other) == Values(h, other) &&
      (unique ==> Values(r, name) == [val] && Get(r, name) == val) &&
      (!unique ==> (Values(r, name) == Values(h, name) + [val] &&
        Get(r, name) == (if Values(h, name) == [] then val else Get(h, name))))
  {
  }

  /** The extension a ContentType argument without '/' is looked up by: "." put in front unless present. */
  function Extension(val: string): (ext: string)
    ensures HasPrefix(ext, ".")
  {
    if HasPrefix(val, ".") then val else "." + val
  }

  /** The Content-Type ContentType sets: a value holding '/' verbatim, otherwise what the MIME
      table gives for its extension, "" (nothing is set) when the table has none. */
  function ContentTypeFor(val: string, mimeTypes: map<string, string>): (ct: string)
    ensures '/' in val ==> ct == val
    ensures '/' !in val ==> ct == (if Extension(val) in mimeTypes then mimeTypes[Extension(val)] else "")
  {
    if '/' in val then val
    else
      var ext := Extension(val);
      if ext in mimeTypes then mimeTypes[ext] else ""
  }

  const DefaultContentType := "text/html; charset=utf-8"
  const ServerName := "epigos.go"
  const AllowOrigin := "*"
  const AllowHeaders := "X-Requested-With, Content-Type, Origin, Authorization, Accept, Client-Security-Token, Accept-Encoding"
  const AllowMethods := "POST, GET, PUT, DELETE, OPTIONS"

  /** The headers setDefaultHeaders sets, each replacing its old values; `date` is the formatted clock reading. */
  function DefaultHeaders(h: Header, date: string): Header {
    h["Content-Type" := [DefaultContentType]]["Server" := [ServerName]]["Date" := [date]]
     ["Access-Control-Allow-Origin" := [AllowOrigin]]["Access-Control-Allow-Headers" := [AllowHeaders]]
     ["Access-Control-Allow-Methods" := [AllowMethods]]
  }

  /** After WriteString's headers, Content-Length is the byte length of the content, the defaults
      are in place, and every other header is as before. */
  lemma WrittenHeadersSpec(h: Header, date: string, content: string, other: string)
    requires other !in {"Content-Type", "Server", "Date", "Access-Control-Allow-Origin",
                        "Access-Control-Allow-Headers", "Access-Control-Allow-Methods", "Content-Length"}
    ensures var r := DefaultHeaders(h, date)["Content-Length" := [IntToString(Utf8Len(content))]];
      Get(r, "Content-Length") == NatToString(Utf8Len(content)) && Get(r, "Server") == ServerName &&
      Get(r, "Content-Type") == DefaultContentType && Get(r, "Date") == date && Values(r, other) == Values(h, other)
  {
  }

  /** The request as the handlers see it: its headers and its form values (the first value of each). */
  datatype Request = Request(header: Header, form: map<string, string>)

  /** Context.FormValue: "" for a missing field. */
  function FormValue(r: Request, name: string): string {
    if name in r.form then r.form[name] else ""
  }

  /** A field present in the form gives its value, a missing one "", as for "/?x=y". */
  lemma FormValueSpec(r: Request, name: string)
    ensures name in r.form ==> FormValue(r, name) == r.form[name]
    ensures name !in r.form ==> FormValue(r, name) == ""
    ensures FormValue(Request(map[], map["x" := "y"]), "x") == "y"
    ensures FormValue(Request(map[], map["x" := "y"]), "z") == ""
  {
  }

  /** Context: the request and the response written so far — its header map, the status sent by
      the first WriteHeader, and the body bytes as text. */
  class Context {
    const request: Request
    var header: Header
    var status: Option<int>
    var body: string

    /** NewContext: nothing written yet. */
    constructor (request: Request)
      ensures this.request == request && header == map[] && status == None && body == ""
    {
      this.request := request;
      header := map[];
      status := None;
      body := "";
    }

    /** SetHeader: Header.Set when unique, Header.Add otherwise. */
    method SetHeader(hdr: string, val: string, unique: bool)
      modifies this
      ensures header == WithHeader(old(header), hdr, val, unique)
      ensures status == old(status) && body == old(body)
    {
      if unique {
        header := header[hdr := [val]];
      } else {
        header := header[hdr := Values(header, hdr) + [val]];
      }
    }

    /** ContentType; `mimeTypes` stands for the system table mime.TypeByExtension reads. */
    method ContentType(val: string, unique: bool, mimeTypes: map<string, string>)
      modifies this
      ensures var ct := ContentTypeFor(val, mimeTypes);
        header == if ct != "" then WithHeader(old(header), "Content-Type", ct, unique) else old(header)
      ensures status == old(status) && body == old(body)
    {
      var ctype;
      var v := val;
      if '/' in v {
        ctype := v;
      } else {
        if !HasPrefix(v, ".") {
          v := "." + v;
        }
        ctype := if v in mimeTypes then mimeTypes[v] else "";
      }
      if ctype != "" {
        SetHeader("Content-Type", ctype, unique);
      }
    }

    /** setDefaultHeaders */
    method SetDefaultHeaders(date: string)
      modifies this
      ensures header == DefaultHeaders(old(header), date)
      ensures status == old(status) && body == old(body)
    {
      // A value with '/' never consults the MIME table.
      ContentType(DefaultContentType, true, map[]);
      SetHeader("Server", ServerName, true);
      SetHeader("Date", date, true);
      SetHeader("Access-Control-Allow-Origin", AllowOrigin, true);
      SetHeader("Access-Control-Allow-Headers", AllowHeaders, true);
      SetHeader("Access-Control-Allow-Methods", AllowMethods, true);
    }

    /** WriteHeader: only the first status sent counts. */
    method WriteHeader(code: int)
      modifies this
      ensures status == if old(status).None? then Some(code) else old(status)
      ensures header == old(header) && body == old(body)
    {
      if status.None? {
        status := Some(code);
      }
    }

    /** WriteString: default headers, Content-Length, status 200, then the content. A failing
        write (`writeErr`, the writer's answer) adds nothing and is returned as a server error. */
    method WriteString(content: string, date: string, writeErr: Option<string>) returns (e: Option<HTTPError>)
      modifies this
      ensures header == DefaultHeaders(old(header), date)["Content-Length" := [IntToString(Utf8Len(content))]]
      ensures status == if old(status).None? then Some(StatusOK) else old(status)
      ensures body == old(body) + (if writeErr.None? then content else "")
      ensures e == if writeErr.Some? then Some(ServerError(writeErr.value)) else None
    {
      SetDefaultHeaders(date);
      SetHeader("Content-Length", IntToString(Utf8Len(content)), true);
      WriteHeader(StatusOK);
      if writeErr.Some? {
        e := Some(ServerError(writeErr.value));
      } else {
        body := body + content;
        e := None;
      }
    }
  }

  const NoAuthHeader := "No Authorization header provided"
  const NotBasic := "Not Basic Authentication"
  /** The text of encoding/base64's CorruptInputError, without the offset it names. */
  const IllegalBase64 := "illegal base64 data"
  const MalformedPrefix := "Error delimiting authString into username/password. Malformed input: "

  /** ':' as a byte. */
  const Colon: Base64.byte := 58

  /** The Authorization header's first value, when it has one. */
  predicate HasAuthorization(r: Request) {
    |Values(r.header, "Authorization")| > 0
  }

  /** The Authorization value split on every space. */
  function AuthFields(r: Request): seq<string>
    requires HasAuthorization(r)
  {
    Split(Values(r.header, "Authorization")[0], ' ')
  }

  /** GetBasicAuth reads the second field whenever the first is "Basic"; a value without a space
      there makes it index past the end, so callers must rule that out. */
  predicate AuthIndexable(r: Request) {
    HasAuthorization(r) && AuthFields(r)[0] == "Basic" ==> |AuthFields(r)| > 1
  }

  /** Credentials as GetBasicAuth returns them: the decoded user and password. */
  type Credentials = (seq<Base64.byte>, seq<Base64.byte>)

  /** GetBasicAuth as written: the first Authorization value must be "Basic <base64>", and the decoded
      text split on EVERY ':' must give exactly two parts. */
  function GetBasicAuth(r: Request): (res: Result<Credentials, string>)
    requires AuthIndexable(r)
    ensures !HasAuthorization(r) ==> res == Failure(NoAuthHeader)
    ensures HasAuthorization(r) && AuthFields(r)[0] != "Basic" ==> res == Failure(NotBasic)
    ensures HasAuthorization(r) && AuthFields(r)[0] == "Basic" && Base64.Decode(AuthFields(r)[1]).None? ==>
      res == Failure(IllegalBase64)
    ensures HasAuthorization(r) && AuthFields(r)[0] == "Basic" && Base64.Decode(AuthFields(r)[1]).Some? ==>
      (res.Success? <==> Count(Base64.Decode(AuthFields(r)[1]).value, Colon) == 1) &&
      (res.Failure? ==> res == Failure(MalformedPrefix + AuthFields(r)[1]))
    ensures res.Success? ==> (HasAuthorization(r) && AuthFields(r)[0] == "Basic" &&
      Base64.Decode(AuthFields(r)[1]).Some? && Base64.Decode(AuthFields(r)[1]).value == res.value.0 + [Colon] + res.value.1)
    ensures res.Success? ==> Colon !in res.value.0 && Colon !in res.value.1
  {
    if !HasAuthorization(r) then Failure(NoAuthHeader)
    else
      var fields := AuthFields(r);
      if fields[0] != "Basic" then Failure(NotBasic)
      else
        match Base64.Decode(fields[1])
        case None => Failure(IllegalBase64)
        case Some(decoded) =>
          var parts := Split(decoded, Colon);
          if |parts| != 2 then Failure(MalformedPrefix + fields[1])
          else
            JoinSplit(decoded, Colon);
            Success((parts[0], parts[1]))
  }

  /** A request whose only Authorization value is "Basic " and the base64 of `text`. */
  function BasicRequest(text: seq<Base64.byte>): Request {
    Request(map["Authorization" := ["Basic " + Base64.Encode(text)]], map[])
  }

  /** The request net/http's SetBasicAuth makes: the encoded text is user ":" password. */
  function AuthRequest(user: seq<Base64.byte>, password: seq<Base64.byte>): Request {
    BasicRequest(user + [Colon] + password)
  }

  /** A "Basic " value splits into "Basic" and the encoding, so GetBasicAuth can read it. */
  lemma BasicRequestFields(text: seq<Base64.byte>)
    ensures HasAuthorization(BasicRequest(text))
    ensures AuthFields(BasicRequest(text)) == ["Basic", Base64.Encode(text)]
    ensures AuthIndexable(BasicRequest(text))
  {
    var enc := Base64.Encode(text);
    Base64.EncodeHasNoBreaks(text);
    assert ' ' !in enc by {
      forall i | 0 <= i < |enc| ensures enc[i] != ' ' {
      }
    }
    assert "Basic " + enc == "Basic" + [' '] + enc;
    SplitAfter("Basic", ' ', enc);
    SplitNone(enc, ' ');
  }

  /** The value SetBasicAuth writes splits into "Basic" and the encoding of user ":" password. */
  lemma AuthRequestFields(user: seq<Base64.byte>, password: seq<Base64.byte>)
    ensures HasAuthorization(AuthRequest(user, password))
    ensures AuthFields(AuthRequest(user, password)) == ["Basic", Base64.Encode(user + [Colon] + password)]
    ensures AuthIndexable(AuthRequest(user, password))
  {
    BasicRequestFields(user + [Colon] + password);
  }

  /** Split on a separator of text with exactly one separator in it. */
  lemma SplitOneSeparator<T>(a: seq<T>, sep: T, b: seq<T>)
    requires sep !in a && sep !in b
    ensures Split(a + [sep] + b, sep) == [a, b]
  {
    SplitAfter(a, sep, b);
    SplitNone(b, sep);
  }

  /** A user and password without ':' read back as themselves (the Basic-auth round trip). */
  lemma BasicAuthRoundTrip(user: seq<Base64.byte>, password: seq<Base64.byte>)
    requires Colon !in user && Colon !in password
    ensures AuthIndexable(AuthRequest(user, password))
    ensures GetBasicAuth(AuthRequest(user, password)) == Success((user, password))
  {
    AuthRequestFields(user, password);
    Base64.DecodeEncode(user + [Colon] + password);
    SplitOneSeparator(user, Colon, password);
  }

  /** "user" and "password", the pair net/http writes and GetBasicAuth reads back. */
  lemma UserPasswordExample()
    ensures AuthIndexable(AuthRequest([117, 115, 101, 114], [112, 97, 115, 115, 119, 111, 114, 100]))
    ensures GetBasicAuth(AuthRequest([117, 115, 101, 114], [112, 97, 115, 115, 119, 111, 114, 100]))
      == Success(([117, 115, 101, 114], [112, 97, 115, 115, 119, 111, 114, 100]))
  {
    BasicAuthRoundTrip([117, 115, 101, 114], [112, 97, 115, 115, 119, 111, 114, 100]);
  }

  /** As written, every password that contains ':' is rejected, although section 2 of RFC 7617
      allows it (only the user-id may not hold a colon). */
  lemma ColonInPasswordRejected(user: seq<Base64.byte>, password: seq<Base64.byte>)
    requires Colon !in user && Colon in password
    ensures AuthIndexable(AuthRequest(user, password))
    ensures GetBasicAuth(AuthRequest(user, password)).Failure?
  {
    var decoded := user + [Colon] + password;
    AuthRequestFields(user, password);
    Base64.DecodeEncode(decoded);
    SplitAfter(user, Colon, password);
    SplitAtLeastTwo(password, Colon);
    assert |Split(decoded, Colon)| > 2;
  }

  /** The smallest such request: user "u", password "a:b". */
  lemma ColonInPasswordExample()
    ensures AuthIndexable(AuthRequest([117], [97, 58, 98]))
    ensures GetBasicAuth(AuthRequest([117], [97, 58, 98])).Failure?
  {
    assert [97, 58, 98][1] == Colon;
    ColonInPasswordRejected([117], [97, 58, 98]);
  }

  /** As written, decoded text without any ':' is rejected as malformed, with the encoded text in
      the message: the other way of missing exactly two parts. */
  lemma NoColonRejected(text: seq<Base64.byte>)
    requires Colon !in text
    ensures AuthIndexable(BasicRequest(text))
    ensures GetBasicAuth(BasicRequest(text)) == Failure(MalformedPrefix + Base64.Encode(text))
  {
    BasicRequestFields(text);
    Base64.DecodeEncode(text);
    SplitNone(text, Colon);
  }

  /** Credentials "user" with no ':' at all are rejected. */
  lemma NoColonExample()
    ensures AuthIndexable(BasicRequest([117, 115, 101, 114]))
    ensures GetBasicAuth(BasicRequest([117, 115, 101, 114])) == Failure(MalformedPrefix + Base64.Encode([117, 115, 101, 114]))
  {
    NoColonRejected([117, 115, 101, 114]);
  }

  /** The text before the first separator, and everything after it. */
  function CutFirst<T(==)>(s: seq<T>, sep: T): (r: Option<(seq<T>, seq<T>)>)
    ensures r.None? <==> sep !in s
    ensures r.Some? ==> sep !in r.value.0 && s == r.value.0 + [sep] + r.value.1
  {
    if s == [] then None
    else if s[0] == sep then Some(([], s[1..]))
    else
      match CutFirst(s[1..], sep)
      case None => None
      case Some((a, b)) => Some(([s[0]] + a, b))
  }

  /** GetBasicAuth as section 2 of RFC 7617 reads credentials: the user ID ends at the FIRST ':',
      and the password is all that follows, colons included. */
  function GetBasicAuthFirstColon(r: Request): (res: Result<Credentials, string>)
    requires AuthIndexable(r)
    ensures res.Success? ==> (HasAuthorization(r) && AuthFields(r)[0] == "Basic" &&
      Base64.Decode(AuthFields(r)[1]) == Some(res.value.0 + [Colon] + res.value.1) && Colon !in res.value.0)
    ensures !HasAuthorization(r) ==> res == Failure(NoAuthHeader)
    ensures HasAuthorization(r) && AuthFields(r)[0] != "Basic" ==> res == Failure(NotBasic)
  {
    if !HasAuthorization(r) then Failure(NoAuthHeader)
    else
      var fields := AuthFields(r);
      if fields[0] != "Basic" then Failure(NotBasic)
      else
        match Base64.Decode(fields[1])
        case None => Failure(IllegalBase64)
        case Some(decoded) =>
          match CutFirst(decoded, Colon)
          case None => Failure(MalformedPrefix + fields[1])
          case Some((user, password)) => Success((user, password))
  }

  /** Every user ID without ':' and every password, colons included, read back as themselves. */
  lemma FirstColonRoundTrip(user: seq<Base64.byte>, password: seq<Base64.byte>)
    requires Colon !in user
    ensures AuthIndexable(AuthRequest(user, password))
    ensures GetBasicAuthFirstColon(AuthRequest(user, password)) == Success((user, password))
  {
    AuthRequestFields(user, password);
    Base64.DecodeEncode(user + [Colon] + password);
    var c := CutFirst(user + [Colon] + password, Colon);
    assert c.Some?;
    var (a, b) := c.value;
    CutFirstUnique(a, b, user, password, Colon);
  }

  /** The first separator is at one place only. */
  lemma {:induction false} CutFirstUnique<T>(a: seq<T>, b: seq<T>, c: seq<T>, d: seq<T>, sep: T)
    requires sep !in a && sep !in c && a + [sep] + b == c + [sep] + d
    ensures a == c && b == d
  {
    var x := a + [sep] + b;
    assert x[0] == (if a == [] then sep else a[0]);
    assert x[0] == (if c == [] then sep else c[0]);
    if a == [] {
      assert c == [];
      assert b == x[1..] == d;
    } else {
      assert x[1..] == a[1..] + [sep] + b;
      assert x[1..] == c[1..] + [sep] + d;
      CutFirstUnique(a[1..], b, c[1..], d, sep);
      assert a == [a[0]] + a[1..] && c == [c[0]] + c[1..];
    }
  }

  /** Both readings agree wherever the credentials hold a single ':'. */
  lemma FirstColonAgrees(r: Request)
    requires AuthIndexable(r)
    requires GetBasicAuth(r).Success?
    ensures GetBasicAuthFirstColon(r) == GetBasicAuth(r)
  {
    var (user, password) := GetBasicAuth(r).value;
    var decoded := Base64.Decode(AuthFields(r)[1]).value;
    assert decoded == user + [Colon] + password;
    var parts := Split(decoded, Colon);
    assert |parts| == 2 && parts[0] == user && parts[1] == password;
    assert Colon !in user by {
      forall i | 0 <= i < |user| ensures user[i] != Colon {
        assert parts[0][i] != Colon;
      }
    }
    var (a, b) := CutFirst(decoded, Colon).value;
    CutFirstUnique(a, b, user, password, Colon);
  }
}

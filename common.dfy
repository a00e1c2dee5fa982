/** Values shared by every component of the client: the catalog entry as the
    server sends it, the server's replies as inputs to the model, the way the
    HTTP client turns a reply into a resolved or rejected promise, and the
    JavaScript string rules the forms rely on. */
module Common {

  datatype Option<T> = None | Some(value: T)

  /** A catalog entry as the list endpoint returns it. `images` is None when
      the entry carries no `images` field. */
  datatype Product = Product(id: string, sku: string, name: string, price: string, images: Option<seq<string>>)

  /** The JSON body of a response. Each field the server left out is None. */
  datatype Body = Body(message: Option<string>, error: Option<string>, token: Option<string>, data: Option<seq<Product>>)

  /** What the network produced for one request: a response with a status and
      a body (None for an empty body), or a transport failure with its message. */
  datatype ServerReply =
    | Reply(status: nat, body: Option<Body>)
    | NetworkError(message: string)

  /** The `validateStatus` rule a request is made with: the client's default
      (any 2xx status) or the delete call's own (200 or 404). */
  datatype Validator = AnySuccess | OkOrNotFound

  predicate Accepts(v: Validator, status: nat) {
    match v
    case AnySuccess => 200 <= status < 300
    case OkOrNotFound => status == 200 || status == 404
  }

  datatype Response = Response(status: nat, body: Option<Body>)

  /** How an awaited request ends: it resolves with the response, or it throws
      an error that carries the response (if there was one) and a message. */
  datatype Settled =
    | Resolved(response: Response)
    | Rejected(attached: Option<Response>, message: string)

  /** The collection path of the products endpoint; an entry's own path is
      this followed by "/" and its id. */
  const ProductsPath := "/api/products"

  const StatusErrorPrefix := "Request failed with status code "

  /** The number a string of decimal digits denotes, read most significant
      digit first. */
  function DigitsValue(s: string): int {
    if s == [] then 0 else 10 * DigitsValue(s[..|s| - 1]) + (s[|s| - 1] as int - '0' as int)
  }

  /** Decimal digits of a number, most significant first. */
  function DecimalString(n: nat): (s: string)
    ensures |s| > 0
    ensures forall i :: 0 <= i < |s| ==> '0' <= s[i] <= '9'
    ensures n > 0 ==> s[0] != '0'
    ensures DigitsValue(s) == n
  {
    var last := ['0' + (n % 10) as char];
    if n < 10 then last
    else
      var front := DecimalString(n / 10);
      assert (front + last)[..|front + last| - 1] == front;
      front + last
  }

  /** The HTTP client's promise: a response whose status the validator
      accepts resolves; any other response rejects with the status message
      and still carries the response; a transport failure rejects with no
      response. */
  function Settle(reply: ServerReply, v: Validator): (s: Settled)
    ensures s.Resolved? <==> reply.Reply? && Accepts(v, reply.status)
    ensures s.Rejected? ==> (s.attached.Some? <==> reply.Reply?)
    ensures reply.Reply? ==> (if s.Resolved? then s.response else s.attached.value) == Response(reply.status, reply.body)
    ensures reply.NetworkError? ==> s.message == reply.message
  {
    match reply
    case NetworkError(msg) => Rejected(None, msg)
    case Reply(status, body) =>
      if Accepts(v, status) then Resolved(Response(status, body))
      else Rejected(Some(Response(status, body)), StatusErrorPrefix + DecimalString(status))
  }

  /** `err.response?.data?.error || fallback`: the server's `error` field when
      the rejection carries a body whose `error` is a non-empty string, and
      the fallback otherwise (an empty string is falsy). */
  function ServerErrorOr(s: Settled, fallback: string): (msg: string)
    requires s.Rejected?
    ensures msg == fallback || (s.attached.Some? && s.attached.value.body.Some? && s.attached.value.body.value.error == Some(msg))
    ensures msg == "" ==> fallback == ""
    ensures (s.attached.None? || s.attached.value.body.None? || s.attached.value.body.value.error.None?) ==> msg == fallback
    ensures s.attached.Some? && s.attached.value.body.Some? && s.attached.value.body.value.error.Some? ==>
      msg == (if s.attached.value.body.value.error.value != "" then s.attached.value.body.value.error.value else fallback)
  {
    match s.attached
    case None => fallback
    case Some(r) =>
      match r.body
      case None => fallback
      case Some(b) =>
        match b.error
        case Some(e) => if e != "" then e else fallback
        case None => fallback
  }

  /** The characters `String.prototype.trim` removes: the ECMAScript
      WhiteSpace and LineTerminator code points. */
  predicate IsJsWhitespace(c: char) {
    c == '\t' || c == '\n' || c == '\U{000B}' || c == '\U{000C}' || c == '\r' || c == ' '
    || c == '\U{00A0}' || c == '\U{1680}' || ('\U{2000}' <= c <= '\U{200A}')
    || c == '\U{2028}' || c == '\U{2029}' || c == '\U{202F}' || c == '\U{205F}'
    || c == '\U{3000}' || c == '\U{FEFF}'
  }

  predicate Blank(s: string) {
    forall i :: 0 <= i < |s| ==> IsJsWhitespace(s[i])
  }

  /** Leading whitespace removed. */
  function TrimStart(s: string): string {
    if s != [] && IsJsWhitespace(s[0]) then TrimStart(s[1..]) else s
  }

  /** Trailing whitespace removed. */
  function TrimEnd(s: string): string {
    if s != [] && IsJsWhitespace(s[|s| - 1]) then TrimEnd(s[..|s| - 1]) else s
  }

  /** `TrimStart` keeps a suffix that is empty or starts with a non-whitespace
      character, and what it drops is whitespace. */
  lemma {:induction false} TrimStartShape(s: string)
    ensures var r := TrimStart(s);
      && |r| <= |s| && r == s[|s| - |r|..]
      && Blank(s[..|s| - |r|])
      && (r == [] || !IsJsWhitespace(r[0]))
  {
    if s != [] && IsJsWhitespace(s[0]) {
      var tail := s[1..];
      TrimStartShape(tail);
      var r := TrimStart(tail);
      assert TrimStart(s) == r;
      assert r == s[|s| - |r|..] by {
        assert r == tail[|tail| - |r|..];
        assert tail[|tail| - |r|..] == s[|s| - |r|..];
      }
      assert s[..|s| - |r|] == [s[0]] + tail[..|tail| - |r|];
      var dropped := s[..|s| - |r|];
      forall i | 0 <= i < |dropped| ensures IsJsWhitespace(dropped[i]) {
        if i > 0 {
          assert dropped[i] == tail[..|tail| - |r|][i - 1];
        }
      }
    }
  }

  /** `TrimEnd` keeps a prefix that is empty or ends with a non-whitespace
      character, and what it drops is whitespace. */
  lemma {:induction false} TrimEndShape(s: string)
    ensures var r := TrimEnd(s);
      && |r| <= |s| && r == s[..|r|]
      && Blank(s[|r|..])
      && (r == [] || !IsJsWhitespace(r[|r| - 1]))
  {
    if s != [] && IsJsWhitespace(s[|s| - 1]) {
      var init := s[..|s| - 1];
      TrimEndShape(init);
      var r := TrimEnd(init);
      assert TrimEnd(s) == r;
      assert r == s[..|r|] by {
        assert r == init[..|r|];
        assert init[..|r|] == s[..|r|];
      }
      assert s[|r|..] == init[|r|..] + [s[|s| - 1]];
      var dropped := s[|r|..];
      forall i | 0 <= i < |dropped| ensures IsJsWhitespace(dropped[i]) {
        if i < |init| - |r| {
          assert dropped[i] == init[|r|..][i];
        }
      }
    }
  }

  /** `String.prototype.trim`. */
  function Trim(s: string): string {
    TrimEnd(TrimStart(s))
  }

  /** `!s.trim()` holds exactly when every character of `s` is whitespace. */
  lemma {:induction false} TrimEmptyIffBlank(s: string)
    ensures Trim(s) == "" <==> Blank(s)
  {
    var t := TrimStart(s);
    var k := |s| - |t|;
    TrimStartShape(s);
    TrimEndShape(t);
    if Trim(s) == "" {
      assert t == [];
      forall i | 0 <= i < |s| ensures IsJsWhitespace(s[i]) {
        assert s[..k][i] == s[i];
      }
    }
  }
}

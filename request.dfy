/** The request helper: how the outcome of one HTTP call becomes the
    dictionary or list every other operation returns. It never raises: every
    failure becomes an object with an "error" member. */
module Request {
  import opened Upstream
  import Decimal

  /** The method name passed to the helper. `OtherMethod(name)` stands for a
      name that is none of "GET", "POST", "PUT" and "DELETE" (the comparison is
      exact, so "get" is one); the four known names are the other constructors. */
  datatype Method = Get | Post | Put | Delete | OtherMethod(name: string)

  /** What parsing a non-empty body gives: a JSON value or a decoding error. */
  datatype Body = Parsed(value: Reply) | Malformed(reason: string)

  /** What the HTTP client did with one call. */
  datatype Outcome =
      /** The server answered with this status; `text` is the decoded body. */
    | Answered(status: nat, text: string, body: Body)
      /** The client raised before any status was read (timeout, connection
          refused, ...); `reason` is the exception's text. */
    | ClientFailure(reason: string)

  /** The text of the exception raised when no client call was made, because
      the method name matched none of the four branches. */
  const UnboundResponse: string :=
    "cannot access local variable 'response' where it is not associated with a value"

  /** What `raise_for_status` accepts: a 2xx status. */
  predicate IsSuccessStatus(status: nat)
  {
    200 <= status < 300
  }

  /** The error text for a non-2xx status. */
  function HttpError(status: nat): string
  {
    "HTTP " + Decimal.Show(status)
  }

  /** The call ends in one of the helper's exception handlers. */
  predicate Fails(m: Method, o: Outcome)
  {
    || m.OtherMethod?
    || o.ClientFailure?
    || !IsSuccessStatus(o.status)
    || (o.text != "" && o.body.Malformed?)
  }

  /** `_make_request`: shape the outcome of one call. */
  function MakeRequest(m: Method, o: Outcome): (r: Reply)
    // every failure is an object carrying an "error" member
    ensures Fails(m, o) ==> r.Object? && "error" in r.members
    // a status error names the status and carries the body text
    ensures !m.OtherMethod? && o.Answered? && !IsSuccessStatus(o.status) ==>
              r.members == map["error" := Str(HttpError(o.status)), "message" := Str(o.text)]
    // a client exception is reported by its own text
    ensures !m.OtherMethod? && o.ClientFailure? ==> r.members == map["error" := Str(o.reason)]
    // an unknown method fails before any call, with the unbound-variable text
    ensures m.OtherMethod? ==> r == Object(map["error" := Str(UnboundResponse)])
    // a body that does not parse is reported by the decoder's text alone
    ensures !m.OtherMethod? && o.Answered? && IsSuccessStatus(o.status) && o.text != "" && o.body.Malformed? ==>
              r == Object(map["error" := Str(o.body.reason)])
    // a successful empty body is the empty object
    ensures !Fails(m, o) && o.text == "" ==> r == Object(map[])
    // a successful non-empty body is what it parses to
    ensures !Fails(m, o) && o.text != "" ==> r == o.body.value
    // so the reply is a list exactly when the call succeeded with a list body
    ensures r.List? <==> !Fails(m, o) && o.text != "" && o.body.value.List?
  {
    if m.OtherMethod? then Object(map["error" := Str(UnboundResponse)])
    else match o
      case ClientFailure(reason) => Object(map["error" := Str(reason)])
      case Answered(status, text, body) =>
        if !IsSuccessStatus(status) then
          Object(map["error" := Str(HttpError(status)), "message" := Str(text)])
        else if text == "" then Object(map[])
        else match body
          case Parsed(v) => v
          case Malformed(reason) => Object(map["error" := Str(reason)])
  }

  /** The "error" text of a status error determines the status. */
  lemma HttpErrorIdentifiesStatus(m: Method, text1: string, body1: Body, s1: nat,
                                  text2: string, body2: Body, s2: nat)
    requires !m.OtherMethod? && !IsSuccessStatus(s1) && !IsSuccessStatus(s2)
    ensures (MakeRequest(m, Answered(s1, text1, body1)).members["error"]
             == MakeRequest(m, Answered(s2, text2, body2)).members["error"]) ==> s1 == s2
  {
    var e1, e2 := HttpError(s1), HttpError(s2);
    if e1 == e2 {
      assert e1[5..] == Decimal.Show(s1) && e2[5..] == Decimal.Show(s2);
      Decimal.ShowInjective(s1, s2);
    }
  }

  /** A 404 answer to a GET reads `{"error": "HTTP 404", "message": <body>}`. */
  lemma NotFoundReply(text: string, body: Body)
    ensures MakeRequest(Get, Answered(404, text, body))
              == Object(map["error" := Str("HTTP 404"), "message" := Str(text)])
  {
    assert Decimal.Show(404) == "404" by {
      assert Decimal.DigitChar(4) == '4' && Decimal.DigitChar(0) == '0';
      assert Decimal.Show(40) == Decimal.Show(4) + ['0'] == "40";
      assert Decimal.Show(404) == Decimal.Show(40) + ['4'];
    }
    assert HttpError(404) == "HTTP 404";
  }
}

/**
 * The library's error records (lib/errors.js). Every constructor only computes fields
 * from its arguments, so each one is a function returning an `Error` value.
 */
module Errors {
  import opened Wrappers

  /** The raw HTTP response the transport hands back. */
  datatype RawResponse = RawResponse(headers: map<string, string>)

  /**
   * An error object reported by the transport. A missing `statusCode` or `data`
   * is `None`; `response` is the raw response that the triage attaches before wrapping.
   */
  datatype TransportError = TransportError(
    statusCode: Option<int>,
    data: Option<string>,
    response: Option<RawResponse>)

  /** One `{code, message}` entry of a remote error list; a missing field is `None`. */
  datatype ApiError = ApiError(code: Option<int>, message: Option<string>)

  datatype Error =
    | HTTPError(statusCode: Option<int>, data: Option<string>, originalError: TransportError, message: string)
    | NoCallbackError(message: string)
    | ArgumentError(message: string)
    | ArgumentRequiredError(message: string)
    | TwitterError(errors: seq<ApiError>, message: string, codes: seq<Option<int>>)
    | BearerTokenError(originalError: TransportError, message: string)
  {
    /** The `name` field, which every constructor sets to its own name. */
    function Name(): string
    {
      match this
      case HTTPError(_, _, _, _) => "HTTPError"
      case NoCallbackError(_) => "NoCallbackError"
      case ArgumentError(_) => "ArgumentError"
      case ArgumentRequiredError(_) => "ArgumentRequiredError"
      case TwitterError(_, _, _) => "TwitterError"
      case BearerTokenError(_, _) => "BearerTokenError"
    }
  }

  // ---------------------------------------------------------------------------
  // Number to string, as `'' + n` does for an integral number

  predicate IsDigit(c: char)
  {
    '0' <= c <= '9'
  }

  function DigitChar(d: nat): (c: char)
    requires d < 10
    ensures IsDigit(c) && c as int - '0' as int == d
  {
    "0123456789"[d]
  }

  /** The decimal digits of `n`, most significant first, without leading zeros. */
  function NatToString(n: nat): (s: string)
    ensures |s| >= 1
    ensures forall i :: 0 <= i < |s| ==> IsDigit(s[i])
    decreases n
  {
    if n < 10 then [DigitChar(n)] else NatToString(n / 10) + [DigitChar(n % 10)]
  }

  function IntToString(i: int): string
  {
    if i < 0 then "-" + NatToString(-i) else NatToString(i)
  }

  /** The value of a string of decimal digits: the reference reading of `NatToString`. */
  function ParseDigits(s: string): nat
    requires forall i :: 0 <= i < |s| ==> IsDigit(s[i])
  {
    if s == [] then 0
    else
      assert IsDigit(s[|s| - 1]);
      ParseDigits(s[..|s| - 1]) * 10 + (s[|s| - 1] as int - '0' as int)
  }

  /** Reading the digits back gives the number that was printed. */
  lemma {:induction false} ParseNatToString(n: nat)
    ensures ParseDigits(NatToString(n)) == n
  {
    var s := NatToString(n);
    if n >= 10 {
      ParseNatToString(n / 10);
      assert s[..|s| - 1] == NatToString(n / 10);
    }
  }

  /** No leading zeros: only 0 itself is printed starting with '0'. */
  lemma {:induction false} NatToStringNoLeadingZero(n: nat)
    ensures NatToString(n)[0] == '0' <==> n == 0
  {
    if n >= 10 {
      NatToStringNoLeadingZero(n / 10);
      assert NatToString(n)[0] == NatToString(n / 10)[0];
    }
  }

  /** `this.statusCode + ''`: a missing status code prints as "undefined". */
  function StatusCodeText(code: Option<int>): string
  {
    match code
    case None => "undefined"
    case Some(n) => IntToString(n)
  }

  // ---------------------------------------------------------------------------
  // The constructors

  /**
   * `new HTTPError(error)`. `statusText` stands for the entry of Node's status-code
   * table for the code (as a string), which is not part of this model.
   */
  function NewHTTPError(error: TransportError, statusText: string): (e: Error)
    ensures e.HTTPError? && e.Name() == "HTTPError"
    ensures e.statusCode == error.statusCode && e.data == error.data && e.originalError == error
    ensures var prefix := StatusCodeText(error.statusCode) + ": ";
            |prefix| <= |e.message| && e.message[..|prefix|] == prefix && e.message[|prefix|..] == statusText
  {
    HTTPError(error.statusCode, error.data, error, StatusCodeText(error.statusCode) + ": " + statusText)
  }

  /** The status code of an HTTPError can be read back from the start of its message. */
  lemma HTTPErrorCodeReadBack(error: TransportError, statusText: string, n: nat)
    requires error.statusCode == Some(n)
    ensures var m := NewHTTPError(error, statusText).message;
            var k := |NatToString(n)|;
            k + 2 <= |m| && (forall i :: 0 <= i < k ==> IsDigit(m[i])) &&
            ParseDigits(m[..k]) == n && m[k..k + 2] == ": "
  {
    var m := NewHTTPError(error, statusText).message;
    var k := |NatToString(n)|;
    assert m[..k] == NatToString(n);
    ParseNatToString(n);
  }

  const NoCallbackMessage := "No callback provided"

  /** `new NoCallbackError()`: a constant message. */
  function NewNoCallbackError(): (e: Error)
    ensures e.NoCallbackError? && e.Name() == "NoCallbackError" && e.message == NoCallbackMessage
  {
    NoCallbackError(NoCallbackMessage)
  }

  /** `new ArgumentError(arg, message)`. */
  function NewArgumentError(arg: string, message: string): (e: Error)
    ensures e.ArgumentError? && e.Name() == "ArgumentError"
    ensures |e.message| == 13 + |arg| + 1 + |message|
    ensures e.message[..13] == "The argument " && e.message[13..13 + |arg|] == arg
    ensures e.message[13 + |arg|] == ' ' && e.message[14 + |arg|..] == message
  {
    ArgumentError("The argument " + arg + " " + message)
  }

  /** JavaScript truthiness of an optional string argument. */
  predicate TruthyText(s: Option<string>)
  {
    s.Some? && s.value != ""
  }

  /**
   * `new ArgumentRequiredError(arg, message)`: the base sentence, followed by
   * `' ' + message` exactly when `message` is truthy.
   */
  function NewArgumentRequiredError(arg: string, message: Option<string>): (e: Error)
    ensures e.ArgumentRequiredError? && e.Name() == "ArgumentRequiredError"
    ensures var base := "The argument " + arg + " is required";
            |base| <= |e.message| && e.message[..|base|] == base &&
            (TruthyText(message) <==> |e.message| > |base|) &&
            (TruthyText(message) ==> e.message[|base|..] == " " + message.value)
  {
    var base := "The argument " + arg + " is required";
    if TruthyText(message) then ArgumentRequiredError(base + " " + message.value)
    else ArgumentRequiredError(base)
  }

  /** `_.pluck(errors, 'message')` as `join` sees it: a missing message joins as "". */
  function Messages(errors: seq<ApiError>): (ms: seq<string>)
    ensures |ms| == |errors|
    ensures forall i :: 0 <= i < |errors| ==>
      ms[i] == (if errors[i].message.Some? then errors[i].message.value else "")
  {
    seq(|errors|, i requires 0 <= i < |errors| =>
      if errors[i].message.Some? then errors[i].message.value else "")
  }

  /** `_.pluck(errors, 'code')`. */
  function Codes(errors: seq<ApiError>): (cs: seq<Option<int>>)
    ensures |cs| == |errors|
    ensures forall i :: 0 <= i < |errors| ==> cs[i] == errors[i].code
  {
    seq(|errors|, i requires 0 <= i < |errors| => errors[i].code)
  }

  /** `xs.join(sep)`. */
  function Join(xs: seq<string>, sep: string): (r: string)
    ensures |xs| == 0 ==> r == ""
    ensures |xs| == 1 ==> r == xs[0]
    ensures |xs| > 1 ==> |xs[0] + sep| <= |r| && r[..|xs[0] + sep|] == xs[0] + sep
  {
    if |xs| == 0 then ""
    else if |xs| == 1 then xs[0]
    else xs[0] + sep + Join(xs[1..], sep)
  }

  /** `new TwitterError(errors)`. */
  function NewTwitterError(errors: seq<ApiError>): (e: Error)
    ensures e.TwitterError? && e.Name() == "TwitterError" && e.errors == errors
    ensures |e.codes| == |errors| && forall i :: 0 <= i < |errors| ==> e.codes[i] == errors[i].code
    ensures errors == [] ==> e.message == ""
    ensures e.message == Join(Messages(errors), ", ")
  {
    TwitterError(errors, Join(Messages(errors), ", "), Codes(errors))
  }

  /** `new BearerTokenError(error, message)`. */
  function NewBearerTokenError(error: TransportError, message: string): (e: Error)
    ensures e.BearerTokenError? && e.Name() == "BearerTokenError"
    ensures e.originalError == error && e.message == message
  {
    BearerTokenError(error, message)
  }

  // ---------------------------------------------------------------------------
  // Reading a joined message back

  /** `s.split(', ')`. */
  function SplitComma(s: string): (parts: seq<string>)
    ensures |parts| >= 1
    decreases |s|
  {
    if |s| == 0 then [""]
    else if |s| >= 2 && s[0] == ',' && s[1] == ' ' then [""] + SplitComma(s[2..])
    else
      var rest := SplitComma(s[1..]);
      [[s[0]] + rest[0]] + rest[1..]
  }

  predicate NoComma(x: string)
  {
    forall i :: 0 <= i < |x| ==> x[i] != ','
  }

  lemma {:induction false} SplitCommaPrefix(x: string, t: string)
    requires NoComma(x)
    ensures var r := SplitComma(t); SplitComma(x + t) == [x + r[0]] + r[1..]
  {
    if x != [] {
      SplitCommaPrefix(x[1..], t);
      assert (x + t)[1..] == x[1..] + t;
      assert x + t == [x[0]] + (x[1..] + t);
      assert [x[0]] + (x[1..] + SplitComma(t)[0]) == x + SplitComma(t)[0];
    } else {
      var r := SplitComma(t);
      assert x + t == t && x + r[0] == r[0];
      assert r == [r[0]] + r[1..];
    }
  }

  /**
   * The message of a TwitterError splits back into the individual messages,
   * provided there is at least one and none of them contains a comma.
   */
  lemma {:induction false} SplitJoin(xs: seq<string>)
    requires |xs| >= 1
    requires forall i :: 0 <= i < |xs| ==> NoComma(xs[i])
    ensures SplitComma(Join(xs, ", ")) == xs
  {
    if |xs| == 1 {
      SplitCommaPrefix(xs[0], "");
      assert xs[0] + "" == xs[0];
    } else {
      SplitJoin(xs[1..]);
      var t := ", " + Join(xs[1..], ", ");
      assert Join(xs, ", ") == xs[0] + t;
      SplitCommaPrefix(xs[0], t);
      assert t[2..] == Join(xs[1..], ", ");
      assert SplitComma(t) == [""] + xs[1..];
      assert xs[0] + "" == xs[0];
      assert [xs[0]] + xs[1..] == xs;
    }
  }

  lemma TwitterErrorMessages(errors: seq<ApiError>)
    requires |errors| >= 1
    requires forall i :: 0 <= i < |errors| ==>
      errors[i].message.Some? && NoComma(errors[i].message.value)
    ensures var ms := SplitComma(NewTwitterError(errors).message);
            |ms| == |errors| && forall i :: 0 <= i < |errors| ==> Some(ms[i]) == errors[i].message
  {
    SplitJoin(Messages(errors));
  }
}

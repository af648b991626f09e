/** The HTTP layer's pure helpers: the request-token test, the response
    envelope and the clamping of a caller's timeout to milliseconds. */
module HttpHelper {
  import opened Values
  import opened Text
  import opened Utils

  /** `check_request_token`: a request is accepted exactly when it carries the
      configured access token; one without a token is refused. */
  function CheckRequestToken(token: Option<string>, configured: string): (ok: bool)
    ensures ok <==> token.Some? && token.value == configured
  {
    token == Some(configured)
  }

  /** An error code: a plain integer, or an enumeration member given by its
      text (`str(member)`) and its integer value. */
  datatype ErrCode = Plain(code: int) | Member(text: string, code: int)

  /** `str(err_code)` */
  function ErrCodeText(e: ErrCode): string {
    match e
    case Plain(c) => IntToString(c)
    case Member(t, _) => t
  }

  /** `make_response`: status is the code's integer, msg the given message or
      else the text of the code, data passed through unchanged. */
  function MakeResponse(errCode: ErrCode, errMsg: Option<string>, data: Value): (r: map<string, Value>)
    ensures r.Keys == {"status", "msg", "data"}
    ensures r["data"] == data
  {
    map["status" := Int(errCode.code),
        "msg" := Str(if errMsg.Some? then errMsg.value else ErrCodeText(errCode)),
        "data" := data]
  }

  /** Without a message, the message of a non-negative integer code reads back
      as the status itself. */
  lemma ResponseMessageIsStatus(c: nat, data: Value)
    ensures MakeResponse(Plain(c), None, data)["msg"].Str?
    ensures AllDigits(MakeResponse(Plain(c), None, data)["msg"].s)
    ensures DigitsValue(MakeResponse(Plain(c), None, data)["msg"].s) == MakeResponse(Plain(c), None, data)["status"].i
  {
    DigitsValueOfNatToString(c);
  }

  /** A message given by the caller is used as it is, whatever the code. */
  lemma ResponseMessageGiven(e: ErrCode, m: string, data: Value)
    ensures MakeResponse(e, Some(m), data)["msg"] == Str(m)
    ensures MakeResponse(e, Some(m), data)["status"] == Int(e.code)
  {
  }

  /** `calculate_timeout_in_ms(timeout, min_val, default_val)`: the default
      when no timeout is given, at least `min_val`, at most 60 seconds,
      truncated to whole milliseconds. */
  function TimeoutInMs(timeout: Option<real>, minVal: real, defaultVal: real): (ms: int)
    ensures timeout.None? ==> ms == Trunc(defaultVal * 1000.0)
    ensures timeout.Some? ==> ms == Trunc(Clamp(timeout.value, minVal, 60.0) * 1000.0)
  {
    if timeout.None? then Trunc(defaultVal * 1000.0)
    else if timeout.value < minVal then Trunc(minVal * 1000.0)
    else if timeout.value > 60.0 then 60 * 1000
    else Trunc(timeout.value * 1000.0)
  }

  /** `t` moved into [lo, hi], the lower bound tested first. */
  function Clamp(t: real, lo: real, hi: real): (r: real)
    ensures lo <= hi ==> lo <= r <= hi
    ensures lo <= t <= hi ==> r == t
  {
    if t < lo then lo else if t > hi then hi else t
  }

  lemma TruncMonotone(x: real, y: real)
    requires 0.0 <= x <= y
    ensures 0 <= Trunc(x) <= Trunc(y)
  {
  }

  /** With a bound of at most 60 seconds every given timeout lands in
      [min_val, 60] seconds, and a longer timeout never gives a shorter wait. */
  lemma TimeoutClamped(t: real, u: real, minVal: real, defaultVal: real)
    requires 0.0 <= minVal <= 60.0
    ensures Trunc(minVal * 1000.0) <= TimeoutInMs(Some(t), minVal, defaultVal) <= 60000
    ensures t <= u ==> TimeoutInMs(Some(t), minVal, defaultVal) <= TimeoutInMs(Some(u), minVal, defaultVal)
  {
    TruncMonotone(minVal * 1000.0, 60000.0);
    if minVal <= t <= 60.0 {
      TruncMonotone(minVal * 1000.0, t * 1000.0);
      TruncMonotone(t * 1000.0, 60000.0);
    }
    if t <= u && minVal <= t <= u <= 60.0 {
      TruncMonotone(t * 1000.0, u * 1000.0);
    }
    if t <= u && minVal <= u <= 60.0 {
      TruncMonotone(minVal * 1000.0, u * 1000.0);
    }
  }

  /** With the default arguments (0.5 s minimum, 2 s default): no timeout
      gives 2000 ms, a too-short one 500 ms, a too-long one 60000 ms, and a
      fractional one is truncated. */
  lemma TimeoutDefaults()
    ensures TimeoutInMs(None, 0.5, 2.0) == 2000
    ensures TimeoutInMs(Some(0.1), 0.5, 2.0) == 500
    ensures TimeoutInMs(Some(90.0), 0.5, 2.0) == 60000
    ensures TimeoutInMs(Some(1.2345), 0.5, 2.0) == 1234
  {
    assert (1234.5).Floor == 1234;
  }
}

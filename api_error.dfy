/**
 * The error the Scaleway API client reports when the remote rejects a
 * request (ScalewayAPIError), and the text its Error method renders.
 */
module ApiErrors {
  import opened Wrappers

  /** Prefix of the fallback message used when no text message is known. */
  const InvalidCodePrefix: string := "invalid return code, got "

  /**
   * A remote rejection. `apiMessage` and `errorType` come from the JSON body;
   * `statusCode` and `message` are never decoded and are set by the client.
   */
  datatype ApiError = ApiError(apiMessage: string, errorType: string, statusCode: int, message: string)
  {
    /** Error has something to say: otherwise it panics. */
    predicate Renderable() {
      message != "" || apiMessage != "" || statusCode != 0
    }

    /** The message of the error: the client's own text first, then the remote's, then the status. */
    function Error(): (msg: string)
      requires Renderable()
      ensures msg != ""
      ensures message != "" ==> msg == message
      ensures message == "" && apiMessage != "" ==> msg == apiMessage
      ensures message == "" && apiMessage == "" ==>
                |msg| > |InvalidCodePrefix| && msg[..|InvalidCodePrefix|] == InvalidCodePrefix &&
                msg[|InvalidCodePrefix|..] == FormatInt(statusCode) &&
                ParseInt(msg[|InvalidCodePrefix|..]) == Some(statusCode)
    {
      if message != "" then message
      else if apiMessage != "" then apiMessage
      else
        ParseFormatInt(statusCode);
        assert (InvalidCodePrefix + FormatInt(statusCode))[|InvalidCodePrefix|..] == FormatInt(statusCode);
        InvalidCodePrefix + FormatInt(statusCode)
    }
  }

  predicate IsDigit(c: char) {
    '0' <= c <= '9'
  }

  predicate AllDigits(s: string) {
    forall i :: 0 <= i < |s| ==> IsDigit(s[i])
  }

  function DigitChar(d: nat): (c: char)
    requires d < 10
  {
    ('0' as int + d) as char
  }

  function DigitValue(c: char): (d: nat)
    requires IsDigit(c)
  {
    c as int - '0' as int
  }

  /** Decimal rendering of a natural number, most significant digit first, as %d writes it. */
  function FormatNat(n: nat): (s: string)
    ensures s != [] && AllDigits(s)
    ensures |s| > 1 ==> s[0] != '0'
  {
    if n < 10 then [DigitChar(n)] else FormatNat(n / 10) + [DigitChar(n % 10)]
  }

  /** Decimal rendering of an integer, with a leading '-' when negative, as %d writes it. */
  function FormatInt(n: int): (s: string)
    ensures s != []
    ensures s[0] == '-' <==> n < 0
    ensures n < 0 ==> s[1..] == FormatNat(-n)
    ensures n >= 0 ==> s == FormatNat(n)
  {
    if n < 0 then "-" + FormatNat(-n) else FormatNat(n)
  }

  /** The value of a non-empty string of decimal digits. */
  function ParseNat(s: string): nat
    requires s != [] && AllDigits(s)
  {
    if |s| == 1 then DigitValue(s[0])
    else ParseNat(s[..|s| - 1]) * 10 + DigitValue(s[|s| - 1])
  }

  /** Reads back an optionally negative decimal integer; None for anything else. */
  function ParseInt(s: string): (r: Option<int>)
  {
    if s != [] && s[0] == '-' then
      if |s| > 1 && AllDigits(s[1..]) then Some(-(ParseNat(s[1..]) as int)) else None
    else if s != [] && AllDigits(s) then Some(ParseNat(s))
    else None
  }

  lemma {:induction false} ParseFormatNat(n: nat)
    ensures ParseNat(FormatNat(n)) == n
  {
    if n >= 10 {
      var s := FormatNat(n);
      assert s[..|s| - 1] == FormatNat(n / 10);
      ParseFormatNat(n / 10);
    }
  }

  /** %d loses nothing: the rendered status code reads back as the same number. */
  lemma ParseFormatInt(n: int)
    ensures ParseInt(FormatInt(n)) == Some(n)
  {
    if n < 0 {
      var digits := FormatNat(-n);
      assert ("-" + digits)[1..] == digits;
      ParseFormatNat(-n);
    } else {
      var digits := FormatNat(n);
      assert digits[0] != '-';
      ParseFormatNat(n);
    }
  }
}

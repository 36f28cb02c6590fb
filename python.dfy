/** The small part of Python's runtime that the gateway relies on: the
    scalar values the carrier's SOAP replies carry, `str()` of such a value,
    `str.split` with an explicit separator, the exceptions raised along the
    modelled paths, and falcon's HTTP status constants as an opaque enum. */
module Python {

  /** A scalar as the SOAP serializer hands it over: a string, an integer or None. */
  datatype Scalar = PyStr(s: string) | PyInt(n: int) | PyNone

  /** A decoded JSON value (a request body or a query parameter). Booleans and
      floats are not represented; for `parameter_as_list`, the one consumer
      of this type, they would take the same branch as an integer (neither a
      list nor a string). */
  datatype PyObject = Scalar(v: Scalar) | List(items: seq<PyObject>) | Dict(entries: map<string, PyObject>)

  /** falcon's status constants, kept opaque. */
  datatype HttpStatus =
    | Ok200
    | BadRequest400
    | Unauthorized401
    | NotFound404
    | NotAcceptable406
    | Conflict409
    | ImATeapot418
    | InternalServerError500

  /** The exceptions that can leave the modelled code. */
  datatype Exception =
    | KeyError
    | IndexError
    | TypeError
    | AttributeError
    | Base64Error          // binascii.Error from base64.b64decode
    | UnicodeDecodeError
    | HttpError(status: HttpStatus, title: string, description: string)

  function DigitChar(d: int): (c: char)
    requires 0 <= d < 10
    ensures '0' <= c <= '9'
  {
    (('0' as int) + d) as char
  }

  /** Decimal digits of a natural number, most significant first, no leading zero. */
  function Digits(n: nat): (r: string)
    ensures |r| >= 1
    ensures n >= 10 ==> |r| >= 2
    ensures forall i :: 0 <= i < |r| ==> '0' <= r[i] <= '9'
    ensures r[0] == '0' <==> n == 0
  {
    if n < 10 then [DigitChar(n)] else Digits(n / 10) + [DigitChar(n % 10)]
  }

  /** `str(n)` for an int. */
  function IntStr(n: int): string {
    if n < 0 then "-" + Digits(-n) else Digits(n)
  }

  /** `str(v)` for a scalar: a string is its own string form, and the form
      "0" belongs to the string "0" and the integer 0 alone. */
  function Str(v: Scalar): (r: string)
    ensures v.PyStr? ==> r == v.s
    ensures r == "0" <==> v == PyStr("0") || v == PyInt(0)
  {
    match v
    case PyStr(s) => s
    case PyInt(n) => IntStrIsZeroIff(n); IntStr(n)
    case PyNone => "None"
  }

  /** `str(n) == "0"` holds only for the integer zero. */
  lemma IntStrIsZeroIff(n: int)
    ensures IntStr(n) == "0" <==> n == 0
  {
    if n < 0 {
      assert IntStr(n)[0] == '-';
    }
  }

  /** `s.split(sep)`: the pieces between successive occurrences of `sep`,
      empty pieces included. */
  function Split(s: string, sep: char): (parts: seq<string>)
    ensures |parts| >= 1
    ensures forall i :: 0 <= i < |parts| ==> sep !in parts[i]
    ensures |parts| == Count(s, sep) + 1
  {
    if s == [] then [""]
    else
      var rest := Split(s[1..], sep);
      if s[0] == sep then [""] + rest
      else [[s[0]] + rest[0]] + rest[1..]
  }

  /** `sep.join(parts)`. */
  function Join(parts: seq<string>, sep: char): string
    requires |parts| >= 1
  {
    if |parts| == 1 then parts[0] else parts[0] + [sep] + Join(parts[1..], sep)
  }

  /** Number of occurrences of `c` in `s`. */
  function Count(s: string, c: char): nat {
    if s == [] then 0 else (if s[0] == c then 1 else 0) + Count(s[1..], c)
  }

  /** Joining the pieces of a split gives back the string. */
  lemma {:induction false} JoinSplit(s: string, sep: char)
    ensures Join(Split(s, sep), sep) == s
  {
    if s != [] {
      JoinSplit(s[1..], sep);
      var rest := Split(s[1..], sep);
      if s[0] != sep && |rest| > 1 {
        assert Split(s, sep)[1..] == rest[1..];
      }
    }
  }

  /** Splitting a join of separator-free pieces gives back the pieces. */
  lemma {:induction false} SplitJoin(parts: seq<string>, sep: char)
    requires |parts| >= 1
    requires forall i :: 0 <= i < |parts| ==> sep !in parts[i]
    ensures Split(Join(parts, sep), sep) == parts
  {
    if |parts| == 1 {
      SplitNoSeparator(parts[0], sep);
    } else {
      SplitJoin(parts[1..], sep);
      SplitAfterPiece(parts[0], Join(parts[1..], sep), sep);
      assert [parts[0]] + parts[1..] == parts;
    }
  }

  /** A string without the separator splits into itself alone. */
  lemma {:induction false} SplitNoSeparator(s: string, sep: char)
    requires sep !in s
    ensures Split(s, sep) == [s]
  {
    if s != [] {
      SplitNoSeparator(s[1..], sep);
      assert [s[0]] + s[1..] == s;
    }
  }

  /** The first piece is everything up to the first separator. */
  lemma {:induction false} SplitAfterPiece(a: string, b: string, sep: char)
    requires sep !in a
    ensures Split(a + [sep] + b, sep) == [a] + Split(b, sep)
  {
    if a == [] {
      assert a + [sep] + b == [sep] + b;
      assert ([sep] + b)[1..] == b;
    } else {
      SplitAfterPiece(a[1..], b, sep);
      assert (a + [sep] + b)[1..] == a[1..] + [sep] + b;
      assert [a[0]] + a[1..] == a;
    }
  }
}

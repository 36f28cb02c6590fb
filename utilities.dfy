/** utilities.py: credential extraction from the Basic authentication token
    and the list normalisation of request parameters. */
module Utilities {
  import opened Wrappers
  import opened Python
  import Base64

  /** `extract_credentials`: base 64 decode the token, decode the bytes as
      text, split on EVERY colon and return pieces 0 and 1. Fewer than two
      pieces raise IndexError; decoding errors propagate. */
  function ExtractCredentials(encoded: string): (r: Result<(string, string), Exception>)
    ensures r.Success? ==> ':' !in r.value.0 && ':' !in r.value.1
  {
    match Base64.Decode(encoded)
    case Failure(e) => Failure(e)
    case Success(bytes) =>
      match Base64.DecodeAscii(bytes)
      case Failure(e) => Failure(e)
      case Success(text) =>
        var decoded := Split(text, ':');
        if |decoded| < 2 then Failure(IndexError) else Success((decoded[0], decoded[1]))
  }

  /** The token a client sends for `user:password`. */
  function BasicToken(text: string): string
    requires Base64.IsAscii(text)
  {
    Base64.Encode(Base64.AsciiBytes(text))
  }

  /** The token a client sends decodes back to the bytes of its text. */
  lemma BasicTokenDecodes(text: string)
    requires Base64.IsAscii(text)
    ensures Base64.Decode(BasicToken(text)) == Success(Base64.AsciiBytes(text))
  {
    Base64.DecodeEncode(Base64.AsciiBytes(text));
  }

  /** Any token that decodes to the bytes of `text`, canonical or not, yields
      the pieces of `text` before its first and second colon. */
  lemma ExtractFromText(token: string, text: string)
    requires Base64.IsAscii(text)
    requires Base64.Decode(token) == Success(Base64.AsciiBytes(text))
    ensures var parts := Split(text, ':');
      ExtractCredentials(token) ==
        if |parts| < 2 then Failure(IndexError) else Success((parts[0], parts[1]))
  {
    Base64.DecodeAsciiBytes(text);
  }

  /** Round trip: a user name and password without colons come back intact. */
  lemma ExtractRoundTrip(user: string, password: string)
    requires Base64.IsAscii(user) && Base64.IsAscii(password)
    requires ':' !in user && ':' !in password
    ensures Base64.IsAscii(user + ":" + password)
    ensures ExtractCredentials(BasicToken(user + ":" + password)) == Success((user, password))
  {
    var text := user + ":" + password;
    BasicTokenDecodes(text);
    ExtractFromText(BasicToken(text), text);
    SplitAfterPiece(user, password, ':');
    SplitNoSeparator(password, ':');
  }

  /** A password that contains a colon is cut at its first colon. */
  lemma PasswordTruncatedAtColon(user: string, head: string, tail: string)
    requires Base64.IsAscii(user) && Base64.IsAscii(head) && Base64.IsAscii(tail)
    requires ':' !in user && ':' !in head
    ensures Base64.IsAscii(user + ":" + head + ":" + tail)
    ensures ExtractCredentials(BasicToken(user + ":" + head + ":" + tail)) == Success((user, head))
  {
    var text := user + ":" + head + ":" + tail;
    BasicTokenDecodes(text);
    ExtractFromText(BasicToken(text), text);
    SplitTwoColons(user, head, tail);
  }

  lemma SplitTwoColons(user: string, head: string, tail: string)
    requires ':' !in user && ':' !in head
    ensures var parts := Split(user + ":" + head + ":" + tail, ':');
      |parts| >= 2 && parts[0] == user && parts[1] == head
  {
    assert user + ":" + head + ":" + tail == user + [':'] + (head + [':'] + tail);
    SplitAfterPiece(user, head + [':'] + tail, ':');
    SplitAfterPiece(head, tail, ':');
  }

  /** Decoded text without a colon has a single piece: index 1 is out of range. */
  lemma NoColonFails(text: string)
    requires Base64.IsAscii(text) && ':' !in text
    ensures ExtractCredentials(BasicToken(text)) == Failure(IndexError)
  {
    BasicTokenDecodes(text);
    ExtractFromText(BasicToken(text), text);
    SplitNoSeparator(text, ':');
  }

  /** `parameter_as_list`: a list is returned as it is, a string is wrapped
      in a one-element list, and any other value falls off the end of the
      function and yields None. */
  function ParameterAsList(parameter: PyObject): (r: Option<seq<PyObject>>)
    ensures r.Some? <==> parameter.List? || (parameter.Scalar? && parameter.v.PyStr?)
    ensures parameter.List? ==> r == Some(parameter.items)
    ensures parameter.Scalar? && parameter.v.PyStr? ==> r == Some([parameter])
  {
    if parameter.List? then Some(parameter.items)
    else if parameter.Scalar? && parameter.v.PyStr? then Some([parameter])
    else None
  }

  /** Normalising an already-normalised value changes nothing. */
  lemma ParameterAsListIdempotent(parameter: PyObject)
    requires ParameterAsList(parameter).Some?
    ensures ParameterAsList(List(ParameterAsList(parameter).value)) == ParameterAsList(parameter)
  {
  }
}

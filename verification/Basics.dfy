/** Vocabulary shared by every module: optional values, results, errors and the clock. */
module Basics {

  datatype Option<+T> = None | Some(value: T)

  datatype Result<+T, +E> = Success(value: T) | Failure(error: E)

  /** Nanoseconds since Go's zero time, so that Go's `IsZero` is `t == 0`. */
  type Time = int

  newtype byte = x: int | 0 <= x < 256
  type Bytes = seq<byte>

  /** The errors a caller can tell apart, and every other one by its message. */
  datatype Error =
    | RecordNotFound
    | OwnershipConflict
    | ProductRejected
    | LeaseLost
    | InvalidSignature
    | Other(message: string)
  {
    function Text(): string {
      match this
      case RecordNotFound => "record not found"
      case OwnershipConflict => "payment resource belongs to another identity"
      case ProductRejected => "payment product is not allowed"
      case LeaseLost => "payment webhook processing lease was lost"
      case InvalidSignature => "invalid payment webhook signature"
      case Other(message) => message
    }
  }

  /** `unicode.IsSpace`. */
  predicate IsSpace(c: char) {
    || '\U{9}' <= c <= '\U{D}' || c == ' ' || c == '\U{85}' || c == '\U{A0}' || c == '\U{1680}'
    || '\U{2000}' <= c <= '\U{200A}' || c == '\U{2028}' || c == '\U{2029}' || c == '\U{202F}'
    || c == '\U{205F}' || c == '\U{3000}'
  }

  function TrimLeft(s: string): string {
    if s != "" && IsSpace(s[0]) then TrimLeft(s[1..]) else s
  }

  function TrimRight(s: string): string {
    if s != "" && IsSpace(s[|s| - 1]) then TrimRight(s[..|s| - 1]) else s
  }

  /** `strings.TrimSpace`. */
  function TrimSpace(s: string): string {
    TrimRight(TrimLeft(s))
  }

  /** The number of bytes of a character in UTF-8. */
  function Width(c: char): nat {
    if c < '\U{80}' then 1 else if c < '\U{800}' then 2 else if c < '\U{10000}' then 3 else 4
  }

  /** `len` of a Go string: the number of bytes of its UTF-8 encoding. */
  function ByteLength(s: string): nat {
    if s == "" then 0 else Width(s[0]) + ByteLength(s[1..])
  }

  /** The characters that lie within the first `limit` bytes of `s`. */
  function FirstBytes(s: string, limit: nat): string {
    if s == "" || limit < Width(s[0]) then "" else [s[0]] + FirstBytes(s[1..], limit - Width(s[0]))
  }

  /** The cut keeps a prefix that fits, and as much as fits: all of it, or up to a character that does not. */
  lemma {:induction false} FirstBytesFit(s: string, limit: nat)
    ensures var cut := FirstBytes(s, limit);
            && cut <= s && ByteLength(cut) <= limit
            && (ByteLength(s) <= limit ==> cut == s)
            && (cut != s ==> ByteLength(cut) + Width(s[|cut|]) > limit)
  {
    if s == "" || limit < Width(s[0]) {
    } else {
      var rest := FirstBytes(s[1..], limit - Width(s[0]));
      FirstBytesFit(s[1..], limit - Width(s[0]));
      assert FirstBytes(s, limit)[1..] == rest;
      assert s == [s[0]] + s[1..];
    }
  }
}

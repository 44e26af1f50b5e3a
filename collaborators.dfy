/**
 * The code the conversion engine calls but does not own, reduced to the
 * contracts it relies on: the platform's contact directory (two read-only
 * queries), the mime4j RFC 2047 word encoders, and the MD5 digest of
 * RFC 1321. Each is a total function fixed for the lifetime of an engine.
 */
module Collaborators {
  import opened Wrappers
  import opened JavaText

  /** The 16 bytes an MD5 digest produces. */
  type Digest = d: seq<byte> | |d| == 16 witness [0, 0, 0, 0, 0, 0, 0, 0, 0, 0, 0, 0, 0, 0, 0, 0]

  /** MessageDigest.getInstance("MD5") fed a byte string, then digest(). */
  type Md5 = seq<byte> -> Digest

  /** EncoderUtil.encodeAddressLocalPart and EncoderUtil.encodeAddressDisplayName. */
  datatype Codec = Codec(encodeAddressLocalPart: string -> string, encodeAddressDisplayName: string -> string)

  /** encodeLocal: the local-part encoder, with a null argument passed straight through. */
  function EncodeLocal(codec: Codec, s: Option<string>): (r: Option<string>)
    ensures r.None? <==> s.None?
    ensures s.Some? ==> r.value == codec.encodeAddressLocalPart(s.value)
  {
    if s.Some? then Some(codec.encodeAddressLocalPart(s.value)) else None
  }

  /** encodeDisplayName: the display-name encoder, with a null argument passed straight through. */
  function EncodeDisplayName(codec: Codec, s: Option<string>): (r: Option<string>)
    ensures r.None? <==> s.None?
    ensures s.Some? ==> r.value == codec.encodeAddressDisplayName(s.value)
  {
    if s.Some? then Some(codec.encodeAddressDisplayName(s.value)) else None
  }

  /** The first row of the phone-filter query: person id, display name and matched number. */
  datatype PhoneMatch = PhoneMatch(personId: int, name: Option<string>, number: Option<string>)

  /**
   * The contact directory. `findByPhone` is the phone-filter query on an
   * address (None when the cursor is null or empty, or the query threw
   * IllegalArgumentException); `emailsOf` lists a person's stored e-mail
   * addresses in the order the directory returns them.
   */
  datatype Directory = Directory(findByPhone: string -> Option<PhoneMatch>, emailsOf: int -> seq<string>)

  /** Everything outside the engine that a conversion consults. */
  datatype Env = Env(directory: Directory, codec: Codec, md5: Md5)
}

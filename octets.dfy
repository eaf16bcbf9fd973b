/** The bytes a transport delivers (the contents of an `NSData`). */
module Octets {

  type byte = b: int | 0 <= b < 0x100

  type bytes = seq<byte>

  /** CARRIAGE RETURN and LINE FEED, the two bytes that end lines of an event stream. */
  const CR: byte := 0x0D
  const LF: byte := 0x0A
}

/** The parts of DNS messages that the program looks at. */
module Dns {
  type Byte = b: int | 0 <= b < 256
  type Uint16 = n: int | 0 <= n < 0x1_0000
  type Uint32 = n: int | 0 <= n < 0x1_0000_0000

  const TYPE_A: Uint16 := 1
  const TYPE_AAAA: Uint16 := 28

  /** Record data; the addresses are the byte slices the DNS library stores, of whatever length. */
  datatype RData = AddressA(a: seq<Byte>) | AddressAAAA(aaaa: seq<Byte>) | OtherData(text: string)

  /** A resource record: owner name, type, time to live in seconds (section 3.2.1 of RFC 1035) and data. */
  datatype RR = RR(name: string, rrtype: Uint16, ttl: Uint32, data: RData)
}

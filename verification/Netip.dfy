/** Addresses of net/netip, as far as the program tells them apart. */
module Netip {
  /** The zero value is invalid; a 4-in-6 address is a V6 that carries an IPv4 one. */
  datatype Addr = Zero | V4(bits: nat) | V6(bits: nat, v4In6: bool)

  /** What ParseAddr yields: of one family or the other, 4-in-6 addresses counting as Is6. */
  type ParsedAddr = a: Addr | !a.Zero? witness V4(0)

  datatype AddrPort = AddrPort(addr: Addr, port: nat)
}

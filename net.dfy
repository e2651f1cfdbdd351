/** The address types of `std::net` that the HTTP clients format into
    URLs, and their `Display` text. */
module Net {
  import opened Common
  import opened RustText

  /** `std::net::IpAddr`. An IPv6 address is kept as its display text
      (groups of hexadecimal digits separated by ':', a run of zero groups
      written "::", possibly an embedded dotted IPv4 tail); how that text
      is derived from the eight groups is not modelled. */
  datatype IpAddr = V4(a: byte, b: byte, c: byte, d: byte) | V6(text: string)

  predicate IsHexDigit(ch: char) {
    '0' <= ch <= '9' || 'a' <= ch <= 'f' || 'A' <= ch <= 'F'
  }

  /** What an IPv6 display text can hold: it is never empty, always has a
      ':', and otherwise only hex digits and '.'. */
  predicate WellFormed(ip: IpAddr) {
    ip.V6? ==>
      |ip.text| > 0 && ':' in ip.text &&
      forall i :: 0 <= i < |ip.text| ==> IsHexDigit(ip.text[i]) || ip.text[i] == ':' || ip.text[i] == '.'
  }

  /** `std::net::SocketAddr`. */
  datatype SocketAddr = SocketAddr(ip: IpAddr, port: u16)

  /** `ip.to_string()`: dotted decimal for IPv4, the bare display text for
      IPv6. */
  function IpText(ip: IpAddr): (s: string)
    ensures ip.V4? ==> ':' !in s
    ensures ip.V6? ==> s == ip.text
  {
    match ip
    case V4(a, b, c, d) =>
      var s := FormatDecimal(a as nat) + "." + FormatDecimal(b as nat) + "." + FormatDecimal(c as nat) + "." + FormatDecimal(d as nat);
      assert forall i :: 0 <= i < |s| ==> IsDigit(s[i]) || s[i] == '.';
      s
    case V6(text) => text
  }

  /** `addr.to_string()`: `ip:port` for IPv4 and `[ip]:port` for IPv6, so
      the port always follows the last ':'. */
  function SocketAddrText(addr: SocketAddr): (s: string)
    ensures addr.ip.V4? ==> s == IpText(addr.ip) + ":" + FormatDecimal(addr.port)
    ensures addr.ip.V6? ==> s == "[" + addr.ip.text + "]:" + FormatDecimal(addr.port)
  {
    match addr.ip
    case V4(_, _, _, _) => IpText(addr.ip) + ":" + FormatDecimal(addr.port)
    case V6(text) => "[" + text + "]:" + FormatDecimal(addr.port)
  }
}

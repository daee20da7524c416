/** The part of Go's `net` package the status services rely on: an interface
    address, `IP.To4`, `IP.IsLoopback` and the dotted-quad text `IP.String`
    gives for an IPv4 address. Enumerating the host's interfaces is left to
    the caller, which passes the address list in. */
module NetAddr {
  import opened GoText
  import opened Results

  newtype byte = x: int | 0 <= x < 256

  /** A `net.IP`: 4 bytes, or 16 bytes (IPv6, or IPv4 in IPv4-mapped form). */
  type IP = seq<byte>

  /** An interface address: an `*net.IPNet`, or any other `net.Addr`
      implementation, which the services skip. */
  datatype Addr = IPNet(ip: IP) | OtherAddr

  /** The first twelve bytes of an IPv4-mapped IPv6 address. */
  const V4InV6Prefix: seq<byte> := [0, 0, 0, 0, 0, 0, 0, 0, 0, 0, 0xff, 0xff]

  /** `::1`. */
  const IPv6Loopback: IP := [0, 0, 0, 0, 0, 0, 0, 0, 0, 0, 0, 0, 0, 0, 0, 1]

  /** `ip.To4()`: the four IPv4 bytes, or nil when `ip` is not IPv4. */
  function To4(ip: IP): (r: Option<IP>)
    ensures r.Some? ==> |r.value| == 4 && (|ip| == 4 || |ip| == 16) && r.value == ip[|ip| - 4..]
    ensures |ip| == 4 ==> r == Some(ip)
    ensures |ip| == 16 ==> (r.Some? <==> ip[..12] == V4InV6Prefix)
  {
    if |ip| == 4 then Some(ip)
    else if |ip| == 16 && ip[..12] == V4InV6Prefix then Some(ip[12..])
    else None
  }

  /** `ip.IsLoopback()`: 127.0.0.0/8 for IPv4, `::1` otherwise. */
  predicate IsLoopback(ip: IP)
  {
    match To4(ip)
    case Some(v4) => v4[0] == 127
    case None => ip == IPv6Loopback
  }

  /** An address both services accept: an `*net.IPNet` holding an IPv4
      address outside the loopback range. */
  predicate Usable(a: Addr)
  {
    a.IPNet? && !IsLoopback(a.ip) && To4(a.ip).Some?
  }

  /** `ip.String()` for an IPv4 address: four decimal bytes joined by dots. */
  function DottedQuad(b: IP): (r: string)
    requires |b| == 4
    ensures |r| >= 7
  {
    Itoa(b[0] as int) + "." + Itoa(b[1] as int) + "." + Itoa(b[2] as int) + "." + Itoa(b[3] as int)
  }

  /** The text a service reports for a usable address. */
  function Text(a: Addr): (r: string)
    requires Usable(a)
    ensures r != []
  {
    DottedQuad(To4(a.ip).value)
  }

  /** The dotted quad splits at its dots into the four bytes' decimal texts
      (each of which reads back as its byte, by `AtoiItoa`). */
  lemma DottedQuadFields(b: IP)
    requires |b| == 4
    ensures Split(DottedQuad(b), ".") == [Itoa(b[0] as int), Itoa(b[1] as int), Itoa(b[2] as int), Itoa(b[3] as int)]
  {
    NoDotInDecimal(b[0] as int);
    NoDotInDecimal(b[1] as int);
    NoDotInDecimal(b[2] as int);
    NoDotInDecimal(b[3] as int);
    SplitFour(Itoa(b[0] as int), Itoa(b[1] as int), Itoa(b[2] as int), Itoa(b[3] as int));
  }

  /** Four dot-free pieces joined by dots split back into those pieces. */
  lemma SplitFour(d0: string, d1: string, d2: string, d3: string)
    requires !Contains(d0, ".") && !Contains(d1, ".") && !Contains(d2, ".") && !Contains(d3, ".")
    ensures Split(d0 + "." + d1 + "." + d2 + "." + d3, ".") == [d0, d1, d2, d3]
  {
    var t2 := d2 + "." + d3;
    var t1 := d1 + "." + t2;
    assert d0 + "." + d1 + "." + d2 + "." + d3 == d0 + "." + t1;
    calc {
      Split(d0 + "." + t1, ".");
    == { SplitDotted(d0, t1); }
      [d0] + Split(t1, ".");
    == { SplitDotted(d1, t2); }
      [d0] + ([d1] + Split(t2, "."));
    == { SplitDotted(d2, d3); SplitSingle(d3, "."); }
      [d0] + ([d1] + ([d2] + [d3]));
    }
  }

  /** A dot-free piece followed by a dot is the first piece of the split. */
  lemma SplitDotted(p: string, rest: string)
    requires !Contains(p, ".")
    ensures Split(p + "." + rest, ".") == [p] + Split(rest, ".")
  {
    assert p + "."[..0] == p;
    SplitCons(p, ".", rest);
  }

  /** The decimal text of a byte has no dot in it. */
  lemma NoDotInDecimal(n: int)
    requires 0 <= n
    ensures !Contains(Itoa(n), ".")
  {
    var d := Itoa(n);
    forall i | 0 <= i <= |d| - 1 ensures !OccursAt(d, ".", i) {
      assert IsDigit(d[i]);
      assert d[i..i + 1][0] == d[i];
    }
  }
}

/** Addresses and connection names as text. */
module Naming {

  const INT_MAX: nat := 0x7fff_ffff
  const NAME_BUFFER: nat := 64

  function Digit(d: nat): char
    requires d < 10
  {
    "0123456789"[d]
  }

  function Decimal(n: nat): (s: string)
    ensures s != []
  {
    if n < 10 then [Digit(n)] else Decimal(n / 10) + [Digit(n % 10)]
  }

  function Value(s: string): int {
    if s == [] then 0 else 10 * Value(s[..|s| - 1]) + (s[|s| - 1] as int - '0' as int)
  }

  /** Reading a printed number gives it back, so printing is injective. */
  lemma {:induction false} DecimalRoundTrip(n: nat)
    ensures Value(Decimal(n)) == n
  {
    if n < 10 {
      assert Decimal(n)[..0] == [];
    } else {
      DecimalRoundTrip(n / 10);
      assert Decimal(n)[..|Decimal(n)| - 1] == Decimal(n / 10);
    }
  }

  function Power10(k: nat): nat {
    if k == 0 then 1 else 10 * Power10(k - 1)
  }

  lemma {:induction false} DecimalLength(n: nat, k: nat)
    requires k > 0 && n < Power10(k)
    ensures |Decimal(n)| <= k
  {
    if n >= 10 {
      assert Power10(1) == 10;
      DecimalLength(n / 10, k - 1);
    }
  }

  lemma Powers()
    ensures Power10(3) == 1000 && Power10(5) == 100_000 && Power10(10) == 10_000_000_000
  {
    assert Power10(1) == 10 && Power10(2) == 100 && Power10(3) == 1000 && Power10(4) == 10_000;
    assert Power10(5) == 100_000 && Power10(6) == 1_000_000 && Power10(7) == 10_000_000;
    assert Power10(8) == 100_000_000 && Power10(9) == 1_000_000_000;
  }

  /** An IPv4 address and port. */
  datatype Address = Address(a: nat, b: nat, c: nat, d: nat, port: nat) {
    predicate Valid() {
      a < 256 && b < 256 && c < 256 && d < 256 && port < 65536
    }

    function ToInPort(): string {
      Decimal(a) + "." + Decimal(b) + "." + Decimal(c) + "." + Decimal(d) + ":" + Decimal(port)
    }
  }

  lemma AddressLength(x: Address)
    requires x.Valid()
    ensures |x.ToInPort()| <= 21
  {
    Powers();
    DecimalLength(x.a, 3);
    DecimalLength(x.b, 3);
    DecimalLength(x.c, 3);
    DecimalLength(x.d, 3);
    DecimalLength(x.port, 5);
  }

  // ---------------------------------------------------------------- reading text back

  predicate IsDigit(ch: char) {
    '0' <= ch <= '9'
  }

  /** The characters of a text that are not digits, in order. */
  function Marks(s: string): string
    decreases |s|
  {
    if s == [] then [] else Marks(s[..|s| - 1]) + if IsDigit(s[|s| - 1]) then [] else [s[|s| - 1]]
  }

  /** The numbers before, between and after these, 0 where there are no digits. */
  function Numbers(s: string): (ns: seq<int>)
    ensures ns != []
    decreases |s|
  {
    if s == [] then [0]
    else
      var front, ch := Numbers(s[..|s| - 1]), s[|s| - 1];
      if IsDigit(ch) then front[..|front| - 1] + [10 * front[|front| - 1] + (ch as int - '0' as int)] else front + [0]
  }

  /** These marks and numbers are what the text holds. */
  predicate Holds(s: string, marks: string, numbers: seq<int>) {
    Marks(s) == marks && Numbers(s) == numbers
  }

  lemma ReadMark(s: string, t: string, ch: char, marks: string, numbers: seq<int>)
    requires Holds(s, marks, numbers) && t == s + [ch] && !IsDigit(ch)
    ensures Holds(t, marks + [ch], numbers + [0])
  {
    assert t[..|t| - 1] == s;
  }

  lemma ReadDigit(s: string, t: string, d: nat, marks: string, front: seq<int>, last: int)
    requires Holds(s, marks, front + [last]) && d < 10 && t == s + [Digit(d)]
    ensures Holds(t, marks, front + [10 * last + d])
  {
    assert t[..|t| - 1] == s;
    assert (front + [last])[..|front|] == front;
  }

  lemma {:induction false} ReadDecimal(s: string, t: string, n: nat, marks: string, front: seq<int>)
    requires Holds(s, marks, front + [0]) && t == s + Decimal(n)
    ensures Holds(t, marks, front + [n])
    decreases n
  {
    if n < 10 {
      ReadDigit(s, t, n, marks, front, 0);
    } else {
      var u := s + Decimal(n / 10);
      ReadDecimal(s, u, n / 10, marks, front);
      assert t == u + [Digit(n % 10)];
      ReadDigit(u, t, n % 10, marks, front, n / 10);
    }
  }

  lemma ReadField(s: string, t: string, ch: char, n: nat, marks: string, numbers: seq<int>)
    requires Holds(s, marks, numbers) && t == s + ([ch] + Decimal(n)) && !IsDigit(ch)
    ensures Holds(t, marks + [ch], numbers + [n])
  {
    var u := s + [ch];
    ReadMark(s, u, ch, marks, numbers);
    assert t == u + Decimal(n);
    ReadDecimal(u, t, n, marks + [ch], numbers);
  }

  /** An address prints as four numbers with dots between and the port behind a colon. */
  lemma AddressText(x: Address)
    ensures Marks(x.ToInPort()) == "...:" && Numbers(x.ToInPort()) == [x.a, x.b, x.c, x.d, x.port]
  {
    assert Holds("", "", [] + [0]);
    ReadAddress("", x.ToInPort(), x, "", []);
  }

  lemma ReadAddress(s: string, t: string, x: Address, marks: string, front: seq<int>)
    requires Holds(s, marks, front + [0]) && t == s + x.ToInPort()
    ensures Holds(t, marks + "...:", front + [x.a, x.b, x.c, x.d, x.port])
  {
    var s1 := s + Decimal(x.a);
    var s2 := s1 + ("." + Decimal(x.b));
    var s3 := s2 + ("." + Decimal(x.c));
    var s4 := s3 + ("." + Decimal(x.d));
    AddressJoins(s, Decimal(x.a), Decimal(x.b), Decimal(x.c), Decimal(x.d), Decimal(x.port));
    ReadDecimal(s, s1, x.a, marks, front);
    ReadField(s1, s2, '.', x.b, marks, front + [x.a]);
    ReadField(s2, s3, '.', x.c, marks + ['.'], front + [x.a] + [x.b]);
    ReadField(s3, s4, '.', x.d, marks + ['.'] + ['.'], front + [x.a] + [x.b] + [x.c]);
    ReadField(s4, t, ':', x.port, marks + ['.'] + ['.'] + ['.'], front + [x.a] + [x.b] + [x.c] + [x.d]);
    OneByOne(marks, '.', '.', '.', ':');
    OneByOne(front + [x.a], x.b, x.c, x.d, x.port);
    assert front + [x.a] + [x.b, x.c, x.d, x.port] == front + [x.a, x.b, x.c, x.d, x.port];
  }

  lemma OneByOne<T>(s: seq<T>, a: T, b: T, c: T, d: T)
    ensures s + [a] + [b] + [c] + [d] == s + [a, b, c, d]
  {
  }

  lemma AddressJoins(s: string, a: string, b: string, c: string, d: string, port: string)
    ensures s + (a + "." + b + "." + c + "." + d + ":" + port) ==
      s + a + ("." + b) + ("." + c) + ("." + d) + (":" + port)
  {
    var t := a + "." + b;
    assert s + t == s + a + ("." + b);
    var u := t + "." + c;
    assert s + u == s + t + ("." + c);
    var v := u + "." + d;
    assert s + v == s + u + ("." + d);
    assert s + (v + ":" + port) == s + v + (":" + port);
  }

  /** No leading zeros, so the marks and the numbers leave one text only. */
  lemma {:induction false} DecimalIsPlain(n: nat)
    ensures forall ch <- Decimal(n) :: IsDigit(ch)
    ensures Decimal(n)[0] == '0' ==> n == 0 && |Decimal(n)| == 1
  {
    if n >= 10 {
      DecimalIsPlain(n / 10);
    }
  }

  // ---------------------------------------------------------------- connection names

  function Full(ipPort: string, id: nat): string {
    "-" + ipPort + "#" + Decimal(id)
  }

  /** What `snprintf` leaves in its buffer: all but the terminating zero. */
  function Printed(s: string): string {
    if |s| < NAME_BUFFER then s else s[..NAME_BUFFER - 1]
  }

  function ConnName(name: string, address: Address, id: nat): string {
    name + Printed(Full(address.ToInPort(), id))
  }

  lemma SuffixFits(address: Address, id: nat)
    requires address.Valid() && id <= INT_MAX
    ensures |Full(address.ToInPort(), id)| <= 33
    ensures Printed(Full(address.ToInPort(), id)) == Full(address.ToInPort(), id)
  {
    Powers();
    AddressLength(address);
    DecimalLength(id, 10);
  }

  /** A connection's name is the server's, then a dash, its address, a number sign and the id. */
  lemma NameText(name: string, address: Address, id: nat)
    requires address.Valid() && id <= INT_MAX
    ensures var s := ConnName(name, address, id);
      && name <= s && Marks(s[|name|..]) == "-...:#"
      && Numbers(s[|name|..]) == [0, address.a, address.b, address.c, address.d, address.port, id]
  {
    SuffixFits(address, id);
    var full := Full(address.ToInPort(), id);
    assert ConnName(name, address, id)[|name|..] == full;
    assert Holds("", "", [0]);
    ReadMark("", "-", '-', "", [0]);
    var s := "-" + address.ToInPort();
    assert Holds("-", "-", [0] + [0]);
    ReadAddress("-", s, address, "-", [0]);
    assert full == s + ("#" + Decimal(id));
    var x := address;
    ReadField(s, full, '#', id, "-" + "...:", [0] + [x.a, x.b, x.c, x.d, x.port]);
    assert "-" + "...:" + "#" == "-...:#";
    assert [0] + [x.a, x.b, x.c, x.d, x.port] + [id] == [0, x.a, x.b, x.c, x.d, x.port, id];
  }

  /** Connection names are never cut short and tell all ids apart. */
  lemma NamesAreDistinct(name: string, address: Address, id: nat, other: nat)
    requires address.Valid() && id <= INT_MAX && other <= INT_MAX
    ensures ConnName(name, address, id) == ConnName(name, address, other) <==> id == other
    ensures ConnName(name, address, id) == name + Full(address.ToInPort(), id)
  {
    SuffixFits(address, id);
    SuffixFits(address, other);
    var prefix := name + ("-" + address.ToInPort() + "#");
    assert ConnName(name, address, id) == prefix + Decimal(id);
    assert ConnName(name, address, other) == prefix + Decimal(other);
    if ConnName(name, address, id) == ConnName(name, address, other) {
      assert Decimal(id) == (prefix + Decimal(id))[|prefix|..];
      assert Decimal(other) == (prefix + Decimal(other))[|prefix|..];
      DecimalRoundTrip(id);
      DecimalRoundTrip(other);
    }
  }
}

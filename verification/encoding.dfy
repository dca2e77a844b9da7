/** The canonical encoding that both digests hash: every field behind its length in eight big-endian
    bytes (internal/evaluation/snapshot.go, 159-164, and internal/evaluation/adapter.go, 326-331). A
    character of a string stands for one byte. */
module Encoding {
  import opened Wrappers

  const WIDTH := 8

  function Pow256(k: nat): nat {
    if k == 0 then 1 else 256 * Pow256(k - 1)
  }

  function BigEndian(n: nat, k: nat): (s: string)
    ensures |s| == k
  {
    if k == 0 then "" else BigEndian(n / 256, k - 1) + [(n % 256) as char]
  }

  function Number(s: string): nat {
    if s == "" then 0 else 256 * Number(s[..|s| - 1]) + s[|s| - 1] as nat
  }

  lemma {:induction false} NumberOfBigEndian(n: nat, k: nat)
    requires n < Pow256(k)
    ensures Number(BigEndian(n, k)) == n
  {
    if k > 0 {
      NumberOfBigEndian(n / 256, k - 1);
      var s := BigEndian(n, k);
      assert s[..k - 1] == BigEndian(n / 256, k - 1);
    }
  }

  /** A field of a length the eight bytes can hold, as every Go string is. */
  predicate Fits(s: string) {
    |s| < Pow256(WIDTH)
  }

  ghost predicate AllFit(fields: seq<string>) {
    forall f :: f in fields ==> Fits(f)
  }

  function Framed(s: string): string {
    BigEndian(|s|, WIDTH) + s
  }

  function Encode(fields: seq<string>): string {
    if fields == [] then "" else Framed(fields[0]) + Encode(fields[1..])
  }

  function Decode(bytes: string): Option<seq<string>>
    decreases |bytes|
  {
    if bytes == "" then Some([])
    else if |bytes| < WIDTH then None
    else
      var n := Number(bytes[..WIDTH]);
      if |bytes| < WIDTH + n then None
      else
        match Decode(bytes[WIDTH + n..])
        case None => None
        case Some(rest) => Some([bytes[WIDTH..WIDTH + n]] + rest)
  }

  /** The bytes determine the fields: nothing can move across a field boundary. */
  lemma {:induction false} RoundTrip(fields: seq<string>)
    requires AllFit(fields)
    ensures Decode(Encode(fields)) == Some(fields)
    decreases |fields|
  {
    if fields != [] {
      var f := fields[0];
      var bytes := Encode(fields);
      assert f in fields;
      NumberOfBigEndian(|f|, WIDTH);
      assert bytes == BigEndian(|f|, WIDTH) + f + Encode(fields[1..]);
      assert bytes[..WIDTH] == BigEndian(|f|, WIDTH);
      assert bytes[WIDTH..WIDTH + |f|] == f;
      assert bytes[WIDTH + |f|..] == Encode(fields[1..]);
      RoundTrip(fields[1..]);
      assert fields == [f] + fields[1..];
    }
  }

  lemma EncodeIsInjective(a: seq<string>, b: seq<string>)
    requires AllFit(a) && AllFit(b)
    ensures Encode(a) == Encode(b) <==> a == b
  {
    RoundTrip(a);
    RoundTrip(b);
  }

  lemma {:induction false} EncodeConcat(a: seq<string>, b: seq<string>)
    ensures Encode(a + b) == Encode(a) + Encode(b)
    decreases |a|
  {
    if a == [] {
      assert a + b == b;
    } else {
      assert (a + b)[1..] == a[1..] + b;
      EncodeConcat(a[1..], b);
    }
  }

  lemma EncodeSnoc(a: seq<string>, f: string)
    ensures Encode(a + [f]) == Encode(a) + Framed(f)
  {
    var last := [f];
    assert last[1..] == [];
    assert Encode(last) == Framed(f) + "";
    EncodeConcat(a, last);
  }

  /** The hash the fields are written to: the bytes so far encode the fields so far. */
  class Hash {
    var written: string
    ghost var fields: seq<string>

    ghost predicate Valid()
      reads this
    {
      written == Encode(fields)
    }

    constructor ()
      ensures Valid() && fields == []
    {
      written, fields := "", [];
    }

    method Put(s: string)
      requires Valid()
      modifies this
      ensures Valid() && fields == old(fields) + [s]
    {
      EncodeSnoc(fields, s);
      written := written + BigEndian(|s|, WIDTH);
      written := written + s;
      fields := fields + [s];
    }
  }

  /** fmt.Sprint of a count. */
  function Digit(d: nat): char
    requires d < 10
  {
    '0' + d as char
  }

  function Decimal(n: nat): (s: string)
    ensures |s| > 0
  {
    if n < 10 then [Digit(n)] else Decimal(n / 10) + [Digit(n % 10)]
  }

  function Value(s: string): int {
    if s == "" then 0 else 10 * Value(s[..|s| - 1]) + (s[|s| - 1] as int - '0' as int)
  }

  lemma {:induction false} ValueOfDecimal(n: nat)
    ensures Value(Decimal(n)) == n
  {
    var s := Decimal(n);
    if n < 10 {
      assert s[..|s| - 1] == "";
    } else {
      ValueOfDecimal(n / 10);
      assert s[..|s| - 1] == Decimal(n / 10);
    }
  }

  lemma DecimalIsInjective(m: nat, n: nat)
    ensures Decimal(m) == Decimal(n) <==> m == n
  {
    ValueOfDecimal(m);
    ValueOfDecimal(n);
  }
}

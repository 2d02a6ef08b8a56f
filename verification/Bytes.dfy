/** Byte strings: fixed-width integers, and the order in which Go compares strings. */
module Bytes {

  type byte = n: int | 0 <= n < 256
  type Bytes = seq<byte>

  datatype Option<+T> = None | Some(value: T)

  function Pow256(n: nat): nat
  {
    if n == 0 then 1 else 256 * Pow256(n - 1)
  }

  // The low `n` bytes of `v`, least significant first.
  function LittleEndian(n: nat, v: nat): (b: Bytes)
    ensures |b| == n
  {
    if n == 0 then [] else [v % 256] + LittleEndian(n - 1, v / 256)
  }

  function FromLittleEndian(b: Bytes): nat
  {
    if b == [] then 0 else b[0] + 256 * FromLittleEndian(b[1..])
  }

  lemma {:induction false} LittleEndianRoundTrip(n: nat, v: nat)
    requires v < Pow256(n)
    ensures FromLittleEndian(LittleEndian(n, v)) == v
  {
    if n > 0 {
      LittleEndianRoundTrip(n - 1, v / 256);
      assert LittleEndian(n, v)[1..] == LittleEndian(n - 1, v / 256);
    }
  }

  lemma {:induction false} FromLittleEndianBound(b: Bytes)
    ensures FromLittleEndian(b) < Pow256(|b|)
  {
    if b != [] { FromLittleEndianBound(b[1..]); }
  }

  // The low `n` bytes of `v`, most significant first.
  function BigEndian(n: nat, v: nat): (b: Bytes)
    ensures |b| == n
  {
    if n == 0 then [] else BigEndian(n - 1, v / 256) + [v % 256]
  }

  function FromBigEndian(b: Bytes): nat
  {
    if b == [] then 0 else 256 * FromBigEndian(b[..|b| - 1]) + b[|b| - 1]
  }

  lemma {:induction false} BigEndianRoundTrip(n: nat, v: nat)
    requires v < Pow256(n)
    ensures FromBigEndian(BigEndian(n, v)) == v
  {
    if n > 0 {
      BigEndianRoundTrip(n - 1, v / 256);
      assert BigEndian(n, v)[..n - 1] == BigEndian(n - 1, v / 256);
    }
  }

  lemma {:induction false} FromBigEndianRoundTrip(b: Bytes)
    ensures BigEndian(|b|, FromBigEndian(b)) == b && FromBigEndian(b) < Pow256(|b|)
  {
    if b != [] {
      var front, last := b[..|b| - 1], b[|b| - 1];
      FromBigEndianRoundTrip(front);
      assert (256 * FromBigEndian(front) + last) / 256 == FromBigEndian(front);
    }
  }

  const U32_LIMIT: nat := 0x1_0000_0000
  const U64_LIMIT: nat := 0x1_0000_0000_0000_0000

  lemma Widths()
    ensures Pow256(4) == U32_LIMIT && Pow256(8) == U64_LIMIT
  {
    assert Pow256(1) == 256 && Pow256(2) == 65536 && Pow256(3) == 0x100_0000 && Pow256(4) == U32_LIMIT;
    assert Pow256(5) == 0x100_0000_0000 && Pow256(6) == 0x1_0000_0000_0000 && Pow256(7) == 0x100_0000_0000_0000;
  }

  lemma TakeConcat<T>(a: seq<T>, b: seq<T>, k: nat)
    requires |a| <= k <= |a| + |b|
    ensures (a + b)[..k] == a + b[..k - |a|]
  {}

  lemma ConcatAssoc<T>(a: seq<T>, b: seq<T>, c: seq<T>)
    ensures a + b + c == a + (b + c)
  {}

  predicate Distinct<T(==)>(s: seq<T>)
  {
    forall i, j | 0 <= i < j < |s| :: s[i] != s[j]
  }

  // ------------------------------------------------------------------- ordering

  // Lexicographic order on bytes, as sort.Strings uses it.
  predicate Less(a: Bytes, b: Bytes)
  {
    b != [] && (a == [] || a[0] < b[0] || (a[0] == b[0] && Less(a[1..], b[1..])))
  }

  lemma {:induction false} LessTotal(a: Bytes, b: Bytes)
    ensures Less(a, b) || a == b || Less(b, a)
  {
    if a != [] && b != [] && a[0] == b[0] {
      LessTotal(a[1..], b[1..]);
      assert a == [a[0]] + a[1..] && b == [b[0]] + b[1..];
    }
  }

  lemma {:induction false} LessIrreflexive(a: Bytes)
    ensures !Less(a, a)
  {
    if a != [] { LessIrreflexive(a[1..]); }
  }

  lemma {:induction false} LessTransitive(a: Bytes, b: Bytes, c: Bytes)
    requires Less(a, b) && Less(b, c)
    ensures Less(a, c)
  {
    if a != [] && a[0] == b[0] == c[0] { LessTransitive(a[1..], b[1..], c[1..]); }
  }

  // Strictly ascending, so also free of duplicates.
  ghost predicate Ascending(s: seq<Bytes>)
  {
    forall i, j | 0 <= i < j < |s| :: Less(s[i], s[j])
  }

  function Elements<T>(s: seq<T>): set<T>
  {
    set x | x in s
  }

  lemma {:induction false} AscendingUnique(a: seq<Bytes>, b: seq<Bytes>)
    requires Ascending(a) && Ascending(b) && Elements(a) == Elements(b)
    ensures a == b
    decreases |a|
  {
    if a == [] {
      assert forall i | 0 <= i < |b| :: b[i] in Elements(b);
    } else {
      assert a[0] in Elements(a);
      FirstIsLeast(a, b);
      FirstIsLeast(b, a);
      LessTotal(a[0], b[0]);
      if a[0] != b[0] {
        LessIrreflexive(a[0]);
        if Less(a[0], b[0]) && Less(b[0], a[0]) { LessTransitive(a[0], b[0], a[0]); }
      }
      TailElements(a);
      TailElements(b);
      AscendingUnique(a[1..], b[1..]);
      assert a == [a[0]] + a[1..] && b == [b[0]] + b[1..];
    }
  }

  lemma FirstIsLeast(a: seq<Bytes>, b: seq<Bytes>)
    requires Ascending(a) && Elements(a) == Elements(b) && a != [] && b != []
    ensures a[0] == b[0] || Less(a[0], b[0])
  {
    assert b[0] in Elements(b);
    assert b[0] in a;
  }

  lemma TailElements(a: seq<Bytes>)
    requires Ascending(a) && a != []
    ensures Elements(a[1..]) == Elements(a) - {a[0]} && Ascending(a[1..])
  {
    LessIrreflexive(a[0]);
    forall x | x in a && x != a[0] ensures x in a[1..] {
      var i :| 0 <= i < |a| && a[i] == x;
      assert a[1..][i - 1] == x;
    }
  }

  // Inserting between everything smaller and everything larger keeps the order.
  lemma InsertAscending(q: seq<Bytes>, k: Bytes, p: nat)
    requires Ascending(q) && p <= |q|
    requires (forall i | 0 <= i < p :: Less(q[i], k)) && (forall i | p <= i < |q| :: Less(k, q[i]))
    ensures Ascending(q[..p] + [k] + q[p..]) && Elements(q[..p] + [k] + q[p..]) == Elements(q) + {k}
  {
    var t := q[..p] + [k] + q[p..];
    assert forall i | 0 <= i < |t| :: t[i] == if i < p then q[i] else if i == p then k else q[i - 1];
    forall x | x in q ensures x in t {
      var i :| 0 <= i < |q| && q[i] == x;
      assert t[if i < p then i else i + 1] == x;
    }
    assert t[p] == k;
  }

  lemma {:induction false} InsertionPoint(q: seq<Bytes>, k: Bytes) returns (p: nat)
    requires Ascending(q) && k !in q
    ensures p <= |q|
    ensures (forall i | 0 <= i < p :: Less(q[i], k)) && (forall i | p <= i < |q| :: Less(k, q[i]))
  {
    p := 0;
    while p < |q| && Less(q[p], k)
      invariant p <= |q| && forall i | 0 <= i < p :: Less(q[i], k)
    {
      p := p + 1;
    }
    forall i | p <= i < |q| ensures Less(k, q[i]) {
      LessTotal(k, q[p]);
      if i > p { LessTransitive(k, q[p], q[i]); }
    }
  }

  lemma {:induction false} SortedExists(keys: set<Bytes>)
    ensures exists q :: Ascending(q) && Elements(q) == keys
  {
    if keys == {} {
      assert Ascending([]) && Elements<Bytes>([]) == keys;
    } else {
      var k :| k in keys;
      SortedExists(keys - {k});
      var q :| Ascending(q) && Elements(q) == keys - {k};
      var p := InsertionPoint(q, k);
      InsertAscending(q, k, p);
      assert Elements(q[..p] + [k] + q[p..]) == keys;
    }
  }

  // The keys in the order sort.Strings puts them; AscendingUnique says there is only one.
  ghost function Sorted(keys: set<Bytes>): (q: seq<Bytes>)
    ensures Ascending(q) && Elements(q) == keys
  {
    SortedExists(keys);
    var q :| Ascending(q) && Elements(q) == keys;
    q
  }

  // ------------------------------------------------------------------ UTF-8

  predicate Continuation(b: byte) { 0x80 <= b < 0xC0 }

  // Length of the well-formed UTF-8 sequence (section 4 of RFC 3629) that starts `b`; 0 if none does.
  function Utf8Length(b: Bytes): (n: nat)
    ensures n <= |b|
  {
    if b == [] then 0
    else if b[0] < 0x80 then 1
    else if 0xC2 <= b[0] < 0xE0 && |b| >= 2 && Continuation(b[1]) then 2
    else if 0xE0 <= b[0] < 0xF0 && |b| >= 3 && Continuation(b[1]) && Continuation(b[2])
            && (b[0] == 0xE0 ==> b[1] >= 0xA0) && (b[0] == 0xED ==> b[1] < 0xA0) then 3
    else if 0xF0 <= b[0] < 0xF5 && |b| >= 4 && Continuation(b[1]) && Continuation(b[2]) && Continuation(b[3])
            && (b[0] == 0xF0 ==> b[1] >= 0x90) && (b[0] == 0xF4 ==> b[1] < 0x90) then 4
    else 0
  }

  predicate ValidUtf8(b: Bytes)
    decreases |b|
  {
    b == [] || (Utf8Length(b) > 0 && ValidUtf8(b[Utf8Length(b)..]))
  }

  function Zeros(n: nat): (b: Bytes)
    ensures |b| == n
  {
    if n == 0 then [] else Zeros(n - 1) + [0]
  }
}

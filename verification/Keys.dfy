/** Index keys: an 8-byte hash prefix followed by a big-endian transaction number, scanned in
    byte order from a starting number until the first foreign key. */
module Keys {
  import opened Collections
  import opened Ledger

  const PREFIX_LEN: nat := 8
  const MAX_TXNUM: nat := 0x1_0000_0000

  type Bytes = seq<Byte>

  /** A stored row, before serialization. */
  datatype HashRow = HashRow(prefix: Bytes, txnum: nat)

  /** Byte order, as the store keeps its keys. */
  predicate LexLess(a: Bytes, b: Bytes) {
    |b| > 0 && (|a| == 0 || a[0] < b[0] || (a[0] == b[0] && LexLess(a[1..], b[1..])))
  }

  function BigEndian(n: nat): Bytes
    requires n < MAX_TXNUM
  {
    [n / 0x100_0000, n / 0x1_0000 % 0x100, n / 0x100 % 0x100, n % 0x100]
  }

  function FromBigEndian(b: Bytes): (n: nat)
    requires |b| == 4
    ensures n < MAX_TXNUM
  {
    (b[0] as int) * 0x100_0000 + (b[1] as int) * 0x1_0000 + (b[2] as int) * 0x100 + (b[3] as int)
  }

  function Key(prefix: Bytes, n: nat): Bytes
    requires n < MAX_TXNUM
  {
    prefix + BigEndian(n)
  }

  lemma BigEndianRoundTrip(n: nat)
    requires n < MAX_TXNUM
    ensures FromBigEndian(BigEndian(n)) == n
  {
    var x := n / 0x100;
    var y := x / 0x100;
    assert n == x * 0x100 + n % 0x100 && x == y * 0x100 + x % 0x100 && y == y / 0x100 * 0x100 + y % 0x100;
    assert n / 0x1_0000 == y && n / 0x100_0000 == y / 0x100;
  }

  lemma FromBigEndianRoundTrip(b: Bytes)
    requires |b| == 4
    ensures BigEndian(FromBigEndian(b)) == b
  {
    var n := FromBigEndian(b);
    assert n / 0x100_0000 == b[0] as int;
    assert n / 0x1_0000 == (b[0] as int) * 0x100 + (b[1] as int);
    assert n / 0x100 == (b[0] as int) * 0x1_0000 + (b[1] as int) * 0x100 + (b[2] as int);
  }

  lemma BigEndianOrder(a: nat, b: nat)
    requires a < MAX_TXNUM && b < MAX_TXNUM
    ensures LexLess(BigEndian(a), BigEndian(b)) <==> a < b
  {
    var x, y := BigEndian(a), BigEndian(b);
    BigEndianRoundTrip(a);
    BigEndianRoundTrip(b);
    LexFour(x, y);
  }

  lemma LexFour(x: Bytes, y: Bytes)
    requires |x| == 4 && |y| == 4
    ensures LexLess(x, y) <==>
            x[0] < y[0] || (x[0] == y[0] && (x[1] < y[1] || (x[1] == y[1] && (x[2] < y[2] || (x[2] == y[2] && x[3] < y[3])))))
  {
    assert LexLess(x, y) <==> x[0] < y[0] || (x[0] == y[0] && LexLess(x[1..], y[1..]));
    assert LexLess(x[1..], y[1..]) <==> x[1] < y[1] || (x[1] == y[1] && LexLess(x[1..][1..], y[1..][1..]));
    var u, v := x[1..][1..], y[1..][1..];
    assert LexLess(u, v) <==> x[2] < y[2] || (x[2] == y[2] && LexLess(u[1..], v[1..]));
    assert LexLess(u[1..], v[1..]) <==> x[3] < y[3] || (x[3] == y[3] && LexLess(u[1..][1..], v[1..][1..]));
  }

  /** Equal heads are skipped; different heads of equal length decide. */
  lemma {:induction false} HeadsDecide(a: Bytes, x: Bytes, b: Bytes, y: Bytes)
    requires |a| == |b|
    ensures LexLess(a + x, b + y) <==> if a == b then LexLess(x, y) else LexLess(a, b)
    ensures a == b || LexLess(a, b) || LexLess(b, a)
    ensures !(LexLess(a, b) && LexLess(b, a))
    decreases |a|
  {
    if |a| == 0 {
      HeadsEmpty(a, x, b, y);
    } else {
      HeadsDecide(a[1..], x, b[1..], y);
      Behead(a, x);
      Behead(b, y);
    }
  }

  lemma HeadsEmpty(a: Bytes, x: Bytes, b: Bytes, y: Bytes)
    requires |a| == 0 && |b| == 0
    ensures a + x == x && b + y == y && a == b
  {}

  lemma Behead(a: Bytes, x: Bytes)
    requires |a| > 0
    ensures (a + x)[1..] == a[1..] + x && (a + x)[0] == a[0] && a == [a[0]] + a[1..]
  {}

  /** Key order is prefix order, then numeric order. */
  lemma KeyOrder(p: Bytes, m: nat, q: Bytes, n: nat)
    requires |p| == |q| && m < MAX_TXNUM && n < MAX_TXNUM
    ensures LexLess(Key(p, m), Key(q, n)) <==> if p == q then m < n else LexLess(p, q)
  {
    hide LexLess, BigEndian;
    HeadsDecide(p, BigEndian(m), q, BigEndian(n));
    BigEndianOrder(m, n);
  }

  /** Every key is a prefix and a number. */
  lemma SplitKey(k: Bytes)
    requires |k| == PREFIX_LEN + 4
    ensures k == Key(k[..PREFIX_LEN], FromBigEndian(k[PREFIX_LEN..]))
  {
    FromBigEndianRoundTrip(k[PREFIX_LEN..]);
  }

  /** A key column family: distinct 12-byte keys in byte order. */
  ghost predicate Column(keys: seq<Bytes>) {
    Ascending(keys, LexLess) && forall i :: 0 <= i < |keys| ==> |keys[i]| == PREFIX_LEN + 4
  }

  predicate HasPrefix(k: Bytes, prefix: Bytes) {
    |prefix| <= |k| && k[..|prefix|] == prefix
  }

  /** Once a scan from `prefix`, `from` meets a foreign key, only foreign keys follow. */
  lemma ForeignEnds(keys: seq<Bytes>, prefix: Bytes, from: nat, i: nat, j: nat)
    requires Column(keys) && |prefix| == PREFIX_LEN && from < MAX_TXNUM && i < j < |keys|
    requires !LexLess(keys[i], Key(prefix, from)) && !HasPrefix(keys[i], prefix)
    ensures !HasPrefix(keys[j], prefix)
  {
    var p, q := keys[i][..PREFIX_LEN], keys[j][..PREFIX_LEN];
    SplitKey(keys[i]);
    SplitKey(keys[j]);
    assert LexLess(keys[i], keys[j]);
    hide LexLess, Key, BigEndian, FromBigEndian;
    KeyOrder(p, FromBigEndian(keys[i][PREFIX_LEN..]), prefix, from);
    KeyOrder(p, FromBigEndian(keys[i][PREFIX_LEN..]), q, FromBigEndian(keys[j][PREFIX_LEN..]));
    HeadsDecide(p, [], prefix, []);
  }

  /** Keys before the starting key hold no number of the prefix at or above `from`. */
  lemma BeforeStart(k: Bytes, prefix: Bytes, from: nat, n: nat)
    requires |prefix| == PREFIX_LEN && from < MAX_TXNUM && n < MAX_TXNUM && LexLess(k, Key(prefix, from)) && k == Key(prefix, n)
    ensures n < from
  {
    KeyOrder(prefix, n, prefix, from);
  }

  /** Collects the transaction numbers stored under a prefix, from a number on. */
  method Scan(keys: seq<Bytes>, prefix: Bytes, from: nat) returns (txnums: seq<nat>)
    requires Column(keys) && |prefix| == PREFIX_LEN && from < MAX_TXNUM
    ensures Ascending(txnums, NatLess)
    ensures forall n :: n in txnums <==> from <= n < MAX_TXNUM && Key(prefix, n) in keys
  {
    hide LexLess, Key, BigEndian, FromBigEndian;
    var start := Key(prefix, from);
    var i := Seek(keys, start);
    ghost var first := i;
    txnums := [];
    while i < |keys|
      invariant first <= i <= |keys|
      invariant |txnums| == i - first
      invariant forall k :: 0 <= k < |txnums| ==> from <= txnums[k] < MAX_TXNUM && keys[first + k] == Key(prefix, txnums[k])
      decreases |keys| - i
    {
      var key := keys[i];
      if !HasPrefix(key, prefix) { break; }
      SplitKey(key);
      KeyOrder(prefix, FromBigEndian(key[PREFIX_LEN..]), prefix, from);
      txnums := txnums + [FromBigEndian(key[PREFIX_LEN..])];
      i := i + 1;
    }
    ScanIsExact(keys, prefix, from, first, i, txnums);
  }

  /** The position of the first key at or after `start`. */
  method Seek(keys: seq<Bytes>, start: Bytes) returns (i: nat)
    requires Column(keys)
    ensures i <= |keys|
    ensures forall j :: 0 <= j < i ==> LexLess(keys[j], start)
    ensures forall j :: i <= j < |keys| ==> !LexLess(keys[j], start)
  {
    hide LexLess;
    i := 0;
    while i < |keys| && LexLess(keys[i], start)
      invariant i <= |keys| && forall j :: 0 <= j < i ==> LexLess(keys[j], start)
    {
      i := i + 1;
    }
    forall j | i <= j < |keys| ensures !LexLess(keys[j], start) {
      if i < j && LexLess(keys[j], start) { LexTransitive(keys[i], keys[j], start); }
    }
  }

  lemma {:induction false} LexTransitive(a: Bytes, b: Bytes, c: Bytes)
    requires LexLess(a, b) && LexLess(b, c)
    ensures LexLess(a, c)
    decreases |a|
  {
    if |a| > 0 && a[0] == b[0] == c[0] { LexTransitive(a[1..], b[1..], c[1..]); }
  }

  lemma ScanIsExact(keys: seq<Bytes>, prefix: Bytes, from: nat, first: nat, end: nat, txnums: seq<nat>)
    requires Column(keys) && |prefix| == PREFIX_LEN && from < MAX_TXNUM && first <= end <= |keys|
    requires forall j :: 0 <= j < first ==> LexLess(keys[j], Key(prefix, from))
    requires forall j :: first <= j < |keys| ==> !LexLess(keys[j], Key(prefix, from))
    requires end < |keys| ==> !HasPrefix(keys[end], prefix)
    requires |txnums| == end - first
    requires forall k :: 0 <= k < |txnums| ==> from <= txnums[k] < MAX_TXNUM && keys[first + k] == Key(prefix, txnums[k])
    ensures Ascending(txnums, NatLess)
    ensures forall n :: n in txnums <==> from <= n < MAX_TXNUM && Key(prefix, n) in keys
  {
    hide LexLess, Key, BigEndian, FromBigEndian;
    forall a, b | 0 <= a < b < |txnums| ensures NatLess(txnums[a], txnums[b]) {
      assert LexLess(keys[first + a], keys[first + b]);
      KeyOrder(prefix, txnums[a], prefix, txnums[b]);
    }
    forall n | from <= n < MAX_TXNUM && Key(prefix, n) in keys ensures n in txnums {
      var j :| 0 <= j < |keys| && keys[j] == Key(prefix, n);
      FoundInScan(keys, prefix, from, first, end, n, j);
      assert keys[first + (j - first)] == Key(prefix, txnums[j - first]);
      KeyInjective(prefix, n, txnums[j - first]);
    }
  }

  lemma FoundInScan(keys: seq<Bytes>, prefix: Bytes, from: nat, first: nat, end: nat, n: nat, j: nat)
    requires Column(keys) && |prefix| == PREFIX_LEN && from <= n < MAX_TXNUM && first <= end <= |keys| && j < |keys|
    requires forall j :: 0 <= j < first ==> LexLess(keys[j], Key(prefix, from))
    requires forall j :: first <= j < |keys| ==> !LexLess(keys[j], Key(prefix, from))
    requires end < |keys| ==> !HasPrefix(keys[end], prefix)
    requires keys[j] == Key(prefix, n)
    ensures first <= j < end
  {
    KeyHasPrefix(prefix, n);
    hide LexLess, Key, BigEndian, FromBigEndian, HasPrefix;
    if j < first { BeforeStart(keys[j], prefix, from, n); }
    if end < j { ForeignEnds(keys, prefix, from, end, j); }
  }

  lemma KeyHasPrefix(prefix: Bytes, n: nat)
    requires n < MAX_TXNUM
    ensures HasPrefix(Key(prefix, n), prefix)
  {}

  lemma KeyInjective(prefix: Bytes, m: nat, n: nat)
    requires m < MAX_TXNUM && n < MAX_TXNUM && Key(prefix, m) == Key(prefix, n)
    ensures m == n
  {
    KeyOrder(prefix, m, prefix, n);
    KeyOrder(prefix, n, prefix, m);
    HeadsDecide(Key(prefix, m), [], Key(prefix, n), []);
  }

  /** A column that stores exactly the rows of a set. */
  ghost predicate Stores(keys: seq<Bytes>, rows: set<HashRow>) {
    && Column(keys)
    && (forall r :: r in rows ==> |r.prefix| == PREFIX_LEN && r.txnum < MAX_TXNUM && Key(r.prefix, r.txnum) in keys)
    && (forall k :: k in keys ==> HashRow(k[..PREFIX_LEN], FromBigEndian(k[PREFIX_LEN..])) in rows)
  }

  /** The numbers stored for a prefix from `from` on, ascending. */
  function Numbers(rows: set<HashRow>, prefix: Bytes, from: nat): set<nat> {
    set r | r in rows && r.prefix == prefix && from <= r.txnum :: r.txnum
  }

  /** Scanning the bytes lists exactly the rows' numbers. */
  method ScanRows(keys: seq<Bytes>, ghost rows: set<HashRow>, prefix: Bytes, from: nat) returns (txnums: seq<nat>)
    requires Stores(keys, rows) && |prefix| == PREFIX_LEN && from < MAX_TXNUM
    ensures Ascending(txnums, NatLess) && SetOf(txnums) == Numbers(rows, prefix, from)
  {
    txnums := Scan(keys, prefix, from);
    forall n ensures n in txnums <==> n in Numbers(rows, prefix, from) {
      StoredNumber(keys, rows, prefix, from, n);
    }
  }

  lemma StoredNumber(keys: seq<Bytes>, rows: set<HashRow>, prefix: Bytes, from: nat, n: nat)
    requires Stores(keys, rows) && |prefix| == PREFIX_LEN
    ensures n in Numbers(rows, prefix, from) <==> from <= n < MAX_TXNUM && Key(prefix, n) in keys
  {
    hide Column, LexLess, BigEndian;
    if n in Numbers(rows, prefix, from) {
      assert HashRow(prefix, n) in rows;
    }
    if n < MAX_TXNUM && Key(prefix, n) in keys {
      KeyParts(prefix, n);
      assert HashRow(Key(prefix, n)[..PREFIX_LEN], FromBigEndian(Key(prefix, n)[PREFIX_LEN..])) in rows;
    }
  }

  lemma KeyParts(prefix: Bytes, n: nat)
    requires |prefix| == PREFIX_LEN && n < MAX_TXNUM
    ensures |Key(prefix, n)| == PREFIX_LEN + 4
    ensures Key(prefix, n)[..PREFIX_LEN] == prefix && FromBigEndian(Key(prefix, n)[PREFIX_LEN..]) == n
  {
    assert Key(prefix, n)[PREFIX_LEN..] == BigEndian(n);
    BigEndianRoundTrip(n);
  }
}

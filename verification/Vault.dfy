/**
 The padding of sealed rows (engine/vault.go): which sizes a row may take, and that
 unpadding undoes padding and touches nothing else.
 */
module Vault {

  type Byte = x: int | 0 <= x < 256

  const MAGIC: seq<Byte> := [0, 75, 86, 49]
  const HEAD := 8
  const PAD_MIN := 1024
  const PAD_STEP := 65536
  const WORD := 0x1_0000_0000

  // ---- sizes ----

  // doubling up to the step size, then multiples of it
  predicate IsBucket(b: int) {
    b == 1024 || b == 2048 || b == 4096 || b == 8192 || b == 16384 || b == 32768 || (b >= PAD_STEP && b % PAD_STEP == 0)
  }

  function Doubled(b: nat, n: nat): (r: nat)
    requires IsBucket(b) && b <= PAD_STEP
    ensures IsBucket(r) && b <= r <= PAD_STEP && (r >= n || r == PAD_STEP)
    ensures forall s :: IsBucket(s) && b <= s && n <= s ==> r <= s
    decreases PAD_STEP - b
  {
    if b < n && b < PAD_STEP then Doubled(2 * b, n) else b
  }

  function Bucket(n: nat): nat {
    var b := Doubled(PAD_MIN, n);
    if b >= n then b else (n + PAD_STEP - 1) / PAD_STEP * PAD_STEP
  }

  lemma StepUp(n: nat)
    requires n > PAD_STEP
    ensures
      var r := (n + PAD_STEP - 1) / PAD_STEP * PAD_STEP;
      n <= r < n + PAD_STEP && r % PAD_STEP == 0
  {}

  // the least size allowed that fits
  lemma BucketIsLeast(n: nat)
    ensures IsBucket(Bucket(n)) && n <= Bucket(n)
    ensures forall s :: IsBucket(s) && n <= s ==> Bucket(n) <= s
  {
    if n > PAD_STEP {
      StepUp(n);
      forall s | IsBucket(s) && n <= s ensures Bucket(n) <= s {
        assert s % PAD_STEP == 0;
        NextMultiple(s, Bucket(n));
      }
    }
  }

  lemma NextMultiple(s: nat, r: nat)
    requires s % PAD_STEP == 0 && r % PAD_STEP == 0 && r < s + PAD_STEP
    ensures r <= s
  {}

  lemma BucketIsMonotone(n: nat, m: nat)
    requires n <= m
    ensures Bucket(n) <= Bucket(m)
  {
    BucketIsLeast(n);
    BucketIsLeast(m);
  }

  method VaultBucket(n: nat) returns (r: nat)
    ensures r == Bucket(n)
  {
    var b := PAD_MIN;
    while b < n && b < PAD_STEP
      invariant IsBucket(b) && PAD_MIN <= b <= PAD_STEP && Doubled(b, n) == Doubled(PAD_MIN, n)
      decreases PAD_STEP - b
    {
      b := b * 2;
    }
    if b >= n { return b; }
    return (n + PAD_STEP - 1) / PAD_STEP * PAD_STEP;
  }

  // ---- rows ----

  function Word(n: nat): seq<Byte> { [n / 0x100_0000 % 256, n / 0x1_0000 % 256, n / 0x100 % 256, n % 256] }

  function WordOf(b: seq<Byte>): nat
    requires |b| == 4
  {
    b[0] as int * 0x100_0000 + b[1] as int * 0x1_0000 + b[2] as int * 0x100 + b[3] as int
  }

  // the length goes in as 32 bits, longer ones cut off
  lemma WordRoundTrip(n: nat)
    ensures WordOf(Word(n)) == n % WORD
  {
    var a, b, c := n / 256, n / 0x1_0000, n / 0x100_0000;
    assert n == 256 * a + n % 256;
    assert b == a / 256 && a == 256 * b + a % 256;
    assert c == b / 256 && b == 256 * c + b % 256;
    assert c / 256 == n / WORD;
  }

  lemma WordIs(b: seq<Byte>)
    requires |b| == 4
    ensures Word(WordOf(b)) == b && WordOf(b) < WORD
  {
    var n := WordOf(b);
    var hi := b[0] as int * 0x1_0000 + b[1] as int * 0x100 + b[2] as int;
    assert n == 256 * hi + b[3] as int;
    assert hi == 256 * (b[0] as int * 0x100 + b[1] as int) + b[2] as int;
    assert n % 256 == b[3] && n / 256 == b[0] as int * 0x1_0000 + b[1] as int * 0x100 + b[2] as int;
    assert n / 256 % 256 == b[2] && n / 256 / 256 == b[0] as int * 0x100 + b[1] as int;
    assert n / 256 / 256 == n / 0x1_0000 && n / 0x1_0000 / 256 == n / 0x100_0000;
  }

  function Zeros(n: nat): (z: seq<Byte>)
    ensures |z| == n && forall i :: 0 <= i < n ==> z[i] == 0
  {
    seq(n, i => 0)
  }

  function Pad(plain: seq<Byte>): (r: seq<Byte>)
    ensures |r| == Bucket(HEAD + |plain|) && |r| >= HEAD + |plain|
  {
    BucketIsLeast(HEAD + |plain|);
    MAGIC + Word(|plain|) + plain + Zeros(Bucket(HEAD + |plain|) - HEAD - |plain|)
  }

  // a row that reads as padded, with the length it says
  predicate ReadsPadded(b: seq<Byte>) {
    && |b| >= HEAD && b[..4] == MAGIC
    && var n := WordOf(b[4..8]);
       n <= |b| - HEAD && Bucket(HEAD + n) == |b| && forall i :: HEAD + n <= i < |b| ==> b[i] == 0
  }

  function Unpad(b: seq<Byte>): seq<Byte> { if ReadsPadded(b) then b[HEAD..HEAD + WordOf(b[4..8])] else b }

  lemma PadParts(plain: seq<Byte>)
    ensures
      var b := Pad(plain);
      && b[..4] == MAGIC && b[4..8] == Word(|plain|) && b[8..8 + |plain|] == plain
      && forall i :: HEAD + |plain| <= i < |b| ==> b[i] == 0
  {
    var b := Pad(plain);
    assert b[4..8] == Word(|plain|);
    assert b[8..8 + |plain|] == plain;
  }

  lemma UnpadShort(plain: seq<Byte>)
    requires |plain| < WORD
    ensures Unpad(Pad(plain)) == plain
  {
    PadParts(plain);
    WordRoundTrip(|plain|);
    var b := Pad(plain);
    assert WordOf(b[4..8]) == |plain|;
    assert ReadsPadded(b);
  }

  lemma UnpadLong(plain: seq<Byte>)
    requires |plain| >= WORD
    ensures |Unpad(Pad(plain))| != |plain|
  {
    PadParts(plain);
    WordRoundTrip(|plain|);
    assert WordOf(Pad(plain)[4..8]) < WORD;
  }

  // unpad gives back what was padded exactly when its length fits 32 bits
  lemma UnpadPad(plain: seq<Byte>)
    ensures Unpad(Pad(plain)) == plain <==> |plain| < WORD
  {
    if |plain| < WORD { UnpadShort(plain); } else { UnpadLong(plain); }
  }

  // a row that reads as padded is the padding of what unpad returns
  lemma PadUnpad(b: seq<Byte>)
    requires ReadsPadded(b)
    ensures Pad(Unpad(b)) == b && |Unpad(b)| < WORD && |Unpad(b)| < |b|
  {
    var p := Unpad(b);
    WordIs(b[4..8]);
    PadParts(p);
    var r := Pad(p);
    assert |r| == |b|;
    forall i | 0 <= i < |b| ensures r[i] == b[i] {
      if i < 4 {
        assert r[..4][i] == b[..4][i];
      } else if i < 8 {
        assert r[4..8][i - 4] == b[4..8][i - 4];
      } else if i < 8 + |p| {
        assert r[8..8 + |p|][i - 8] == p[i - 8];
      }
    }
  }

  // unpad changes exactly the rows that are the padding of something
  lemma UnpadChangesOnlyPads(b: seq<Byte>)
    ensures Unpad(b) != b <==> exists p :: |p| < WORD && Pad(p) == b
  {
    if ReadsPadded(b) {
      PadUnpad(b);
    } else if p :| |p| < WORD && Pad(p) == b {
      UnpadPad(p);
    }
  }

  // no two rows pad alike, so what was sealed can be told from the padding
  lemma PadInjective(p: seq<Byte>, q: seq<Byte>)
    requires |p| < WORD && |q| < WORD && Pad(p) == Pad(q)
    ensures p == q
  {
    UnpadPad(p);
    UnpadPad(q);
  }

  method VaultPad(plain: seq<Byte>) returns (out: array<Byte>)
    ensures out[..] == Pad(plain)
  {
    var size := VaultBucket(HEAD + |plain|);
    BucketIsLeast(HEAD + |plain|);
    PadParts(plain);
    out := new Byte[size](_ => 0);
    var head := MAGIC + Word(|plain|);
    for i := 0 to HEAD
      invariant forall k :: 0 <= k < i ==> out[k] == head[k]
      invariant forall k :: i <= k < size ==> out[k] == 0
    {
      out[i] := head[i];
    }
    for i := 0 to |plain|
      invariant forall k :: 0 <= k < HEAD ==> out[k] == head[k]
      invariant forall k :: 0 <= k < i ==> out[HEAD + k] == plain[k]
      invariant forall k :: HEAD + i <= k < size ==> out[k] == 0
    {
      out[HEAD + i] := plain[i];
    }
  }

  method VaultUnpad(b: seq<Byte>) returns (r: seq<Byte>)
    ensures r == Unpad(b)
  {
    if |b| < HEAD || b[..4] != MAGIC { return b; }
    var n := WordOf(b[4..8]);
    if n > |b| - HEAD { return b; }
    var size := VaultBucket(HEAD + n);
    if size != |b| { return b; }
    for i := HEAD + n to |b|
      invariant forall k :: HEAD + n <= k < i ==> b[k] == 0
    {
      if b[i] != 0 { return b; }
    }
    return b[HEAD..HEAD + n];
  }
}

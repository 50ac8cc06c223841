/** util/encryption.go: passwords are padded with NULs, encrypted block by block in cipher block chaining mode
    with a zero initialisation vector, and stored in unpadded base64. */
module PasswordCodec {
  import opened Collections

  type Byte = b: int | 0 <= b < 256
  type Bytes = seq<Byte>

  // ---- remainders ----

  lemma {:induction false} AtLeast(d: int, size: int)
    requires d >= 1 && size > 0
    ensures d * size >= size
  {
    if d > 1 {
      AtLeast(d - 1, size);
      assert d * size == (d - 1) * size + size;
    }
  }

  lemma Spread(a: int, b: int, size: int)
    ensures (a - b) * size == a * size - b * size
  {
  }

  lemma OneQuotient(a: int, r: int, b: int, t: int, size: int)
    requires a * size + r == b * size + t && 0 <= r < size && 0 <= t < size
    ensures r == t
  {
    Spread(a, b, size);
    Spread(b, a, size);
    if a > b {
      AtLeast(a - b, size);
    } else if b > a {
      AtLeast(b - a, size);
    }
  }

  lemma Quotient(n: int, size: int)
    requires size > 0
    ensures n == (n / size) * size + n % size && 0 <= n % size < size
  {
  }

  lemma ModIs(q: int, r: int, size: int)
    requires 0 <= r < size
    ensures (q * size + r) % size == r
  {
    var n := q * size + r;
    Quotient(n, size);
    OneQuotient(q, r, n / size, n % size, size);
  }

  lemma PlusSize(n: int, size: int)
    requires size > 0
    ensures (n + size) % size == n % size
  {
    Quotient(n, size);
    var q, r := n / size, n % size;
    assert n + size == (q + 1) * size + r by { Spread(q, -1, size); }
    ModIs(q + 1, r, size);
  }

  // ---- padding and trimming ----

  function Zeros(n: nat): Bytes {
    seq(n, _ => 0)
  }

  /** `padString`: a text of exactly one block stays; every other text grows, by a whole block when its
      length is a multiple already. */
  function Pad(text: Bytes, size: int): Bytes
    requires size > 0
  {
    if |text| == size then text else text + Zeros(size - |text| % size)
  }

  function TrimRight(s: Bytes): Bytes {
    if s != [] && s[|s| - 1] == 0 then TrimRight(s[..|s| - 1]) else s
  }

  function TrimLeft(s: Bytes): Bytes {
    if s != [] && s[0] == 0 then TrimLeft(s[1..]) else s
  }

  /** `strings.Trim(s, "\x00")` */
  function Trim(s: Bytes): Bytes {
    TrimRight(TrimLeft(s))
  }

  lemma PaddedLength(text: Bytes, size: int)
    requires size > 0
    ensures |Pad(text, size)| % size == 0 && |Pad(text, size)| >= size
    ensures |text| <= |Pad(text, size)| <= |text| + size
    ensures Pad(text, size)[..|text|] == text && forall i :: |text| <= i < |Pad(text, size)| ==> Pad(text, size)[i] == 0
    ensures |Pad(text, size)| == |text| <==> |text| == size
  {
    if |text| == size {
      ModIs(1, 0, size);
    } else {
      var q, r := |text| / size, |text| % size;
      Quotient(|text|, size);
      assert |text| + (size - r) == (q + 1) * size by { Spread(q, -1, size); }
      ModIs(q + 1, 0, size);
      if q > 0 {
        AtLeast(q, size);
      }
    }
  }

  lemma {:induction false} TrimRightZeros(s: Bytes, n: nat)
    ensures TrimRight(s + Zeros(n)) == TrimRight(s)
  {
    if n == 0 {
      assert s + Zeros(0) == s;
    } else {
      assert (s + Zeros(n))[..|s| + n - 1] == s + Zeros(n - 1);
      TrimRightZeros(s, n - 1);
    }
  }

  lemma {:induction false} TrimLeftZeros(s: Bytes, n: nat)
    ensures TrimLeft(s + Zeros(n)) == TrimLeft(s) + Zeros(n) || (TrimLeft(s) == [] && TrimLeft(s + Zeros(n)) == [])
  {
    if s == [] {
      assert [] + Zeros(n) == Zeros(n);
      AllZeros(n);
    } else if s[0] == 0 {
      assert (s + Zeros(n))[1..] == s[1..] + Zeros(n);
      TrimLeftZeros(s[1..], n);
    }
  }

  lemma {:induction false} AllZeros(n: nat)
    ensures TrimLeft(Zeros(n)) == []
  {
    if n > 0 {
      assert Zeros(n)[1..] == Zeros(n - 1);
      AllZeros(n - 1);
    }
  }

  /** Trimming takes all the padding away again. */
  lemma TrimUndoesPad(text: Bytes, size: int)
    requires size > 0
    ensures Trim(Pad(text, size)) == Trim(text)
  {
    if |text| != size {
      var n := size - |text| % size;
      TrimLeftZeros(text, n);
      TrimRightZeros(TrimLeft(text), n);
    }
  }

  predicate Bare(s: Bytes) {
    s == [] || (s[0] != 0 && s[|s| - 1] != 0)
  }

  lemma {:induction false} TrimRightShorter(s: Bytes)
    ensures TrimRight(s) <= s && (TrimRight(s) == s <==> s == [] || s[|s| - 1] != 0)
  {
    if s != [] && s[|s| - 1] == 0 {
      TrimRightShorter(s[..|s| - 1]);
    }
  }

  lemma {:induction false} TrimLeftShorter(s: Bytes)
    ensures |TrimLeft(s)| <= |s| && (|TrimLeft(s)| == |s| ==> TrimLeft(s) == s)
    ensures TrimLeft(s) == s <==> s == [] || s[0] != 0
  {
    if s != [] && s[0] == 0 {
      TrimLeftShorter(s[1..]);
    }
  }

  lemma TrimKeepsIff(s: Bytes)
    ensures Trim(s) == s <==> Bare(s)
  {
    TrimLeftShorter(s);
    TrimRightShorter(TrimLeft(s));
  }

  // ---- exclusive or ----

  function Power2(n: nat): nat {
    if n == 0 then 1 else 2 * Power2(n - 1)
  }

  function Bit(a: nat, b: nat): nat {
    if a % 2 == b % 2 then 0 else 1
  }

  /** The exclusive or of the lowest `n` bits. */
  function XorBits(a: nat, b: nat, n: nat): (x: nat)
    ensures x < Power2(n)
  {
    if n == 0 then 0 else 2 * XorBits(a / 2, b / 2, n - 1) + Bit(a, b)
  }

  lemma {:induction false} XorTwice(a: nat, b: nat, n: nat)
    requires a < Power2(n)
    ensures XorBits(XorBits(a, b, n), b, n) == a
  {
    if n > 0 {
      XorTwice(a / 2, b / 2, n - 1);
      var x := XorBits(a, b, n);
      assert x / 2 == XorBits(a / 2, b / 2, n - 1) && x % 2 == Bit(a, b);
    }
  }

  /** Bit `k` of a number, from the lowest. */
  function BitAt(a: nat, k: nat): nat {
    if k == 0 then a % 2 else BitAt(a / 2, k - 1)
  }

  /** Each bit of the result is set exactly when it is set in one of the two. */
  lemma {:induction false} XorBitsAre(a: nat, b: nat, n: nat, k: nat)
    requires k < n
    ensures BitAt(XorBits(a, b, n), k) == (BitAt(a, k) + BitAt(b, k)) % 2
  {
    var x := XorBits(a, b, n);
    assert x / 2 == XorBits(a / 2, b / 2, n - 1) && x % 2 == Bit(a, b);
    if k > 0 {
      XorBitsAre(a / 2, b / 2, n - 1, k - 1);
    }
  }

  lemma {:induction false} XorZero(a: nat, n: nat)
    requires a < Power2(n)
    ensures XorBits(a, 0, n) == a
  {
    if n > 0 {
      XorZero(a / 2, n - 1);
    }
  }

  /** The exclusive or of two bytes, bit by bit; a zero mask changes nothing. */
  lemma XorIs(a: Byte, b: Byte)
    ensures forall k :: 0 <= k < 8 ==> BitAt(Xor(a, b), k) == (BitAt(a, k) + BitAt(b, k)) % 2
    ensures Xor(a, 0) == a
  {
    EightBits();
    XorZero(a, 8);
    forall k | 0 <= k < 8 ensures BitAt(Xor(a, b), k) == (BitAt(a, k) + BitAt(b, k)) % 2 {
      XorBitsAre(a, b, 8, k);
    }
  }

  lemma EightBits()
    ensures Power2(8) == 256
  {
    assert Power2(4) == 16;
    assert Power2(8) == 2 * (2 * (2 * (2 * Power2(4))));
  }

  function Xor(a: Byte, b: Byte): Byte {
    EightBits();
    XorBits(a, b, 8)
  }

  function XorAll(s: Bytes, mask: Bytes): Bytes
    requires |s| == |mask|
  {
    seq(|s|, i requires 0 <= i < |s| => Xor(s[i], mask[i]))
  }

  lemma XorAllTwice(s: Bytes, mask: Bytes)
    requires |s| == |mask|
    ensures XorAll(XorAll(s, mask), mask) == s
  {
    EightBits();
    forall i | 0 <= i < |s| ensures Xor(Xor(s[i], mask[i]), mask[i]) == s[i] {
      XorTwice(s[i], mask[i], 8);
    }
  }

  // ---- cipher block chaining, section 6.2 of NIST SP 800-38A ----

  /** A block cipher under one key: any permutation of the blocks, with its inverse. */
  datatype Cipher = Cipher(size: nat, forward: Bytes -> Bytes, inverse: Bytes -> Bytes)

  ghost predicate IsPermutation(c: Cipher) {
    && c.size > 0
    && (forall b :: |b| == c.size ==> |c.forward(b)| == c.size && c.inverse(c.forward(b)) == b)
    && (forall b :: |b| == c.size ==> |c.inverse(b)| == c.size && c.forward(c.inverse(b)) == b)
  }

  function SealBlock(c: Cipher, block: Bytes, mask: Bytes): (r: Bytes)
    requires IsPermutation(c) && |block| == |mask| == c.size
    ensures |r| == c.size && c.inverse(r) == XorAll(block, mask)
  {
    c.forward(XorAll(block, mask))
  }

  function Chain(c: Cipher, iv: Bytes, plain: Bytes): (r: Bytes)
    requires IsPermutation(c) && |iv| == c.size && |plain| % c.size == 0
    ensures |r| == |plain|
    decreases |plain|
  {
    if plain == [] then []
    else
      WholeBlocks(plain, c.size);
      var block := SealBlock(c, plain[..c.size], iv);
      block + Chain(c, block, plain[c.size..])
  }

  function Unchain(c: Cipher, iv: Bytes, secret: Bytes): (r: Bytes)
    requires IsPermutation(c) && |iv| == c.size && |secret| % c.size == 0
    ensures |r| == |secret|
    decreases |secret|
  {
    if secret == [] then []
    else
      WholeBlocks(secret, c.size);
      XorAll(c.inverse(secret[..c.size]), iv) + Unchain(c, secret[..c.size], secret[c.size..])
  }

  lemma WholeBlocks(s: Bytes, size: nat)
    requires size > 0 && |s| % size == 0 && s != []
    ensures |s| >= size && (|s| - size) % size == 0
  {
    if |s| >= size {
      PlusSize(|s| - size, size);
    }
  }

  lemma Halves(s: Bytes, k: nat)
    requires k <= |s|
    ensures s == s[..k] + s[k..]
  {
  }

  lemma UnchainFirst(c: Cipher, iv: Bytes, block: Bytes, rest: Bytes)
    requires IsPermutation(c) && |iv| == c.size && |block| == c.size && |rest| % c.size == 0
    ensures |block + rest| % c.size == 0
    ensures Unchain(c, iv, block + rest) == XorAll(c.inverse(block), iv) + Unchain(c, block, rest)
  {
    PlusSize(|rest|, c.size);
    assert (block + rest)[..c.size] == block && (block + rest)[c.size..] == rest;
  }

  lemma {:induction false} UnchainUndoesChain(c: Cipher, iv: Bytes, plain: Bytes)
    requires IsPermutation(c) && |iv| == c.size && |plain| % c.size == 0
    ensures Unchain(c, iv, Chain(c, iv, plain)) == plain
    decreases |plain|
  {
    if plain != [] {
      WholeBlocks(plain, c.size);
      var first, rest := plain[..c.size], plain[c.size..];
      var block := SealBlock(c, first, iv);
      UnchainUndoesChain(c, block, rest);
      UnchainFirst(c, iv, block, Chain(c, block, rest));
      XorAllTwice(first, iv);
      Halves(plain, c.size);
    }
  }

  function Flat(blocks: seq<Bytes>): Bytes {
    if blocks == [] then [] else blocks[0] + Flat(blocks[1..])
  }

  predicate AreBlocks(blocks: seq<Bytes>, size: nat) {
    forall b :: b in blocks ==> |b| == size
  }

  lemma FlatMore(block: Bytes, blocks: seq<Bytes>)
    ensures Flat([block] + blocks) == block + Flat(blocks)
  {
    assert ([block] + blocks)[1..] == blocks;
  }

  lemma OneMoreBlock(n: int, total: int, size: int)
    requires size > 0 && n % size == 0 && total == n + size
    ensures total % size == 0
  {
    PlusSize(n, size);
  }

  lemma ChainFirst(c: Cipher, iv: Bytes, block: Bytes, rest: Bytes)
    requires IsPermutation(c) && |iv| == c.size && |block| == c.size && |rest| % c.size == 0
    ensures |block + rest| % c.size == 0
    ensures Chain(c, iv, block + rest) == SealBlock(c, block, iv) + Chain(c, SealBlock(c, block, iv), rest)
  {
    OneMoreBlock(|rest|, |block + rest|, c.size);
    assert (block + rest)[..c.size] == block && (block + rest)[c.size..] == rest;
  }

  /** The block cipher of the text block, masked. */
  ghost predicate IsSealed(c: Cipher, block: Bytes, mask: Bytes, secret: Bytes) {
    match c
    case Cipher(size, _, _) => IsPermutation(c) && |block| == |mask| == size && secret == SealBlock(c, block, mask)
  }

  /** The mode, block by block: each output block is the mask of the next. */
  ghost predicate AreChained(c: Cipher, mask: Bytes, blocks: seq<Bytes>, secrets: seq<Bytes>)
    decreases |blocks|
  {
    if blocks == [] then secrets == []
    else
      && |secrets| == |blocks|
      && IsSealed(c, blocks[0], mask, secrets[0])
      && AreChained(c, secrets[0], blocks[1..], secrets[1..])
  }

  /** The text is a whole number of blocks and comes out as this secret. */
  ghost predicate Encrypts(c: Cipher, iv: Bytes, plain: Bytes, secret: Bytes) {
    match c
    case Cipher(size, _, _) =>
      IsPermutation(c) && |iv| == size && |plain| % size == 0 && secret == Chain(c, iv, plain)
  }

  lemma EncryptsMore(c: Cipher, iv: Bytes, block: Bytes, first: Bytes, plain: Bytes, secret: Bytes)
    requires IsSealed(c, block, iv, first) && Encrypts(c, first, plain, secret)
    ensures Encrypts(c, iv, block + plain, first + secret)
  {
    ChainFirst(c, iv, block, plain);
  }

  ghost predicate IsReady(c: Cipher, iv: Bytes) {
    match c
    case Cipher(size, _, _) => IsPermutation(c) && |iv| == size
  }

  lemma SealOne(c: Cipher, iv: Bytes, block: Bytes) returns (first: Bytes)
    requires IsReady(c, iv) && |block| == c.size
    ensures IsSealed(c, block, iv, first) && IsReady(c, first)
  {
    first := SealBlock(c, block, iv);
  }

  lemma EncryptsNothing(c: Cipher, iv: Bytes)
    requires IsReady(c, iv)
    ensures Encrypts(c, iv, [], [])
  {
  }

  /** The definition of the mode: each output block is the cipher of its text block masked with the output
      block before it, the first with the initialisation vector. */
  lemma {:induction false} ChainIs(c: Cipher, iv: Bytes, blocks: seq<Bytes>) returns (secrets: seq<Bytes>)
    requires IsReady(c, iv) && AreBlocks(blocks, c.size)
    ensures Encrypts(c, iv, Flat(blocks), Flat(secrets)) && AreChained(c, iv, blocks, secrets)
    decreases |blocks|
  {
    if blocks == [] {
      EncryptsNothing(c, iv);
      secrets := [];
    } else {
      assert blocks[0] in blocks;
      var first := SealOne(c, iv, blocks[0]);
      var rest := ChainIs(c, first, blocks[1..]);
      EncryptsMore(c, iv, blocks[0], first, Flat(blocks[1..]), Flat(rest));
      FlatMore(first, rest);
      secrets := [first] + rest;
      assert secrets[1..] == rest;
    }
  }

  // ---- unpadded base64, sections 3.2 and 4 of RFC 4648 ----

  function Symbol(v: int): char
    requires 0 <= v < 64
  {
    if v < 26 then (v + 'A' as int) as char
    else if v < 52 then (v - 26 + 'a' as int) as char
    else if v < 62 then (v - 52 + '0' as int) as char
    else if v == 62 then '+' else '/'
  }

  function Sextet(c: char): Option<int> {
    if 'A' <= c <= 'Z' then Some(c as int - 'A' as int)
    else if 'a' <= c <= 'z' then Some(c as int - 'a' as int + 26)
    else if '0' <= c <= '9' then Some(c as int - '0' as int + 52)
    else if c == '+' then Some(62)
    else if c == '/' then Some(63)
    else None
  }

  type Six = v: int | 0 <= v < 64

  function Symbols(vs: seq<Six>): string {
    seq(|vs|, i requires 0 <= i < |vs| => Symbol(vs[i]))
  }

  function Quad(a: Byte, b: Byte, c: Byte): seq<Six> {
    [a / 4, a % 4 * 16 + b / 16, b % 16 * 4 + c / 64, c % 64]
  }

  function Triple(w: Six, x: Six, y: Six, z: Six): Bytes {
    [w * 4 + x / 16, x % 16 * 16 + y / 4, y % 4 * 64 + z]
  }

  lemma TripleOfQuad(a: Byte, b: Byte, c: Byte)
    ensures var q := Quad(a, b, c); Triple(q[0], q[1], q[2], q[3]) == [a, b, c]
  {
  }

  function ToSextets(bytes: Bytes): seq<Six> {
    if |bytes| == 0 then []
    else if |bytes| == 1 then Quad(bytes[0], 0, 0)[..2]
    else if |bytes| == 2 then Quad(bytes[0], bytes[1], 0)[..3]
    else Quad(bytes[0], bytes[1], bytes[2]) + ToSextets(bytes[3..])
  }

  /** The bits that are left over at the end are not looked at; a single last symbol is an error. */
  function FromSextets(vs: seq<Six>): Option<Bytes> {
    if |vs| == 0 then Some([])
    else if |vs| == 1 then None
    else if |vs| == 2 then Some(Triple(vs[0], vs[1], 0, 0)[..1])
    else if |vs| == 3 then Some(Triple(vs[0], vs[1], vs[2], 0)[..2])
    else
      match FromSextets(vs[4..])
      case None => None
      case Some(rest) => Some(Triple(vs[0], vs[1], vs[2], vs[3]) + rest)
  }

  function ToBase64(bytes: Bytes): string {
    Symbols(ToSextets(bytes))
  }

  predicate IsSymbolOrBreak(c: char) {
    Sextet(c).Some? || c == '\r' || c == '\n'
  }

  predicate NoBreak(c: char) {
    c != '\r' && c != '\n'
  }

  function SextetOrZero(c: char): Six {
    if Sextet(c).Some? then Sextet(c).value else 0
  }

  /** The decoder skips line breaks. */
  function FromBase64(text: string): Option<Bytes> {
    if exists c | c in text :: !IsSymbolOrBreak(c) then None
    else FromSextets(Map(Filter(text, NoBreak), SextetOrZero))
  }

  lemma {:induction false} SextetsRoundTrip(bytes: Bytes)
    ensures FromSextets(ToSextets(bytes)) == Some(bytes)
  {
    if |bytes| == 1 {
      TripleOfQuad(bytes[0], 0, 0);
      assert [bytes[0], 0, 0][..1] == bytes;
    } else if |bytes| == 2 {
      TripleOfQuad(bytes[0], bytes[1], 0);
      assert Quad(bytes[0], bytes[1], 0)[3] == 0;
      assert [bytes[0], bytes[1], 0][..2] == bytes;
    } else if |bytes| >= 3 {
      TripleOfQuad(bytes[0], bytes[1], bytes[2]);
      assert ToSextets(bytes)[4..] == ToSextets(bytes[3..]);
      SextetsRoundTrip(bytes[3..]);
      assert bytes == [bytes[0], bytes[1], bytes[2]] + bytes[3..];
    }
  }

  lemma Base64RoundTrip(bytes: Bytes)
    ensures FromBase64(ToBase64(bytes)) == Some(bytes)
  {
    var vs := ToSextets(bytes);
    var text := Symbols(vs);
    forall i | 0 <= i < |vs| ensures Sextet(text[i]) == Some(vs[i]) && NoBreak(text[i]) {
    }
    forall c | c in text ensures IsSymbolOrBreak(c) && NoBreak(c) {
      var i :| 0 <= i < |text| && text[i] == c;
    }
    FilterAll(text, NoBreak);
    assert Map(text, SextetOrZero) == vs;
    SextetsRoundTrip(bytes);
  }

  /** Line breaks anywhere change nothing. */
  lemma BreaksAreSkipped(before: string, after: string)
    ensures FromBase64(before + "\n" + after) == FromBase64(before + after)
    ensures FromBase64(before + "\r" + after) == FromBase64(before + after)
  {
    BreakIsSkipped(before, '\n', after);
    BreakIsSkipped(before, '\r', after);
  }

  lemma BreakIsSkipped(before: string, c: char, after: string)
    requires c == '\n' || c == '\r'
    ensures FromBase64(before + [c] + after) == FromBase64(before + after)
  {
    var with, without := before + [c] + after, before + after;
    FilterAppend(before + [c], after, NoBreak);
    FilterAppend(before, [c], NoBreak);
    FilterAppend(before, after, NoBreak);
    assert [c][..0] == [] && Filter([c], NoBreak) == [];
    assert IsSymbolOrBreak(c);
    assert forall d :: d in with <==> d in without || d == c;
  }

  /** Any other character that is no symbol, the padding included, is an error. */
  lemma OthersAreRefused(text: string, c: char)
    requires c in text && c != '\n' && c != '\r' && Sextet(c).None?
    ensures FromBase64(text).None? && Sextet('=').None?
  {
  }

  lemma OneGroup(bytes: Bytes)
    requires |bytes| == 3
    ensures ToBase64(bytes) == Symbols(Quad(bytes[0], bytes[1], bytes[2]))
  {
    assert bytes[3..] == [] && ToSextets(bytes) == Quad(bytes[0], bytes[1], bytes[2]) + ToSextets([]);
  }

  lemma FourSymbols(vs: seq<Six>, text: string)
    requires |vs| == |text| <= 4 && forall i :: 0 <= i < |vs| ==> Symbol(vs[i]) == text[i]
    ensures Symbols(vs) == text
  {
  }

  /** Test vectors of section 10 of RFC 4648, without the padding, and one with the two special symbols. */
  lemma Base64Vectors()
    ensures ToBase64([]) == "" && ToBase64([102]) == "Zg" && ToBase64([102, 111]) == "Zm8"
    ensures ToBase64([102, 111, 111]) == "Zm9v" && ToBase64([251, 240]) == "+/A"
  {
    FourSymbols(Quad(102, 0, 0)[..2], "Zg");
    FourSymbols(Quad(102, 111, 0)[..3], "Zm8");
    OneGroup([102, 111, 111]);
    FourSymbols(Quad(102, 111, 111), "Zm9v");
    FourSymbols(Quad(251, 240, 0)[..3], "+/A");
  }

  /** The four ranges of the alphabet. */
  lemma AlphabetIs(v: Six)
    ensures v < 26 ==> Symbol(v) as int == 65 + v
    ensures 26 <= v < 52 ==> Symbol(v) as int == 97 + (v - 26)
    ensures 52 <= v < 62 ==> Symbol(v) as int == 48 + (v - 52)
    ensures Symbol(62) == '+' && Symbol(63) == '/'
  {
  }

  // ---- the codec ----

  datatype Outcome<T> = Done(value: T) | Failed | Panics

  /** `aes.NewCipher`: the cipher of a key, none for a key of a wrong length. */
  type CipherOf = Bytes -> Option<Cipher>

  ghost predicate AllPermutations(cipherOf: CipherOf, size: nat) {
    forall key :: cipherOf(key).Some? ==> IsPermutation(cipherOf(key).value) && cipherOf(key).value.size == size
  }

  function Sealed(c: Cipher, text: Bytes): string
    requires IsPermutation(c)
  {
    PaddedLength(text, c.size);
    ToBase64(Chain(c, Zeros(c.size), Pad(text, c.size)))
  }

  /** Decoding one stored password: the decrypter panics on input that is not a whole number of blocks. */
  function Unsealed(c: Cipher, stored: string): Outcome<Bytes>
    requires IsPermutation(c)
  {
    match FromBase64(stored)
    case None => Failed
    case Some(raw) => if |raw| % c.size == 0 then Done(Trim(Unchain(c, Zeros(c.size), raw))) else Panics
  }

  function Text(bytes: Bytes): string {
    Map(bytes, (b: Byte) => b as char)
  }

  /** The encoded key: the environment's, or else the file's. */
  function KeyText(environment: Bytes, file: Option<Bytes>): Option<Bytes> {
    if environment != [] then Some(environment) else file
  }

  /** The package's state. */
  class Encryption {
    var key: Bytes
    var keyPresent: bool

    constructor ()
      ensures !keyPresent
    {
      key, keyPresent := [], false;
    }

    /** `InitializeEncryption`, given the environment's value and the default key file, if there is one to read.
        The variable takes the encoded text first, so after a panic a process that recovers goes on with that
        text as its key, if it had one. */
    method InitializeEncryption(environment: Bytes, file: Option<Bytes>) returns (panics: bool)
      modifies this
      ensures panics <==> KeyText(environment, file).None? || FromBase64(Text(KeyText(environment, file).value)).None?
      ensures !panics ==> keyPresent && Some(key) == FromBase64(Text(KeyText(environment, file).value))
      ensures panics ==> keyPresent == old(keyPresent)
                         && key == if KeyText(environment, file).Some? then KeyText(environment, file).value else []
    {
      key := environment;
      if key == [] {
        if file.None? {
          return true;
        }
        key := file.value;
      }
      var decoded := FromBase64(Text(key));
      if decoded.None? {
        return true;
      }
      key, keyPresent := decoded.value, true;
      panics := false;
    }

    method Encrypt(cipherOf: CipherOf, size: nat, text: Bytes) returns (r: Outcome<string>)
      requires AllPermutations(cipherOf, size)
      ensures r == if keyPresent && cipherOf(key).Some? then Done(Sealed(cipherOf(key).value, text)) else Failed
    {
      if !keyPresent {
        return Failed;
      }
      var block := cipherOf(key);
      if block.None? {
        return Failed;
      }
      var plaintext := Pad(text, block.value.size);
      PaddedLength(text, block.value.size);
      var output := Chain(block.value, Zeros(block.value.size), plaintext);
      r := Done(ToBase64(output));
    }

    method Decrypt(cipherOf: CipherOf, size: nat, stored: string) returns (r: Outcome<Bytes>)
      requires AllPermutations(cipherOf, size)
      ensures !keyPresent || FromBase64(stored).None? || cipherOf(key).None? ==> r == Failed
      ensures keyPresent && FromBase64(stored).Some? && cipherOf(key).Some? ==>
            r == Unsealed(cipherOf(key).value, stored)
    {
      if !keyPresent {
        return Failed;
      }
      var raw := FromBase64(stored);
      if raw.None? {
        return Failed;
      }
      var block := cipherOf(key);
      if block.None? {
        return Failed;
      }
      if |raw.value| % block.value.size != 0 {
        return Panics;
      }
      var output := Unchain(block.value, Zeros(block.value.size), raw.value);
      r := Done(Trim(output));
    }
  }

  // ---- round trip ----

  /** Decrypting what was encrypted gives the text without its leading and trailing NULs. */
  lemma RoundTrip(c: Cipher, text: Bytes)
    requires IsPermutation(c)
    ensures Unsealed(c, Sealed(c, text)) == Done(Trim(text))
  {
    var iv, padded := Zeros(c.size), Pad(text, c.size);
    PaddedLength(text, c.size);
    Base64RoundTrip(Chain(c, iv, padded));
    UnchainUndoesChain(c, iv, padded);
    TrimUndoesPad(text, c.size);
  }

  /** A password survives if and only if it neither starts nor ends with a NUL. */
  lemma PasswordSurvivesIff(c: Cipher, text: Bytes)
    requires IsPermutation(c)
    ensures Unsealed(c, Sealed(c, text)) == Done(text) <==> Bare(text)
  {
    RoundTrip(c, text);
    TrimKeepsIff(text);
  }

  /** Two passwords are stored alike exactly when they pad to the same blocks. */
  lemma StoredAlikeIff(c: Cipher, one: Bytes, two: Bytes)
    requires IsPermutation(c)
    ensures Sealed(c, one) == Sealed(c, two) <==> Pad(one, c.size) == Pad(two, c.size)
  {
    var iv, p, q := Zeros(c.size), Pad(one, c.size), Pad(two, c.size);
    PaddedLength(one, c.size);
    PaddedLength(two, c.size);
    Base64RoundTrip(Chain(c, iv, p));
    Base64RoundTrip(Chain(c, iv, q));
    UnchainUndoesChain(c, iv, p);
    UnchainUndoesChain(c, iv, q);
  }

  /** The decrypter panics exactly on well-formed base64 that is no whole number of blocks. */
  lemma PanicsIff(c: Cipher, stored: string)
    requires IsPermutation(c)
    ensures Unsealed(c, stored).Panics? <==> FromBase64(stored).Some? && |FromBase64(stored).value| % c.size != 0
    ensures forall text :: !Unsealed(c, Sealed(c, text)).Panics?
  {
    forall text ensures !Unsealed(c, Sealed(c, text)).Panics? {
      RoundTrip(c, text);
    }
  }
}

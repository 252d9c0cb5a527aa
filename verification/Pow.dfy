/** The proof-of-work search of helper/pow.py: a candidate is assembled from three precomputed
    pieces of a JSON array instead of serialising the whole array for every number. */
module Pow {
  import opened Framing
  import opened Wrappers

  type Bytes = seq<byte>

  const LIMIT := 500000
  const COMMA: byte := 44
  const OPEN: byte := 91
  const CLOSE: byte := 93

  // ---------- JSON arrays and decimal numbers ----------

  /** The items of an array, each already printed, with the compact separator between them. */
  function Join(items: seq<Bytes>): Bytes {
    if items == [] then []
    else if |items| == 1 then items[0]
    else items[0] + [COMMA] + Join(items[1..])
  }

  function Dumps(items: seq<Bytes>): (r: Bytes)
    ensures |r| >= 2
  {
    [OPEN] + Join(items) + [CLOSE]
  }

  predicate IsDigit(b: byte) { 48 <= b <= 57 }

  function Dec(n: nat): (r: Bytes)
    ensures |r| > 0 && forall i | 0 <= i < |r| :: IsDigit(r[i])
  {
    if n < 10 then [48 + n] else Dec(n / 10) + [48 + n % 10]
  }

  function DecValue(s: Bytes): int {
    if s == [] then 0 else 10 * DecValue(s[..|s| - 1]) + (s[|s| - 1] as int - 48)
  }

  lemma {:induction false} DecRoundTrip(n: nat)
    ensures DecValue(Dec(n)) == n
  {
    if n >= 10 {
      DecRoundTrip(n / 10);
      assert Dec(n)[..|Dec(n)| - 1] == Dec(n / 10);
    } else {
      assert Dec(n)[..0] == [];
    }
  }

  // ---------- the assembled candidate ----------

  function Static1(config: seq<Bytes>): Bytes
    requires |config| >= 10
  {
    Dumps(config[..3])[..|Dumps(config[..3])| - 1] + [COMMA]
  }

  function Static2(config: seq<Bytes>): Bytes
    requires |config| >= 10
  {
    [COMMA] + Dumps(config[4..9])[1..|Dumps(config[4..9])| - 1] + [COMMA]
  }

  function Static3(config: seq<Bytes>): Bytes
    requires |config| >= 10
  {
    [COMMA] + Dumps(config[10..])[1..]
  }

  function Assemble(config: seq<Bytes>, n: nat): Bytes
    requires |config| >= 10
  {
    Static1(config) + Dec(n) + Static2(config) + Dec(n / 2) + Static3(config)
  }

  lemma {:induction false} JoinAppend(a: seq<Bytes>, b: seq<Bytes>)
    requires a != [] && b != []
    ensures Join(a + b) == Join(a) + [COMMA] + Join(b)
  {
    if |a| == 1 {
      assert (a + b)[1..] == b;
    } else {
      assert (a + b)[1..] == a[1..] + b;
      JoinAppend(a[1..], b);
      assert a[0] + [COMMA] + (Join(a[1..]) + [COMMA] + Join(b)) == a[0] + [COMMA] + Join(a[1..]) + [COMMA] + Join(b);
    }
  }

  /** The array that a plain implementation would serialise for number n. */
  function Modified(config: seq<Bytes>, n: nat): seq<Bytes>
    requires |config| >= 10
  {
    config[3 := Dec(n)][9 := Dec(n / 2)]
  }

  lemma JoinModified(config: seq<Bytes>, n: nat)
    requires |config| >= 10
    ensures Join(Modified(config, n)) ==
            Join(config[..3]) + [COMMA] + Dec(n) + [COMMA] + Join(config[4..9]) + [COMMA] + Dec(n / 2)
            + (if |config| == 10 then [] else [COMMA] + Join(config[10..]))
  {
    var a, b, c, d, e := config[..3], [Dec(n)], config[4..9], [Dec(n / 2)], config[10..];
    var abcd := a + b + c + d;
    JoinAppend(a, b);
    JoinAppend(a + b, c);
    JoinAppend(a + b + c, d);
    if e == [] {
      assert Modified(config, n) == abcd;
    } else {
      assert Modified(config, n) == abcd + e;
      JoinAppend(abcd, e);
    }
  }

  lemma Pieces(config: seq<Bytes>)
    requires |config| >= 10
    ensures Static1(config) == [OPEN] + Join(config[..3]) + [COMMA]
    ensures Static2(config) == [COMMA] + (Join(config[4..9]) + [COMMA])
    ensures Static3(config) == [COMMA] + Join(config[10..]) + [CLOSE]
  {
  }

  lemma Regroup(a: Bytes, n: Bytes, c: Bytes, h: Bytes, e: Bytes)
    ensures ([OPEN] + a + [COMMA]) + n + ([COMMA] + (c + [COMMA])) + h + ([COMMA] + e + [CLOSE])
         == [OPEN] + (a + [COMMA] + n + [COMMA] + c + [COMMA] + h + ([COMMA] + e)) + [CLOSE]
  {
  }

  /** The fast assembly is the serialisation of the modified array, and it is so exactly for the
      arrays that have something after index 9. */
  lemma AssembleIsSerialisation(config: seq<Bytes>, n: nat)
    requires |config| >= 10
    ensures Assemble(config, n) == Dumps(Modified(config, n)) <==> |config| >= 11
  {
    Pieces(config);
    JoinModified(config, n);
    Regroup(Join(config[..3]), Dec(n), Join(config[4..9]), Dec(n / 2), Join(config[10..]));
    if |config| == 10 {
      assert |Assemble(config, n)| == |Dumps(Modified(config, n))| + 1;
    }
  }

  function FirstComma(s: Bytes): nat {
    if s == [] || s[0] == COMMA then 0 else 1 + FirstComma(s[1..])
  }

  lemma {:induction false} DigitsThenComma(x: Bytes, s: Bytes)
    requires forall i | 0 <= i < |x| :: IsDigit(x[i])
    ensures FirstComma(x + [COMMA] + s) == |x|
  {
    if x == [] {
      assert x + [COMMA] + s == [COMMA] + s;
    } else {
      assert (x + [COMMA] + s)[1..] == x[1..] + [COMMA] + s;
      DigitsThenComma(x[1..], s);
    }
  }

  lemma SplitOff(a: Bytes, b: Bytes, c: Bytes, d: Bytes, e: Bytes)
    ensures (a + b + ([COMMA] + c) + d + e)[|a|..] == b + [COMMA] + (c + d + e)
  {
  }

  /** The first number in a candidate can be read back from its bytes. */
  lemma NumberInCandidate(config: seq<Bytes>, n: nat)
    requires |config| >= 10
    ensures var tail := Assemble(config, n)[|Static1(config)|..];
            FirstComma(tail) <= |tail| && DecValue(tail[..FirstComma(tail)]) == n
  {
    Pieces(config);
    var c := Join(config[4..9]) + [COMMA];
    SplitOff(Static1(config), Dec(n), c, Dec(n / 2), Static3(config));
    var tail := Assemble(config, n)[|Static1(config)|..];
    assert tail == Dec(n) + [COMMA] + (c + Dec(n / 2) + Static3(config));
    DigitsThenComma(Dec(n), c + Dec(n / 2) + Static3(config));
    DecRoundTrip(n);
    assert tail[..|Dec(n)|] == Dec(n);
  }

  /** No two numbers are tried on the same bytes. */
  lemma CandidatesDiffer(config: seq<Bytes>, m: nat, n: nat)
    requires |config| >= 10 && m != n
    ensures Assemble(config, m) != Assemble(config, n)
  {
    NumberInCandidate(config, m);
    NumberInCandidate(config, n);
  }

  // ---------- the difficulty test ----------

  /** Python's order on byte strings. */
  predicate LexLe(a: Bytes, b: Bytes) {
    if a == [] then true
    else if b == [] then false
    else if a[0] != b[0] then a[0] < b[0]
    else LexLe(a[1..], b[1..])
  }

  function Pow256(n: nat): (r: nat)
    ensures r > 0
  {
    if n == 0 then 1 else 256 * Pow256(n - 1)
  }

  function BigEndian(s: Bytes): nat {
    if s == [] then 0 else s[0] as int * Pow256(|s| - 1) + BigEndian(s[1..])
  }

  lemma {:induction false} MulMonotone(x: nat, y: nat, p: nat)
    requires x <= y
    ensures x * p <= y * p
  {
    if x < y {
      MulMonotone(x, y - 1, p);
      assert y * p == (y - 1) * p + p;
    }
  }

  lemma {:induction false} BigEndianBound(s: Bytes)
    ensures BigEndian(s) < Pow256(|s|)
  {
    if s != [] {
      BigEndianBound(s[1..]);
      MulMonotone(s[0], 255, Pow256(|s| - 1));
    }
  }

  /** A smaller leading digit decides, whatever the lower digits are. */
  lemma HeadDecides(x: nat, y: nat, p: nat, s: nat, t: nat)
    requires x < y && s < p
    ensures x * p + s < y * p + t
  {
    MulMonotone(x + 1, y, p);
    assert (x + 1) * p == x * p + p;
  }

  /** For any two byte strings the byte comparison is a big-endian integer comparison of the
      parts they both have; a string that is a prefix of the other counts as smaller. */
  lemma {:induction false} LexIsNumeric(a: Bytes, b: Bytes)
    ensures |a| <= |b| ==> (LexLe(a, b) <==> BigEndian(a) <= BigEndian(b[..|a|]))
    ensures |a| > |b| ==> (LexLe(a, b) <==> BigEndian(a[..|b|]) < BigEndian(b))
  {
    if a != [] && b != [] {
      LexIsNumeric(a[1..], b[1..]);
      var m := if |a| <= |b| then |a| else |b|;
      var a', b' := a[..m], b[..m];
      assert a'[1..] == a[1..][..m - 1] && b'[1..] == b[1..][..m - 1];
      assert a[..|a|] == a && b[..|b|] == b && a[1..][..|a| - 1] == a[1..] && b[1..][..|b| - 1] == b[1..];
      BigEndianBound(a'[1..]);
      BigEndianBound(b'[1..]);
      if a[0] < b[0] {
        HeadDecides(a[0], b[0], Pow256(m - 1), BigEndian(a'[1..]), BigEndian(b'[1..]));
      } else if b[0] < a[0] {
        HeadDecides(b[0], a[0], Pow256(m - 1), BigEndian(b'[1..]), BigEndian(a'[1..]));
      }
    } else {
      assert b[..0] == [] && a[..0] == [];
    }
  }

  function HexDigit(c: char): int {
    if '0' <= c <= '9' then c as int - '0' as int
    else if 'a' <= c <= 'f' then c as int - 'a' as int + 10
    else if 'A' <= c <= 'F' then c as int - 'A' as int + 10
    else -1
  }

  predicate IsBlank(c: char) { c == ' ' || '\t' <= c <= '\r' }

  /** Reading hexadecimal text: pairs of hexadecimal digits, blanks allowed between the pairs. */
  function FromHex(s: string): (r: Option<Bytes>)
    ensures r.Some? ==> 2 * |r.value| <= |s|
  {
    if s == "" then Some([])
    else if IsBlank(s[0]) then FromHex(s[1..])
    else if |s| < 2 || HexDigit(s[0]) < 0 || HexDigit(s[1]) < 0 then None
    else
      match FromHex(s[2..])
      case None => None
      case Some(rest) => Some([HexDigit(s[0]) * 16 + HexDigit(s[1])] + rest)
  }

  /** Nothing but hexadecimal digits, an even number of them. */
  ghost predicate WellFormed(s: string) {
    |s| % 2 == 0 && forall i | 0 <= i < |s| :: HexDigit(s[i]) >= 0
  }

  lemma {:induction false} WellFormedParses(s: string)
    requires WellFormed(s)
    ensures FromHex(s).Some? && |FromHex(s).value| == |s| / 2
  {
    if s != "" {
      assert HexDigit(s[0]) >= 0 && HexDigit(s[1]) >= 0;
      assert forall i | 0 <= i < |s[2..]| :: s[2..][i] == s[i + 2];
      WellFormedParses(s[2..]);
    }
  }

  /** The value of a hexadecimal digit. */
  ghost predicate DigitIs(c: char, v: nat) {
    v < 16 && (c == "0123456789abcdef"[v] || c == "0123456789ABCDEF"[v])
  }

  lemma HexDigitIs(c: char, v: nat)
    ensures DigitIs(c, v) <==> HexDigit(c) == v
  {
    if v < 16 { DigitsInTurn(v); }
    if HexDigit(c) >= 0 { DigitsInTurn(HexDigit(c)); }
  }

  lemma DigitsInTurn(v: nat)
    requires v < 16
    ensures HexDigit("0123456789abcdef"[v]) == v && HexDigit("0123456789ABCDEF"[v]) == v
    ensures "0123456789abcdef"[v] == (if v < 10 then '0' as int + v else 'a' as int + v - 10) as char
    ensures "0123456789ABCDEF"[v] == (if v < 10 then '0' as int + v else 'A' as int + v - 10) as char
  {
  }

  /** The number that hexadecimal digits write, most significant first. */
  ghost function HexValue(s: string): nat
    requires forall i | 0 <= i < |s| :: HexDigit(s[i]) >= 0
  {
    if s == "" then 0 else 16 * HexValue(s[..|s| - 1]) + HexDigit(s[|s| - 1])
  }

  lemma {:induction false} BigEndianSnoc(s: Bytes, b: byte)
    ensures BigEndian(s + [b]) == 256 * BigEndian(s) + b as int
    decreases |s|
  {
    if s == [] {
      assert [b][1..] == [];
      assert BigEndian([b]) == b as int * Pow256(0) + BigEndian([]);
    } else {
      assert (s + [b])[1..] == s[1..] + [b];
      BigEndianSnoc(s[1..], b);
      MulShift(s[0], Pow256(|s| - 1));
    }
  }

  lemma MulShift(x: nat, p: nat)
    ensures x * (256 * p) == 256 * (x * p)
  {
  }

  lemma FromHexPair(a: char, b: char, rest: string)
    requires HexDigit(a) >= 0 && HexDigit(b) >= 0
    ensures FromHex(rest).Some? ==>
            FromHex([a, b] + rest) == Some([HexDigit(a) * 16 + HexDigit(b)] + FromHex(rest).value)
  {
    var s := [a, b] + rest;
    assert s[0] == a && s[1] == b && s[2..] == rest && !IsBlank(a);
  }

  lemma {:induction false} FromHexSnoc(s: string, x: char, y: char)
    requires WellFormed(s) && HexDigit(x) >= 0 && HexDigit(y) >= 0
    ensures FromHex(s).Some?
    ensures FromHex(s + [x, y]) == Some(FromHex(s).value + [HexDigit(x) * 16 + HexDigit(y)])
    decreases |s|
  {
    WellFormedParses(s);
    var last: byte := HexDigit(x) * 16 + HexDigit(y);
    if s == "" {
      FromHexPair(x, y, "");
      assert s + [x, y] == [x, y] + "" && [last] + [] == [] + [last];
    } else {
      var a, b, rest := s[0], s[1], s[2..];
      assert HexDigit(a) >= 0 && HexDigit(b) >= 0 && WellFormed(rest);
      FromHexSnoc(rest, x, y);
      FromHexPair(a, b, rest);
      FromHexPair(a, b, rest + [x, y]);
      assert s == [a, b] + rest && s + [x, y] == [a, b] + (rest + [x, y]);
      var first: byte := HexDigit(a) * 16 + HexDigit(b);
      assert [first] + (FromHex(rest).value + [last]) == [first] + FromHex(rest).value + [last];
    }
  }

  /** The bytes read from hexadecimal text are, as a number, what the digits write; and so are the leading ones. */
  lemma {:induction false} FromHexIsHexadecimal(s: string, k: nat)
    requires WellFormed(s) && 2 * k <= |s|
    ensures FromHex(s).Some? && |FromHex(s).value| == |s| / 2
    ensures BigEndian(FromHex(s).value[..k]) == HexValue(s[..2 * k])
    decreases |s|
  {
    WellFormedParses(s);
    if s != "" {
      var init, x, y := s[..|s| - 2], s[|s| - 2], s[|s| - 1];
      assert s == init + [x, y];
      FromHexSnoc(init, x, y);
      var bytes, last: byte := FromHex(init).value, HexDigit(x) * 16 + HexDigit(y);
      if 2 * k <= |init| {
        FromHexIsHexadecimal(init, k);
        assert FromHex(s).value[..k] == bytes[..k] && s[..2 * k] == init[..2 * k];
      } else {
        FromHexIsHexadecimal(init, |init| / 2);
        assert bytes[..|init| / 2] == bytes && init[..2 * (|init| / 2)] == init;
        assert FromHex(s).value[..k] == bytes + [last] && s[..2 * k] == s;
        BigEndianSnoc(bytes, last);
        HexValueSnoc(init, x, y);
      }
    }
  }

  lemma HexValueSnoc(s: string, x: char, y: char)
    requires (forall i | 0 <= i < |s| :: HexDigit(s[i]) >= 0) && HexDigit(x) >= 0 && HexDigit(y) >= 0
    ensures HexValue(s + [x, y]) == 256 * HexValue(s) + 16 * HexDigit(x) + HexDigit(y)
  {
    assert (s + [x, y])[..|s| + 1] == s + [x] && (s + [x])[..|s|] == s;
  }

  /** Text that can be read: pairs of digits and blanks, in any order. */
  ghost predicate IsPart(part: string) {
    (|part| == 1 && IsBlank(part[0])) || (|part| == 2 && HexDigit(part[0]) >= 0 && HexDigit(part[1]) >= 0)
  }

  ghost function Flat(parts: seq<string>): string {
    if parts == [] then "" else parts[0] + Flat(parts[1..])
  }

  lemma {:induction false} ParsesFlat(parts: seq<string>)
    requires forall i | 0 <= i < |parts| :: IsPart(parts[i])
    ensures FromHex(Flat(parts)).Some?
  {
    if parts != [] {
      var s := Flat(parts);
      assert IsPart(parts[0]);
      assert s[|parts[0]|..] == Flat(parts[1..]);
      ParsesFlat(parts[1..]);
    }
  }

  lemma {:induction false} ParsedIsFlat(s: string) returns (parts: seq<string>)
    requires FromHex(s).Some?
    ensures (forall i | 0 <= i < |parts| :: IsPart(parts[i])) && Flat(parts) == s
    decreases |s|
  {
    if s == "" {
      parts := [];
    } else {
      var n := if IsBlank(s[0]) then 1 else 2;
      var rest := ParsedIsFlat(s[n..]);
      parts := [s[..n]] + rest;
      assert parts[1..] == rest && s == s[..n] + s[n..];
    }
  }

  /** Text is read iff it consists of pairs of digits with blanks between them. */
  lemma ReadsIffPairs(s: string)
    ensures FromHex(s).Some? <==>
            exists parts :: (forall i | 0 <= i < |parts| :: IsPart(parts[i])) && Flat(parts) == s
  {
    if FromHex(s).Some? { var parts := ParsedIsFlat(s); }
    if exists parts :: (forall i | 0 <= i < |parts| :: IsPart(parts[i])) && Flat(parts) == s {
      var parts :| (forall i | 0 <= i < |parts| :: IsPart(parts[i])) && Flat(parts) == s;
      ParsesFlat(parts);
    }
  }

  function Prefix(digest: Bytes, n: nat): Bytes {
    if n <= |digest| then digest[..n] else digest
  }

  predicate MeetsTarget(digest: Bytes, difficulty: string, target: Bytes) {
    LexLe(Prefix(digest, |difficulty| / 2), target)
  }

  /** The leading bytes of the digest, as a number, are at most what the difficulty writes. Up to the length of
      the digest the whole difficulty counts; of a longer one only as many bytes as the digest has. */
  ghost predicate MeetsDifficulty(digest: Bytes, difficulty: string)
    requires WellFormed(difficulty)
  {
    var n := |difficulty| / 2;
    if n <= |digest| then BigEndian(digest[..n]) <= HexValue(difficulty)
    else BigEndian(digest) <= HexValue(difficulty[..2 * |digest|])
  }

  /** What a well-formed difficulty asks of a digest, as numbers. */
  lemma DifficultyIsNumeric(digest: Bytes, difficulty: string)
    requires WellFormed(difficulty)
    ensures FromHex(difficulty).Some?
    ensures MeetsTarget(digest, difficulty, FromHex(difficulty).value) <==> MeetsDifficulty(digest, difficulty)
  {
    var n := |difficulty| / 2;
    FromHexIsHexadecimal(difficulty, n);
    var target := FromHex(difficulty).value;
    LexIsNumeric(Prefix(digest, n), target);
    assert target[..n] == target && difficulty[..2 * n] == difficulty;
    if n > |digest| { FromHexIsHexadecimal(difficulty, |digest|); }
  }

  // ---------- the search ----------

  /** "gAAAAAB". */
  const TOKEN_PREFIX: Bytes := [103, 65, 65, 65, 65, 65, 66]

  datatype Proof = Found(number: nat, token: Bytes) | Exhausted | BadDifficulty

  /** The base64 form of the array with the number and its half in it; SHA3-512 and base64 are parameters. */
  function Encoded(config: seq<Bytes>, base64: Bytes -> Bytes, n: nat): Bytes
    requires |config| >= 11
  {
    base64(Dumps(config[3 := Dec(n)][9 := Dec(n / 2)]))
  }

  predicate Passes(config: seq<Bytes>, seed: Bytes, difficulty: string, target: Bytes,
                   hash: Bytes -> Bytes, base64: Bytes -> Bytes, n: nat)
    requires |config| >= 11
  {
    MeetsTarget(hash(seed + Encoded(config, base64, n)), difficulty, target)
  }

  method BuildProofToken(config: seq<Bytes>, seed: Bytes, difficulty: string,
                         hash: Bytes -> Bytes, base64: Bytes -> Bytes) returns (proof: Proof)
    requires |config| >= 11
    ensures proof.BadDifficulty? <==> FromHex(difficulty).None?
    ensures proof.Found? ==>
      && proof.number < LIMIT
      && proof.token == TOKEN_PREFIX + Encoded(config, base64, proof.number)
      && Passes(config, seed, difficulty, FromHex(difficulty).value, hash, base64, proof.number)
      && forall m | 0 <= m < proof.number ::
        !Passes(config, seed, difficulty, FromHex(difficulty).value, hash, base64, m)
    ensures proof.Exhausted? ==>
      forall m | 0 <= m < LIMIT :: !Passes(config, seed, difficulty, FromHex(difficulty).value, hash, base64, m)
    // for a difficulty of nothing but digits, in terms of numbers
    ensures WellFormed(difficulty) ==> !proof.BadDifficulty?
    ensures WellFormed(difficulty) && proof.Found? ==>
      && MeetsDifficulty(hash(seed + proof.token[7..]), difficulty)
      && forall m | 0 <= m < proof.number :: !MeetsDifficulty(hash(seed + Encoded(config, base64, m)), difficulty)
    ensures WellFormed(difficulty) && proof.Exhausted? ==>
      forall m | 0 <= m < LIMIT :: !MeetsDifficulty(hash(seed + Encoded(config, base64, m)), difficulty)
  {
    PassesIsNumeric(config, seed, difficulty, hash, base64);
    var parsed := FromHex(difficulty);
    if parsed.None? { return BadDifficulty; }
    var target := parsed.value;
    var static1, static2, static3 := Static1(config), Static2(config), Static3(config);
    for number := 0 to LIMIT
      invariant forall m | 0 <= m < number :: !Passes(config, seed, difficulty, target, hash, base64, m)
    {
      var finalJson := static1 + Dec(number) + static2 + Dec(number / 2) + static3;
      AssembleIsSerialisation(config, number);
      var encoded := base64(finalJson);
      if LexLe(Prefix(hash(seed + encoded), |difficulty| / 2), target) {
        assert (TOKEN_PREFIX + encoded)[7..] == encoded;
        return Found(number, TOKEN_PREFIX + encoded);
      }
    }
    proof := Exhausted;
  }

  lemma PassesIsNumeric(config: seq<Bytes>, seed: Bytes, difficulty: string, hash: Bytes -> Bytes,
                        base64: Bytes -> Bytes)
    requires |config| >= 11
    ensures WellFormed(difficulty) ==> FromHex(difficulty).Some?
    ensures WellFormed(difficulty) ==>
            forall m: nat :: Passes(config, seed, difficulty, FromHex(difficulty).value, hash, base64, m) <==>
                             MeetsDifficulty(hash(seed + Encoded(config, base64, m)), difficulty)
  {
    if WellFormed(difficulty) {
      forall m: nat
        ensures FromHex(difficulty).Some?
        ensures Passes(config, seed, difficulty, FromHex(difficulty).value, hash, base64, m) <==>
                MeetsDifficulty(hash(seed + Encoded(config, base64, m)), difficulty)
      {
        DifficultyIsNumeric(hash(seed + Encoded(config, base64, m)), difficulty);
      }
      WellFormedParses(difficulty);
    }
  }
}

/**
 * The API-key format of `lib/auth/crypto.ts`: the check `validateAPIKeyFormat`
 * and the shape of the keys `generateAPIKey` hands out. The random bytes and the
 * clock are parameters; SHA-256 hashing is not part of this model.
 */
module ApiKey {
  import opened JsText

  newtype Byte = x: int | 0 <= x < 256

  predicate AllAlnum(s: string) { forall i :: 0 <= i < |s| ==> IsAlnum(s[i]) }
  predicate AllHex(s: string) { forall i :: 0 <= i < |s| ==> IsHexDigit(s[i]) }

  /**
   * `/^ace_[a-z0-9]+_[a-f0-9]{32}$/i.test(k)`. Since the middle part cannot hold
   * `_` and the last part is exactly 32 characters long, the separator sits 33
   * characters from the end.
   */
  predicate ValidFormat(k: string) {
    |k| >= 38 && Lower(k[..4]) == "ace_" && k[|k| - 33] == '_'
    && AllAlnum(k[4..|k| - 33]) && AllHex(k[|k| - 32..])
  }

  lemma PartsExact(p: string, m: string, h: string)
    requires |p| == 4 && |h| == 32
    ensures var k := p + m + "_" + h;
      k[..4] == p && k[|k| - 33] == '_' && k[4..|k| - 33] == m && k[|k| - 32..] == h
  {
  }

  lemma LongTail(p: string, m: string, h: string)
    requires |p| == 4 && |h| > 32
    ensures !ValidFormat(p + m + "_" + h)
  {
    var k := p + m + "_" + h;
    if |k| >= 38 && k[|k| - 33] == '_' {
      assert k[|k| - 33] == h[|h| - 33];
      var mid := k[4..|k| - 33];
      assert mid[|m|] == '_';
    }
  }

  lemma ShortTail(p: string, m: string, h: string)
    requires |p| == 4 && |h| < 32
    ensures !ValidFormat(p + m + "_" + h)
  {
    var k := p + m + "_" + h;
    if |k| >= 38 {
      var tail := k[|k| - 32..];
      assert tail[31 - |h|] == '_';
    }
  }

  /** The regex read as a grammar: a case-insensitive `ace_`, a non-empty alphanumeric run, `_`, 32 hex digits. */
  lemma ValidFormatParts(p: string, m: string, h: string)
    requires |p| == 4
    ensures ValidFormat(p + m + "_" + h) <==>
      Lower(p) == "ace_" && m != [] && AllAlnum(m) && |h| == 32 && AllHex(h)
  {
    if |h| == 32 {
      PartsExact(p, m, h);
    } else if |h| > 32 {
      LongTail(p, m, h);
    } else {
      ShortTail(p, m, h);
    }
  }

  /** Every valid key splits into the three parts of the grammar. */
  lemma ValidFormatSplits(k: string)
    requires ValidFormat(k)
    ensures k == k[..4] + k[4..|k| - 33] + "_" + k[|k| - 32..]
  {
  }

  /** Upper-case letters are as good as lower-case ones, in the prefix and in both parts. */
  lemma CaseInsensitive(m: string, h: string)
    requires m != [] && AllAlnum(m) && |h| == 32 && AllHex(h)
    ensures ValidFormat("ACE_" + m + "_" + h) && ValidFormat("ace_" + m + "_" + h)
  {
    ValidFormatParts("ACE_", m, h);
    ValidFormatParts("ace_", m, h);
  }

  /** An underscore inside the middle part is rejected. */
  lemma UnderscoreInMiddle(p: string, m: string, h: string)
    requires |p| == 4 && !NoChar(m, '_')
    ensures !ValidFormat(p + m + "_" + h)
  {
    ValidFormatParts(p, m, h);
  }

  /** A last part of any length other than 32 is rejected. */
  lemma WrongTailLength(p: string, m: string, h: string)
    requires |p| == 4 && |h| != 32
    ensures !ValidFormat(p + m + "_" + h)
  {
    ValidFormatParts(p, m, h);
  }

  // ----------------------------------------------------------- generation

  function HexChar(d: nat): (c: char)
    requires d < 16
    ensures IsHexDigit(c) && !IsUpper(c)
  {
    if d < 10 then ('0' as int + d) as char else ('a' as int + d - 10) as char
  }

  /** `Buffer.toString('hex')`: two lower-case hex digits per byte. */
  function Hex(bs: seq<Byte>): (r: string)
    ensures |r| == 2 * |bs| && AllHex(r)
  {
    if bs == [] then []
    else [HexChar(bs[0] as int / 16), HexChar(bs[0] as int % 16)] + Hex(bs[1..])
  }

  function Base36Digit(d: nat): (c: char)
    requires d < 36
    ensures IsAlnum(c) && !IsUpper(c)
  {
    if d < 10 then ('0' as int + d) as char else ('a' as int + d - 10) as char
  }

  /** `n.toString(36)` for a non-negative integer. */
  function Base36(n: nat): (r: string)
    ensures r != [] && AllAlnum(r)
  {
    if n < 36 then [Base36Digit(n)] else Base36(n / 36) + [Base36Digit(n % 36)]
  }

  /** `generateAPIKey()` for the clock reading `now` and the 16 bytes `randomBytes(16)` returned. */
  function GenerateKey(now: nat, random: seq<Byte>): string
    requires |random| == 16
  {
    "ace_" + Base36(now) + "_" + Hex(random)
  }

  /** Every generated key passes `validateAPIKeyFormat`. */
  lemma GeneratedKeysValid(now: nat, random: seq<Byte>)
    requires |random| == 16
    ensures ValidFormat(GenerateKey(now, random))
  {
    ValidFormatParts("ace_", Base36(now), Hex(random));
  }
}

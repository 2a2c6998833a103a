/** Salted password hashes stored as "saltHex:hashHex".

    SHA-256 over the UTF-8 encoding of a string is the function parameter `sha256`; the random
    salt is a parameter. */
module PasswordUtils {
  import opened Common

  const SALT_BYTES := 16
  const DIGEST_BYTES := 32

  /** `n.toString(16)` for one digit. */
  function HexDigit(n: nat): (c: char)
    requires n < 16
    ensures IsLowerHex(c)
  {
    if n < 10 then (48 + n) as char else (97 + n - 10) as char
  }

  predicate IsLowerHex(c: char) {
    '0' <= c <= '9' || 'a' <= c <= 'f'
  }

  function HexValue(c: char): (n: nat)
    requires IsLowerHex(c)
    ensures n < 16
  {
    if c <= '9' then c as int - 48 else c as int - 97 + 10
  }

  /** `b.toString(16).padStart(2, '0')`. */
  function ByteHex(b: Byte): (h: string)
    ensures |h| == 2 && IsLowerHex(h[0]) && IsLowerHex(h[1])
    ensures HexValue(h[0]) * 16 + HexValue(h[1]) == b
  {
    [HexDigit(b / 16), HexDigit(b % 16)]
  }

  /** `Array.from(bytes).map(…).join('')`: two lowercase hex digits per byte. */
  function ToHex(bytes: seq<Byte>): (h: string)
    ensures |h| == 2 * |bytes|
    ensures forall k :: 0 <= k < |h| ==> IsLowerHex(h[k])
  {
    if bytes == [] then "" else ByteHex(bytes[0]) + ToHex(bytes[1..])
  }

  /** Reading the hex digits back, two per byte. */
  function FromHex(h: string): (bytes: seq<Byte>)
    requires |h| % 2 == 0 && forall k :: 0 <= k < |h| ==> IsLowerHex(h[k])
  {
    if h == "" then [] else [HexValue(h[0]) * 16 + HexValue(h[1])] + FromHex(h[2..])
  }

  /** Two hex digits per byte lose nothing: the bytes can be read back. */
  lemma {:induction false} HexRoundTrip(bytes: seq<Byte>)
    ensures FromHex(ToHex(bytes)) == bytes
  {
    if bytes != [] {
      var h := ToHex(bytes);
      assert h[2..] == ToHex(bytes[1..]);
      HexRoundTrip(bytes[1..]);
    }
  }

  /** Different bytes give different hex. */
  lemma HexInjective(a: seq<Byte>, b: seq<Byte>)
    requires ToHex(a) == ToHex(b)
    ensures a == b
  {
    HexRoundTrip(a);
    HexRoundTrip(b);
  }

  /** `hashPassword` with the given salt bytes. */
  function HashPassword(password: string, salt: seq<Byte>, sha256: string -> seq<Byte>): string {
    ToHex(salt) + ":" + ToHex(sha256(password + ToHex(salt)))
  }

  /** The stored value has 32 hex digits of salt, a colon, and 64 hex digits of digest. */
  lemma HashFormat(password: string, salt: seq<Byte>, sha256: string -> seq<Byte>)
    requires |salt| == SALT_BYTES && |sha256(password + ToHex(salt))| == DIGEST_BYTES
    ensures var stored := HashPassword(password, salt, sha256);
      |stored| == 97 && stored[32] == ':'
      && (forall k :: 0 <= k < 32 ==> IsLowerHex(stored[k]))
      && (forall k :: 33 <= k < 97 ==> IsLowerHex(stored[k]))
      && stored[..32] == ToHex(salt)
      && stored[33..] == ToHex(sha256(password + stored[..32]))
  {
    var stored := HashPassword(password, salt, sha256);
    var saltHex := ToHex(salt);
    var digestHex := ToHex(sha256(password + saltHex));
    assert stored[..32] == saltHex;
    assert stored[33..] == digestHex;
    forall k | 33 <= k < 97
      ensures IsLowerHex(stored[k])
    {
      assert stored[k] == digestHex[k - 33];
    }
  }

  /** The text before the first ':' (all of it when there is none). */
  function UpToColon(s: string): (r: string)
    ensures ':' !in r && |r| <= |s| && r == s[..|r|]
    ensures |r| < |s| ==> s[|r|] == ':'
  {
    if s == [] || s[0] == ':' then [] else [s[0]] + UpToColon(s[1..])
  }

  /** The first two parts of `s.split(':')`; the second is missing when there is no ':'. */
  function SplitColon(s: string): (parts: (string, Option<string>))
    ensures parts.0 == UpToColon(s)
    ensures parts.1.None? <==> ':' !in s
  {
    var first := UpToColon(s);
    if |first| < |s| then (first, Some(UpToColon(s[|first| + 1..])))
    else
      assert s == first;
      (first, None)
  }

  /** `verifyPassword`: false for an empty salt or a missing or empty hash part; otherwise
      whether the digest of the password and the stored salt is the stored hash. */
  function VerifyPassword(password: string, storedHash: string, sha256: string -> seq<Byte>): (ok: bool)
    ensures UpToColon(storedHash) == "" ==> !ok
    ensures ':' !in storedHash ==> !ok
    ensures ok <==> var parts := SplitColon(storedHash);
      parts.0 != "" && parts.1.Some? && parts.1.value != "" && ToHex(sha256(password + parts.0)) == parts.1.value
  {
    var (saltHex, expectedHashHex) := SplitColon(storedHash);
    if saltHex == "" || expectedHashHex.None? || expectedHashHex.value == "" then false
    else ToHex(sha256(password + saltHex)) == expectedHashHex.value
  }

  /** Text without ':' is kept whole by the split, whatever follows it. */
  lemma {:induction false} UpToColonPrefix(a: string, b: string)
    requires ':' !in a
    ensures UpToColon(a + b) == a + UpToColon(b)
    decreases |a|
  {
    if a != [] {
      var t := a + b;
      assert t[0] == a[0] && a[0] in a && t[1..] == a[1..] + b;
      assert ':' !in a[1..] by {
        assert forall c :: c in a[1..] ==> c in a;
      }
      UpToColonPrefix(a[1..], b);
      assert [a[0]] + a[1..] == a;
    } else {
      assert a + b == b;
    }
  }

  /** The stored form "saltHex:hashHex" splits back into its two parts. */
  lemma SplitStored(saltHex: string, digestHex: string)
    requires ':' !in saltHex && ':' !in digestHex
    ensures SplitColon(saltHex + ":" + digestHex) == (saltHex, Some(digestHex))
  {
    var stored := saltHex + ":" + digestHex;
    UpToColonPrefix(saltHex, ":" + digestHex);
    assert stored == saltHex + (":" + digestHex);
    assert UpToColon(stored) == saltHex;
    assert stored[|saltHex| + 1..] == digestHex + [];
    UpToColonPrefix(digestHex, []);
  }

  lemma HexHasNoColon(bytes: seq<Byte>)
    ensures ':' !in ToHex(bytes)
  {
    var h := ToHex(bytes);
    forall k | 0 <= k < |h|
      ensures h[k] != ':'
    {
      assert IsLowerHex(h[k]);
    }
  }

  /** A password checks against its own hash, whatever the salt and the digest, as long as
      neither is empty. */
  lemma VerifyHashRoundTrip(password: string, salt: seq<Byte>, sha256: string -> seq<Byte>)
    requires |salt| > 0 && |sha256(password + ToHex(salt))| > 0
    ensures VerifyPassword(password, HashPassword(password, salt, sha256), sha256)
  {
    var saltHex := ToHex(salt);
    HexHasNoColon(salt);
    HexHasNoColon(sha256(password + saltHex));
    SplitStored(saltHex, ToHex(sha256(password + saltHex)));
  }

  /** A password that checks against a stored hash has the same digest, with that salt, as the
      password the hash was made from: a wrong password passes only through a SHA-256
      collision. */
  lemma VerifyNeedsSameDigest(password: string, other: string, salt: seq<Byte>, sha256: string -> seq<Byte>)
    requires |salt| > 0 && |sha256(password + ToHex(salt))| > 0
    requires VerifyPassword(other, HashPassword(password, salt, sha256), sha256)
    ensures sha256(other + ToHex(salt)) == sha256(password + ToHex(salt))
  {
    var saltHex := ToHex(salt);
    HexHasNoColon(salt);
    HexHasNoColon(sha256(password + saltHex));
    SplitStored(saltHex, ToHex(sha256(password + saltHex)));
    HexInjective(sha256(other + saltHex), sha256(password + saltHex));
  }
}

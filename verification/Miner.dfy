/** The CPU miner of Pilar 1 (pilar1-minero/cpu/src/brute_force.py). */
module Miner {
  import opened Wrappers
  import opened Platform
  import opened Text
  import opened Challenge

  datatype MinerError = IndexError

  /** hex_digit: anything that is not a hexadecimal digit counts as zero. */
  function HexDigit(c: char): (v: nat)
    ensures v < 16
  {
    if '0' <= c <= '9' then (c - '0') as nat
    else if 'a' <= c <= 'f' then (c - 'a') as nat + 10
    else if 'A' <= c <= 'F' then (c - 'A') as nat + 10
    else 0
  }

  /** The first k nibbles of d are the digits of prefix. */
  predicate NibblesMatch(d: Digest, prefix: string, k: nat)
    requires k <= |prefix| && k <= 32
  {
    forall i :: 0 <= i < k ==> Nibble(d, i) == HexDigit(prefix[i])
  }

  /** A digest has 32 nibbles; a longer prefix that agrees with all of them makes the index run out. */
  function CheckPrefixOf(d: Digest, prefix: string): Result<bool, MinerError> {
    if |prefix| <= 32 then Success(NibblesMatch(d, prefix, |prefix|))
    else if NibblesMatch(d, prefix, 32) then Failure(IndexError)
    else Success(false)
  }

  /** check_prefix: compares nibble by nibble and stops at the first difference. */
  method CheckPrefix(d: Digest, prefix: string) returns (r: Result<bool, MinerError>)
    ensures r == CheckPrefixOf(d, prefix)
  {
    for i := 0 to |prefix|
      invariant i <= 32
      invariant NibblesMatch(d, prefix, i)
    {
      if i / 2 >= |d| {
        return Failure(IndexError);
      }
      var hn := if i % 2 == 0 then d[i / 2] / 16 else d[i / 2] % 16;
      if hn != HexDigit(prefix[i]) {
        assert Nibble(d, i) != HexDigit(prefix[i]);
        return Success(false);
      }
    }
    return Success(true);
  }

  /** On the prefixes the system uses, the nibble test is the textual test of verify_nonce; past 32 zeros
      the verifier rejects every nonce while the miner rejects or runs out of digest. */
  lemma NibbleTestIsPrefixTest(d: Digest, n: nat)
    ensures n <= 32 ==> CheckPrefixOf(d, PrefixForZeros(n)) == Success(StartsWith(Hexdigest(d), PrefixForZeros(n)))
    ensures n > 32 ==> !StartsWith(Hexdigest(d), PrefixForZeros(n)) && CheckPrefixOf(d, PrefixForZeros(n)) != Success(true)
  {
    var prefix := PrefixForZeros(n);
    var hex := Hexdigest(d);
    if n <= 32 {
      if NibblesMatch(d, prefix, n) {
        assert forall i :: 0 <= i < n ==> hex[i] == prefix[i];
        assert prefix == hex[..n];
      } else {
        var i :| 0 <= i < n && Nibble(d, i) != HexDigit(prefix[i]);
        assert hex[i] != prefix[i];
      }
    }
  }

  /** The nonces a sweep looks for. */
  predicate Hit(p: Platform, base: string, n: int, prefix: string) {
    CheckPrefixOf(p.md5(HashInput(base, n)), prefix) == Success(true)
  }

  /** brute_force over [rangeMin, rangeMax): the first hit and its hash, or nothing. */
  method BruteForce(p: Platform, base: string, prefix: string, rangeMin: int, rangeMax: int)
    returns (r: Result<Option<(int, string)>, MinerError>)
    ensures r.Success? && r.value.Some? ==>
      var (nonce, hash) := r.value.value;
      && rangeMin <= nonce < rangeMax
      && Hit(p, base, nonce, prefix) && hash == ComputeHash(p, base, nonce)
      && forall k :: rangeMin <= k < nonce ==> !Hit(p, base, k, prefix)
    ensures r.Success? && r.value.None? ==> forall k :: rangeMin <= k < rangeMax ==> !Hit(p, base, k, prefix)
    ensures r.Failure? ==> |prefix| > 32
  {
    var nonce := rangeMin;
    while nonce < rangeMax
      invariant rangeMin <= nonce
      invariant forall k :: rangeMin <= k < nonce ==> !Hit(p, base, k, prefix)
      invariant nonce <= rangeMax || nonce == rangeMin
    {
      var h := p.md5(HashInput(base, nonce));
      var found := CheckPrefix(h, prefix);
      match found
      case Failure(e) =>
        return Failure(e);
      case Success(ok) =>
        if ok {
          return Success(Some((nonce, Hexdigest(h))));
        }
      nonce := nonce + 1;
    }
    return Success(None);
  }

  /** A nonce the miner reports for n zeros is one the coordinator accepts, and no other is. */
  lemma HitIsVerified(p: Platform, base: string, nonce: int, n: nat)
    ensures Hit(p, base, nonce, PrefixForZeros(n)) <==> VerifyNonce(p, base, nonce, n)
  {
    NibbleTestIsPrefixTest(p.md5(HashInput(base, nonce)), n);
  }
}

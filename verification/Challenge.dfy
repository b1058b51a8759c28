/** The governance challenge and the verification of a nonce (common/blockchain/challenge.py). */
module Challenge {
  import opened Wrappers
  import opened Platform
  import opened Text

  function ActionText(a: Action): string {
    match a
    case Promulgacion => "promulgacion"
    case Derogacion => "derogacion"
  }

  function ParseAction(s: string): (r: Option<Action>)
    ensures forall a :: s == ActionText(a) ==> r == Some(a)
  {
    assert |ActionText(Promulgacion)| != |ActionText(Derogacion)|;
    if s == ActionText(Promulgacion) then Some(Promulgacion)
    else if s == ActionText(Derogacion) then Some(Derogacion)
    else None
  }

  function BuildPartialHashBase(lawId: string, textHash: string, votingWindowId: string, action: Action): string {
    lawId + textHash + votingWindowId + ActionText(action)
  }

  function NZerosForAction(n: int, action: Action): int {
    if action == Promulgacion then n else n + 1
  }

  /** prefix_for_zeros; a negative count raises, and no caller of the model passes one. */
  function PrefixForZeros(n: nat): (s: string)
    ensures |s| == n && forall i :: 0 <= i < n ==> s[i] == '0'
  {
    seq(n, i => '0')
  }

  function NibbleChar(v: nat): (c: char)
    requires v < 16
    ensures c == '0' <==> v == 0
  {
    if v < 10 then '0' + v as char else 'a' + (v - 10) as char
  }

  /** hexdigest(): two lower-case digits per byte, high nibble first. */
  function Hexdigest(d: Digest): (s: string)
    ensures |s| == 32
    ensures forall i :: 0 <= i < 32 ==> s[i] == NibbleChar(Nibble(d, i))
  {
    seq(32, i requires 0 <= i < 32 => NibbleChar(Nibble(d, i)))
  }

  /** (d[i // 2] >> (4 * (1 - i % 2))) & 0xf */
  function Nibble(d: Digest, i: nat): (v: nat)
    requires i < 32
    ensures v < 16
  {
    if i % 2 == 0 then d[i / 2] / 16 else d[i / 2] % 16
  }

  function HashInput(base: string, nonce: int): string {
    base + IntText(nonce)
  }

  function ComputeHash(p: Platform, base: string, nonce: int): string {
    Hexdigest(p.md5(HashInput(base, nonce)))
  }

  predicate StartsWith(s: string, prefix: string) {
    prefix <= s
  }

  /** verify_nonce: a negative requirement raises in prefix_for_zeros and is no acceptance. */
  predicate VerifyNonce(p: Platform, base: string, nonce: int, nZerosRequired: int) {
    nZerosRequired >= 0 && StartsWith(ComputeHash(p, base, nonce), PrefixForZeros(nZerosRequired))
  }

  /** Number of leading zero nibbles of a digest. */
  function LeadingZeros(d: Digest, from: nat): (n: nat)
    requires from <= 32
    ensures n <= 32 - from
    ensures forall i :: from <= i < from + n ==> Nibble(d, i) == 0
    ensures from + n < 32 ==> Nibble(d, from + n) != 0
    decreases 32 - from
  {
    if from == 32 || Nibble(d, from) != 0 then 0 else 1 + LeadingZeros(d, from + 1)
  }

  /** A nonce passes exactly when its digest has at least the required number of leading zero nibbles,
      so beyond 32 zeros nothing passes. */
  lemma VerifyNonceIsLeadingZeros(p: Platform, base: string, nonce: int, n: nat)
    ensures VerifyNonce(p, base, nonce, n) <==> LeadingZeros(p.md5(HashInput(base, nonce)), 0) >= n
  {
    var d := p.md5(HashInput(base, nonce));
    var h := Hexdigest(d);
    var z := LeadingZeros(d, 0);
    if z >= n {
      assert PrefixForZeros(n) == h[..n];
    } else if n <= 32 {
      assert h[z] != '0';
      assert PrefixForZeros(n)[z] == '0';
    }
  }

  /** Whoever solves n + 1 zeros has solved n: a repeal nonce is at least as hard as a promulgation nonce. */
  lemma HarderNonceIsEasierNonce(p: Platform, base: string, nonce: int, n: nat, m: nat)
    requires n <= m
    requires VerifyNonce(p, base, nonce, m)
    ensures VerifyNonce(p, base, nonce, n)
  {
    VerifyNonceIsLeadingZeros(p, base, nonce, m);
    VerifyNonceIsLeadingZeros(p, base, nonce, n);
  }

  /** solve_mini_challenge: the first nonce below maxIter whose hash has nZeros zeros. */
  method SolveMiniChallenge(p: Platform, seed: string, nZeros: nat, maxIter: nat) returns (r: Option<nat>)
    ensures r.Some? ==> r.value < maxIter && VerifyNonce(p, seed, r.value, nZeros)
    ensures r.Some? ==> forall k: nat :: k < r.value ==> !VerifyNonce(p, seed, k, nZeros)
    ensures r.None? ==> forall k: nat :: k < maxIter ==> !VerifyNonce(p, seed, k, nZeros)
  {
    for nonce := 0 to maxIter
      invariant forall k: nat :: k < nonce ==> !VerifyNonce(p, seed, k, nZeros)
    {
      if StartsWith(ComputeHash(p, seed, nonce), PrefixForZeros(nZeros)) {
        return Some(nonce);
      }
    }
    return None;
  }

  /** f"W{num}-{rest}": the text of a voting window id. */
  function WindowId(num: nat, rest: string): string {
    "W" + Decimal(num) + "-" + rest
  }

  /** The window number read back from an id: the digits between 'W' and the first '-'. */
  function WindowNumber(wid: string): nat {
    if |wid| < 1 then 0
    else
      var k := IndexFrom(wid, '-', 1);
      if AllDigits(wid[1..k]) then DigitsValue(wid[1..k]) else 0
  }

  /** Whatever law id or random suffix follows, the id determines the number, so the counter keeps ids apart. */
  lemma WindowNumberOfId(num: nat, rest: string)
    ensures WindowNumber(WindowId(num, rest)) == num
  {
    var wid := WindowId(num, rest);
    var d := Decimal(num);
    var k := IndexFrom(wid, '-', 1);
    assert wid == ("W" + d) + ("-" + rest);
    assert wid[1 + |d|] == '-';
    assert forall j :: 1 <= j < 1 + |d| ==> wid[j] == d[j - 1] && IsDigit(d[j - 1]);
    assert k == 1 + |d|;
    assert wid[1..k] == d;
    DecimalValue(num);
  }
}

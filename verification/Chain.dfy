/** Blocks, their text in Redis, and the validation of a chain (block.py, chain.py). */
module Chain {
  import opened Wrappers
  import opened Platform
  import opened Text
  import opened Challenge

  /** Hash of the virtual genesis block: sixty-four zeros. */
  const GENESIS: string := PrefixForZeros(64)

  function ComputeBlockHash(p: Platform, b: Block): string {
    p.sha256(Hashed(b))
  }

  predicate IsHashValid(p: Platform, b: Block) {
    b.blockHash != "" && b.blockHash == ComputeBlockHash(p, b)
  }

  /** seal_block: builds the block and then sets its hash. */
  function SealBlock(p: Platform, content: Block): (b: Block)
    ensures Hashed(b) == Hashed(content)
    ensures CollisionFree(p) ==> IsHashValid(p, b)
  {
    content.(blockHash := ComputeBlockHash(p, content))
  }

  /** Equal hashes mean equal blocks. */
  lemma HashDeterminesBlock(p: Platform, a: Block, b: Block)
    requires CollisionFree(p)
    requires IsHashValid(p, a) && IsHashValid(p, b) && a.blockHash == b.blockHash
    ensures a == b
  {
    assert Hashed(a) == Hashed(b);
    assert a == Hashed(a).(blockHash := a.blockHash);
  }

  // ---- text of a block in Redis ----

  type Fields = map<string, string>

  /** append_block writes str() of every field of to_dict(). */
  function ToFields(b: Block): Fields {
    map["previous_hash" := b.previousHash,
        "law_id" := b.lawId,
        "action" := ActionText(b.action),
        "n_zeros_required" := IntText(b.nZerosRequired),
        "nonce" := IntText(b.nonce),
        "winning_node_or_pool" := b.winningNodeOrPool,
        "voting_window_id" := b.votingWindowId,
        "timestamp" := b.timestamp,
        "text_compressed" := b.textCompressed,
        "text_original_len" := IntText(b.textOriginalLen),
        "block_hash" := b.blockHash]
  }

  function Field(f: Fields, k: string, default: string): string {
    if k in f then f[k] else default
  }

  /** from_dict: None where a required field is missing or an integer field does not parse. The three last
      fields have defaults. */
  function FromFields(f: Fields): Option<Block> {
    if !({"previous_hash", "law_id", "action", "n_zeros_required", "nonce", "winning_node_or_pool",
          "voting_window_id", "timestamp"} <= f.Keys) then None
    else
      var action := ParseAction(f["action"]);
      var zeros := ParseInt(f["n_zeros_required"]);
      var nonce := ParseInt(f["nonce"]);
      var len := ParseInt(Field(f, "text_original_len", "0"));
      if action.None? || zeros.None? || nonce.None? || len.None? then None
      else Some(Block(f["previous_hash"], f["law_id"], action.value, zeros.value, nonce.value,
                      f["winning_node_or_pool"], f["voting_window_id"], f["timestamp"],
                      Field(f, "text_compressed", ""), len.value, Field(f, "block_hash", "")))
  }

  /** A block survives its round trip through the text of Redis. */
  lemma BlockRoundTrip(b: Block)
    ensures FromFields(ToFields(b)) == Some(b)
  {
    ParseIntText(b.nZerosRequired);
    ParseIntText(b.nonce);
    ParseIntText(b.textOriginalLen);
    hide ParseInt, IntText;
    var f := ToFields(b);
    assert f["n_zeros_required"] == IntText(b.nZerosRequired);
    assert Field(f, "text_original_len", "0") == IntText(b.textOriginalLen);
    assert ParseAction(f["action"]) == Some(b.action);
  }

  // ---- validation ----

  datatype ChainError = BadHash(index: nat) | BadLink(index: nat) | BadNonce(index: nat)

  /** What block i must name as its predecessor. */
  function ExpectedPrevious(blocks: seq<Block>, i: nat): string
    requires i <= |blocks|
  {
    if i == 0 then GENESIS else blocks[i - 1].blockHash
  }

  predicate LinkOk(p: Platform, blocks: seq<Block>, i: nat)
    requires i < |blocks|
  {
    IsHashValid(p, blocks[i]) && blocks[i].previousHash == ExpectedPrevious(blocks, i)
  }

  predicate LinksOk(p: Platform, blocks: seq<Block>) {
    forall i :: 0 <= i < |blocks| ==> LinkOk(p, blocks, i)
  }

  lemma LinksOfPrefix(p: Platform, blocks: seq<Block>, n: nat)
    requires n <= |blocks|
    requires forall k :: 0 <= k < n ==> LinkOk(p, blocks, k)
    ensures LinksOk(p, blocks[..n])
  {
    forall k | 0 <= k < n ensures LinkOk(p, blocks[..n], k) {
      assert LinkOk(p, blocks, k);
    }
  }

  /** validate_chain_links: returns when every link holds, and raises at the first that does not. */
  method ValidateChainLinks(p: Platform, blocks: seq<Block>) returns (r: Result<bool, ChainError>)
    ensures r == Success(true) || r.Failure?
    ensures r.Success? <==> LinksOk(p, blocks)
    ensures r.Failure? ==>
      && r.error.index < |blocks| && !r.error.BadNonce?
      && LinksOk(p, blocks[..r.error.index]) && !LinkOk(p, blocks, r.error.index)
      && (r.error.BadHash? <==> !IsHashValid(p, blocks[r.error.index]))
  {
    var expectedPrevious := GENESIS;
    for i := 0 to |blocks|
      invariant expectedPrevious == ExpectedPrevious(blocks, i)
      invariant forall k :: 0 <= k < i ==> LinkOk(p, blocks, k)
    {
      var block := blocks[i];
      LinksOfPrefix(p, blocks, i);
      if !IsHashValid(p, block) {
        assert !LinkOk(p, blocks, i);
        return Failure(BadHash(i));
      }
      if block.previousHash != expectedPrevious {
        assert !LinkOk(p, blocks, i);
        return Failure(BadLink(i));
      }
      expectedPrevious := block.blockHash;
    }
    return Success(true);
  }

  predicate NonceOk(p: Platform, base: Block -> string, b: Block) {
    VerifyNonce(p, base(b), b.nonce, b.nZerosRequired)
  }

  predicate ChainOk(p: Platform, blocks: seq<Block>, base: Block -> string) {
    LinksOk(p, blocks) && forall i :: 0 <= i < |blocks| ==> NonceOk(p, base, blocks[i])
  }

  /** validate_chain with a base resolver. */
  method ValidateChain(p: Platform, blocks: seq<Block>, base: Block -> string) returns (r: Result<bool, ChainError>)
    ensures r == Success(true) || r.Failure?
    ensures r.Success? <==> ChainOk(p, blocks, base)
    ensures r.Failure? && r.error.BadNonce? ==>
      && LinksOk(p, blocks) && r.error.index < |blocks| && !NonceOk(p, base, blocks[r.error.index])
      && forall k :: 0 <= k < r.error.index ==> NonceOk(p, base, blocks[k])
  {
    r := ValidateChainLinks(p, blocks);
    if r.Failure? {
      return;
    }
    for i := 0 to |blocks|
      invariant forall k :: 0 <= k < i ==> NonceOk(p, base, blocks[k])
    {
      if !NonceOk(p, base, blocks[i]) {
        return Failure(BadNonce(i));
      }
    }
    return Success(true);
  }

  /** Tampering is noticed: two valid chains with the same last hash and the same length are the same chain. */
  lemma {:induction false} TipDeterminesChain(p: Platform, a: seq<Block>, b: seq<Block>)
    requires CollisionFree(p)
    requires LinksOk(p, a) && LinksOk(p, b) && |a| == |b| > 0
    requires a[|a| - 1].blockHash == b[|b| - 1].blockHash
    ensures a == b
  {
    var n := |a|;
    assert LinkOk(p, a, n - 1) && LinkOk(p, b, n - 1);
    HashDeterminesBlock(p, a[n - 1], b[n - 1]);
    if n > 1 {
      LinksOfPrefix(p, a, n - 1);
      LinksOfPrefix(p, b, n - 1);
      TipDeterminesChain(p, a[..n - 1], b[..n - 1]);
    }
    assert a == a[..n - 1] + [a[n - 1]] && b == b[..n - 1] + [b[n - 1]];
  }

  /** A block that names the tip extends a valid chain to a valid chain. */
  lemma ExtendChain(p: Platform, blocks: seq<Block>, b: Block, base: Block -> string)
    requires ChainOk(p, blocks, base)
    requires IsHashValid(p, b) && b.previousHash == ExpectedPrevious(blocks, |blocks|) && NonceOk(p, base, b)
    ensures ChainOk(p, blocks + [b], base)
  {
    forall i | 0 <= i < |blocks| + 1 ensures LinkOk(p, blocks + [b], i) {
      if i < |blocks| {
        assert LinkOk(p, blocks, i);
      }
    }
  }
}

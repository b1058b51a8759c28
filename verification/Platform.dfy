/**
 Library functions the system calls and this model leaves uninterpreted: MD5, SHA-256 over the
 canonical JSON of a block, and the ISO text of an instant. Time is counted in microseconds, the
 resolution of datetime.
 */
module Platform {
  import opened Wrappers

  type Byte = b: int | 0 <= b < 256 witness 0

  /** An MD5 digest: 128 bits (section 3.5 of RFC 1321). */
  type Digest = d: seq<Byte> | |d| == 16 witness seq(16, _ => 0)

  datatype Action = Promulgacion | Derogacion

  /** A block of the chain (schema 7.3). blockHash is the only field that is not hashed. */
  datatype Block = Block(
    previousHash: string, lawId: string, action: Action, nZerosRequired: int, nonce: int,
    winningNodeOrPool: string, votingWindowId: string, timestamp: string,
    textCompressed: string, textOriginalLen: int, blockHash: string)

  datatype Platform = Platform(
    md5: string -> Digest,
    sha256: Block -> string,
    isoformat: int -> string,
    fromisoformat: string -> Option<int>)

  /** The content that enters block_hash. */
  function Hashed(b: Block): Block {
    b.(blockHash := "")
  }

  /** Distinct contents have distinct, non-empty hashes. */
  ghost predicate CollisionFree(p: Platform) {
    && (forall a: Block, b: Block :: p.sha256(Hashed(a)) == p.sha256(Hashed(b)) ==> Hashed(a) == Hashed(b))
    && (forall a: Block :: p.sha256(a) != "")
  }

  /** datetime.fromisoformat reads back what isoformat wrote. */
  ghost predicate ClockTextFaithful(p: Platform) {
    forall t: int :: p.fromisoformat(p.isoformat(t)) == Some(t)
  }
}

/** The statement a receipt proves: which program ran, how it exited and what it wrote to its
    journal, together with the canonical digest of that statement. */
module ReceiptClaims {
  import opened Common

  /** A value kept either in full or only as its digest. The digest of the value is the same
      in both forms: `DigestWith` hashes a full value and returns a pruned one's digest as is. */
  datatype MaybePruned<T> = Value(value: T) | Pruned(digest: Digest) {

    function DigestWith(digestOf: T -> Digest): Digest {
      match this
      case Value(v) => digestOf(v)
      case Pruned(d) => d
    }
  }

  /** How the guest program stopped. */
  datatype ExitCode =
    | Halted(userCode: u32)
    | Paused(userCode: u32)
    | SystemSplit
    | SessionLimit

  /** The public output a guest program writes during execution. */
  datatype Journal = Journal(bytes: seq<byte>)

  /** The hash functions of the SHA-256 suite, left uninterpreted: `hashBytes` hashes a byte
      string, `hashClaim` hashes a claim's fields once its output has been reduced to a digest. */
  datatype Sha = Sha(
    hashBytes: seq<byte> -> Digest,
    hashClaim: (Digest, ExitCode, Digest) -> Digest)

  function JournalDigest(sha: Sha, j: Journal): Digest {
    sha.hashBytes(j.bytes)
  }

  /** The digest of a journal that may have been pruned. */
  function OutputDigest(sha: Sha, output: MaybePruned<Journal>): Digest {
    output.DigestWith(j => JournalDigest(sha, j))
  }

  /** What `hashClaim` hashes: a claim's image ID, exit code and journal digest. */
  type ClaimFields = (Digest, ExitCode, Digest)

  function HashFields(sha: Sha, f: ClaimFields): Digest {
    sha.hashClaim(f.0, f.1, f.2)
  }

  /** Two different sets of claim fields that hash to the same digest: a collision of the
      claim hash, which a secure hash makes infeasible to find but cannot rule out. */
  ghost predicate ClaimCollision(sha: Sha, a: ClaimFields, b: ClaimFields) {
    a != b && HashFields(sha, a) == HashFields(sha, b)
  }

  /** A claim: the image ID of the program, its exit code and its (possibly pruned) journal. */
  datatype ReceiptClaim = ReceiptClaim(imageId: Digest, exitCode: ExitCode, output: MaybePruned<Journal>) {

    /** The claim of a program that halted successfully (exit code `Halted(0)`). */
    static function Ok(imageId: Digest, output: MaybePruned<Journal>): (c: ReceiptClaim)
      ensures c.IsSuccess()
      ensures c.imageId == imageId && c.output == output
    {
      ReceiptClaim(imageId, Halted(0), output)
    }

    predicate IsSuccess() {
      exitCode == Halted(0)
    }

    /** The structural digest: the journal is reduced to its digest first, so it does not
        matter whether the claim carries the journal in full or pruned. */
    function ClaimDigest(sha: Sha): Digest {
      HashFields(sha, Fields(sha))
    }

    /** The fields the claim digest covers, with the journal reduced to its digest. */
    function Fields(sha: Sha): ClaimFields {
      (imageId, exitCode, OutputDigest(sha, output))
    }
  }

  /** The digest of a claim that may have been pruned. */
  function ClaimRefDigest(sha: Sha, claim: MaybePruned<ReceiptClaim>): Digest {
    claim.DigestWith((c: ReceiptClaim) => c.ClaimDigest(sha))
  }

  /** A success claim has the same digest whether its journal is given in full or as the
      journal's digest, which is what lets a verifier that only knows the journal digest
      rebuild the digest of a claim carrying the whole journal. */
  lemma PrunedJournalSameDigest(sha: Sha, imageId: Digest, journal: Journal)
    ensures ReceiptClaim.Ok(imageId, Value(journal)).ClaimDigest(sha)
         == ReceiptClaim.Ok(imageId, Pruned(JournalDigest(sha, journal))).ClaimDigest(sha)
  {
  }

  /** A claim's digest equals that of the expected success claim exactly when the claim names
      the same image ID, exited with `Halted(0)` and carries a journal with the expected digest
      (in either form), unless the claim and the expected claim are a collision of the claim
      hash. Matching fields always give matching digests. */
  lemma MatchesOkDigestIff(sha: Sha, c: ReceiptClaim, imageId: Digest, journalDigest: Digest)
    ensures c.imageId == imageId && c.IsSuccess() && OutputDigest(sha, c.output) == journalDigest ==>
              c.ClaimDigest(sha) == ReceiptClaim.Ok(imageId, Pruned(journalDigest)).ClaimDigest(sha)
    ensures c.ClaimDigest(sha) == ReceiptClaim.Ok(imageId, Pruned(journalDigest)).ClaimDigest(sha)
        <==> || (c.imageId == imageId && c.IsSuccess() && OutputDigest(sha, c.output) == journalDigest)
             || ClaimCollision(sha, c.Fields(sha), ReceiptClaim.Ok(imageId, Pruned(journalDigest)).Fields(sha))
  {
  }
}

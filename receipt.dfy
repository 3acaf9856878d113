/** Receipts, their two shapes, and the verification that a receipt proves that a given image ran
    to a successful halt with a given journal. */
module Receipts {
  import opened Common
  import opened ReceiptClaims
  import CircuitV1_2

  /** The error kinds a verification can end with. This module raises `ReceiptFormatError` and
      `ClaimDigestMismatch` itself; the others come from the integrity checks of the proof system. */
  datatype VerificationError =
    | ReceiptFormatError
    | ControlVerificationError(controlId: Digest)
    | ImageVerificationError
    | MerkleQueryOutOfRange(idx: nat, rows: nat)
    | InvalidProof
    | JournalDigestMismatch
    | ClaimDigestMismatch(expected: Digest, received: Digest)
    | UnexpectedExitCode
    | InvalidHashSuite
    | VerifierParametersMissing
    | VerifierParametersMismatch(expected: Digest, received: Digest)
    | ProofSystemInfoMismatch
    | CircuitInfoMismatch
    | UnresolvedAssumption(digest: Digest)

  /** Rust's `Result<(), VerificationError>`. */
  type Verdict = Result<(), VerificationError>

  /** The circuits a verification uses: one for execution segments, one for recursion. */
  datatype VerifierContext = VerifierContext(
    segmentCircuit: CircuitV1_2.CircuitInfo,
    recursiveCircuit: CircuitV1_2.CircuitInfo)

  /** The context pinned by `Proof.Verify`: the version 1.2 circuits. */
  const V1_2_CONTEXT: VerifierContext := VerifierContext(CircuitV1_2.CIRCUIT, CircuitV1_2.RECURSIVE_CIRCUIT)

  /** The proof of one execution segment. */
  datatype SegmentReceipt = SegmentReceipt(seal: seq<u32>, index: nat, hashfn: string)

  datatype MerkleProof = MerkleProof(index: nat, digests: seq<Digest>)

  /** A single STARK over a whole claim. `Claim` is `MaybePruned<ReceiptClaim>` for a receipt of
      a RISC-V execution, and `Digest` for a receipt of a claim of unknown type: a claim of
      unknown type can only ever be held pruned, that is, as its digest. */
  datatype SuccinctReceipt<Claim> = SuccinctReceipt(
    seal: seq<u32>,
    controlId: Digest,
    claim: Claim,
    hashfn: string,
    verifierParameters: Digest,
    controlInclusionProof: MerkleProof)

  /** An execution proved segment by segment, with the receipts of the assumptions it used. */
  datatype CompositeReceipt = CompositeReceipt(
    segments: seq<SegmentReceipt>,
    assumptionReceipts: seq<InnerAssumptionReceipt>,
    verifierParameters: Digest)

  /** The collaborators outside this model, passed in as functions: the hash functions, the
      integrity checks of the `composite` and `succinct` modules (the STARK, FRI and Merkle
      checks) and `CompositeReceipt::claim`, which derives a composite receipt's claim from its
      segments. Each check returns the proof system's verdict. */
  datatype Backend = Backend(
    sha: Sha,
    compositeIntegrity: (VerifierContext, CompositeReceipt) -> Verdict,
    succinctIntegrity: (VerifierContext, SuccinctReceipt<MaybePruned<ReceiptClaim>>) -> Verdict,
    unknownIntegrity: (VerifierContext, SuccinctReceipt<Digest>) -> Verdict,
    compositeClaim: CompositeReceipt -> Result<ReceiptClaim, VerificationError>)

  /** A receipt of a RISC-V execution, in one of its two shapes. */
  datatype InnerReceipt =
    | Composite(composite: CompositeReceipt)
    | Succinct(succinct: SuccinctReceipt<MaybePruned<ReceiptClaim>>)
  {
    /** Runs the integrity check of this receipt's shape and returns its verdict unchanged. */
    function VerifyIntegrity(ctx: VerifierContext, be: Backend): (r: Verdict)
      ensures Composite? ==> r == be.compositeIntegrity(ctx, composite)
      ensures Succinct? ==> r == be.succinctIntegrity(ctx, succinct)
    {
      match this
      case Composite(c) => be.compositeIntegrity(ctx, c)
      case Succinct(s) => be.succinctIntegrity(ctx, s)
    }

    /** The composite receipt, or a format error on the other shape. */
    function CompositeArm(): (r: Result<CompositeReceipt, VerificationError>)
      ensures r.Ok? <==> Composite?
      ensures r.Ok? ==> r.value == composite
      ensures r.Err? ==> r.error == ReceiptFormatError
    {
      if Composite? then Ok(composite) else Err(ReceiptFormatError)
    }

    /** The succinct receipt, or a format error on the other shape. */
    function SuccinctArm(): (r: Result<SuccinctReceipt<MaybePruned<ReceiptClaim>>, VerificationError>)
      ensures r.Ok? <==> Succinct?
      ensures r.Ok? ==> r.value == succinct
      ensures r.Err? ==> r.error == ReceiptFormatError
    {
      if Succinct? then Ok(succinct) else Err(ReceiptFormatError)
    }

    /** The claim this receipt proves: a succinct receipt's stored claim as it is; a composite
        receipt's derived claim in full, or the error deriving it gave. */
    function Claim(be: Backend): (r: Result<MaybePruned<ReceiptClaim>, VerificationError>)
      ensures Succinct? ==> r == Ok(succinct.claim)
      ensures Composite? ==> (r.Ok? <==> be.compositeClaim(composite).Ok?)
      ensures Composite? && r.Ok? ==> r.value == Value(be.compositeClaim(composite).value)
      ensures Composite? && r.Err? ==> r.error == be.compositeClaim(composite).error
    {
      match this
      case Composite(c) =>
        var claim :- be.compositeClaim(c);
        Ok(Value(claim))
      case Succinct(s) => Ok(s.claim)
    }

    /** The digest of the verifier parameters the receipt was made for, whatever its shape. */
    function VerifierParameters(): (d: Digest)
      ensures Composite? ==> d == composite.verifierParameters
      ensures Succinct? ==> d == succinct.verifierParameters
    {
      match this
      case Composite(c) => c.verifierParameters
      case Succinct(s) => s.verifierParameters
    }
  }

  /** A receipt of an assumption: like `InnerReceipt`, but its succinct shape proves a claim of
      unknown type, so only the claim's digest is available. */
  datatype InnerAssumptionReceipt =
    | Composite(composite: CompositeReceipt)
    | Succinct(succinct: SuccinctReceipt<Digest>)
  {
    /** Runs the integrity check of this receipt's shape and returns its verdict unchanged. */
    function VerifyIntegrity(ctx: VerifierContext, be: Backend): (r: Verdict)
      ensures Composite? ==> r == be.compositeIntegrity(ctx, composite)
      ensures Succinct? ==> r == be.unknownIntegrity(ctx, succinct)
    {
      match this
      case Composite(c) => be.compositeIntegrity(ctx, c)
      case Succinct(s) => be.unknownIntegrity(ctx, s)
    }

    /** The composite receipt, or a format error on the other shape. */
    function CompositeArm(): (r: Result<CompositeReceipt, VerificationError>)
      ensures r.Ok? <==> Composite?
      ensures r.Ok? ==> r.value == composite
      ensures r.Err? ==> r.error == ReceiptFormatError
    {
      if Composite? then Ok(composite) else Err(ReceiptFormatError)
    }

    /** The succinct receipt, or a format error on the other shape. */
    function SuccinctArm(): (r: Result<SuccinctReceipt<Digest>, VerificationError>)
      ensures r.Ok? <==> Succinct?
      ensures r.Ok? ==> r.value == succinct
      ensures r.Err? ==> r.error == ReceiptFormatError
    {
      if Succinct? then Ok(succinct) else Err(ReceiptFormatError)
    }

    /** The digest of the claim this receipt proves: that of a composite receipt's derived
        claim (or the error deriving it gave), or a succinct receipt's stored claim digest. */
    function ClaimDigest(be: Backend): (r: Result<Digest, VerificationError>)
      ensures Succinct? ==> r == Ok(succinct.claim)
      ensures Composite? ==> (r.Ok? <==> be.compositeClaim(composite).Ok?)
      ensures Composite? && r.Ok? ==> r.value == be.compositeClaim(composite).value.ClaimDigest(be.sha)
      ensures Composite? && r.Err? ==> r.error == be.compositeClaim(composite).error
    {
      match this
      case Composite(c) =>
        var claim :- be.compositeClaim(c);
        Ok(claim.ClaimDigest(be.sha))
      case Succinct(s) => Ok(s.claim)
    }

    /** The digest of the verifier parameters the receipt was made for, whatever its shape. */
    function VerifierParameters(): (d: Digest)
      ensures Composite? ==> d == composite.verifierParameters
      ensures Succinct? ==> d == succinct.verifierParameters
    {
      match this
      case Composite(c) => c.verifierParameters
      case Succinct(s) => s.verifierParameters
    }
  }

  /** Forgets the type of a succinct receipt's claim: the claim is replaced by its digest and
      every other field is kept. There is no way back. */
  function IntoUnknown(sha: Sha, s: SuccinctReceipt<MaybePruned<ReceiptClaim>>): (u: SuccinctReceipt<Digest>)
    ensures u.claim == ClaimRefDigest(sha, s.claim)
    ensures u.seal == s.seal && u.controlId == s.controlId && u.hashfn == s.hashfn
    ensures u.verifierParameters == s.verifierParameters
    ensures u.controlInclusionProof == s.controlInclusionProof
  {
    SuccinctReceipt(s.seal, s.controlId, ClaimRefDigest(sha, s.claim), s.hashfn,
                    s.verifierParameters, s.controlInclusionProof)
  }

  /** Turns a receipt into an assumption receipt of the same shape. */
  function AssumptionFromInner(sha: Sha, r: InnerReceipt): (a: InnerAssumptionReceipt)
    ensures a.Composite? <==> r.Composite?
    ensures r.Composite? ==> a.composite == r.composite
    ensures a.VerifierParameters() == r.VerifierParameters()
  {
    match r
    case Composite(c) => InnerAssumptionReceipt.Composite(c)
    case Succinct(s) => InnerAssumptionReceipt.Succinct(IntoUnknown(sha, s))
  }

  /** Wraps a composite receipt; its composite arm gives it back. */
  function InnerFromComposite(c: CompositeReceipt): (r: InnerReceipt)
    ensures r.Composite?
    ensures r.CompositeArm() == Ok(c)
  {
    InnerReceipt.Composite(c)
  }

  /** Converting to an assumption receipt keeps what the receipt proves: the assumption
      receipt's claim digest is the digest of the original claim, and an error in deriving the
      claim stays that error. A composite receipt also keeps its integrity verdict. */
  lemma AssumptionFromInnerKeepsClaim(be: Backend, ctx: VerifierContext, r: InnerReceipt)
    ensures AssumptionFromInner(be.sha, r).ClaimDigest(be).Ok? <==> r.Claim(be).Ok?
    ensures r.Claim(be).Ok? ==>
              AssumptionFromInner(be.sha, r).ClaimDigest(be).value == ClaimRefDigest(be.sha, r.Claim(be).value)
    ensures r.Claim(be).Err? ==>
              AssumptionFromInner(be.sha, r).ClaimDigest(be).error == r.Claim(be).error
    ensures r.Composite? ==>
              AssumptionFromInner(be.sha, r).VerifyIntegrity(ctx, be) == r.VerifyIntegrity(ctx, be)
  {
  }

  /** A receipt together with the operations a verifier applies to it. */
  datatype Proof = Proof(inner: InnerReceipt) {

    /** The claim the receipt proves. */
    function Claim(be: Backend): (r: Result<MaybePruned<ReceiptClaim>, VerificationError>)
      ensures r == inner.Claim(be)
    {
      inner.Claim(be)
    }

    /** Verifies the receipt against the expected image ID and journal digest. The receipt's
        integrity is checked first and its error returned unchanged; then the claim is
        extracted, its error returned unchanged; then the claim's digest is compared with that
        of the success claim for `imageId` and `pubs`. Only a match is a success; a mismatch is
        reported with both digests. */
    function VerifyWithContext(ctx: VerifierContext, be: Backend, imageId: Digest, pubs: Digest): (r: Verdict)
      ensures r.Ok? <==>
                && inner.VerifyIntegrity(ctx, be).Ok?
                && inner.Claim(be).Ok?
                && ClaimRefDigest(be.sha, inner.Claim(be).value) == ReceiptClaim.Ok(imageId, Pruned(pubs)).ClaimDigest(be.sha)
      ensures inner.VerifyIntegrity(ctx, be).Err? ==> r == inner.VerifyIntegrity(ctx, be)
      ensures inner.VerifyIntegrity(ctx, be).Ok? && inner.Claim(be).Err? ==> r == Err(inner.Claim(be).error)
      ensures inner.VerifyIntegrity(ctx, be).Ok? && inner.Claim(be).Ok?
              && ClaimRefDigest(be.sha, inner.Claim(be).value) != ReceiptClaim.Ok(imageId, Pruned(pubs)).ClaimDigest(be.sha)
              ==> r == Err(ClaimDigestMismatch(ReceiptClaim.Ok(imageId, Pruned(pubs)).ClaimDigest(be.sha),
                                               ClaimRefDigest(be.sha, inner.Claim(be).value)))
    {
      var _ :- inner.VerifyIntegrity(ctx, be);
      var expected := ReceiptClaim.Ok(imageId, Pruned(pubs));
      var actual :- inner.Claim(be);
      // The error reports the claim extracted above: extracting it again yields the same value.
      if expected.ClaimDigest(be.sha) != ClaimRefDigest(be.sha, actual) then
        Err(ClaimDigestMismatch(expected.ClaimDigest(be.sha), ClaimRefDigest(be.sha, actual)))
      else
        Ok(())
    }

    /** Verifies against the pinned version 1.2 context. */
    function Verify(be: Backend, imageId: Digest, pubs: Digest): (r: Verdict)
      ensures r == VerifyWithContext(V1_2_CONTEXT, be, imageId, pubs)
    {
      VerifyWithContext(V1_2_CONTEXT, be, imageId, pubs)
    }
  }

  /** An accepted receipt passed its integrity check and proves the expected statement: a full
      claim names the expected image, halted with `Halted(0)` and carries a journal with digest
      `pubs`, unless its fields and the expected claim's are a collision of the claim hash; a
      pruned claim is the expected claim's digest. */
  lemma AcceptedReceiptProvesExpectedClaim(p: Proof, ctx: VerifierContext, be: Backend, imageId: Digest, pubs: Digest)
    requires p.VerifyWithContext(ctx, be, imageId, pubs).Ok?
    ensures p.inner.VerifyIntegrity(ctx, be).Ok?
    ensures p.inner.Claim(be).Ok?
    ensures p.inner.Claim(be).value.Value? ==>
              || (&& p.inner.Claim(be).value.value.imageId == imageId
                  && p.inner.Claim(be).value.value.IsSuccess()
                  && OutputDigest(be.sha, p.inner.Claim(be).value.value.output) == pubs)
              || ClaimCollision(be.sha, p.inner.Claim(be).value.value.Fields(be.sha),
                                ReceiptClaim.Ok(imageId, Pruned(pubs)).Fields(be.sha))
    ensures p.inner.Claim(be).value.Pruned? ==>
              p.inner.Claim(be).value.digest == ReceiptClaim.Ok(imageId, Pruned(pubs)).ClaimDigest(be.sha)
  {
    var claim := p.inner.Claim(be).value;
    if claim.Value? {
      MatchesOkDigestIff(be.sha, claim.value, imageId, pubs);
    }
  }

  /** A receipt whose integrity holds but whose full claim names another image, another exit
      code or another journal is rejected with a digest mismatch that carries the expected
      digest and the receipt's, as long as the two claims do not collide under the claim hash. */
  lemma WrongClaimIsRejected(p: Proof, ctx: VerifierContext, be: Backend, imageId: Digest, pubs: Digest, c: ReceiptClaim)
    requires p.inner.VerifyIntegrity(ctx, be).Ok?
    requires p.inner.Claim(be) == Ok(Value(c))
    requires c.imageId != imageId || !c.IsSuccess() || OutputDigest(be.sha, c.output) != pubs
    requires !ClaimCollision(be.sha, c.Fields(be.sha), ReceiptClaim.Ok(imageId, Pruned(pubs)).Fields(be.sha))
    ensures p.VerifyWithContext(ctx, be, imageId, pubs)
         == Err(ClaimDigestMismatch(ReceiptClaim.Ok(imageId, Pruned(pubs)).ClaimDigest(be.sha), c.ClaimDigest(be.sha)))
  {
    MatchesOkDigestIff(be.sha, c, imageId, pubs);
  }

  /** A succinct receipt whose stored claim is the success claim of image `imageId` with the
      full journal `journal`, and whose integrity holds, verifies against `imageId` and the
      journal's digest, and against no other journal digest unless that digest's expected
      claim collides with the stored one under the claim hash. */
  lemma SuccinctReceiptAcceptsOnlyItsJournal(
    s: SuccinctReceipt<MaybePruned<ReceiptClaim>>, ctx: VerifierContext, be: Backend,
    imageId: Digest, journal: Journal, otherPubs: Digest)
    requires s.claim == Value(ReceiptClaim.Ok(imageId, Value(journal)))
    requires be.succinctIntegrity(ctx, s).Ok?
    ensures Proof(InnerReceipt.Succinct(s)).VerifyWithContext(ctx, be, imageId, JournalDigest(be.sha, journal)) == Ok(())
    ensures otherPubs != JournalDigest(be.sha, journal)
            && !ClaimCollision(be.sha, ReceiptClaim.Ok(imageId, Value(journal)).Fields(be.sha),
                               ReceiptClaim.Ok(imageId, Pruned(otherPubs)).Fields(be.sha))
            ==> Proof(InnerReceipt.Succinct(s)).VerifyWithContext(ctx, be, imageId, otherPubs).Err?
  {
    MatchesOkDigestIff(be.sha, ReceiptClaim.Ok(imageId, Value(journal)), imageId, otherPubs);
  }
}

/** Version 1.2 of the zkVM circuits: the control-ID registry and the fixed parameters of the
    base (RV32IM) circuit and of the recursion circuit. */
module CircuitV1_2 {
  import opened Common

  /** The smallest and largest supported segment sizes, as powers of two. Their values belong
      to the proof system, so the model keeps them arbitrary, subject only to MIN <= MAX. */
  type CyclesPo2Range = r: (nat, nat) | r.0 <= r.1 witness (0, 0)

  const CYCLES_PO2_RANGE: CyclesPo2Range

  const MIN_CYCLES_PO2: nat := CYCLES_PO2_RANGE.0
  const MAX_CYCLES_PO2: nat := CYCLES_PO2_RANGE.1

  /** One control ID per supported po2. */
  const CONTROL_ID_COUNT: nat := MAX_CYCLES_PO2 - MIN_CYCLES_PO2 + 1

  type ControlIdTable = t: seq<Digest> | |t| == CONTROL_ID_COUNT witness seq(CONTROL_ID_COUNT, _ => ZERO)

  /** The precomputed control IDs per hash function, indexed by `po2 - MIN_CYCLES_PO2`.
      Their contents are generated offline; only their length is fixed here. */
  const SHA256_CONTROL_IDS: ControlIdTable
  const POSEIDON2_CONTROL_IDS: ControlIdTable
  const BLAKE2B_CONTROL_IDS: ControlIdTable

  predicate IsSupportedHash(hashName: string) {
    hashName == "sha-256" || hashName == "poseidon2" || hashName == "blake2b"
  }

  /** The table that belongs to a supported hash function. */
  function ControlIdsFor(hashName: string): ControlIdTable
    requires IsSupportedHash(hashName)
  {
    if hashName == "sha-256" then SHA256_CONTROL_IDS
    else if hashName == "poseidon2" then POSEIDON2_CONTROL_IDS
    else BLAKE2B_CONTROL_IDS
  }

  /** The control ID of the circuit for hash function `hashName` and segment size `2^po2`:
      found exactly when po2 is in range and the hash is supported, and then it is the
      table entry at offset `po2 - MIN_CYCLES_PO2`. */
  function ControlId(hashName: string, po2: nat): (r: Option<Digest>)
    ensures r.Some? <==> MIN_CYCLES_PO2 <= po2 <= MAX_CYCLES_PO2 && IsSupportedHash(hashName)
    ensures r.Some? ==>
              && 0 <= po2 - MIN_CYCLES_PO2 < CONTROL_ID_COUNT
              && r.value == ControlIdsFor(hashName)[po2 - MIN_CYCLES_PO2]
  {
    if !(MIN_CYCLES_PO2 <= po2 <= MAX_CYCLES_PO2) then
      None
    else
      var idx := po2 - MIN_CYCLES_PO2;
      if hashName == "sha-256" then Some(SHA256_CONTROL_IDS[idx])
      else if hashName == "poseidon2" then Some(POSEIDON2_CONTROL_IDS[idx])
      else if hashName == "blake2b" then Some(BLAKE2B_CONTROL_IDS[idx])
      else None
  }

  /** Out of range, nothing is found, whatever the hash name. */
  lemma ControlIdOutOfRange(hashName: string, po2: nat)
    requires po2 < MIN_CYCLES_PO2 || po2 > MAX_CYCLES_PO2
    ensures ControlId(hashName, po2) == None
  {
  }

  /** An unsupported hash name finds nothing, whatever the po2. */
  lemma ControlIdUnknownHash(hashName: string, po2: nat)
    requires !IsSupportedHash(hashName)
    ensures ControlId(hashName, po2) == None
  {
  }

  /** The lookup reaches every table entry: entry `i` is found at po2 `MIN_CYCLES_PO2 + i`,
      which lies in the supported range. */
  lemma ControlIdCoversTable(hashName: string, i: nat)
    requires IsSupportedHash(hashName) && i < CONTROL_ID_COUNT
    ensures MIN_CYCLES_PO2 + i <= MAX_CYCLES_PO2
    ensures ControlId(hashName, MIN_CYCLES_PO2 + i) == Some(ControlIdsFor(hashName)[i])
  {
  }

  /** The smallest supported po2 gives the first SHA-256 entry; one below it gives nothing. */
  lemma ControlIdSha256Boundary()
    ensures ControlId("sha-256", MIN_CYCLES_PO2) == Some(SHA256_CONTROL_IDS[0])
    ensures MIN_CYCLES_PO2 > 0 ==> ControlId("sha-256", MIN_CYCLES_PO2 - 1) == None
  {
  }

  predicate IsAscii(s: string) {
    forall i :: 0 <= i < |s| ==> s[i] as int < 0x80
  }

  /** The bytes of an ASCII string, as a Rust byte-string literal `b"..."` gives them. */
  function ByteString(s: string): (b: seq<byte>)
    requires IsAscii(s)
    ensures |b| == |s|
    ensures forall i :: 0 <= i < |s| ==> b[i] as int == s[i] as int
  {
    if s == [] then [] else [s[0] as int as byte] + ByteString(s[1..])
  }

  /** A byte string that agrees with `s` code by code is `s`'s byte string. */
  lemma ByteStringOfCodes(s: string, b: seq<byte>)
    requires IsAscii(s) && |b| == |s|
    requires forall i :: 0 <= i < |s| ==> b[i] as int == s[i] as int
    ensures ByteString(s) == b
  {
  }

  /** The 16-byte tag that names a circuit and its revision. */
  datatype ProtocolInfo = ProtocolInfo(tag: seq<byte>)

  /** The fixed parameters of a circuit: its tag and the number of field elements in its
      public output and in its randomness mix. */
  datatype CircuitInfo = CircuitInfo(protocol: ProtocolInfo, outputSize: nat, mixSize: nat)

  const CIRCUIT_TAG: string := "RV32IM:rev1v1___"
  const RECURSIVE_CIRCUIT_TAG: string := "RECURSION:rev1v1"

  /** The base circuit, which proves RV32IM execution segments. */
  const CIRCUIT: CircuitInfo := CircuitInfo(ProtocolInfo(ByteString(CIRCUIT_TAG)), 138, 40)

  /** The recursion circuit, which proves succinct receipts. */
  const RECURSIVE_CIRCUIT: CircuitInfo := CircuitInfo(ProtocolInfo(ByteString(RECURSIVE_CIRCUIT_TAG)), 32, 20)

  /** The base circuit's tag is the 16 bytes of "RV32IM:rev1v1___"; its public output has
      138 field elements and its mix 40. */
  lemma BaseCircuitFacts()
    ensures |CIRCUIT.protocol.tag| == 16
    ensures CIRCUIT.protocol.tag
         == [0x52, 0x56, 0x33, 0x32, 0x49, 0x4D, 0x3A, 0x72, 0x65, 0x76, 0x31, 0x76, 0x31, 0x5F, 0x5F, 0x5F]
    ensures CIRCUIT.outputSize == 138 && CIRCUIT.mixSize == 40
  {
    var tag: seq<byte> := [0x52, 0x56, 0x33, 0x32, 0x49, 0x4D, 0x3A, 0x72, 0x65, 0x76, 0x31, 0x76, 0x31, 0x5F, 0x5F, 0x5F];
    ByteStringOfCodes(CIRCUIT_TAG, tag);
  }

  /** The recursion circuit's tag is the 16 bytes of "RECURSION:rev1v1"; its public output has
      32 field elements and its mix 20. Its tag differs from the base circuit's, so a seal made
      for one circuit cannot be taken for the other's. */
  lemma RecursiveCircuitFacts()
    ensures |RECURSIVE_CIRCUIT.protocol.tag| == 16
    ensures RECURSIVE_CIRCUIT.protocol.tag
         == [0x52, 0x45, 0x43, 0x55, 0x52, 0x53, 0x49, 0x4F, 0x4E, 0x3A, 0x72, 0x65, 0x76, 0x31, 0x76, 0x31]
    ensures RECURSIVE_CIRCUIT.outputSize == 32 && RECURSIVE_CIRCUIT.mixSize == 20
    ensures RECURSIVE_CIRCUIT.protocol != CIRCUIT.protocol
  {
    var tag: seq<byte> := [0x52, 0x45, 0x43, 0x55, 0x52, 0x53, 0x49, 0x4F, 0x4E, 0x3A, 0x72, 0x65, 0x76, 0x31, 0x76, 0x31];
    ByteStringOfCodes(RECURSIVE_CIRCUIT_TAG, tag);
    BaseCircuitFacts();
    assert CIRCUIT.protocol.tag[1] != RECURSIVE_CIRCUIT.protocol.tag[1];
  }
}

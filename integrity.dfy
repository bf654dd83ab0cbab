/** Checksums for chunks and whole recordings (src/services/integrity.js): the
    table-driven CRC-32 of IEEE 802.3 (reflected polynomial 0xEDB88320, initial
    value and final XOR 0xFFFFFFFF), per-chunk integrity records, the
    append-only recording record, and the `sha256:` upload checksum. SHA-256
    itself is the `digest` parameter. */
module Integrity {
  import opened Wrappers
  import opened Text

  // ------------------------------------------------------------------ CRC

  const Polynomial: bv32 := 0xEDB8_8320
  const AllOnes: bv32 := 0xFFFF_FFFF

  /** One reflected shift/xor round, written without a branch: the mask
      `0 - (c & 1)` is all ones exactly when the low bit is set. */
  function Round(c: bv32): bv32
  {
    (c >> 1) ^ (Polynomial & (0 - (c & 1)))
  }

  /** The round is the source's `c & 1 ? 0xEDB88320 ^ (c >>> 1) : c >>> 1`. */
  lemma RoundBranches(c: bv32)
    ensures Round(c) == if c & 1 == 1 then Polynomial ^ (c >> 1) else c >> 1
  {
  }

  /** `k` rounds applied to `c`. */
  function Rounds(c: bv32, k: nat): bv32
  {
    if k == 0 then c else Round(Rounds(c, k - 1))
  }

  /** CRC32_TABLE[n]: eight rounds applied to the byte value `n`. */
  function TableEntry(n: int): bv32
    requires 0 <= n < 256
  {
    Rounds(n as bv32, 8)
  }

  /** The whole table, as the source's initialiser leaves it. */
  function CrcTable(): (t: seq<bv32>)
    ensures |t| == 256
  {
    seq(256, n requires 0 <= n < 256 => TableEntry(n))
  }

  /** Builds CRC32_TABLE with the nested loop of the source. */
  method BuildCrcTable() returns (table: array<bv32>)
    ensures fresh(table) && table[..] == CrcTable()
  {
    table := new bv32[256];
    var i := 0;
    while i < 256
      invariant 0 <= i <= 256
      invariant forall k :: 0 <= k < i ==> table[k] == TableEntry(k)
    {
      var c: bv32 := i as bv32;
      var j := 0;
      while j < 8
        invariant 0 <= j <= 8
        invariant c == Rounds(i as bv32, j)
      {
        c := Round(c);
        j := j + 1;
      }
      table[i] := c;
      i := i + 1;
    }
  }

  /** Some entries of the table, as published with the algorithm: entry 128
      is the polynomial itself. */
  lemma KnownEntries()
    ensures TableEntry(0) == 0
    ensures TableEntry(1) == 0x7707_3096
    ensures TableEntry(128) == Polynomial
    ensures TableEntry(255) == 0x2D02_EF8D
  {
    assert Rounds(1, 8) == 0x7707_3096;
    assert Rounds(128, 8) == Polynomial;
    assert Rounds(255, 8) == 0x2D02_EF8D;
  }

  /** `(crc ^ b) & 0xFF`, the table index for the next byte. */
  function Index(crc: bv32, b: bv8): (k: int)
    ensures 0 <= k < 256
  {
    ((crc ^ b as bv32) & 0xFF) as int
  }

  /** One byte through the table: `table[(crc ^ b) & 0xFF] ^ (crc >>> 8)`. */
  function Step(table: seq<bv32>, crc: bv32, b: bv8): bv32
    requires |table| == 256
  {
    table[Index(crc, b)] ^ (crc >> 8)
  }

  /** The register after folding all of `data` through `table`, starting
      from 0xFFFFFFFF. */
  function Register(table: seq<bv32>, data: seq<bv8>): bv32
    requires |table| == 256
  {
    if data == [] then AllOnes else Step(table, Register(table, data[..|data| - 1]), data[|data| - 1])
  }

  /** `v >>> 0`: the bits read as an unsigned number. */
  function Unsigned(v: bv32): (n: nat)
    ensures n < 0x1_0000_0000
  {
    v as nat
  }

  /** The CRC-32 value, `(crc ^ 0xFFFFFFFF) >>> 0`. */
  function Crc32(data: seq<bv8>): nat
  {
    Unsigned(Register(CrcTable(), data) ^ AllOnes)
  }

  /** `n.toString(16).padStart(8, '0')`. */
  function Hex8(n: nat): string
  {
    PadStart(ToRadix(n, 16), 8, '0')
  }

  /** The text calculateCRC32 returns. */
  function Crc32Hex(data: seq<bv8>): string
  {
    Hex8(Crc32(data))
  }

  /** calculateCRC32, given the table built by BuildCrcTable. */
  method CalculateCrc32(table: array<bv32>, data: seq<bv8>) returns (hex: string)
    requires table[..] == CrcTable()
    ensures hex == Crc32Hex(data)
  {
    var crc := FoldCrc(table, data);
    hex := Hex8(Unsigned(crc ^ AllOnes));
  }

  /** The loop of calculateCRC32, leaving the register. */
  method FoldCrc(table: array<bv32>, data: seq<bv8>) returns (crc: bv32)
    requires table.Length == 256
    ensures crc == Register(table[..], data)
  {
    crc := AllOnes;
    var i := 0;
    while i < |data|
      invariant 0 <= i <= |data|
      invariant crc == Register(table[..], data[..i])
    {
      assert data[..i + 1][..i] == data[..i];
      var index := Index(crc, data[i]);
      ghost var before := crc;
      crc := table[index] ^ (crc >> 8);
      assert crc == Step(table[..], before, data[i]);
      i := i + 1;
    }
    assert data[..|data|] == data;
  }

  /** The check value of the algorithm: the nine ASCII bytes "123456789"
      give 0xCBF43926. */
  lemma Crc32CheckValue()
    ensures Register(CrcTable(), [0x31, 0x32, 0x33, 0x34, 0x35, 0x36, 0x37, 0x38, 0x39]) ^ AllOnes == 0xCBF4_3926
  {
    var s: seq<bv8> := [0x31, 0x32, 0x33, 0x34, 0x35, 0x36, 0x37, 0x38, 0x39];
    assert s[..0] == [];
    CheckBytes1To3(s);
    CheckBytes4To6(s);
    CheckBytes7To9(s);
    assert s[..9] == s;
  }

  /** One step of the check computation: the register after `p + [b]`. */
  lemma CheckStep(p: seq<bv8>, b: bv8, r: bv32, k: int, e: bv32)
    requires Register(CrcTable(), p) == r
    requires 0 <= k < 256 && Index(r, b) == k && TableEntry(k) == e
    ensures Register(CrcTable(), p + [b]) == e ^ (r >> 8)
  {
    var s := p + [b];
    assert s[..|s| - 1] == p;
  }

  lemma CheckBytes1To3(s: seq<bv8>)
    requires s == [0x31, 0x32, 0x33, 0x34, 0x35, 0x36, 0x37, 0x38, 0x39]
    ensures Register(CrcTable(), s[..3]) == 0x77B7_9C2D
  {
    assert Rounds(206, 8) == 0x7CDC_EFB7;
    assert s[..1] == s[..0] + [0x31];
    CheckStep(s[..0], 0x31, 0xFFFF_FFFF, 206, 0x7CDC_EFB7);
    assert Rounds(122, 8) == 0xB0D0_9822;
    assert s[..2] == s[..1] + [0x32];
    CheckStep(s[..1], 0x32, 0x7C23_1048, 122, 0xB0D0_9822);
    assert Rounds(1, 8) == 0x7707_3096;
    assert s[..3] == s[..2] + [0x33];
    CheckStep(s[..2], 0x33, 0xB0AC_BB32, 1, 0x7707_3096);
  }

  lemma CheckBytes4To6(s: seq<bv8>)
    requires s == [0x31, 0x32, 0x33, 0x34, 0x35, 0x36, 0x37, 0x38, 0x39]
    requires Register(CrcTable(), s[..3]) == 0x77B7_9C2D
    ensures Register(CrcTable(), s[..6]) == 0xF68D_2C9E
  {
    assert Rounds(25, 8) == 0x646B_A8C0;
    assert s[..4] == s[..3] + [0x34];
    CheckStep(s[..3], 0x34, 0x77B7_9C2D, 25, 0x646B_A8C0);
    assert Rounds(105, 8) == 0x346E_D9FC;
    assert s[..5] == s[..4] + [0x35];
    CheckStep(s[..4], 0x35, 0x641C_1F5C, 105, 0x346E_D9FC);
    assert Rounds(213, 8) == 0xF6B9_265B;
    assert s[..6] == s[..5] + [0x36];
    CheckStep(s[..5], 0x36, 0x340A_C5E3, 213, 0xF6B9_265B);
  }

  lemma CheckBytes7To9(s: seq<bv8>)
    requires s == [0x31, 0x32, 0x33, 0x34, 0x35, 0x36, 0x37, 0x38, 0x39]
    requires Register(CrcTable(), s[..6]) == 0xF68D_2C9E
    ensures Register(CrcTable(), s[..9]) == 0x340B_C6D9
  {
    assert Rounds(169, 8) == 0xAF0A_1B4C;
    assert s[..7] == s[..6] + [0x37];
    CheckStep(s[..6], 0x37, 0xF68D_2C9E, 169, 0xAF0A_1B4C);
    assert Rounds(88, 8) == 0x65B0_D9C6;
    assert s[..8] == s[..7] + [0x38];
    CheckStep(s[..7], 0x38, 0xAFFC_9660, 88, 0x65B0_D9C6);
    assert Rounds(105, 8) == 0x346E_D9FC;
    assert s[..9] == s[..8] + [0x39];
    CheckStep(s[..8], 0x39, 0x651F_2550, 105, 0x346E_D9FC);
  }

  lemma SixteenToTheEighth()
    ensures Pow(16, 8) == 0x1_0000_0000
  {
  }

  /** Hex8 of a 32-bit value is always exactly 8 lower-case hexadecimal digits
      and reads back as the value. */
  lemma Hex8Shape(n: nat)
    requires n < 0x1_0000_0000
    ensures |Hex8(n)| == 8
    ensures forall i :: 0 <= i < 8 ==> IsHexDigit(Hex8(n)[i])
    ensures FromRadix(Hex8(n), 16) == n
  {
    SixteenToTheEighth();
    RadixLength(n, 16, 8);
    var digits := ToRadix(n, 16);
    LeadingZeros(8 - |digits|, digits, 16);
    RadixRoundTrip(n, 16);
  }

  /** Distinct 32-bit values have distinct texts. */
  lemma Hex8Injective(m: nat, n: nat)
    requires m < 0x1_0000_0000 && n < 0x1_0000_0000 && Hex8(m) == Hex8(n)
    ensures m == n
  {
    Hex8Shape(m);
    Hex8Shape(n);
  }

  /** Two inputs with the same checksum text have the same CRC value. */
  lemma Crc32HexInjective(a: seq<bv8>, b: seq<bv8>)
    requires Crc32Hex(a) == Crc32Hex(b)
    ensures Crc32(a) == Crc32(b)
  {
    Hex8Injective(Crc32(a), Crc32(b));
  }

  /** verifyCRC32: the computed checksum against the expected one, lower-cased. */
  function VerifyCrc32(data: seq<bv8>, expected: string): bool
  {
    Crc32Hex(data) == ToLower(expected)
  }

  /** A checksum verifies against its own text in either letter case, and any
      text that verifies denotes the CRC value of the data. */
  lemma VerifyCrc32Correct(data: seq<bv8>, expected: string)
    ensures VerifyCrc32(data, Crc32Hex(data))
    ensures VerifyCrc32(data, expected) ==> |expected| == 8 && FromRadix(ToLower(expected), 16) == Crc32(data)
  {
    Hex8Shape(Crc32(data));
    var h := Crc32Hex(data);
    forall i | 0 <= i < |h| ensures LowerChar(h[i]) == h[i] {
      assert IsHexDigit(h[i]);
    }
    assert ToLower(h) == h;
  }

  // ------------------------------------------------------------ chunks

  datatype ChunkIntegrity = ChunkIntegrity(index: nat, size: nat, crc32: string, timestamp: int)

  /** createChunkIntegrity; `now` is the clock reading. */
  function CreateChunkIntegrity(index: nat, data: seq<bv8>, now: int): (r: ChunkIntegrity)
    ensures r.index == index && r.size == |data| && r.crc32 == Crc32Hex(data) && r.timestamp == now
  {
    ChunkIntegrity(index, |data|, Crc32Hex(data), now)
  }

  datatype ChunkVerification = ChunkVerification(valid: bool, errors: seq<string>)

  function SizeMismatch(expected: nat, actual: nat): string
  {
    "Size mismatch: expected " + NatToString(expected) + ", got " + NatToString(actual)
  }

  function CrcMismatch(expected: string, actual: string): string
  {
    "CRC32 mismatch: expected " + expected + ", got " + actual
  }

  /** verifyChunkIntegrity: one error per mismatch, size first. */
  function VerifyChunkIntegrity(data: seq<bv8>, integrity: ChunkIntegrity): (r: ChunkVerification)
    ensures r.valid <==> |data| == integrity.size && Crc32Hex(data) == integrity.crc32
    ensures r.valid <==> r.errors == []
    ensures |r.errors| == (if |data| == integrity.size then 0 else 1) + (if Crc32Hex(data) == integrity.crc32 then 0 else 1)
  {
    var sizeErrors := if |data| != integrity.size then [SizeMismatch(integrity.size, |data|)] else [];
    var actual := Crc32Hex(data);
    var errors := sizeErrors + (if actual != integrity.crc32 then [CrcMismatch(integrity.crc32, actual)] else []);
    ChunkVerification(|errors| == 0, errors)
  }

  /** Data verifies against the record made from it. */
  lemma ChunkRoundTrip(index: nat, data: seq<bv8>, now: int)
    ensures VerifyChunkIntegrity(data, CreateChunkIntegrity(index, data, now)).valid
  {
  }

  /** A record made from other data of the same length flags a CRC mismatch
      whenever the CRC values differ. */
  lemma ChunkDetectsChange(index: nat, data: seq<bv8>, other: seq<bv8>, now: int)
    requires |other| == |data| && Crc32(other) != Crc32(data)
    ensures VerifyChunkIntegrity(other, CreateChunkIntegrity(index, data, now)).errors
      == [CrcMismatch(Crc32Hex(data), Crc32Hex(other))]
  {
    if Crc32Hex(other) == Crc32Hex(data) {
      Crc32HexInjective(other, data);
    }
  }

  // ------------------------------------------------------------ recordings

  datatype RecordingIntegrity = RecordingIntegrity(
    recordId: string,
    chunks: seq<ChunkIntegrity>,
    totalSize: int,
    combinedCrc32: Option<string>,
    combinedSha256: Option<string>)

  function TotalSize(chunks: seq<ChunkIntegrity>): nat
  {
    if chunks == [] then 0 else TotalSize(chunks[..|chunks| - 1]) + chunks[|chunks| - 1].size
  }

  /** The invariant of the record: totalSize is the sum of the chunk sizes. */
  predicate SizesAgree(r: RecordingIntegrity)
  {
    r.totalSize == TotalSize(r.chunks)
  }

  /** createRecordingIntegrity. */
  function CreateRecordingIntegrity(recordId: string): (r: RecordingIntegrity)
    ensures SizesAgree(r) && r.chunks == [] && r.recordId == recordId
    ensures r.combinedCrc32.None? && r.combinedSha256.None?
  {
    RecordingIntegrity(recordId, [], 0, None, None)
  }

  /** addChunkToRecordingIntegrity: a new record with the chunk appended. */
  function AddChunk(recording: RecordingIntegrity, chunk: ChunkIntegrity): (r: RecordingIntegrity)
    ensures r.chunks == recording.chunks + [chunk]
    ensures r.totalSize == recording.totalSize + chunk.size
    ensures r.recordId == recording.recordId
    ensures r.combinedCrc32 == recording.combinedCrc32 && r.combinedSha256 == recording.combinedSha256
  {
    recording.(chunks := recording.chunks + [chunk], totalSize := recording.totalSize + chunk.size)
  }

  lemma AddChunkKeepsSizes(recording: RecordingIntegrity, chunk: ChunkIntegrity)
    requires SizesAgree(recording)
    ensures SizesAgree(AddChunk(recording, chunk))
  {
    var cs := recording.chunks + [chunk];
    assert cs[..|cs| - 1] == recording.chunks;
  }

  /** Adding the chunks one by one, in order. */
  function AddAll(recording: RecordingIntegrity, chunks: seq<ChunkIntegrity>): RecordingIntegrity
  {
    if chunks == [] then recording else AddChunk(AddAll(recording, chunks[..|chunks| - 1]), chunks[|chunks| - 1])
  }

  /** Starting from an empty record, any sequence of additions gives a record
      listing exactly those chunks whose totalSize is their sum. */
  lemma {:induction false} AddAllKeepsSizes(recordId: string, chunks: seq<ChunkIntegrity>)
    ensures SizesAgree(AddAll(CreateRecordingIntegrity(recordId), chunks))
    ensures AddAll(CreateRecordingIntegrity(recordId), chunks).chunks == chunks
  {
    if chunks != [] {
      var prefix := chunks[..|chunks| - 1];
      AddAllKeepsSizes(recordId, prefix);
      AddChunkKeepsSizes(AddAll(CreateRecordingIntegrity(recordId), prefix), chunks[|chunks| - 1]);
    }
  }

  datatype RecordingVerification = RecordingVerification(valid: bool, invalidChunks: seq<nat>, errors: seq<string>)

  /** Whether one chunk fails: it cannot be read, or it reads back wrong. */
  predicate ChunkFails(readChunk: nat -> Result<seq<bv8>>, chunk: ChunkIntegrity)
  {
    readChunk(chunk.index).Err? || !VerifyChunkIntegrity(readChunk(chunk.index).value, chunk).valid
  }

  function ChunkError(readChunk: nat -> Result<seq<bv8>>, chunk: ChunkIntegrity): string
  {
    var prefix := "Chunk " + NatToString(chunk.index) + ": ";
    match readChunk(chunk.index)
    case Err(message) => prefix + "Failed to read - " + message
    case Ok(data) => prefix + Join(VerifyChunkIntegrity(data, chunk).errors, ", ")
  }

  /** The indices of the failing chunks, in order. */
  function FailingChunks(readChunk: nat -> Result<seq<bv8>>, chunks: seq<ChunkIntegrity>): seq<nat>
  {
    if chunks == [] then []
    else
      var last := chunks[|chunks| - 1];
      FailingChunks(readChunk, chunks[..|chunks| - 1]) + (if ChunkFails(readChunk, last) then [last.index] else [])
  }

  function ChunkErrors(readChunk: nat -> Result<seq<bv8>>, chunks: seq<ChunkIntegrity>): seq<string>
  {
    if chunks == [] then []
    else
      var last := chunks[|chunks| - 1];
      ChunkErrors(readChunk, chunks[..|chunks| - 1]) + (if ChunkFails(readChunk, last) then [ChunkError(readChunk, last)] else [])
  }

  /** verifyRecordingIntegrity; `readChunk` stands for the awaited reader, an
      `Err` being the error it throws. */
  method VerifyRecordingIntegrity(readChunk: nat -> Result<seq<bv8>>, integrity: RecordingIntegrity)
    returns (r: RecordingVerification)
    ensures r.invalidChunks == FailingChunks(readChunk, integrity.chunks)
    ensures r.errors == ChunkErrors(readChunk, integrity.chunks)
    ensures r.valid <==> r.invalidChunks == []
  {
    var invalidChunks: seq<nat> := [];
    var errors: seq<string> := [];
    var i := 0;
    while i < |integrity.chunks|
      invariant 0 <= i <= |integrity.chunks|
      invariant invalidChunks == FailingChunks(readChunk, integrity.chunks[..i])
      invariant errors == ChunkErrors(readChunk, integrity.chunks[..i])
    {
      var chunk := integrity.chunks[i];
      ReportsGrow(readChunk, integrity.chunks, i);
      var failed, error := VerifyOneChunk(readChunk, chunk);
      if failed {
        invalidChunks := invalidChunks + [chunk.index];
        errors := errors + [error];
      }
      i := i + 1;
    }
    assert integrity.chunks[..i] == integrity.chunks;
    r := RecordingVerification(|invalidChunks| == 0, invalidChunks, errors);
  }

  /** The body of the loop of verifyRecordingIntegrity for one chunk: whether
      it fails and the error line it then contributes. */
  method VerifyOneChunk(readChunk: nat -> Result<seq<bv8>>, chunk: ChunkIntegrity) returns (failed: bool, error: string)
    ensures failed == ChunkFails(readChunk, chunk)
    ensures failed ==> error == ChunkError(readChunk, chunk)
  {
    failed, error := false, "";
    match readChunk(chunk.index) {
      case Err(message) =>
        failed, error := true, "Chunk " + NatToString(chunk.index) + ": Failed to read - " + message;
      case Ok(data) =>
        var result := VerifyChunkIntegrity(data, chunk);
        if !result.valid {
          failed, error := true, "Chunk " + NatToString(chunk.index) + ": " + Join(result.errors, ", ");
        }
    }
  }

  /** The reports for the first i + 1 chunks extend those for the first i. */
  lemma ReportsGrow(readChunk: nat -> Result<seq<bv8>>, chunks: seq<ChunkIntegrity>, i: nat)
    requires i < |chunks|
    ensures FailingChunks(readChunk, chunks[..i + 1])
      == FailingChunks(readChunk, chunks[..i]) + (if ChunkFails(readChunk, chunks[i]) then [chunks[i].index] else [])
    ensures ChunkErrors(readChunk, chunks[..i + 1])
      == ChunkErrors(readChunk, chunks[..i]) + (if ChunkFails(readChunk, chunks[i]) then [ChunkError(readChunk, chunks[i])] else [])
  {
    assert chunks[..i + 1][..i] == chunks[..i];
  }

  /** Every failing chunk has its index reported. */
  lemma {:induction false} FailingChunksComplete(readChunk: nat -> Result<seq<bv8>>, chunks: seq<ChunkIntegrity>, j: nat)
    requires j < |chunks| && ChunkFails(readChunk, chunks[j])
    ensures chunks[j].index in FailingChunks(readChunk, chunks)
  {
    var prefix := chunks[..|chunks| - 1];
    if j < |prefix| {
      assert prefix[j] == chunks[j];
      FailingChunksComplete(readChunk, prefix, j);
    }
  }

  /** Every reported index belongs to a failing chunk. */
  lemma {:induction false} FailingChunksSound(readChunk: nat -> Result<seq<bv8>>, chunks: seq<ChunkIntegrity>, k: nat)
    requires k in FailingChunks(readChunk, chunks)
    ensures exists j :: 0 <= j < |chunks| && chunks[j].index == k && ChunkFails(readChunk, chunks[j])
  {
    var prefix := chunks[..|chunks| - 1];
    var last := chunks[|chunks| - 1];
    if k in FailingChunks(readChunk, prefix) {
      FailingChunksSound(readChunk, prefix, k);
      var j :| 0 <= j < |prefix| && prefix[j].index == k && ChunkFails(readChunk, prefix[j]);
      assert chunks[j] == prefix[j];
    } else {
      assert chunks[|chunks| - 1] == last;
    }
  }

  /** One error line per reported index. */
  lemma {:induction false} ErrorsMatchIndices(readChunk: nat -> Result<seq<bv8>>, chunks: seq<ChunkIntegrity>)
    ensures |ChunkErrors(readChunk, chunks)| == |FailingChunks(readChunk, chunks)|
  {
    if chunks != [] {
      ErrorsMatchIndices(readChunk, chunks[..|chunks| - 1]);
    }
  }

  /** When every chunk reads back as the data its record was made from, the
      recording verifies. */
  lemma {:induction false} IntactRecordingValid(readChunk: nat -> Result<seq<bv8>>, chunks: seq<ChunkIntegrity>, now: nat -> int)
    requires forall j :: 0 <= j < |chunks| ==>
      readChunk(chunks[j].index).Ok? && chunks[j] == CreateChunkIntegrity(chunks[j].index, readChunk(chunks[j].index).value, now(j))
    ensures FailingChunks(readChunk, chunks) == []
  {
    if chunks != [] {
      var prefix := chunks[..|chunks| - 1];
      forall j | 0 <= j < |prefix|
        ensures readChunk(prefix[j].index).Ok? && prefix[j] == CreateChunkIntegrity(prefix[j].index, readChunk(prefix[j].index).value, now(j))
      {
        assert prefix[j] == chunks[j];
      }
      IntactRecordingValid(readChunk, prefix, now);
      var last := chunks[|chunks| - 1];
      ChunkRoundTrip(last.index, readChunk(last.index).value, now(|chunks| - 1));
    }
  }

  // ------------------------------------------------------- upload checksum

  /** Two lower-case hexadecimal digits per byte, as calculateSHA256 formats. */
  function HexBytes(bytes: seq<bv8>): (s: string)
    ensures |s| == 2 * |bytes|
    ensures forall i :: 0 <= i < |s| ==> IsHexDigit(s[i])
  {
    if bytes == [] then ""
    else HexBytes(bytes[..|bytes| - 1]) + HexByte(bytes[|bytes| - 1])
  }

  /** A byte read as a number. */
  function ByteValue(b: bv8): (n: nat)
    ensures n < 256
  {
    b as nat
  }

  /** `b.toString(16).padStart(2, '0')`. */
  function HexByte(b: bv8): (s: string)
    ensures |s| == 2
    ensures forall i :: 0 <= i < 2 ==> IsHexDigit(s[i])
  {
    var n := ByteValue(b);
    assert Pow(16, 2) == 256;
    RadixLength(n, 16, 2);
    PadStart(ToRadix(n, 16), 2, '0')
  }

  function Sha256Hex(digest: seq<bv8> -> seq<bv8>, data: seq<bv8>): string
  {
    HexBytes(digest(data))
  }

  const ChecksumPrefix := "sha256:"

  /** calculateUploadChecksum. */
  function CalculateUploadChecksum(digest: seq<bv8> -> seq<bv8>, data: seq<bv8>): (r: string)
    ensures StartsWith(r, ChecksumPrefix)
  {
    ChecksumPrefix + Sha256Hex(digest, data)
  }

  /** verifySHA256. */
  function VerifySha256(digest: seq<bv8> -> seq<bv8>, data: seq<bv8>, expected: string): bool
  {
    Sha256Hex(digest, data) == ToLower(expected)
  }

  /** verifyUploadChecksum: false for a missing or unprefixed server checksum,
      otherwise the hash after the prefix against the local hash. */
  function VerifyUploadChecksum(digest: seq<bv8> -> seq<bv8>, local: seq<bv8>, server: Option<string>): (ok: bool)
    ensures ok ==> server.Some? && StartsWith(server.value, ChecksumPrefix)
    ensures ok <==>
      (server.Some? && StartsWith(server.value, ChecksumPrefix)
       && ToLower(server.value[|ChecksumPrefix|..]) == Sha256Hex(digest, local))
  {
    if server.None? || server.value == "" || !StartsWith(server.value, ChecksumPrefix) then false
    else
      ReplacePrefix(server.value, ChecksumPrefix);
      VerifySha256(digest, local, ReplaceFirst(server.value, ChecksumPrefix, ""))
  }

  /** `s.replace(p, '')` drops the prefix when `s` starts with `p`. */
  lemma ReplacePrefix(s: string, p: string)
    requires StartsWith(s, p)
    ensures ReplaceFirst(s, p, "") == s[|p|..]
  {
    assert OccursAt(s, p, 0);
  }

  /** The checksum the client computes verifies against the same data. */
  lemma UploadChecksumRoundTrip(digest: seq<bv8> -> seq<bv8>, data: seq<bv8>)
    ensures VerifyUploadChecksum(digest, data, Some(CalculateUploadChecksum(digest, data)))
  {
    var c := CalculateUploadChecksum(digest, data);
    var h := Sha256Hex(digest, data);
    assert c[|ChecksumPrefix|..] == h;
    forall i | 0 <= i < |h| ensures LowerChar(h[i]) == h[i] {
      assert IsHexDigit(h[i]);
    }
    assert ToLower(h) == h;
  }
}

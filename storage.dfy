/** The platform-aware storage service (src/services/storage.js): the
    byte and Base64 conversions used to hand chunk data to the Capacitor
    file system, the Capacitor chunk path, directory creation, the free-space
    reading with its fallbacks, and the pre-recording storage check. What the
    platform APIs answer is a parameter of each function; the platform
    itself is one too. */
module Storage {
  import opened Wrappers
  import opened Text
  import opened Base64
  import DiskUtils

  datatype Platform = Electron | Capacitor | Unsupported

  const Mebibyte: nat := 1024 * 1024
  /** PlatformConstants.MIN_STORAGE_MB and CRITICAL_STORAGE_MB. */
  const MinStorageMB: nat := 500
  const CriticalStorageMB: nat := 100

  // ------------------------------------------------------ byte conversion

  /** arrayBufferToBase64: one character per byte, in order, then btoa. */
  method ArrayBufferToBase64(bytes: seq<Byte>) returns (r: string)
    ensures r == Encode(bytes)
  {
    var binary := "";
    var i := 0;
    while i < |bytes|
      invariant 0 <= i <= |bytes| && |binary| == i
      invariant forall k :: 0 <= k < i ==> binary[k] == bytes[k] as char
    {
      binary := binary + [bytes[i] as char];
      i := i + 1;
    }
    assert binary == Binary(bytes);
    BtoaOfBinary(bytes);
    r := Btoa(binary).value;
  }

  /** base64ToArrayBuffer: atob, then each character code stored into a
      Uint8Array, which keeps it modulo 256. atob throws on text that is
      not base64. */
  method Base64ToArrayBuffer(base64: string) returns (r: Result<seq<Byte>>)
    ensures r.Ok? <==> Decode(base64).Some?
    ensures r.Ok? ==> r.value == Decode(base64).value
    ensures r.Err? ==> r.error == "InvalidCharacterError"
  {
    var decoded := Atob(base64);
    if decoded.None? {
      return Err("InvalidCharacterError");
    }
    var binaryString := decoded.value;
    var bytes := StoreCodes(binaryString);
    AtobBytes(base64);
    r := Ok(bytes);
  }

  /** The loop of base64ToArrayBuffer: each character code of the binary
      string stored into a fresh Uint8Array. */
  method StoreCodes(binaryString: string) returns (r: seq<Byte>)
    requires forall i :: 0 <= i < |binaryString| ==> binaryString[i] as int < 256
    ensures r == Bytes(binaryString)
  {
    var bytes := new Byte[|binaryString|];
    for i := 0 to |binaryString|
      invariant forall k :: 0 <= k < i ==> bytes[k] == binaryString[k] as int
    {
      bytes[i] := binaryString[i] as int % 256;
    }
    r := bytes[..];
  }

  /** The codes of atob's binary string are the decoded bytes. */
  lemma AtobBytes(s: string)
    requires Decode(s).Some?
    ensures Bytes(Atob(s).value) == Decode(s).value
  {
    BytesOfBinary(Decode(s).value);
  }

  /** `new Uint8Array(numbers)`: each number kept modulo 256. */
  function Uint8Array(data: seq<int>): (r: seq<Byte>)
    ensures |r| == |data| && forall i :: 0 <= i < |data| ==> r[i] == data[i] % 256
  {
    seq(|data|, i requires 0 <= i < |data| => data[i] % 256)
  }

  /** Numbers that already are bytes pass through unchanged. */
  lemma Uint8ArrayOfBytes(data: seq<Byte>)
    ensures Uint8Array(data) == data
  {
  }

  /** What saveChunk is given: a Uint8Array, which may be a view of
      `length` bytes at `offset` into a larger buffer, or a number array. */
  datatype ChunkData =
    | View(buffer: seq<Byte>, offset: nat, length: nat)
    | Numbers(numbers: seq<int>)

  /** The bytes a Uint8Array view shows. */
  function Shown(data: ChunkData): seq<Byte>
    requires data.View? && data.offset + data.length <= |data.buffer|
  {
    data.buffer[data.offset..data.offset + data.length]
  }

  /** dataToBase64: a number array is copied into a fresh Uint8Array, whose
      buffer holds just those bytes; a Uint8Array is used as it is, and its
      `.buffer` is the whole underlying buffer, not only the bytes the view
      shows. */
  method DataToBase64(data: ChunkData) returns (r: string)
    ensures data.Numbers? ==> r == Encode(Uint8Array(data.numbers)) && Decode(r) == Some(Uint8Array(data.numbers))
    ensures data.View? ==> r == Encode(data.buffer) && Decode(r) == Some(data.buffer)
  {
    var buffer := if data.View? then data.buffer else Uint8Array(data.numbers);
    r := ArrayBufferToBase64(buffer);
    RoundTrip(buffer);
  }

  /** A view that covers its whole buffer is encoded as exactly the bytes it
      shows; a view that covers less carries the other bytes of its buffer
      along. */
  lemma ViewEncoding(data: ChunkData)
    requires data.View? && data.offset + data.length <= |data.buffer|
    ensures data.offset == 0 && data.length == |data.buffer| ==> Decode(Encode(data.buffer)) == Some(Shown(data))
    ensures data.length < |data.buffer| ==> Decode(Encode(data.buffer)) != Some(Shown(data))
  {
    RoundTrip(data.buffer);
    assert data.offset == 0 && data.length == |data.buffer| ==> Shown(data) == data.buffer;
  }

  // ------------------------------------------------------------ chunk path

  /** The file name saveChunk gives a chunk on Capacitor. */
  function CapacitorChunkName(chunkIndex: nat, extension: string): string
  {
    "chunk_" + ZeroPad(chunkIndex, 6) + extension
  }

  function CapacitorChunkPath(recordId: string, chunkIndex: nat, extension: string): string
  {
    "recordings/" + recordId + "/chunks/" + CapacitorChunkName(chunkIndex, extension)
  }

  /** The index is written with at least six digits, exactly six below a
      million, and reads back as the index. */
  lemma CapacitorChunkNameLayout(chunkIndex: nat, extension: string)
    ensures var name := CapacitorChunkName(chunkIndex, extension);
      var digits := name[6..|name| - |extension|];
      StartsWith(name, "chunk_") && EndsWith(name, extension)
      && |digits| >= 6 && (chunkIndex < 1000000 ==> |digits| == 6)
      && (forall i :: 0 <= i < |digits| ==> IsDecimalDigit(digits[i]))
      && FromRadix(digits, 10) == chunkIndex
  {
    var name := CapacitorChunkName(chunkIndex, extension);
    assert name[6..|name| - |extension|] == ZeroPad(chunkIndex, 6);
    assert name[..6] == "chunk_";
    assert name[|name| - |extension|..] == extension;
    ZeroPadRoundTrip(chunkIndex, 6);
    if chunkIndex < 1000000 {
      assert Pow(10, 6) == 1000000;
      ZeroPadLength(chunkIndex, 6);
    }
  }

  /** Two chunks of one recording never share a path. */
  lemma CapacitorChunkPathsDistinct(recordId: string, i: nat, j: nat, extension: string)
    requires i != j
    ensures CapacitorChunkPath(recordId, i, extension) != CapacitorChunkPath(recordId, j, extension)
  {
    var pre := "recordings/" + recordId + "/chunks/chunk_";
    CapacitorChunkPathLayout(recordId, i, extension);
    CapacitorChunkPathLayout(recordId, j, extension);
    if CapacitorChunkPath(recordId, i, extension) == CapacitorChunkPath(recordId, j, extension) {
      MiddleDetermined(pre, ZeroPad(i, 6), ZeroPad(j, 6), extension);
      ZeroPadInjective(i, j, 6);
    }
  }

  lemma CapacitorChunkPathLayout(recordId: string, i: nat, extension: string)
    ensures CapacitorChunkPath(recordId, i, extension) == "recordings/" + recordId + "/chunks/chunk_" + ZeroPad(i, 6) + extension
  {
    var dir, d := "recordings/" + recordId + "/chunks/", ZeroPad(i, 6);
    assert dir + ("chunk_" + d + extension) == dir + "chunk_" + d + extension;
    assert "recordings/" + recordId + "/chunks/chunk_" == dir + "chunk_";
  }

  /** A string between a fixed prefix and a fixed suffix is determined. */
  lemma MiddleDetermined(pre: string, a: string, b: string, post: string)
    requires pre + a + post == pre + b + post
    ensures a == b
  {
    var p := pre + a + post;
    assert p[|pre|..|p| - |post|] == a;
    assert (pre + b + post)[|pre|..|p| - |post|] == b;
  }

  // ------------------------------------------------------ createDirectory

  datatype DirResult = DirResult(success: bool, error: Option<string>)

  /** What Filesystem.mkdir does: it succeeds, or throws an error whose
      message may be missing. */
  datatype MkdirOutcome = Created | MkdirThrew(message: Option<string>)

  /** createDirectory: Electron's answer is passed on; on Capacitor an error
      that mentions "exists" counts as success. */
  function CreateDirectory(platform: Platform, electronReply: DirResult, mkdir: MkdirOutcome): (r: DirResult)
    ensures platform == Electron ==> r == electronReply
    ensures platform == Capacitor ==>
      (r.success <==> mkdir.Created? || (mkdir.message.Some? && Contains(mkdir.message.value, "exists")))
    ensures platform == Capacitor && !r.success ==> r.error == mkdir.message
    ensures platform == Unsupported ==> r == DirResult(false, Some("Unsupported platform"))
  {
    match platform
    case Electron => electronReply
    case Capacitor =>
      (match mkdir
       case Created => DirResult(true, None)
       case MkdirThrew(message) =>
         if message.Some? && Contains(message.value, "exists") then DirResult(true, None)
         else DirResult(false, message))
    case Unsupported => DirResult(false, Some("Unsupported platform"))
  }

  // ----------------------------------------------------- getFreeDiskSpace

  /** What recording:checkDiskSpace answers on Electron: nothing, a thrown
      error, or an object whose fields may be undefined (None). */
  datatype ElectronDiskReply =
    | NoReply
    | DiskThrew
    | Reply(canStart: Option<bool>, freeSpace: Option<nat>, freeSpaceMB: Option<nat>)

  /** What the Capacitor file system answers: no getFreeDiskSpace API, the
      free bytes, or a thrown error. */
  datatype CapacitorDiskReply = NoApi | Free(free: nat) | CapacitorThrew(message: Option<string>)

  /** A free-space reading. freeBytes is None where the source computes NaN
      (`undefined * 1024 * 1024`). */
  datatype FreeSpace = Measured(freeBytes: Option<nat>, freeMB: nat) | Unmeasured(error: Option<string>)

  /** The assumed 10 GB when no figure can be had. */
  const Fallback: FreeSpace := Measured(Some(10 * 1024 * 1024 * 1024), 10 * 1024)

  /** `a || b` on numbers, with undefined as None: 0 and undefined fall
      through. */
  function OrElse(a: Option<nat>, b: Option<nat>): (r: Option<nat>)
    ensures a.Some? && a.value != 0 ==> r == a
    ensures (a.None? || a.value == 0) ==> r == b
  {
    if a.Some? && a.value != 0 then a else b
  }

  function ElectronFreeSpace(reply: ElectronDiskReply): (r: FreeSpace)
  {
    match reply
    case Reply(canStart, freeSpace, freeSpaceMB) =>
      if canStart.Some? || freeSpaceMB.Some? then
        var mbBytes := if freeSpaceMB.Some? then Some(freeSpaceMB.value * Mebibyte) else None;
        var bytes := OrElse(freeSpace, mbBytes);
        var mb := OrElse(freeSpaceMB, Some(OrElse(freeSpace, Some(0)).value / Mebibyte)).value;
        Measured(bytes, mb)
      else Fallback
    case _ => Fallback
  }

  function CapacitorFreeSpace(reply: CapacitorDiskReply): (r: FreeSpace)
  {
    match reply
    case NoApi => Fallback
    case Free(free) => Measured(Some(free), free / Mebibyte)
    case CapacitorThrew(message) => Unmeasured(message)
  }

  /** getFreeDiskSpace. */
  function GetFreeDiskSpace(platform: Platform, electron: ElectronDiskReply, capacitor: CapacitorDiskReply): (r: FreeSpace)
    ensures platform == Electron ==> r.Measured?
    ensures platform == Electron && (electron.NoReply? || electron.DiskThrew?) ==> r == Fallback
    ensures platform == Electron && electron.Reply? && electron.canStart.None? && electron.freeSpaceMB.None? ==> r == Fallback
    ensures platform == Electron && electron.Reply? && electron.freeSpaceMB.Some?
      && (electron.freeSpace.None? || electron.freeSpace.value == 0)
      ==> r.freeBytes == Some(electron.freeSpaceMB.value * Mebibyte)
    ensures platform == Electron && electron.Reply? && (electron.canStart.Some? || electron.freeSpaceMB.Some?)
      && (electron.freeSpaceMB.None? || electron.freeSpaceMB.value == 0)
      ==> r.freeMB == r.freeBytes.GetOr(0) / Mebibyte
    ensures platform == Capacitor ==> (r.Unmeasured? <==> capacitor.CapacitorThrew?)
    ensures platform == Capacitor && capacitor.Free? ==> r == Measured(Some(capacitor.free), capacitor.free / Mebibyte)
    ensures platform == Capacitor && capacitor.NoApi? ==> r == Fallback
    ensures platform == Unsupported ==> r == Unmeasured(Some("Unsupported platform"))
  {
    match platform
    case Electron => ElectronFreeSpace(electron)
    case Capacitor => CapacitorFreeSpace(capacitor)
    case Unsupported => Unmeasured(Some("Unsupported platform"))
  }

  /** The handler's figures, read back: a free-byte count and its rounded
      megabytes pass through unchanged. */
  lemma HandlerFigures(canStart: bool, free: nat, capacitor: CapacitorDiskReply)
    ensures GetFreeDiskSpace(Electron, Reply(Some(canStart), Some(free), Some(DiskUtils.RoundMB(free))), capacitor)
      == Measured(Some(free), DiskUtils.RoundMB(free))
  {
    if DiskUtils.RoundMB(free) == 0 {
      assert free < Mebibyte;
    }
  }

  /** The Electron handler is DiskUtils.CanStartRecording; its figures come
      through unchanged: the free bytes, and the megabytes rounded there. */
  lemma ElectronPassesHandlerFigures(reading: Option<nat>, capacitor: CapacitorDiskReply)
    ensures var c := DiskUtils.CanStartRecording(reading);
      GetFreeDiskSpace(Electron, Reply(Some(c.canStart), Some(c.freeSpace), Some(c.freeSpaceMB)), capacitor)
        == Measured(Some(c.freeSpace), c.freeSpaceMB)
  {
    var c := DiskUtils.CanStartRecording(reading);
    HandlerFigures(c.canStart, c.freeSpace, capacitor);
  }

  // ---------------------------------------------- checkStorageForRecording

  /** 'ok', 'low' and 'critical'. */
  datatype StorageStatus = Sufficient | Low | Critical

  /** The storage level of a free-space figure in megabytes. */
  function Classify(freeMB: int): (s: StorageStatus)
    ensures s == Critical <==> freeMB < CriticalStorageMB
    ensures s == Low <==> CriticalStorageMB <= freeMB < MinStorageMB
    ensures s == Sufficient <==> freeMB >= MinStorageMB
  {
    if freeMB < CriticalStorageMB then Critical
    else if freeMB < MinStorageMB then Low
    else Sufficient
  }

  /** A lower figure is never at a better level. */
  lemma ClassifyMonotone(a: int, b: int)
    requires a <= b
    ensures Classify(a) == Sufficient ==> Classify(b) == Sufficient
    ensures Classify(b) == Critical ==> Classify(a) == Critical
  {
  }

  datatype StorageCheck = StorageCheck(canRecord: bool, status: StorageStatus, freeMB: int)

  /** checkStorageForRecording: an unmeasured space is reported as ok with
      freeMB -1; otherwise recording is refused only at the critical level. */
  function CheckStorageForRecording(space: FreeSpace): (r: StorageCheck)
    ensures space.Unmeasured? ==> r == StorageCheck(true, Sufficient, -1)
    ensures space.Measured? ==> r.freeMB == space.freeMB && r.status == Classify(space.freeMB)
    ensures r.canRecord <==> r.status != Critical
  {
    match space
    case Unmeasured(_) => StorageCheck(true, Sufficient, -1)
    case Measured(_, freeMB) =>
      var status := Classify(freeMB);
      StorageCheck(status != Critical, status, freeMB)
  }

  /** On Electron the check never reads as critical through a fallback: a
      failed handler reads 10 GB, which is ok. */
  lemma ElectronFallbackAllowsRecording(electron: ElectronDiskReply, capacitor: CapacitorDiskReply)
    requires electron.NoReply? || electron.DiskThrew?
    ensures CheckStorageForRecording(GetFreeDiskSpace(Electron, electron, capacitor)) == StorageCheck(true, Sufficient, 10240)
  {
  }

  /** The Electron handler refuses a start from just under 500 MiB, while
      this check, which reads its rounded figure, still reports ok. */
  lemma RoundingLetsCheckPassBelowHandlerThreshold()
    ensures var free := DiskUtils.MinFreeSpace - 1;
      !DiskUtils.CanStartRecording(Some(free)).canStart
      && CheckStorageForRecording(GetFreeDiskSpace(Electron, Reply(Some(false), Some(free), Some(DiskUtils.RoundMB(free))), NoApi)).status == Sufficient
  {
    var free := DiskUtils.MinFreeSpace - 1;
    assert DiskUtils.RoundMB(free) == 500;
    HandlerFigures(false, free, NoApi);
  }
}

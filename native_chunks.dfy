/** Where the two native recorders put their chunk files. Both the iOS
    plugin and the Android service build `recordings/<id>/chunks` under the
    app's own files directory and name each chunk `chunk_%06d.m4a`; paths
    here are relative to that directory, as the web layer's are to
    Directory.Documents. */
module NativeChunk {
  import opened Text
  import opened Storage

  const Extension := ".m4a"

  function ChunksDirectory(recordId: string): string
  {
    "recordings/" + recordId + "/chunks"
  }

  /** `chunk_%06d.m4a` inside the given directory. */
  function ChunkPath(directory: string, chunkIndex: nat): string
  {
    directory + "/" + CapacitorChunkName(chunkIndex, Extension)
  }

  /** A chunk written natively lies where saveChunk would have written the
      same chunk with the `.m4a` extension, so the web layer's readers find
      it. */
  lemma ChunkPathMatchesStorage(recordId: string, chunkIndex: nat)
    ensures ChunkPath(ChunksDirectory(recordId), chunkIndex) == CapacitorChunkPath(recordId, chunkIndex, Extension)
  {
  }

  /** The file name carries the index in at least six decimal digits,
      exactly six below a million, and reads back as the index; two indices
      of one recording never share a file. */
  lemma ChunkPathLayout(recordId: string, i: nat, j: nat)
    ensures var name := CapacitorChunkName(i, Extension);
      var digits := name[6..|name| - |Extension|];
      StartsWith(name, "chunk_") && EndsWith(name, Extension)
      && |digits| >= 6 && (i < 1000000 ==> |digits| == 6)
      && FromRadix(digits, 10) == i
    ensures i != j ==> ChunkPath(ChunksDirectory(recordId), i) != ChunkPath(ChunksDirectory(recordId), j)
  {
    CapacitorChunkNameLayout(i, Extension);
    if i != j {
      ChunkPathMatchesStorage(recordId, i);
      ChunkPathMatchesStorage(recordId, j);
      CapacitorChunkPathsDistinct(recordId, i, j, Extension);
    }
  }
}

// The generic record shared by every source (main.go, `Metadata` and `MemoryItem`).
module Records {
  datatype Metadata = Metadata(
    source: string, host: string, containerId: string, containerKind: string, containerTitle: string, project: string,
    authorId: string, authorName: string, kind: string, replyTo: string, timestamp: int, attrs: string,
    contentHash: string, messageId: string, chunkIndex: int, chunkCount: int)

  type Vector = seq<real>

  // A row of the messages table, or, with a message id, of the chunks table.
  datatype MemoryItem = MemoryItem(id: string, vector: Vector, text: string, metadata: Metadata)
}

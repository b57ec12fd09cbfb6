/** The text message builder: shared builder state plus the chunk size. */
module Messages {
  import opened Values
  import opened Payloads
  import opened SharedLogic
  import opened MessageText

  class TelegramMessage {
    const base: Builder
    var chunkSize: int

    /** A new message holds its text and Markdown as parse mode, in that order. */
    constructor(content: string := "", chunkSize: int := 0)
      ensures fresh(base)
      ensures base.payload == Payload(["text", "parse_mode"], map["text" := Str(content), "parse_mode" := Str("Markdown")])
      ensures base.Others() == (None, [], [], None)
      ensures this.chunkSize == chunkSize
      ensures Text() == content
      ensures chunkSize == 0 ==> !ShouldChunk()
    {
      base := new Builder();
      this.chunkSize := chunkSize;
      new;
      base.Put("text", Str(content));
      base.ParseMode(EnumMode(Markdown));
    }

    /** The current text as PHP's string concatenation sees it ("" when absent). */
    function Text(): string
      reads base
    {
      AsString(base.GetPayloadValue("text"))
    }

    /** Replaces the text; the chunk size changes only when a limit is given. */
    method Content(content: string, limit: Option<int> := None)
      modifies this, base
      ensures base.payload == Set(old(base.payload), "text", Str(content))
      ensures Text() == content
      ensures chunkSize == if limit.Some? then limit.value else old(chunkSize)
      ensures base.Others() == old(base.Others())
    {
      base.Put("text", Str(content));
      if limit.Some? {
        chunkSize := limit.value;
      }
    }

    /** Appends the line and a newline to the text. */
    method Line(content: string)
      modifies base
      ensures base.payload == Set(old(base.payload), "text", Str(old(Text()) + content + "\n"))
      ensures Text() == old(Text()) + content + "\n"
      ensures base.Others() == old(base.Others())
    {
      base.Put("text", Str(Text() + content + "\n"));
    }

    method LineIf(condition: bool, line: string)
      modifies base
      ensures condition ==> base.payload == Set(old(base.payload), "text", Str(old(Text()) + line + "\n"))
      ensures !condition ==> base.payload == old(base.payload)
      ensures base.Others() == old(base.Others())
    {
      if condition {
        Line(line);
      }
    }

    /** Appends the MarkdownV2-escaped line and a newline. */
    method EscapedLine(content: string)
      modifies base
      ensures base.payload == Set(old(base.payload), "text", Str(old(Text()) + Escape(content) + "\n"))
      ensures Text() == old(Text()) + Escape(content) + "\n"
      ensures base.Others() == old(base.Others())
    {
      var escaped := EscapeSpecials(DoubleBackslashes(content));
      Line(escaped);
    }

    method Chunk(limit: int := DefaultChunkSize)
      modifies this
      ensures chunkSize == limit
      ensures ShouldChunk() <==> limit > 0
    {
      chunkSize := limit;
    }

    predicate ShouldChunk()
      reads this
    {
      chunkSize > 0
    }

    /**
      The payloads `send` posts one by one when the message is chunked, as
      the source computes them: the falsy chunks ("" and "0") are skipped.
     */
    function ChunkedSends(): (r: Option<seq<Payload>>)
      reads this, base
      requires ShouldChunk()
      ensures r.Some? <==> HasTextString(base.payload)
      ensures r.Some? ==>
                var chunks := ChunkStrings(TextOf(base.payload), chunkSize);
                SendsChunks(r.value, base.payload, Filter(chunks, KeepChunkAsWritten),
                            KeepChunkAsWritten(chunks[|chunks| - 1]))
    {
      ChunkedPayloadsAsWritten(base.payload, chunkSize)
    }
  }
}

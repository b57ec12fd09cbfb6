/**
  The file message builder (`TelegramFile`): its own payload, the upload
  kind and the inline buttons, and the conversion of the payload into the
  parts of a multipart request.
 */
module Files {
  import opened Values
  import opened Payloads
  import opened ArrayChunk

  /** One part of a multipart body. */
  datatype Part =
    | NamedPart(name: string, contents: Value)   // `['name' => key, 'contents' => value]`
    | PassThrough(part: Value)                   // the `file` entry, as it is stored

  /** The part one payload entry becomes: `file` is passed through, any other key is named. */
  function PartOf(e: Entry): Part {
    if e.key != "file" then NamedPart(e.key, e.value) else PassThrough(e.value)
  }

  /** Reading a part back as a payload entry. */
  function EntryOf(part: Part): Entry {
    match part
    case NamedPart(name, contents) => Entry(name, contents)
    case PassThrough(v) => Entry("file", v)
  }

  /** No entry is lost by the conversion: each part reads back as the entry it came from. */
  lemma PartRoundTrip(e: Entry)
    ensures EntryOf(PartOf(e)) == e
  {
  }

  /** The value `file` stores for a local file: the handle under the type's name, and the filename only when it is truthy. */
  function LocalFilePart(fileType: string, handle: Value, filename: Value): (v: Value)
    ensures v.Upload? && v.part.name == fileType && v.part.contents == handle
    ensures v.part.filename.Some? <==> Truthy(filename)
    ensures v.part.filename.Some? ==> v.part.filename.value == filename
  {
    Upload(FilePart(fileType, handle, if Truthy(filename) then Some(filename) else None))
  }

  class TelegramFile {
    var fileType: string
    var payload: Payload
    var buttons: seq<InlineButton>

    /** A new file holds its caption and Markdown as parse mode, and is a document. */
    constructor(content: Value := Str(""))
      ensures payload == Payload(["caption", "parse_mode"], map["caption" := content, "parse_mode" := Str("Markdown")])
      ensures fileType == "document" && buttons == []
    {
      fileType := "document";
      buttons := [];
      payload := Set(Set(Empty, "caption", content), "parse_mode", Str("Markdown"));
    }

    method To(chatId: Value)
      modifies this
      ensures payload == Set(old(payload), "chat_id", chatId)
      ensures ToNotGiven() <==> chatId == Null
      ensures fileType == old(fileType) && buttons == old(buttons)
    {
      payload := Set(payload, "chat_id", chatId);
    }

    /** Sets the caption and nothing else. */
    method Content(content: Value)
      modifies this
      ensures payload == Set(old(payload), "caption", content)
      ensures fileType == old(fileType) && buttons == old(buttons)
    {
      payload := Set(payload, "caption", content);
    }

    /**
      Attaches a file of kind `fileType`. Whether `file` names a local file,
      and the handle opening it gives, are inputs: a local file is uploaded
      under `file`, anything else is stored under the kind's own key.
     */
    method File(file: Value, fileType: string, isLocalFile: bool, handle: Value, filename: Value := Null)
      modifies this
      ensures this.fileType == fileType
      ensures isLocalFile ==> payload == Set(old(payload), "file", LocalFilePart(fileType, handle, filename))
      ensures !isLocalFile ==> payload == Set(old(payload), fileType, file)
      ensures buttons == old(buttons)
    {
      this.fileType := fileType;
      if isLocalFile {
        payload := Set(payload, "file", Upload(FilePart(fileType, handle, None)));
        if Truthy(filename) {
          SetOverwrites(old(payload), "file", Upload(FilePart(fileType, handle, None)),
                        Upload(FilePart(fileType, handle, Some(filename))));
          payload := Set(payload, "file", Upload(FilePart(fileType, handle, Some(filename))));
        }
      } else {
        payload := Set(payload, fileType, file);
      }
    }

    /** Appends a URL button and lays all buttons out in rows of `columns`; with `columns < 1` the layout throws after the append. */
    method Button(text: string, url: string, columns: int := 2) returns (ok: bool)
      modifies this
      ensures buttons == old(buttons) + [UrlButton(text, url)]
      ensures ok <==> columns >= 1
      ensures ok ==> payload == Set(old(payload), "reply_markup", Json(InlineKeyboard(Chunk(buttons, columns))))
      ensures !ok ==> payload == old(payload)
      ensures fileType == old(fileType)
    {
      buttons := buttons + [UrlButton(text, url)];
      ok := columns >= 1;
      if ok {
        payload := Set(payload, "reply_markup", Json(InlineKeyboard(Chunk(buttons, columns))));
      }
    }

    method Options(options: Payload)
      requires WellFormed(options)
      modifies this
      ensures payload == Merge(old(payload), options)
      ensures fileType == old(fileType) && buttons == old(buttons)
    {
      payload := Merge(payload, options);
    }

    predicate ToNotGiven()
      reads this
    {
      !IsSet(payload, "chat_id")
    }

    function ToArray(): Payload
      reads this
    {
      payload
    }

    /** One part per payload entry, in payload order. */
    method ToMultipart() returns (data: seq<Part>)
      ensures |data| == |EntriesOf(payload)|
      ensures forall i :: 0 <= i < |data| ==> data[i] == PartOf(EntriesOf(payload)[i])
      ensures forall i :: 0 <= i < |data| ==> EntryOf(data[i]) == EntriesOf(payload)[i]
    {
      var entries := EntriesOf(payload);
      data := [];
      var i := 0;
      while i < |entries|
        invariant 0 <= i <= |entries|
        invariant |data| == i
        invariant forall j :: 0 <= j < i ==> data[j] == PartOf(entries[j])
      {
        var e := entries[i];
        if e.key != "file" {
          data := data + [NamedPart(e.key, e.value)];
        } else {
          data := data + [PassThrough(e.value)];
        }
        i := i + 1;
      }
    }
  }
}

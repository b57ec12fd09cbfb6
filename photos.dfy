/** The photo builder: its own payload and inline buttons, two per row. */
module Photos {
  import opened Values
  import opened Payloads
  import opened ArrayChunk

  class TelegramPhoto {
    var payload: Payload
    var buttons: seq<InlineButton>

    /** A new photo holds only the photo; no parse mode is set. */
    constructor(photo: Value := Str(""))
      ensures payload == Payload(["photo"], map["photo" := photo])
      ensures buttons == []
      ensures "parse_mode" !in Keys(payload)
    {
      payload := Set(Empty, "photo", photo);
      buttons := [];
    }

    method To(chatId: Value)
      modifies this
      ensures payload == Set(old(payload), "chat_id", chatId)
      ensures ToNotGiven() <==> chatId == Null
      ensures buttons == old(buttons)
    {
      payload := Set(payload, "chat_id", chatId);
    }

    method Photo(photo: Value)
      modifies this
      ensures payload == Set(old(payload), "photo", photo)
      ensures buttons == old(buttons)
    {
      payload := Set(payload, "photo", photo);
    }

    method Caption(caption: Value)
      modifies this
      ensures payload == Set(old(payload), "caption", caption)
      ensures buttons == old(buttons)
    {
      payload := Set(payload, "caption", caption);
    }

    /** Appends a URL button; the inline keyboard always has two buttons per row. */
    method Button(text: string, url: string)
      modifies this
      ensures buttons == old(buttons) + [UrlButton(text, url)]
      ensures payload == Set(old(payload), "reply_markup", Json(InlineKeyboard(Chunk(buttons, 2))))
      ensures IsLayout(Lookup(payload, "reply_markup").value.doc.inlineRows, buttons, 2)
    {
      buttons := buttons + [UrlButton(text, url)];
      payload := Set(payload, "reply_markup", Json(InlineKeyboard(Chunk(buttons, 2))));
    }

    method Options(options: Payload)
      requires WellFormed(options)
      modifies this
      ensures payload == Merge(old(payload), options)
      ensures buttons == old(buttons)
    {
      payload := Merge(payload, options);
    }

    predicate ToNotGiven()
      reads this
    {
      !IsSet(payload, "chat_id")
    }
  }
}

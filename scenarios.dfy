/**
  Builder call sequences as the package's feature tests write them, with
  the exact payload each one leaves behind.
 */
module Scenarios {
  import opened Values
  import opened Payloads
  import opened ArrayChunk
  import opened SharedLogic
  import opened MessageText
  import opened Messages
  import opened Files
  import opened Venues
  import opened Contacts
  import opened Polls
  import opened Updates

  /** The first three calls of the payload test: content, recipient, one option. */
  method MessageWithOptions(content: string) returns (m: TelegramMessage)
    ensures fresh(m) && fresh(m.base)
    ensures m.base.payload == Payload(["text", "parse_mode", "chat_id", "foo"],
                                      map["text" := Str(content), "parse_mode" := Str("Markdown"),
                                          "chat_id" := Int(12345), "foo" := Str("bar")])
    ensures m.base.buttons == []
  {
    m := new TelegramMessage();
    m.Content(content);
    m.base.To(Int(12345));
    MergeSingle(m.base.payload, "foo", Str("bar"));
    m.base.Options(Payload(["foo"], map["foo" := Str("bar")]));
  }

  /** Content, recipient, one option and one button: every key in the order it was first written. */
  method MessagePayload(content: string) returns (payload: Payload)
    ensures payload.keys == ["text", "parse_mode", "chat_id", "foo", "reply_markup"]
    ensures payload.values == map["text" := Str(content),
                                  "parse_mode" := Str("Markdown"),
                                  "chat_id" := Int(12345),
                                  "foo" := Str("bar"),
                                  "reply_markup" := Json(InlineKeyboard([[UrlButton("Laravel", "https://laravel.com")]]))]
  {
    var m := MessageWithOptions(content);
    var ok := m.base.Button("Laravel", "https://laravel.com");
    assert m.base.buttons == [UrlButton("Laravel", "https://laravel.com")];
    payload := m.base.ToArray();
  }

  /** Two lines give the two texts, each ended by a newline. */
  method TwoLines(first: string, second: string) returns (text: string)
    ensures text == first + "\n" + second + "\n"
  {
    var m := new TelegramMessage();
    m.Line(first);
    m.Line(second);
    text := m.Text();
  }

  /** Text with no backslash and no MarkdownV2 special character. */
  predicate Plain(s: string) {
    forall i :: 0 <= i < |s| ==> s[i] != '\\' && !IsSpecial(s[i])
  }

  /** Two plain words around `_` and `!`: only those two characters get a backslash. */
  lemma EscapeAround(a: string, c: string)
    requires Plain(a) && Plain(c)
    ensures Escape(a + "_" + c + "!") == a + "\\_" + c + "\\!"
  {
    EscapeAppend(a + "_" + c, "!");
    EscapeAppend(a + "_", c);
    EscapeAppend(a, "_");
    EscapePlain(a);
    EscapePlain(c);
    assert Escape("_") == "\\_" by { EscapeCons('_', []); }
    assert Escape("!") == "\\!" by { EscapeCons('!', []); }
  }

  /**
    An escaped line followed by a plain one: only the first gets
    backslashes. The test's words "Laravel Notification" and "Channels are
    awesome" are plain (see the two lemmas below); its plain line is
    "Telegram Notification Channel is fantastic :)".
   */
  method EscapedThenPlain(a: string, c: string, b: string) returns (text: string)
    requires Plain(a) && Plain(c)
    ensures text == a + "\\_" + c + "\\!\n" + b + "\n"
  {
    var m := new TelegramMessage();
    EscapeAround(a, c);
    m.EscapedLine(a + "_" + c + "!");
    m.Line(b);
    text := m.Text();
  }

  lemma PlainNotification()
    ensures Plain("Laravel Notification")
  {
  }

  lemma PlainChannels()
    ensures Plain("Channels are awesome")
  {
  }

  /** `chunk(20)` turns chunking on, `chunk(0)` off, and a limit passed to `content` is the new chunk size. */
  method ChunkSwitch() returns (after20: bool, after0: bool, size: int)
    ensures after20 && !after0 && size == 10
  {
    var m := new TelegramMessage();
    m.Chunk(20);
    after20 := m.ShouldChunk();
    m.Chunk(0);
    after0 := m.ShouldChunk();
    m.Content("Laravel Notification Channels are awesome!", Some(10));
    size := m.chunkSize;
  }

  /** A second button goes into the first row next to the first one. */
  method TwoButtons() returns (markup: Value)
    ensures markup == Json(InlineKeyboard([[UrlButton("Laravel", "https://laravel.com"),
                                            UrlButton("Github", "https://github.com")]]))
  {
    var m := new TelegramMessage();
    var ok1 := m.base.Button("Laravel", "https://laravel.com");
    var ok2 := m.base.Button("Github", "https://github.com");
    var bs := [UrlButton("Laravel", "https://laravel.com"), UrlButton("Github", "https://github.com")];
    assert m.base.buttons == bs;
    LayoutIsUnique([bs], bs, 2);
    markup := m.base.GetPayloadValue("reply_markup");
  }

  /** A normal keyboard button: one row, one-time and resized. */
  method OneKeyboardButton() returns (markup: Value)
    ensures markup == Json(ReplyKeyboard([[KeyButton("Laravel", false, true)]], true, true))
  {
    var m := new TelegramMessage();
    var ok := m.base.Keyboard("Laravel", requestLocation := true);
    var ks := [KeyButton("Laravel", false, true)];
    assert m.base.keyboards == ks;
    LayoutIsUnique([ks], ks, 2);
    markup := m.base.GetPayloadValue("reply_markup");
  }

  /** `limit` then an option: the keys stay in the order they were written. */
  method UpdatesWithOptions() returns (payload: Payload)
    ensures payload == Payload(["limit", "timeout"], map["limit" := Int(5), "timeout" := Int(2)])
  {
    var u := TelegramUpdates.Create();
    u.Limit(Some(5));
    MergeSingle(u.payload, "timeout", Int(2));
    u.Options(Payload(["timeout"], map["timeout" := Int(2)]));
    payload := u.payload;
  }

  /** A venue with a recipient and one option holds the four constructor keys, `chat_id` and the option. */
  method VenueWithOptions(latitude: Value, longitude: Value, title: string, address: string)
    returns (payload: Payload)
    ensures payload.keys == ["latitude", "longitude", "title", "address", "chat_id", "foo"]
    ensures payload.values == map["latitude" := latitude, "longitude" := longitude,
                                  "title" := Str(title), "address" := Str(address),
                                  "chat_id" := Int(12345), "foo" := Str("bar")]
  {
    var v := new TelegramVenue(latitude, longitude, title, address);
    v.base.To(Int(12345));
    MergeSingle(v.base.payload, "foo", Str("bar"));
    v.base.Options(Payload(["foo"], map["foo" := Str("bar")]));
    payload := v.base.payload;
  }

  /** A contact has no recipient until `to`; with all setters it holds exactly five keys. */
  method FullContact(phoneNumber: string, firstName: string, lastName: string, vCard: string)
    returns (notGivenBefore: bool, notGivenAfter: bool, payload: Payload)
    ensures notGivenBefore && !notGivenAfter
    ensures payload.keys == ["phone_number", "chat_id", "first_name", "last_name", "vcard"]
    ensures payload.values == map["phone_number" := Str(phoneNumber), "chat_id" := Int(12345),
                                  "first_name" := Str(firstName), "last_name" := Str(lastName),
                                  "vcard" := Str(vCard)]
  {
    var c := new TelegramContact(phoneNumber);
    notGivenBefore := c.base.ToNotGiven();
    c.base.To(Int(12345));
    notGivenAfter := c.base.ToNotGiven();
    c.FirstName(firstName);
    c.LastName(lastName);
    c.VCard(vCard);
    payload := c.base.payload;
  }

  /** A poll with a recipient and two choices holds the question, `chat_id` and the choices. */
  method PollWithChoices(question: string) returns (payload: Payload)
    ensures payload == Payload(["question", "chat_id", "options"],
                               map["question" := Str(question), "chat_id" := Int(12345),
                                   "options" := Json(List([Str("Yes"), Str("No")]))])
  {
    var p := new TelegramPoll(question);
    p.base.To(Int(12345));
    p.Choices([Str("Yes"), Str("No")]);
    payload := p.base.payload;
  }

  /** A remote document: three named parts, caption, parse mode, then the document under its kind. */
  method RemoteDocumentParts(caption: Value, url: Value) returns (parts: seq<Part>)
    ensures parts == [NamedPart("caption", caption), NamedPart("parse_mode", Str("Markdown")),
                      NamedPart("document", url)]
  {
    var f := new TelegramFile(caption);
    f.File(url, "document", false, Null);
    parts := f.ToMultipart();
  }

  /** A local upload with a filename: the `file` entry is passed through with its name, handle and filename. */
  method LocalUploadParts(handle: Value, filename: string) returns (parts: seq<Part>)
    requires filename != "" && filename != "0"
    ensures parts == [NamedPart("caption", Str("")), NamedPart("parse_mode", Str("Markdown")),
                      PassThrough(Upload(FilePart("document", handle, Some(Str(filename)))))]
  {
    var f := new TelegramFile();
    f.File(Str(filename), "document", true, handle, Str(filename));
    parts := f.ToMultipart();
  }
}

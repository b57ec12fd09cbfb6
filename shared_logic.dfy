/**
  The state and setters every sendable message shares (the `HasSharedLogic`
  trait): the payload, the bot-token override, the normal and the inline
  keyboard buttons collected so far, and the send condition.

  Classes that use the trait hold one `Builder` as `base`.
 */
module SharedLogic {
  import opened Values
  import opened Payloads
  import opened ArrayChunk

  /** The three parse modes of the Bot API and their string values. */
  datatype Mode = Markdown | HTML | MarkdownV2 {
    function Text(): string {
      match this
      case Markdown => "Markdown"
      case HTML => "HTML"
      case MarkdownV2 => "MarkdownV2"
    }
  }

  /** `parseMode` accepts the enum or any string. */
  datatype ModeArg = EnumMode(mode: Mode) | RawMode(text: string)

  /** The string `parseMode` stores for its argument. */
  function ModeString(arg: ModeArg): (s: string)
    ensures arg.RawMode? ==> s == arg.text
    ensures arg.EnumMode? ==> s in {"Markdown", "HTML", "MarkdownV2"}
  {
    match arg
    case EnumMode(m) => m.Text()
    case RawMode(t) => t
  }

  /** Distinct parse modes store distinct strings. */
  lemma ModeTextInjective(m1: Mode, m2: Mode)
    ensures m1.Text() == m2.Text() <==> m1 == m2
  {
  }

  class Builder {
    var token: Option<string>
    var payload: Payload
    var keyboards: seq<KeyButton>
    var buttons: seq<InlineButton>
    var sendCondition: Option<bool>

    /** Everything except the payload. */
    ghost function Others(): (Option<string>, seq<KeyButton>, seq<InlineButton>, Option<bool>)
      reads this
    {
      (token, keyboards, buttons, sendCondition)
    }

    constructor()
      ensures payload == Empty && Others() == (None, [], [], None)
    {
      token := None;
      payload := Empty;
      keyboards := [];
      buttons := [];
      sendCondition := None;
    }

    /** `$this->payload[$key] = $value`, the statement every single-key setter is made of. */
    method Put(key: string, value: Value)
      modifies this
      ensures payload == Set(old(payload), key, value)
      ensures Lookup(payload, key) == Some(value)
      ensures Others() == old(Others())
    {
      payload := Set(payload, key, value);
    }

    /** `isset($this->payload['chat_id'])` fails. */
    predicate ToNotGiven()
      reads this
    {
      !IsSet(payload, "chat_id")
    }

    method To(chatId: Value)
      requires chatId.Int? || chatId.Str?
      modifies this
      ensures payload == Set(old(payload), "chat_id", chatId)
      ensures !ToNotGiven()
      ensures Others() == old(Others())
    {
      Put("chat_id", chatId);
    }

    method KeyboardMarkup(markup: JsonDoc)
      modifies this
      ensures payload == Set(old(payload), "reply_markup", Json(markup))
      ensures Others() == old(Others())
    {
      Put("reply_markup", Json(markup));
    }

    method Normal()
      modifies this
      ensures payload == Unset(old(payload), "parse_mode")
      ensures "parse_mode" !in Keys(payload)
      ensures Others() == old(Others())
    {
      payload := Unset(payload, "parse_mode");
    }

    method ParseMode(mode: ModeArg)
      modifies this
      ensures payload == Set(old(payload), "parse_mode", Str(ModeString(mode)))
      ensures Others() == old(Others())
    {
      Put("parse_mode", Str(ModeString(mode)));
    }

    /**
      Appends a normal keyboard button and lays all of them out in rows of
      `columns`. With `columns < 1` the layout throws after the append.
     */
    method Keyboard(text: string, columns: int := 2, requestContact: bool := false,
                    requestLocation: bool := false) returns (ok: bool)
      modifies this
      ensures keyboards == old(keyboards) + [KeyButton(text, requestContact, requestLocation)]
      ensures ok <==> columns >= 1
      ensures ok ==> payload == Set(old(payload), "reply_markup",
                                    Json(ReplyKeyboard(Chunk(keyboards, columns), true, true)))
      ensures !ok ==> payload == old(payload)
      ensures token == old(token) && buttons == old(buttons) && sendCondition == old(sendCondition)
    {
      keyboards := keyboards + [KeyButton(text, requestContact, requestLocation)];
      ok := columns >= 1;
      if ok {
        KeyboardMarkup(ReplyKeyboard(Chunk(keyboards, columns), true, true));
      }
    }

    method UpdateInlineKeyboard(columns: int) returns (ok: bool)
      modifies this
      ensures ok <==> columns >= 1
      ensures ok ==> payload == Set(old(payload), "reply_markup", Json(InlineKeyboard(Chunk(buttons, columns))))
      ensures !ok ==> payload == old(payload)
      ensures Others() == old(Others())
    {
      ok := columns >= 1;
      if ok {
        KeyboardMarkup(InlineKeyboard(Chunk(buttons, columns)));
      }
    }

    method Button(text: string, url: string, columns: int := 2) returns (ok: bool)
      modifies this
      ensures buttons == old(buttons) + [UrlButton(text, url)]
      ensures ok <==> columns >= 1
      ensures ok ==> payload == Set(old(payload), "reply_markup", Json(InlineKeyboard(Chunk(buttons, columns))))
      ensures !ok ==> payload == old(payload)
      ensures token == old(token) && keyboards == old(keyboards) && sendCondition == old(sendCondition)
    {
      buttons := buttons + [UrlButton(text, url)];
      ok := UpdateInlineKeyboard(columns);
    }

    method ButtonWithCallback(text: string, callbackData: string, columns: int := 2) returns (ok: bool)
      modifies this
      ensures buttons == old(buttons) + [CallbackButton(text, callbackData)]
      ensures ok <==> columns >= 1
      ensures ok ==> payload == Set(old(payload), "reply_markup", Json(InlineKeyboard(Chunk(buttons, columns))))
      ensures !ok ==> payload == old(payload)
      ensures token == old(token) && keyboards == old(keyboards) && sendCondition == old(sendCondition)
    {
      buttons := buttons + [CallbackButton(text, callbackData)];
      ok := UpdateInlineKeyboard(columns);
    }

    method ButtonWithWebApp(text: string, url: string, columns: int := 2) returns (ok: bool)
      modifies this
      ensures buttons == old(buttons) + [WebAppButton(text, url)]
      ensures ok <==> columns >= 1
      ensures ok ==> payload == Set(old(payload), "reply_markup", Json(InlineKeyboard(Chunk(buttons, columns))))
      ensures !ok ==> payload == old(payload)
      ensures token == old(token) && keyboards == old(keyboards) && sendCondition == old(sendCondition)
    {
      buttons := buttons + [WebAppButton(text, url)];
      ok := UpdateInlineKeyboard(columns);
    }

    method DisableNotification(disable: bool := true)
      modifies this
      ensures payload == Set(old(payload), "disable_notification", Bool(disable))
      ensures Others() == old(Others())
    {
      Put("disable_notification", Bool(disable));
    }

    method Token(t: string)
      modifies this
      ensures token == Some(t) && HasToken()
      ensures payload == old(payload)
      ensures keyboards == old(keyboards) && buttons == old(buttons) && sendCondition == old(sendCondition)
    {
      token := Some(t);
    }

    predicate HasToken()
      reads this
    {
      token != None
    }

    method Options(options: Payload)
      requires WellFormed(options)
      modifies this
      ensures payload == Merge(old(payload), options)
      ensures Others() == old(Others())
    {
      payload := Merge(payload, options);
    }

    /** `sendWhen` with a plain boolean condition. */
    method SendWhen(condition: bool)
      modifies this
      ensures sendCondition == Some(condition)
      ensures CanSend() == condition
      ensures payload == old(payload)
      ensures token == old(token) && keyboards == old(keyboards) && buttons == old(buttons)
    {
      sendCondition := Some(condition);
    }

    /** `$this->sendCondition ?? true` */
    predicate CanSend()
      reads this
    {
      match sendCondition
      case None => true
      case Some(c) => c
    }

    /** `$this->payload[$key] ?? null` */
    function GetPayloadValue(key: string): (r: Value)
      reads this
      ensures key !in payload.values ==> r == Null
      ensures key in payload.values ==> r == payload.values[key]
    {
      ValueOrNull(Lookup(payload, key))
    }

    function ToArray(): Payload
      reads this
    {
      payload
    }
  }
}

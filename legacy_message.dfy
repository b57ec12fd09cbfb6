/** The older message value object: plain public fields, no payload. */
module LegacyMessages {
  import opened Values
  import opened Payloads

  class Message {
    var chatId: Value
    var content: Value
    var actionText: Value
    var actionUrl: Value
    var options: Payload

    /** A new message has its content, no chat id, no action and no options. */
    constructor(content: Value := Str(""))
      ensures this.content == content
      ensures chatId == Null && actionText == Null && actionUrl == Null && options == Empty
    {
      this.content := content;
      chatId := Null;
      actionText := Null;
      actionUrl := Null;
      options := Empty;
    }

    method To(chatId: Value)
      modifies this
      ensures this.chatId == chatId
      ensures content == old(content) && actionText == old(actionText) && actionUrl == old(actionUrl)
      ensures options == old(options)
    {
      this.chatId := chatId;
    }

    method Content(content: Value)
      modifies this
      ensures this.content == content
      ensures chatId == old(chatId) && actionText == old(actionText) && actionUrl == old(actionUrl)
      ensures options == old(options)
    {
      this.content := content;
    }

    /** Sets the action button's text and URL together. */
    method Action(text: Value, url: Value)
      modifies this
      ensures actionText == text && actionUrl == url
      ensures chatId == old(chatId) && content == old(content) && options == old(options)
    {
      actionText := text;
      actionUrl := url;
    }

    /** Replaces the options outright: unlike the payload builders, nothing is merged. */
    method Options(options: Payload)
      modifies this
      ensures this.options == options
      ensures chatId == old(chatId) && content == old(content)
      ensures actionText == old(actionText) && actionUrl == old(actionUrl)
    {
      this.options := options;
    }
  }
}

/**
  The values a Telegram payload entry can hold.

  PHP payload values are untyped; the model keeps the kinds the builders
  actually store: scalars, an open file handle, the `{name, contents[, filename]}`
  array of a local-file upload, and the structured value behind a
  `json_encode`d string (keyboard markup or a poll's choices).
 */
module Values {

  datatype Option<+T> = None | Some(value: T)

  /** One inline keyboard button, in the three shapes the builders append. */
  datatype InlineButton =
    | UrlButton(text: string, url: string)
    | CallbackButton(text: string, callbackData: string)
    | WebAppButton(text: string, webAppUrl: string)

  /** One button of a normal (reply) keyboard. */
  datatype KeyButton = KeyButton(text: string, requestContact: bool, requestLocation: bool)

  /** The array a local-file upload stores under `file`; `filename` is present only when given. */
  datatype FilePart = FilePart(name: string, contents: Value, filename: Option<Value>)

  /** A document whose JSON encoding is stored in the payload. */
  datatype JsonDoc =
    | InlineKeyboard(inlineRows: seq<seq<InlineButton>>)
    | ReplyKeyboard(keyRows: seq<seq<KeyButton>>, oneTimeKeyboard: bool, resizeKeyboard: bool)
    | List(items: seq<Value>)

  datatype Value =
    | Null
    | Bool(b: bool)
    | Int(i: int)
    | Str(s: string)
    | Handle(id: nat)
    | Upload(part: FilePart)
    | Json(doc: JsonDoc)

  /** PHP truthiness: what `if ($v)` and a callback-less `filter()` test. */
  predicate Truthy(v: Value) {
    match v
    case Null => false
    case Bool(b) => b
    case Int(i) => i != 0
    case Str(s) => s != "" && s != "0"
    case Handle(_) => true
    case Upload(_) => true   // a non-empty array
    case Json(_) => true     // JSON text is never "" nor "0"
  }

  function DigitChar(d: nat): char
    requires d < 10
  {
    "0123456789"[d]
  }

  function NatToDecimal(n: nat): (s: string)
    ensures |s| >= 1
  {
    if n < 10 then [DigitChar(n)] else NatToDecimal(n / 10) + [DigitChar(n % 10)]
  }

  function IntToDecimal(i: int): string {
    if i < 0 then "-" + NatToDecimal(-i) else NatToDecimal(i)
  }

  /** The string PHP's `.=` appends to: the value converted to a string. */
  function AsString(v: Value): string {
    match v
    case Null => ""
    case Bool(b) => if b then "1" else ""
    case Int(i) => IntToDecimal(i)
    case Str(s) => s
    case Handle(id) => "Resource id #" + IntToDecimal(id)
    case Upload(_) => "Array"
    case Json(_) => ""   // the JSON text itself is not modelled
  }
}

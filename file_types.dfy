/** The file kinds the Bot API accepts, with their MIME types and allowed extensions. */
module FileTypes {
  import opened Values

  datatype FileType = Document | Photo | Audio | Video | Animation | Voice | VideoNote | Sticker
  {
    /** The case name. */
    function Name(): string {
      match this
      case Document => "Document"
      case Photo => "Photo"
      case Audio => "Audio"
      case Video => "Video"
      case Animation => "Animation"
      case Voice => "Voice"
      case VideoNote => "VideoNote"
      case Sticker => "Sticker"
    }

    /** The backing string value, also the Bot API field name. */
    function Value(): string {
      match this
      case Document => "document"
      case Photo => "photo"
      case Audio => "audio"
      case Video => "video"
      case Animation => "animation"
      case Voice => "voice"
      case VideoNote => "video_note"
      case Sticker => "sticker"
    }

    function MimeType(): string {
      match this
      case Document => "application/octet-stream"
      case Photo => "image/jpeg"
      case Audio => "audio/mp3"
      case Video => "video/mp4"
      case Animation => "video/mp4"
      case Voice => "audio/ogg"
      case VideoNote => "video/mp4"
      case Sticker => "image/webp"
    }

    /** The lower-case extensions a file of this kind may have; empty means any. */
    function AllowedExtensions(): seq<string> {
      match this
      case Document => []
      case Photo => ["jpg", "jpeg", "png", "webp"]
      case Audio => ["mp3", "ogg", "m4a"]
      case Video => ["mp4", "avi", "mov", "mkv"]
      case Animation => ["gif", "mp4"]
      case Voice => ["ogg", "mp3"]
      case VideoNote => ["mp4"]
      case Sticker => ["png", "webp", "tgs", "webm"]
    }

    /** Document and any kind without a list allow everything; otherwise the lower-cased extension must be listed. */
    function IsExtensionAllowed(extension: string): (allowed: bool)
      ensures allowed <==> this == Document || Lower(extension) in AllowedExtensions()
    {
      var extensions := AllowedExtensions();
      if this == Document || extensions == [] then true
      else Lower(extension) in extensions
    }
  }

  /** `strtolower`: ASCII upper-case letters only. */
  function LowerChar(c: char): (d: char)
    ensures 'A' <= c <= 'Z' ==> 'a' <= d <= 'z'
    ensures !('A' <= c <= 'Z') ==> d == c
  {
    if 'A' <= c <= 'Z' then (c as int + 32) as char else c
  }

  function Lower(s: string): (t: string)
    ensures |t| == |s|
    ensures forall i :: 0 <= i < |s| ==> t[i] == LowerChar(s[i])
  {
    if s == [] then [] else [LowerChar(s[0])] + Lower(s[1..])
  }

  lemma {:induction false} LowerIdempotent(s: string)
    ensures Lower(Lower(s)) == Lower(s)
  {
    if s != [] {
      LowerIdempotent(s[1..]);
    }
  }

  /** The eight cases in declaration order. */
  function Cases(): (cs: seq<FileType>)
    ensures |cs| == 8
  {
    [Document, Photo, Audio, Video, Animation, Voice, VideoNote, Sticker]
  }

  /** `FileType::toArray()`: each case name paired with its value, in case order. */
  function ToArray(): (table: seq<(string, string)>)
    ensures |table| == |Cases()|
    ensures forall i :: 0 <= i < |table| ==> table[i] == (Cases()[i].Name(), Cases()[i].Value())
  {
    seq(|Cases()|, i requires 0 <= i < |Cases()| => (Cases()[i].Name(), Cases()[i].Value()))
  }

  /** `FileType::tryFrom`: the case whose value is `s`. */
  function TryFrom(s: string): (r: Option<FileType>)
    ensures r.Some? ==> r.value.Value() == s
  {
    if s == "document" then Some(Document)
    else if s == "photo" then Some(Photo)
    else if s == "audio" then Some(Audio)
    else if s == "video" then Some(Video)
    else if s == "animation" then Some(Animation)
    else if s == "voice" then Some(Voice)
    else if s == "video_note" then Some(VideoNote)
    else if s == "sticker" then Some(Sticker)
    else None
  }

  /** Every case appears in `Cases()`, and its value reads back as that case. */
  lemma CasesComplete(t: FileType)
    ensures t in Cases()
    ensures TryFrom(t.Value()) == Some(t)
  {
    match t
    case Document => assert Cases()[0] == t;
    case Photo => assert Cases()[1] == t;
    case Audio => assert Cases()[2] == t;
    case Video => assert Cases()[3] == t;
    case Animation => assert Cases()[4] == t;
    case Voice => assert Cases()[5] == t;
    case VideoNote => assert Cases()[6] == t;
    case Sticker => assert Cases()[7] == t;
  }

  /** Distinct cases have distinct names and distinct values, so the table has no repeated key. */
  lemma NamesAndValuesDistinct(t1: FileType, t2: FileType)
    requires t1 != t2
    ensures t1.Name() != t2.Name() && t1.Value() != t2.Value()
  {
    CasesComplete(t1);
    CasesComplete(t2);
  }

  /** The three video-like kinds share `video/mp4`, and no other kind has it. */
  lemma VideoKindsShareMimeType(t: FileType)
    ensures t.MimeType() == "video/mp4" <==> t in {Video, Animation, VideoNote}
  {
  }

  /** A document accepts any extension. */
  lemma DocumentAllowsAll(extension: string)
    ensures Document.IsExtensionAllowed(extension)
  {
  }

  /** The check ignores the case of the extension. */
  lemma ExtensionCheckIgnoresCase(t: FileType, extension: string)
    ensures t.IsExtensionAllowed(extension) == t.IsExtensionAllowed(Lower(extension))
  {
    LowerIdempotent(extension);
  }

  /** Only Document accepts every extension: each other kind has a listed, non-empty set. */
  lemma OnlyDocumentAllowsAll(t: FileType)
    requires t != Document
    ensures !t.IsExtensionAllowed("exe")
  {
    assert Lower("exe") == "exe";
  }
}

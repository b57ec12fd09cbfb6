/** The audio builder: the audio file and Markdown as parse mode. */
module Audios {
  import opened Values
  import opened Payloads
  import opened SharedLogic

  class TelegramAudio {
    const base: Builder

    /** A new audio holds the audio, then Markdown as parse mode. */
    constructor(audio: string := "")
      ensures fresh(base)
      ensures base.payload == Payload(["audio", "parse_mode"], map["audio" := Str(audio), "parse_mode" := Str("Markdown")])
      ensures base.Others() == (None, [], [], None)
      ensures base.ToNotGiven()
    {
      base := new Builder();
      new;
      Audio(audio);
      base.Put("parse_mode", Str("Markdown"));
    }

    /** `create` builds exactly what the constructor builds. */
    static method Create(audio: string := "") returns (a: TelegramAudio)
      ensures fresh(a) && fresh(a.base)
      ensures a.base.payload == Payload(["audio", "parse_mode"], map["audio" := Str(audio), "parse_mode" := Str("Markdown")])
      ensures a.base.Others() == (None, [], [], None)
    {
      a := new TelegramAudio(audio);
    }

    method Audio(audio: string)
      modifies base
      ensures base.payload == Set(old(base.payload), "audio", Str(audio))
      ensures base.Others() == old(base.Others())
    {
      base.Put("audio", Str(audio));
    }
  }
}

/** The poll builder: a question and the list of answer choices. */
module Polls {
  import opened Values
  import opened Payloads
  import opened SharedLogic

  class TelegramPoll {
    const base: Builder

    /** A new poll holds only its question. */
    constructor(question: string := "")
      ensures fresh(base)
      ensures base.payload == Payload(["question"], map["question" := Str(question)])
      ensures base.Others() == (None, [], [], None)
    {
      base := new Builder();
      new;
      Question(question);
    }

    method Question(question: string)
      modifies base
      ensures base.payload == Set(old(base.payload), "question", Str(question))
      ensures base.Others() == old(base.Others())
    {
      base.Put("question", Str(question));
    }

    /** Stores the JSON list of the choices under `options`, replacing any earlier list. */
    method Choices(choices: seq<Value>)
      modifies base
      ensures base.payload == Set(old(base.payload), "options", Json(List(choices)))
      ensures base.Others() == old(base.Others())
    {
      base.Put("options", Json(List(choices)));
    }
  }
}

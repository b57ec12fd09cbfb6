/** The query for fetching updates: a payload of `getUpdates` parameters. */
module Updates {
  import opened Values
  import opened Payloads

  class TelegramUpdates {
    var payload: Payload

    constructor()
      ensures payload == Empty
    {
      payload := Empty;
    }

    /** `create` starts from an empty payload. */
    static method Create() returns (u: TelegramUpdates)
      ensures fresh(u)
      ensures u.payload == Empty
    {
      u := new TelegramUpdates();
    }

    /** Sets `limit`, to null when no limit is given. */
    method Limit(limit: Option<int> := None)
      modifies this
      ensures payload == Set(old(payload), "limit", if limit.Some? then Int(limit.value) else Null)
    {
      payload := Set(payload, "limit", if limit.Some? then Int(limit.value) else Null);
    }

    method Options(options: Payload)
      requires WellFormed(options)
      modifies this
      ensures payload == Merge(old(payload), options)
    {
      payload := Merge(payload, options);
    }
  }
}

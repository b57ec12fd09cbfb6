/** The location builder: its own payload of coordinates and recipient. */
module Locations {
  import opened Values
  import opened Payloads

  class TelegramLocation {
    var payload: Payload

    /** A new location holds latitude then longitude; both default to null. */
    constructor(latitude: Value := Null, longitude: Value := Null)
      ensures payload == Payload(["latitude", "longitude"], map["latitude" := latitude, "longitude" := longitude])
      ensures ToNotGiven()
    {
      payload := Set(Set(Empty, "latitude", latitude), "longitude", longitude);
    }

    /** The recipient; a null chat id still counts as not given. */
    method To(chatId: Value)
      modifies this
      ensures payload == Set(old(payload), "chat_id", chatId)
      ensures ToNotGiven() <==> chatId == Null
    {
      payload := Set(payload, "chat_id", chatId);
    }

    method Latitude(latitude: Value)
      modifies this
      ensures payload == Set(old(payload), "latitude", latitude)
    {
      payload := Set(payload, "latitude", latitude);
    }

    method Longitude(longitude: Value)
      modifies this
      ensures payload == Set(old(payload), "longitude", longitude)
    {
      payload := Set(payload, "longitude", longitude);
    }

    method Options(options: Payload)
      requires WellFormed(options)
      modifies this
      ensures payload == Merge(old(payload), options)
    {
      payload := Merge(payload, options);
    }

    predicate ToNotGiven()
      reads this
    {
      !IsSet(payload, "chat_id")
    }

    function ToArray(): Payload
      reads this
    {
      payload
    }
  }
}

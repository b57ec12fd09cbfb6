/** The venue builder: coordinates, title and address, plus the optional place identifiers. */
module Venues {
  import opened Values
  import opened Payloads
  import opened SharedLogic

  class TelegramVenue {
    const base: Builder

    /** A new venue holds latitude, longitude, title and address, in that order. */
    constructor(latitude: Value := Str(""), longitude: Value := Str(""), title: string := "", address: string := "")
      ensures fresh(base)
      ensures base.payload == Payload(["latitude", "longitude", "title", "address"],
                                      map["latitude" := latitude, "longitude" := longitude,
                                          "title" := Str(title), "address" := Str(address)])
      ensures base.Others() == (None, [], [], None)
    {
      base := new Builder();
      new;
      Latitude(latitude);
      Longitude(longitude);
      Title(title);
      Address(address);
    }

    method Latitude(latitude: Value)
      modifies base
      ensures base.payload == Set(old(base.payload), "latitude", latitude)
      ensures base.Others() == old(base.Others())
    {
      base.Put("latitude", latitude);
    }

    method Longitude(longitude: Value)
      modifies base
      ensures base.payload == Set(old(base.payload), "longitude", longitude)
      ensures base.Others() == old(base.Others())
    {
      base.Put("longitude", longitude);
    }

    method Title(title: string)
      modifies base
      ensures base.payload == Set(old(base.payload), "title", Str(title))
      ensures base.Others() == old(base.Others())
    {
      base.Put("title", Str(title));
    }

    method Address(address: string)
      modifies base
      ensures base.payload == Set(old(base.payload), "address", Str(address))
      ensures base.Others() == old(base.Others())
    {
      base.Put("address", Str(address));
    }

    method FoursquareId(foursquareId: string)
      modifies base
      ensures base.payload == Set(old(base.payload), "foursquare_id", Str(foursquareId))
      ensures base.Others() == old(base.Others())
    {
      base.Put("foursquare_id", Str(foursquareId));
    }

    method FoursquareType(foursquareType: string)
      modifies base
      ensures base.payload == Set(old(base.payload), "foursquare_type", Str(foursquareType))
      ensures base.Others() == old(base.Others())
    {
      base.Put("foursquare_type", Str(foursquareType));
    }

    method GooglePlaceId(googlePlaceId: string)
      modifies base
      ensures base.payload == Set(old(base.payload), "google_place_id", Str(googlePlaceId))
      ensures base.Others() == old(base.Others())
    {
      base.Put("google_place_id", Str(googlePlaceId));
    }

    method GooglePlaceType(googlePlaceType: string)
      modifies base
      ensures base.payload == Set(old(base.payload), "google_place_type", Str(googlePlaceType))
      ensures base.Others() == old(base.Others())
    {
      base.Put("google_place_type", Str(googlePlaceType));
    }
  }
}

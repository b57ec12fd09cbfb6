/** The contact builder: phone number and names of the shared contact. */
module Contacts {
  import opened Values
  import opened Payloads
  import opened SharedLogic

  class TelegramContact {
    const base: Builder

    /** A new contact holds only its phone number. */
    constructor(phoneNumber: string := "")
      ensures fresh(base)
      ensures base.payload == Payload(["phone_number"], map["phone_number" := Str(phoneNumber)])
      ensures base.Others() == (None, [], [], None)
      ensures base.ToNotGiven()
    {
      base := new Builder();
      new;
      PhoneNumber(phoneNumber);
    }

    method PhoneNumber(phoneNumber: string)
      modifies base
      ensures base.payload == Set(old(base.payload), "phone_number", Str(phoneNumber))
      ensures base.Others() == old(base.Others())
    {
      base.Put("phone_number", Str(phoneNumber));
    }

    method FirstName(firstName: string)
      modifies base
      ensures base.payload == Set(old(base.payload), "first_name", Str(firstName))
      ensures base.Others() == old(base.Others())
    {
      base.Put("first_name", Str(firstName));
    }

    method LastName(lastName: string)
      modifies base
      ensures base.payload == Set(old(base.payload), "last_name", Str(lastName))
      ensures base.Others() == old(base.Others())
    {
      base.Put("last_name", Str(lastName));
    }

    method VCard(vCard: string)
      modifies base
      ensures base.payload == Set(old(base.payload), "vcard", Str(vCard))
      ensures base.Others() == old(base.Others())
    {
      base.Put("vcard", Str(vCard));
    }
  }
}

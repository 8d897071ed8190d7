/**
 * The request handlers that touch the in-memory profile store: `POST
 * /create`, `GET /p/:id` and `GET /p/:id/vcard`. The store is the one
 * piece of mutable state; the UUID generator, the clock and the QR-code
 * library are inputs of the create handler.
 */
module Server {
  import opened JsValues
  import opened Profiles
  import opened Links
  import VCard

  const BadRequestMessage: string := "Full name and email are required."
  const ServerErrorMessage: string := "Server error"
  const NotFoundMessage: string := "Profile not found."

  /** The arguments of the QR-code call: the text to encode and the fixed rendering options. */
  datatype QrRequest = QrRequest(text: string, errorCorrectionLevel: char, scale: nat)

  const QrErrorCorrectionLevel: char := 'H'
  const QrScale: nat := 8

  /**
   * A response: a plain-text error with its status code, or a 200 whose
   * body is what the handler renders or sends.
   */
  datatype Reply<T> = PlainText(status: int, message: string) | Ok(body: T)

  const BadRequest: Reply<CreatedPage> := PlainText(400, BadRequestMessage)
  const ServerError: Reply<CreatedPage> := PlainText(500, ServerErrorMessage)

  /** What a lookup route answers for an id that is not stored. */
  function NotFound<T>(): Reply<T> {
    PlainText(404, NotFoundMessage)
  }

  /** The values `POST /create` hands to the form template on success. */
  datatype CreatedPage = CreatedPage(profileUrl: string, qrDataUrl: string, preview: Profile)

  /** The process-wide `Map` from profile id to profile. */
  class ProfileStore {
    var profiles: map<string, Profile>

    /** Every record is stored under its own id. */
    ghost predicate Valid()
      reads this
    {
      forall id :: id in profiles ==> profiles[id].id == id
    }

    constructor ()
      ensures Valid() && profiles == map[]
    {
      profiles := map[];
    }

    /**
     * `POST /create`. `freshId` and `now` stand for the UUID and the
     * timestamp the handler generates, `qr` for the QR-code library (None
     * when its promise rejects). The record is stored before the QR code is
     * generated, so a QR failure answers 500 with the record already kept.
     */
    method Create(form: Form, req: Request, freshId: string, now: string, qr: QrRequest -> Option<string>)
      returns (r: Reply<CreatedPage>)
      requires Valid()
      requires freshId !in profiles
      modifies this
      ensures Valid()
      ensures r == BadRequest <==> !Acceptable(form)
      ensures !Acceptable(form) ==> profiles == old(profiles)
      ensures Acceptable(form) ==>
        && profiles.Keys == old(profiles).Keys + {freshId}
        && profiles[freshId] == BuildProfile(form, freshId, now)
        && (forall id :: id in old(profiles) ==> profiles[id] == old(profiles)[id])
      ensures Acceptable(form) ==>
        var url := ProfileUrl(req, freshId);
        match qr(QrRequest(url, QrErrorCorrectionLevel, QrScale))
        case None => r == ServerError
        case Some(image) => r == Ok(CreatedPage(url, image, profiles[freshId]))
    {
      if !Acceptable(form) {
        return BadRequest;
      }
      var profile := BuildProfile(form, freshId, now);
      profiles := profiles[freshId := profile];
      var url := ProfileUrl(req, freshId);
      var image := qr(QrRequest(url, QrErrorCorrectionLevel, QrScale));
      if image.None? {
        return ServerError;
      }
      r := Ok(CreatedPage(url, image.value, profile));
    }

    /** `GET /p/:id`: the stored record, or not-found for an unknown id. */
    method View(id: string) returns (r: Reply<Profile>)
      requires Valid()
      ensures id !in profiles ==> r == NotFound()
      ensures id in profiles ==> r == Ok(profiles[id]) && r.body.id == id
    {
      if id !in profiles {
        return NotFound();
      }
      r := Ok(profiles[id]);
    }

    /** `GET /p/:id/vcard`: the record's contact card, or not-found for an unknown id. */
    method ContactCard(id: string) returns (r: Reply<string>)
      ensures id !in profiles ==> r == NotFound()
      ensures id in profiles ==> r == Ok(VCard.Text(profiles[id]))
    {
      if id !in profiles {
        return NotFound();
      }
      r := Ok(VCard.Text(profiles[id]));
    }
  }

  /**
   * A create followed by a view of the same id: an accepted form is found
   * with exactly the submitted values, a rejected one leaves nothing behind,
   * and the QR outcome does not matter to the view.
   */
  method CreateThenView(store: ProfileStore, form: Form, req: Request, freshId: string, now: string,
                        qr: QrRequest -> Option<string>)
    returns (created: Reply<CreatedPage>, viewed: Reply<Profile>)
    requires store.Valid() && freshId !in store.profiles
    modifies store
    ensures store.Valid()
    ensures !Acceptable(form) ==> created == BadRequest && viewed == NotFound()
    ensures Acceptable(form) ==> viewed == Ok(BuildProfile(form, freshId, now))
  {
    created := store.Create(form, req, freshId, now, qr);
    viewed := store.View(freshId);
  }

  /**
   * Two accepted creates with the ids the generator hands out: both records
   * stay retrievable, each under its own id, and their URLs differ.
   */
  method CreateTwice(store: ProfileStore, first: Form, second: Form, req: Request,
                     id1: string, id2: string, now1: string, now2: string,
                     qr: QrRequest -> Option<string>)
    returns (view1: Reply<Profile>, view2: Reply<Profile>)
    requires store.Valid() && id1 !in store.profiles && id2 !in store.profiles && id1 != id2
    requires Acceptable(first) && Acceptable(second)
    modifies store
    ensures store.Valid()
    ensures view1 == Ok(BuildProfile(first, id1, now1))
    ensures view2 == Ok(BuildProfile(second, id2, now2))
    ensures ProfileUrl(req, id1) != ProfileUrl(req, id2)
  {
    var created1 := store.Create(first, req, id1, now1, qr);
    var created2 := store.Create(second, req, id2, now2, qr);
    view1 := store.View(id1);
    view2 := store.View(id2);
    ProfileUrlInjective(req, id1, id2);
  }
}

/** The cookie-consent service: whether the banner is shown, and the
    preference remembered under the `cookieConsent` storage key. */
module CookieConsent {
  import opened Common
  import opened Storage

  const ConsentKey := "cookieConsent"

  /** The banner is hidden exactly when the stored preference is `accepted`. */
  function ShowConsentFor(items: map<string, string>): (show: bool)
    ensures !show <==> ConsentKey in items && items[ConsentKey] == "accepted"
  {
    !(ConsentKey in items && items[ConsentKey] == "accepted")
  }

  /** Storage after `acceptCookies` or `rejectCookies`. */
  function Remember(items: map<string, string>, choice: string): (r: map<string, string>)
    ensures ConsentKey in r && r[ConsentKey] == choice
    ensures forall k :: k in items && k != ConsentKey ==> k in r && r[k] == items[k]
    ensures forall k :: k in r && k != ConsentKey ==> k in items
  {
    items[ConsentKey := choice]
  }

  /** Accepting twice stores what accepting once stores. */
  lemma AcceptIdempotent(items: map<string, string>)
    ensures Remember(Remember(items, "accepted"), "accepted") == Remember(items, "accepted")
  {
  }

  /** After accepting, a service constructed on the same storage starts with
      the banner hidden; after rejecting, with the banner shown. */
  lemma RememberedChoiceRestored(items: map<string, string>)
    ensures !ShowConsentFor(Remember(items, "accepted"))
    ensures ShowConsentFor(Remember(items, "rejected"))
  {
  }

  class CookieConsentService {
    var showConsent: bool
    const storage: LocalStorage

    constructor (storage: LocalStorage)
      ensures this.storage == storage
      ensures showConsent == ShowConsentFor(storage.items)
    {
      this.storage := storage;
      showConsent := true;
      var cookieConsent := storage.GetItem(ConsentKey);
      if cookieConsent == Some("accepted") {
        showConsent := false;
      }
    }

    method AcceptCookies()
      modifies this, storage
      ensures storage.items == Remember(old(storage.items), "accepted")
      ensures !showConsent
    {
      storage.SetItem(ConsentKey, "accepted");
      showConsent := false;
    }

    method RejectCookies()
      modifies this, storage
      ensures storage.items == Remember(old(storage.items), "rejected")
      ensures showConsent
    {
      storage.SetItem(ConsentKey, "rejected");
      showConsent := true;
    }
  }
}

/**
 * The "contact us on WhatsApp" link: a `wa.me` URL for the shop's fixed
 * phone number, with the message, when there is one, percent-encoded into
 * a `text` query parameter. `encodeURIComponent` is supplied by the caller
 * as `encode` and left uninterpreted; opening the link is not modelled.
 */
module WhatsApp {
  import opened Wrappers

  const PhoneNumber := "923412359702"
  const BaseUrl := "https://wa.me/" + PhoneNumber
  const TextQuery := "?text="

  /** The message the floating button always sends. */
  const Greeting := "Hello! I'm interested in your AC services."

  /** JavaScript truthiness of an optional string argument: both a
      missing message and "" are falsy. */
  predicate Truthy(message: Option<string>)
  {
    message.Some? && message.value != ""
  }

  /** The URL `openWhatsApp(message)` opens. */
  function WhatsAppUrl(encode: string -> string, message: Option<string>): (url: string)
    ensures |url| >= |BaseUrl| && url[..|BaseUrl|] == BaseUrl
    ensures url[..|"https://wa.me/"|] == "https://wa.me/"
    ensures url == BaseUrl <==> !Truthy(message)
  {
    if Truthy(message) then BaseUrl + TextQuery + encode(message.value) else BaseUrl
  }

  /** The encoded text a `wa.me` URL for the shop carries, if any. */
  function EncodedText(url: string): Option<string>
  {
    var prefix := BaseUrl + TextQuery;
    if |url| >= |prefix| && url[..|prefix|] == prefix then Some(url[|prefix|..]) else None
  }

  /** Reading the text back out of a generated URL gives the encoded
      message exactly when the message was non-empty, and nothing for a
      missing or empty message. */
  lemma UrlCarriesMessage(encode: string -> string, message: Option<string>)
    ensures EncodedText(WhatsAppUrl(encode, message))
         == if Truthy(message) then Some(encode(message.value)) else None
  {
    var url := WhatsAppUrl(encode, message);
    var prefix := BaseUrl + TextQuery;
    if Truthy(message) {
      assert url == prefix + encode(message.value);
      assert url[..|prefix|] == prefix;
      assert url[|prefix|..] == encode(message.value);
    } else {
      assert |url| < |prefix|;
    }
  }

  /** The URL the floating button opens. */
  function FloatingButtonUrl(encode: string -> string): (url: string)
    ensures |url| >= |BaseUrl| && url[..|BaseUrl|] == BaseUrl
    ensures EncodedText(url) == Some(encode(Greeting))
  {
    UrlCarriesMessage(encode, Some(Greeting));
    WhatsAppUrl(encode, Some(Greeting))
  }
}

/**
 * The two synchronous configuration queries of the slideshow page whose
 * answer is gated on the HTTP status: the slideshow interval and the
 * Home Assistant switch. The response (status code and body text) is an
 * input; the request itself is not modelled.
 */
module StatusQueries {
  import opened Wrappers
  import opened Decimal

  const HTTP_OK: int := 200
  const DEFAULT_INTERVAL_SECONDS: nat := 30
  const MILLISECONDS_PER_SECOND: nat := 1000

  /**
   * What getSlideshowInterval hands to the timer: the response text as it
   * came, or the number 30.
   */
  datatype Interval = ResponseText(text: string) | Seconds(seconds: nat)

  /** getSlideshowInterval: the body on status 200, the default otherwise. */
  function SlideshowInterval(status: int, responseText: string): (r: Interval)
    ensures r.ResponseText? <==> status == HTTP_OK
    ensures r.ResponseText? ==> r.text == responseText
    ensures r.Seconds? ==> r.seconds == DEFAULT_INTERVAL_SECONDS
  {
    if status == HTTP_OK then ResponseText(responseText) else Seconds(DEFAULT_INTERVAL_SECONDS)
  }

  /** isHomeAssistantEnabled: only a 200 whose body is exactly "true" enables it. */
  function HomeAssistantEnabled(status: int, responseText: string): (r: bool)
    ensures r <==> status == HTTP_OK && responseText == "true"
  {
    if status == HTTP_OK then responseText == "true" else false
  }

  /**
   * The product `intervalInSeconds * 1000` handed to setInterval. A response
   * text is converted only when it is a plain decimal numeral; any other
   * text is left to JavaScript's string-to-number coercion and has no
   * value here.
   */
  function TimerDelayMs(interval: Interval): (r: Option<nat>)
    ensures interval.Seconds? ==> r == Some(interval.seconds * MILLISECONDS_PER_SECOND)
    ensures interval.ResponseText? ==> (r.Some? <==> ParseNumeral(interval.text).Some?)
    ensures interval.ResponseText? && r.Some? ==>
      r.value == ParseNumeral(interval.text).value * MILLISECONDS_PER_SECOND
  {
    match interval
    case Seconds(s) => Some(s * MILLISECONDS_PER_SECOND)
    case ResponseText(text) =>
      match ParseNumeral(text)
      case Some(n) => Some(n * MILLISECONDS_PER_SECOND)
      case None => None
  }

  /**
   * A configured interval of `n` seconds hands `n * 1000` to setInterval; a
   * failed query hands it 30000.
   */
  lemma TimerDelayFromResponse(status: int, n: nat)
    ensures status == HTTP_OK ==>
      TimerDelayMs(SlideshowInterval(status, Numeral(n))) == Some(n * 1000)
    ensures status != HTTP_OK ==>
      TimerDelayMs(SlideshowInterval(status, Numeral(n))) == Some(30000)
  {
    NumeralRoundTrip(n);
  }
}

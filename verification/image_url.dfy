/**
 * The image URL that setImage builds: the page's base URL, the resource
 * route, the resource id and the available screen width and height, and
 * a reader that recovers the three values from it.
 */
module ResourceUrl {
  import opened Wrappers
  import opened Decimal

  const RESOURCES_ROUTE := "api/resources/"

  /** What an image URL asks the backend for. */
  datatype ImageRequest = ImageRequest(resourceId: string, width: nat, height: nat)

  /**
   * `${base}api/resources/${id}/${availWidth}/${availHeight}`: the resource
   * id, width and height can always be read back from it.
   */
  function ImageUrl(baseUrl: string, resourceId: string, availWidth: nat, availHeight: nat): (url: string)
    ensures ParseImageUrl(baseUrl, url) == Some(ImageRequest(resourceId, availWidth, availHeight))
  {
    var prefix := baseUrl + RESOURCES_ROUTE;
    var path := resourceId + "/" + Numeral(availWidth) + "/" + Numeral(availHeight);
    RequestPathRoundTrip(resourceId, availWidth, availHeight);
    var url := prefix + path;
    assert url[..|prefix|] == prefix && url[|prefix|..] == path;
    assert url == baseUrl + RESOURCES_ROUTE + resourceId + "/" + Numeral(availWidth) + "/" + Numeral(availHeight);
    url
  }

  /** The position of the last `c` in `s`, if any. */
  function LastIndexOf(s: string, c: char): (r: Option<nat>)
    ensures r.Some? ==> r.value < |s| && s[r.value] == c
    ensures r.Some? ==> forall k :: r.value < k < |s| ==> s[k] != c
    ensures r.None? ==> forall k :: 0 <= k < |s| ==> s[k] != c
  {
    if s == [] then None
    else if s[|s| - 1] == c then Some(|s| - 1)
    else LastIndexOf(s[..|s| - 1], c)
  }

  /** Splits `s` around its last '/', if it has one. */
  function SplitAtLastSlash(s: string): (r: Option<(string, string)>)
  {
    match LastIndexOf(s, '/')
    case None => None
    case Some(j) => Some((s[..j], s[j + 1..]))
  }

  /** Reads `id/width/height` from the right; the id may itself hold '/'. */
  function ParseRequestPath(path: string): (r: Option<ImageRequest>)
  {
    match SplitAtLastSlash(path)
    case None => None
    case Some((head, heightText)) =>
      match SplitAtLastSlash(head)
      case None => None
      case Some((resourceId, widthText)) =>
        match (ParseNumeral(widthText), ParseNumeral(heightText))
        case (Some(w), Some(h)) => Some(ImageRequest(resourceId, w, h))
        case _ => None
  }

  /**
   * Reads an image URL under `baseUrl`: the resource route, then the
   * request path.
   */
  function ParseImageUrl(baseUrl: string, url: string): (r: Option<ImageRequest>)
  {
    var prefix := baseUrl + RESOURCES_ROUTE;
    if |url| < |prefix| || url[..|prefix|] != prefix then None
    else ParseRequestPath(url[|prefix|..])
  }

  lemma NoSlashInNumeral(n: nat)
    ensures forall k :: 0 <= k < |Numeral(n)| ==> Numeral(n)[k] != '/'
  {
  }

  /** A '/' followed by a slash-free tail is the last '/'. */
  lemma {:induction false} LastSlash(a: string, b: string)
    requires forall k :: 0 <= k < |b| ==> b[k] != '/'
    ensures LastIndexOf(a + "/" + b, '/') == Some(|a|)
    decreases |b|
  {
    var s := a + "/" + b;
    if b != [] {
      assert s[|s| - 1] == b[|b| - 1];
      assert s[..|s| - 1] == a + "/" + b[..|b| - 1];
      LastSlash(a, b[..|b| - 1]);
    }
  }

  lemma SplitAfterLastSlash(a: string, b: string)
    requires forall k :: 0 <= k < |b| ==> b[k] != '/'
    ensures SplitAtLastSlash(a + "/" + b) == Some((a, b))
  {
    var s := a + "/" + b;
    LastSlash(a, b);
    assert s[..|a|] == a;
    assert s[|a| + 1..] == b;
  }

  lemma RequestPathRoundTrip(resourceId: string, width: nat, height: nat)
    ensures ParseRequestPath(resourceId + "/" + Numeral(width) + "/" + Numeral(height))
         == Some(ImageRequest(resourceId, width, height))
  {
    var head := resourceId + "/" + Numeral(width);
    NoSlashInNumeral(height);
    SplitAfterLastSlash(head, Numeral(height));
    NoSlashInNumeral(width);
    SplitAfterLastSlash(resourceId, Numeral(width));
    NumeralRoundTrip(width);
    NumeralRoundTrip(height);
  }

  /** Two different requests never share an image URL. */
  lemma ImageUrlInjective(baseUrl: string, a: ImageRequest, b: ImageRequest)
    requires ImageUrl(baseUrl, a.resourceId, a.width, a.height) == ImageUrl(baseUrl, b.resourceId, b.width, b.height)
    ensures a == b
  {
    var url := ImageUrl(baseUrl, a.resourceId, a.width, a.height);
    assert ParseImageUrl(baseUrl, url) == Some(a);
    assert ParseImageUrl(baseUrl, url) == Some(b);
  }
}

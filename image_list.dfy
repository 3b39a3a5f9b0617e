/**
 * The `Gallery` page's image list: the manifest it fetched (or the failure
 * to fetch it) becomes the non-empty list of image URLs the carousel shows.
 * The fetch itself is not modelled; its outcome is the input.
 */
module ImageList {
  import opened Wrappers

  /** A parsed JSON value, as far as the list step tells values apart. */
  datatype Json = JString(str: string) | JArray(elems: seq<Json>) | JOther

  /** How the request for the manifest ended. */
  datatype Response =
    | NetworkError            // `fetch` rejected
    | NotOk                   // a response whose status is not ok
    | Ok(body: Option<Json>)  // an ok response; `None` when its body is not JSON

  const ImageRoot := "/images/"

  /** The names used when the manifest is not a non-empty array. */
  const DefaultNames: seq<Json> := [JString("elephantdanielfirman.jpg"), JString("hefti.webp"), JString("fishman.jpg")]

  /** The list shown when loading or normalising the manifest fails. */
  const FallbackImages: seq<string> := [
    "/images/elephantdanielfirman.jpg",
    "/images/hefti.webp",
    "/images/emilalzamora.webp",
    "/images/rothko.jpg",
    "/images/mariamartins.jpg",
    "/images/Remedios.jpg"
  ]

  predicate StartsWith(s: string, prefix: string)
  {
    prefix <= s
  }

  predicate IsAbsolute(name: string)
  {
    StartsWith(name, "http")
  }

  /** `n.replace(/^\//, '')`: drop one leading slash, if there is one. */
  function StripLeadingSlash(name: string): (r: string)
    ensures r == name || "/" + r == name
    ensures r == name <==> name == [] || name[0] != '/'
  {
    if name != [] && name[0] == '/' then name[1..] else name
  }

  /**
   * One manifest name as a URL: an `http` name is kept, any other name is
   * put under the image root with at most one leading slash removed.
   */
  function NormalizeName(name: string): (url: string)
    ensures IsAbsolute(name) ==> url == name
    ensures !IsAbsolute(name) ==> StartsWith(url, ImageRoot)
    ensures !IsAbsolute(name) ==> url[|ImageRoot|..] == name || "/" + url[|ImageRoot|..] == name
    ensures !IsAbsolute(name) ==> (url[|ImageRoot|..] == name <==> name == [] || name[0] != '/')
  {
    if IsAbsolute(name) then name else ImageRoot + StripLeadingSlash(name)
  }

  /**
   * `names.map(...)` over a JSON array: `None` when some element is not a
   * string, on which `startsWith` throws.
   */
  function NormalizeAll(names: seq<Json>): (urls: Option<seq<string>>)
    ensures urls.Some? <==> forall i :: 0 <= i < |names| ==> names[i].JString?
    ensures urls.Some? ==> |urls.value| == |names|
    ensures urls.Some? ==> forall i :: 0 <= i < |names| ==> urls.value[i] == NormalizeName(names[i].str)
  {
    if names == [] then Some([])
    else match (names[0], NormalizeAll(names[1..]))
      case (JString(n), Some(rest)) => Some([NormalizeName(n)] + rest)
      case _ => None
  }

  /** The names line 168 settles on: the manifest if it is a non-empty array, else the defaults. */
  function ManifestNames(list: Json): (names: seq<Json>)
    ensures |names| > 0
    ensures list.JArray? && |list.elems| > 0 ==> names == list.elems
    ensures !(list.JArray? && |list.elems| > 0) ==> names == DefaultNames
  {
    if list.JArray? && |list.elems| > 0 then list.elems
    else DefaultNames
  }

  /** The list handed to the carousel once the request has ended. */
  function LoadImages(response: Response): (images: seq<string>)
    ensures |images| > 0
  {
    match response
    case NetworkError => FallbackImages
    case NotOk => Normalized(JArray([]))
    case Ok(None) => FallbackImages
    case Ok(Some(list)) => Normalized(list)
  }

  /** The success branch: normalise the settled names, or fall back if that throws. */
  function Normalized(list: Json): (images: seq<string>)
    ensures |images| > 0
  {
    match NormalizeAll(ManifestNames(list))
    case Some(urls) => urls
    case None => FallbackImages
  }

  /** The default names, normalised. */
  const DefaultImages: seq<string> := ["/images/elephantdanielfirman.jpg", "/images/hefti.webp", "/images/fishman.jpg"]

  /** A response that yields no usable array (a non-ok status, or JSON that is not a non-empty array) gives the three default images. */
  lemma {:induction false} DefaultsWhenNoManifest(response: Response)
    requires response.NotOk? || (response.Ok? && response.body.Some? &&
             !(response.body.value.JArray? && |response.body.value.elems| > 0))
    ensures LoadImages(response) == DefaultImages
  {
    var list := if response.NotOk? then JArray([]) else response.body.value;
    assert ManifestNames(list) == DefaultNames;
    DefaultNamesNormalized();
  }

  lemma DefaultNamesNormalized()
    ensures NormalizeAll(DefaultNames) == Some(DefaultImages)
  {
    var names := DefaultNames;
    assert forall i :: 0 <= i < |names| ==> names[i].JString?;
    var urls := NormalizeAll(names).value;
    assert names[0].str[0] != "http"[0];
    LocalNameNormalized(names[0].str);
    assert names[1].str[1] != "http"[1];
    LocalNameNormalized(names[1].str);
    assert names[2].str[0] != "http"[0];
    LocalNameNormalized(names[2].str);
    DefaultImagesRooted();
    assert urls == DefaultImages;
  }

  /** Each default image is its default name under the image root. */
  lemma DefaultImagesRooted()
    ensures |DefaultImages| == |DefaultNames|
    ensures ImageRoot + DefaultNames[0].str == DefaultImages[0]
    ensures ImageRoot + DefaultNames[1].str == DefaultImages[1]
    ensures ImageRoot + DefaultNames[2].str == DefaultImages[2]
  {
  }

  /** A name that is not absolute and has no leading slash is just put under the root. */
  lemma LocalNameNormalized(name: string)
    requires name != [] && name[0] != '/' && !IsAbsolute(name)
    ensures NormalizeName(name) == ImageRoot + name
  {
  }

  /** A failed request, or a body that is not JSON, gives the fixed six-entry list. */
  lemma FallbackOnFailure(response: Response)
    requires response.NetworkError? || response == Ok(None)
    ensures LoadImages(response) == FallbackImages && |LoadImages(response)| == 6
  {
  }

  /** A non-empty manifest of strings is used, normalised name by name. */
  lemma ManifestUsed(names: seq<Json>)
    requires |names| > 0
    requires forall i :: 0 <= i < |names| ==> names[i].JString?
    ensures var images := LoadImages(Ok(Some(JArray(names))));
      |images| == |names| &&
      forall i :: 0 <= i < |names| ==> images[i] == NormalizeName(names[i].str)
  {
  }

  /** A non-empty manifest with an element that is not a string gives the fixed six-entry list. */
  lemma NonStringEntryFallsBack(names: seq<Json>, k: nat)
    requires k < |names| && !names[k].JString?
    ensures LoadImages(Ok(Some(JArray(names)))) == FallbackImages
  {
  }

  /**
   * Normalising is not idempotent: a name already under the image root is
   * nested once more.
   */
  lemma NormalizeNestsRoot()
    ensures NormalizeName("/images/a.jpg") == "/images/images/a.jpg"
  {
    var name := "/images/a.jpg";
    assert name[0] != "http"[0];
    assert StripLeadingSlash(name) == "images/a.jpg";
  }

  /** A local file whose name begins with "http" is kept as a bare name. */
  lemma HttpPrefixedLocalName()
    ensures NormalizeName("httpd.png") == "httpd.png"
  {
    assert "httpd.png"[..4] == "http";
  }
}

/**
 * The part of the network utility that is not I/O: how the icon of a reply is
 * chosen, and the address each icon is downloaded from. Downloads are given as
 * an oracle: `outcomes[i]` is what downloading the icon of the i-th entry of
 * the reply's condition list yields, the decoded image bytes or a failure.
 */
module Network {
  import opened Wrappers
  import opened WeatherModel

  const IconUrlPrefix: string := "https://openweathermap.org/img/wn/"
  const IconUrlSuffix: string := "@2x.png"

  /** The bundled image used when no icon could be downloaded. */
  const PlaceholderIcon: string := "icon_demo"

  /** The outcome of one icon download: the decoded image bytes, or a failure. */
  type IconDownload = Option<seq<bv8>>

  /** The address the icon named `name` is downloaded from. */
  function IconUrl(name: string): (url: string)
    ensures |url| == |IconUrlPrefix| + |name| + |IconUrlSuffix|
    ensures url[..|IconUrlPrefix|] == IconUrlPrefix
    ensures url[|IconUrlPrefix|..|url| - |IconUrlSuffix|] == name
    ensures url[|url| - |IconUrlSuffix|..] == IconUrlSuffix
  {
    IconUrlPrefix + name + IconUrlSuffix
  }

  /** The icon name an icon address stands for, if it has the icon address shape. */
  function IconName(url: string): (name: Option<string>)
    ensures name.Some? <==>
              |url| >= |IconUrlPrefix| + |IconUrlSuffix|
              && url[..|IconUrlPrefix|] == IconUrlPrefix
              && url[|url| - |IconUrlSuffix|..] == IconUrlSuffix
  {
    if |url| >= |IconUrlPrefix| + |IconUrlSuffix|
       && url[..|IconUrlPrefix|] == IconUrlPrefix
       && url[|url| - |IconUrlSuffix|..] == IconUrlSuffix
    then Some(url[|IconUrlPrefix|..|url| - |IconUrlSuffix|])
    else None
  }

  /** Reading the name back from an icon address gives the name it was built from. */
  lemma IconUrlRoundTrip(name: string)
    ensures IconName(IconUrl(name)) == Some(name)
  {
  }

  /** Every address of the icon shape is the address of the name read from it. */
  lemma IconNameRoundTrip(url: string)
    requires IconName(url).Some?
    ensures IconUrl(IconName(url).value) == url
  {
  }

  /** The addresses of the icons of `conditions`, in list order. */
  function IconUrls(conditions: seq<Condition>): (urls: seq<string>)
    ensures |urls| == |conditions|
    ensures forall i :: 0 <= i < |conditions| ==> urls[i] == IconUrl(conditions[i].icon)
  {
    seq(|conditions|, i requires 0 <= i < |conditions| => IconUrl(conditions[i].icon))
  }

  /** The position of the first successful download, or the number of outcomes if none succeeded. */
  function FirstSuccess(outcomes: seq<IconDownload>): (k: nat)
    ensures k <= |outcomes|
    ensures forall j :: 0 <= j < k ==> outcomes[j].None?
    ensures k < |outcomes| ==> outcomes[k].Some?
  {
    if outcomes == [] then 0
    else if outcomes[0].Some? then 0
    else 1 + FirstSuccess(outcomes[1..])
  }

  /** The icon a reply ends up with: the first successful download, or the placeholder. */
  function ChosenIcon(outcomes: seq<IconDownload>): Image
  {
    var k := FirstSuccess(outcomes);
    if k < |outcomes| then Decoded(outcomes[k].value) else Asset(PlaceholderIcon)
  }

  /** How many downloads are made: up to and including the first success, else all of them. */
  function Attempts(outcomes: seq<IconDownload>): nat
  {
    var k := FirstSuccess(outcomes);
    if k < |outcomes| then k + 1 else |outcomes|
  }

  /**
   * The successful download at position `k`, with only failures before it,
   * decides the icon, and no download is made after it.
   */
  lemma FirstDownloadWins(outcomes: seq<IconDownload>, k: nat)
    requires k < |outcomes| && outcomes[k].Some?
    requires forall j :: 0 <= j < k ==> outcomes[j].None?
    ensures ChosenIcon(outcomes) == Decoded(outcomes[k].value)
    ensures Attempts(outcomes) == k + 1
  {
  }

  /** The placeholder is used exactly when every download fails, an empty list included; then all are tried. */
  lemma PlaceholderIffAllFail(outcomes: seq<IconDownload>)
    ensures ChosenIcon(outcomes) == Asset(PlaceholderIcon)
            <==> forall j :: 0 <= j < |outcomes| ==> outcomes[j].None?
    ensures ChosenIcon(outcomes) == Asset(PlaceholderIcon) ==> Attempts(outcomes) == |outcomes|
  {
  }

  /**
   * Builds the record for a decoded reply: tries the icons in list order,
   * skips every entry once one download has succeeded, swallows failures,
   * and falls back to the placeholder. Also returns the icon addresses
   * requested, in order.
   */
  method WeatherWithIcon(response: WeatherResponse, outcomes: seq<IconDownload>)
    returns (w: Weather, requested: seq<string>)
    requires |outcomes| == |response.weather|
    ensures w == FromResponse(response, ChosenIcon(outcomes))
    ensures requested == IconUrls(response.weather[..Attempts(outcomes)])
  {
    var image: Option<Image> := None;
    requested := [];
    for i := 0 to |response.weather|
      invariant image.None? ==> FirstSuccess(outcomes) >= i
      invariant image.None? ==> requested == IconUrls(response.weather[..i])
      invariant image.Some? ==> FirstSuccess(outcomes) < i
      invariant image.Some? ==> image.value == ChosenIcon(outcomes)
      invariant image.Some? ==> requested == IconUrls(response.weather[..Attempts(outcomes)])
    {
      if image.None? {
        requested := requested + [IconUrl(response.weather[i].icon)];
        match outcomes[i]
        case Some(data) =>
          FirstDownloadWins(outcomes, i);
          image := Some(Decoded(data));
        case None =>
      }
    }
    if image.None? {
      image := Some(Asset(PlaceholderIcon));
    }
    w := FromResponse(response, image.value);
  }

  /**
   * One weather download by query or by coordinates once the reply has arrived:
   * `reply` is the decoded reply, or `None` when the transfer or the decoding
   * failed, in which case the failure propagates to the caller as `None`.
   */
  method DownloadWeather(reply: Option<WeatherResponse>, outcomes: seq<IconDownload>)
    returns (result: Option<Weather>, requested: seq<string>)
    requires reply.Some? ==> |outcomes| == |reply.value.weather|
    ensures reply.None? ==> result.None? && requested == []
    ensures reply.Some? ==> result == Some(FromResponse(reply.value, ChosenIcon(outcomes)))
    ensures reply.Some? ==> requested == IconUrls(reply.value.weather[..Attempts(outcomes)])
  {
    match reply
    case None =>
      result, requested := None, [];
    case Some(response) =>
      var w;
      w, requested := WeatherWithIcon(response, outcomes);
      result := Some(w);
  }
}

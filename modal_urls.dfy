/** The three image addresses the lightbox builds from template strings:
    the full-size picture, its blurred backdrop, and the 200-pixel thumbnail
    of the preview strip. All three point into the host's upload path with a
    scale-to-width transformation, and name the asset by the record's `id`. */
module ModalUrls {
  import opened Wrappers
  import opened Decimal
  import opened ImageTypes

  const Host: string := "https://res.cloudinary.com/"
  const BlurEffect: string := ",e_blur:1000"

  /** Everything up to the width digits; the cloud name is the configured
      account name, passed in instead of read from the environment. */
  function ScalePrefix(cloudName: string): string {
    Host + cloudName + "/image/upload/c_scale,w_"
  }

  /** The tail shared by all three addresses: `/<id>.<format>`. */
  function AssetPath(image: GalleryImage): string {
    "/" + NatToDecimal(image.id) + "." + image.format
  }

  /** `t` is a tail of `s`. */
  predicate EndsWith(s: string, t: string) {
    |t| <= |s| && s[|s| - |t|..] == t
  }

  /** A string built as `head + tail` starts with the first part of `head`
      and ends with `tail`. */
  lemma HeadAndTail(prefix: string, middle: string, tail: string)
    ensures prefix <= prefix + middle + tail
    ensures EndsWith(prefix + middle + tail, tail)
  {
    var s := prefix + middle + tail;
    assert s[..|prefix|] == prefix;
    assert s[|s| - |tail|..] == tail;
  }

  /** `url`: the full-size picture at the record's own width. */
  function DisplayUrl(cloudName: string, image: GalleryImage): (url: string)
    ensures ScalePrefix(cloudName) <= url && EndsWith(url, AssetPath(image))
  {
    var p, w, d, f := ScalePrefix(cloudName), NatToDecimal(image.width), NatToDecimal(image.id), image.format;
    HeadAndTail(p, w, "/" + d + "." + f);
    assert p + w + "/" + d + "." + f == p + w + ("/" + d + "." + f);
    p + w + "/" + d + "." + f
  }

  /** `blurUrl`: the same picture with the blur effect added to the transformation. */
  function BlurUrl(cloudName: string, image: GalleryImage): (url: string)
    ensures ScalePrefix(cloudName) <= url && EndsWith(url, AssetPath(image))
  {
    var p, w, d, f := ScalePrefix(cloudName), NatToDecimal(image.width), NatToDecimal(image.id), image.format;
    HeadAndTail(p, w + ",e_blur:1000", "/" + d + "." + f);
    assert p + w + ",e_blur:1000/" + d + "." + f == p + (w + ",e_blur:1000") + ("/" + d + "." + f);
    p + w + ",e_blur:1000/" + d + "." + f
  }

  /** `previewUrl`: the thumbnail, always scaled to width 200. */
  function PreviewUrl(cloudName: string, image: GalleryImage): (url: string)
    ensures ScalePrefix(cloudName) <= url && EndsWith(url, AssetPath(image))
  {
    var p, d, f := ScalePrefix(cloudName), NatToDecimal(image.id), image.format;
    HeadAndTail(p, "200", "/" + d + "." + f);
    assert p + "200/" + d + "." + f == p + "200" + ("/" + d + "." + f);
    p + "200/" + d + "." + f
  }

  /** What an address of this shape says: the width it scales to, whether it
      blurs, and the asset it names. */
  datatype UrlParts = UrlParts(width: nat, blurred: bool, id: nat, format: string)

  /** Reads `<id>.<format>`. */
  function ParseAsset(s: string): Option<(nat, string)> {
    var k := LeadingDigits(s);
    if k == 0 || k == |s| || s[k] != '.' then None
    else Some((ParseDecimal(s[..k]), s[k + 1..]))
  }

  /** Reads `[,e_blur:1000]/<id>.<format>`. */
  function ParseTail(t: string): Option<(bool, nat, string)> {
    var blurred := BlurEffect + "/" <= t;
    if !blurred && !("/" <= t) then None
    else
      match ParseAsset(if blurred then t[|BlurEffect| + 1..] else t[1..])
      case None => None
      case Some((id, format)) => Some((blurred, id, format))
  }

  /** Reads `<width><tail>`. */
  function ParseTransform(s: string): Option<UrlParts> {
    var k := LeadingDigits(s);
    if k == 0 then None
    else
      match ParseTail(s[k..])
      case None => None
      case Some((blurred, id, format)) => Some(UrlParts(ParseDecimal(s[..k]), blurred, id, format))
  }

  /** Reads an address built under `cloudName` back into its parts. */
  function ParseUrl(cloudName: string, url: string): Option<UrlParts> {
    var p := ScalePrefix(cloudName);
    if p <= url then ParseTransform(url[|p|..]) else None
  }

  lemma ParseAssetRoundTrip(id: nat, format: string)
    ensures ParseAsset(NatToDecimal(id) + "." + format) == Some((id, format))
  {
    var d := NatToDecimal(id);
    var s := d + "." + format;
    assert s == d + ("." + format);
    LeadingDigitsOfRun(d, "." + format);
    ParseDecimalRoundTrip(id);
    assert s[|d| + 1..] == format;
  }

  lemma ParseTailRoundTrip(blurred: bool, id: nat, format: string)
    ensures var effect := if blurred then BlurEffect else "";
            ParseTail(effect + "/" + NatToDecimal(id) + "." + format) == Some((blurred, id, format))
  {
    var effect := if blurred then BlurEffect else "";
    var a := NatToDecimal(id) + "." + format;
    var t := effect + "/" + NatToDecimal(id) + "." + format;
    assert t == effect + "/" + a;
    if blurred {
      assert BlurEffect + "/" <= t;
      assert t[|BlurEffect| + 1..] == a;
    } else {
      assert t == "/" + a;
      assert !(BlurEffect + "/" <= t) by { assert t[0] != BlurEffect[0]; }
      assert t[1..] == a;
    }
    ParseAssetRoundTrip(id, format);
  }

  lemma ParseTransformRoundTrip(width: nat, t: string)
    requires t == [] || !IsDigit(t[0])
    ensures ParseTransform(NatToDecimal(width) + t)
              == match ParseTail(t)
                 case None => None
                 case Some((blurred, id, format)) => Some(UrlParts(width, blurred, id, format))
  {
    var w := NatToDecimal(width);
    LeadingDigitsOfRun(w, t);
    ParseDecimalRoundTrip(width);
    assert (w + t)[|w|..] == t;
  }

  /** The parser strips the prefix and reads on from there. */
  lemma ParseUrlAfterPrefix(cloudName: string, rest: string)
    ensures ParseUrl(cloudName, ScalePrefix(cloudName) + rest) == ParseTransform(rest)
  {
    var p := ScalePrefix(cloudName);
    assert (p + rest)[..|p|] == p;
    assert (p + rest)[|p|..] == rest;
  }

  /** Parses `<prefix><width><effect>/<id>.<format>`, for either effect. */
  lemma ParseShape(cloudName: string, width: nat, blurred: bool, id: nat, format: string)
    ensures var effect := if blurred then BlurEffect else "";
            ParseUrl(cloudName, ScalePrefix(cloudName) + NatToDecimal(width) + effect + "/" + NatToDecimal(id) + "." + format)
              == Some(UrlParts(width, blurred, id, format))
  {
    var effect := if blurred then BlurEffect else "";
    var p, w, d := ScalePrefix(cloudName), NatToDecimal(width), NatToDecimal(id);
    var t := effect + "/" + d + "." + format;
    assert p + w + effect + "/" + d + "." + format == p + (w + t);
    ParseUrlAfterPrefix(cloudName, w + t);
    ParseTailRoundTrip(blurred, id, format);
    ParseTransformRoundTrip(width, t);
  }

  lemma DisplayUrlRoundTrip(cloudName: string, image: GalleryImage)
    ensures ParseUrl(cloudName, DisplayUrl(cloudName, image))
              == Some(UrlParts(image.width, false, image.id, image.format))
  {
    ParseShape(cloudName, image.width, false, image.id, image.format);
    assert ScalePrefix(cloudName) + NatToDecimal(image.width) + "" == ScalePrefix(cloudName) + NatToDecimal(image.width);
  }

  lemma BlurUrlRoundTrip(cloudName: string, image: GalleryImage)
    ensures ParseUrl(cloudName, BlurUrl(cloudName, image))
              == Some(UrlParts(image.width, true, image.id, image.format))
  {
    ParseShape(cloudName, image.width, true, image.id, image.format);
    var p := ScalePrefix(cloudName) + NatToDecimal(image.width);
    assert p + BlurEffect + "/" == p + ",e_blur:1000/";
  }

  lemma PreviewUrlRoundTrip(cloudName: string, image: GalleryImage)
    ensures ParseUrl(cloudName, PreviewUrl(cloudName, image))
              == Some(UrlParts(200, false, image.id, image.format))
  {
    PreviewIsDisplayAtWidth200(cloudName, image);
    DisplayUrlRoundTrip(cloudName, image.(width := 200));
  }

  /** The thumbnail address is the display address of the same image scaled to 200. */
  lemma PreviewIsDisplayAtWidth200(cloudName: string, image: GalleryImage)
    ensures PreviewUrl(cloudName, image) == DisplayUrl(cloudName, image.(width := 200))
  {
    assert NatToDecimal(200) == "200" by {
      assert NatToDecimal(2) == "2";
      assert NatToDecimal(20) == "20";
    }
    var p := ScalePrefix(cloudName);
    assert p + "200/" == p + "200" + "/";
  }

  /** The backdrop address is the display address with the blur effect
      inserted right after the width. */
  lemma BlurUrlInsertsEffect(cloudName: string, image: GalleryImage)
    ensures var display := DisplayUrl(cloudName, image);
            var k := |ScalePrefix(cloudName) + NatToDecimal(image.width)|;
            k <= |display| && BlurUrl(cloudName, image) == display[..k] + BlurEffect + display[k..]
  {
    var head := ScalePrefix(cloudName) + NatToDecimal(image.width);
    var tail := AssetPath(image);
    assert DisplayUrl(cloudName, image) == head + tail;
    assert BlurUrl(cloudName, image) == head + BlurEffect + tail;
    assert (head + tail)[..|head|] == head;
    assert (head + tail)[|head|..] == tail;
  }

  /** The display and backdrop addresses of an image never coincide. */
  lemma DisplayAndBlurDiffer(cloudName: string, image: GalleryImage)
    ensures DisplayUrl(cloudName, image) != BlurUrl(cloudName, image)
  {
    DisplayUrlRoundTrip(cloudName, image);
    BlurUrlRoundTrip(cloudName, image);
  }

  /** Two thumbnails share an address only if they name the same asset. */
  lemma PreviewUrlInjective(cloudName: string, a: GalleryImage, b: GalleryImage)
    requires PreviewUrl(cloudName, a) == PreviewUrl(cloudName, b)
    ensures a.id == b.id && a.format == b.format
  {
    PreviewUrlRoundTrip(cloudName, a);
    PreviewUrlRoundTrip(cloudName, b);
  }
}

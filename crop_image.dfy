/**
 * The crop picture shown under the crop selector: the first of
 * `crop_images/<crop>.jpg`, `.jpeg`, `.png` that exists. The file system is
 * a parameter: the set of paths that exist.
 */
module CropImage {
  import opened Wrappers
  import Text

  /** The extensions tried, in order. */
  const Extensions: seq<string> := ["jpg", "jpeg", "png"]

  /** `f"crop_images/{crop.lower()}.{ext}"` */
  function ImagePath(crop: string, ext: string): string
  {
    "crop_images/" + Text.ToLower(crop) + "." + ext
  }

  /** The path of the first existing image, or nothing when no candidate exists. */
  method FindImage(crop: string, existing: set<string>) returns (found: Option<string>)
    ensures found.None? <==>
      forall k :: 0 <= k < |Extensions| ==> ImagePath(crop, Extensions[k]) !in existing
    ensures found.Some? ==>
      exists k :: 0 <= k < |Extensions| && found.value == ImagePath(crop, Extensions[k]) &&
        found.value in existing &&
        forall j :: 0 <= j < k ==> ImagePath(crop, Extensions[j]) !in existing
  {
    found := None;
    var i := 0;
    while i < |Extensions|
      invariant 0 <= i <= |Extensions|
      invariant found.None?
      invariant forall j :: 0 <= j < i ==> ImagePath(crop, Extensions[j]) !in existing
    {
      var path := ImagePath(crop, Extensions[i]);
      if path in existing {
        found := Some(path);
        break;
      }
      i := i + 1;
    }
    if found.Some? {
      assert 0 <= i < |Extensions| && found.value == ImagePath(crop, Extensions[i]);
    }
  }
}

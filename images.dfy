/**
 * Image references shown by the catalog and the seller console
 * (home.component.ts:42-47 and 56-61; admin.component.ts:182-194 repeats both).
 */
module Images {
  import opened Wrappers

  const Placeholder := "assets/images/placeholder-food.svg"
  const StorageUrl := "http://127.0.0.1:8000/storage/"

  /** The path is truthy: present and not the empty string. */
  predicate HasPath(path: Option<string>)
  {
    path.Some? && path.value != ""
  }

  /** `getImageUrl`: the placeholder asset, or the path under the backend's storage origin. */
  function ImageUrl(path: Option<string>): (url: string)
  {
    if HasPath(path) then StorageUrl + path.value else Placeholder
  }

  /** A stored path can be read back from its URL, and the placeholder never looks like a stored image. */
  lemma ImageUrlRecoversPath(path: Option<string>)
    ensures !HasPath(path) ==> ImageUrl(path) == Placeholder
    ensures HasPath(path) ==> StorageUrl < ImageUrl(path) && ImageUrl(path)[|StorageUrl|..] == path.value
    ensures !(StorageUrl <= Placeholder)
  {
    assert StorageUrl[0] != Placeholder[0];
  }

  /** Two paths give the same URL only if both are missing or both are the same path. */
  lemma ImageUrlInjective(p: Option<string>, q: Option<string>)
    ensures ImageUrl(p) == ImageUrl(q) ==> HasPath(p) == HasPath(q)
    ensures ImageUrl(p) == ImageUrl(q) && HasPath(p) ==> p.value == q.value
  {
    ImageUrlRecoversPath(p);
    ImageUrlRecoversPath(q);
  }

  /** The `src` of an `<img>`, taken as the plain string last assigned to it. */
  class ImageElement {
    var src: string

    constructor (src: string)
      ensures this.src == src
    {
      this.src := src;
    }
  }

  /**
   * `onImageError`: point a broken image at the placeholder, writing `src` only
   * when it differs, so a second failure of the placeholder itself changes nothing.
   */
  method OnImageError(target: ImageElement?)
    modifies target
    ensures target != null ==> target.src == Placeholder
    ensures target != null && old(target.src) == Placeholder ==> unchanged(target)
  {
    if target != null && target.src != Placeholder {
      target.src := Placeholder;
    }
  }
}

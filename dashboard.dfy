/** The view selections of the claim dashboard page: which claim number to look up, which
    photos belong to the selected category, which of them is shown large, and which category
    tabs exist. The selected category is the page's state and is passed in. */
module Dashboard {
  import opened Wrappers
  import opened Seqs
  import opened Schema
  import opened SampleData

  const DefaultClaimNumber := "CLM-2024-001847"

  /** `claimNumber || "CLM-2024-001847"`: a missing or empty route parameter falls back to the
      default claim. */
  function ClaimNumberToUse(param: Option<string>): (r: string)
    ensures param.Some? && param.value != "" ==> r == param.value
    ensures param.None? || param.value == "" ==> r == DefaultClaimNumber
  {
    OrDefault(param, DefaultClaimNumber)
  }

  /** Without a route parameter the dashboard asks for the claim the store is seeded with. */
  lemma DefaultIsSeededClaim(claimId: string, now: int)
    ensures ClaimNumberToUse(None) == SampleClaim(claimId, now).claimNumber
  {
    assert ClaimNumberToUse(None) == DefaultClaimNumber;
  }

  /** The `photo.category === category` condition. */
  function InCategory(category: string): Photo -> bool {
    (p: Photo) => p.category == category
  }

  /** The `photo.isPrimary` condition. */
  function IsPrimary(): Photo -> bool {
    (p: Photo) => p.isPrimary
  }

  /** The photos of the selected category, in the order the server listed them. */
  function PhotosForCategory(photos: seq<Photo>, selected: string): (r: seq<Photo>)
    ensures forall p :: p in r <==> p in photos && p.category == selected
  {
    Filter(photos, InCategory(selected))
  }

  /** Selecting the photos of a category keeps their relative order. */
  lemma PhotosForCategoryKeepsOrder(a: seq<Photo>, b: seq<Photo>, selected: string)
    ensures PhotosForCategory(a + b, selected) == PhotosForCategory(a, selected) + PhotosForCategory(b, selected)
  {
    FilterConcat(a, b, InCategory(selected));
  }

  /** `photosForCategory.find(photo => photo.isPrimary) || photosForCategory[0]`: the first
      primary photo of the category, else its first photo, else none. */
  function PrimaryPhoto(photos: seq<Photo>, selected: string): (r: Option<Photo>)
    ensures var inCat := PhotosForCategory(photos, selected);
      && (r.None? <==> inCat == [])
      && (r.Some? ==> r.value in inCat)
      && ((exists i :: 0 <= i < |inCat| && inCat[i].isPrimary) ==>
            r.Some? && exists i :: 0 <= i < |inCat| && inCat[i] == r.value && r.value.isPrimary
                                  && forall j :: 0 <= j < i ==> !inCat[j].isPrimary)
      && ((forall i :: 0 <= i < |inCat| ==> !inCat[i].isPrimary) && inCat != [] ==> r == Some(inCat[0]))
  {
    var inCat := PhotosForCategory(photos, selected);
    match Find(inCat, IsPrimary())
    case Some(p) => Some(p)
    case None => if inCat == [] then None else Some(inCat[0])
  }

  /** `photos.map(photo => photo.category)`. */
  function Categories(photos: seq<Photo>): (r: seq<string>)
    ensures |r| == |photos|
    ensures forall i :: 0 <= i < |photos| ==> r[i] == photos[i].category
  {
    seq(|photos|, i requires 0 <= i < |photos| => photos[i].category)
  }

  /** `Array.from(new Set(photos.map(photo => photo.category)))`: the category tabs. */
  function PhotoCategories(photos: seq<Photo>): (r: seq<string>)
    ensures NoDup(r)
    ensures forall c :: c in r <==> exists i :: 0 <= i < |photos| && photos[i].category == c
  {
    var cs := Categories(photos);
    assert forall c :: c in cs <==> exists i :: 0 <= i < |photos| && photos[i].category == c by {
      forall c | c in cs ensures exists i :: 0 <= i < |photos| && photos[i].category == c {
        var i :| 0 <= i < |cs| && cs[i] == c;
      }
    }
    Distinct(cs)
  }

  /** The tabs come in the order in which their categories first appear among the photos. */
  lemma PhotoCategoriesFirstAppearance(photos: seq<Photo>)
    ensures var cs := Categories(photos);
      forall i, j :: 0 <= i < j < |PhotoCategories(photos)| ==>
        FirstIndex(cs, PhotoCategories(photos)[i]) < FirstIndex(cs, PhotoCategories(photos)[j])
  {
    DistinctFirstAppearanceOrder(Categories(photos));
  }

  /** The seeded photos give two tabs, the front bumper's first. */
  lemma SeedPhotoCategories(claimId: string, ids: seq<string>, now: int)
    requires |ids| == 3
    ensures PhotoCategories(SamplePhotos(claimId, ids, now)) == ["front_bumper", "side_panel"]
  {
    var photos := SamplePhotos(claimId, ids, now);
    var cs := Categories(photos);
    assert cs == ["front_bumper", "front_bumper", "side_panel"];
    assert cs[..2][..1] == ["front_bumper"] && cs[..2][..1][..0] == [];
    assert Distinct(cs[..2][..1]) == ["front_bumper"];
    assert cs[..2] == ["front_bumper", "front_bumper"];
    assert Distinct(cs[..2]) == ["front_bumper"];
    assert Distinct(cs) == ["front_bumper", "side_panel"];
  }
}

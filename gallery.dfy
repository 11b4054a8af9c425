/** A product's ordered image list with its thumbnail index, and the
    delete-one-image step both product routes share
    (backend/routes/productRoutes.js and backend/routes/addProducts.js). */
module Gallery {
  import opened Lists

  /** One stored image: the media host's URL and its public id. */
  datatype Image = Image(url: string, publicId: string)

  datatype Gallery = Gallery(images: seq<Image>, thumbnailIndex: int)

  /** Every image carries the url and public id the schema requires. */
  predicate ImagesComplete(images: seq<Image>) {
    forall i :: 0 <= i < |images| ==> images[i].url != "" && images[i].publicId != ""
  }

  /** `images.findIndex(img => img.publicId === publicId)`. */
  function FindImage(images: seq<Image>, publicId: string): (k: int)
    ensures -1 <= k < |images|
    ensures k >= 0 ==> images[k].publicId == publicId
    ensures k >= 0 ==> forall j :: 0 <= j < k ==> images[j].publicId != publicId
    ensures k == -1 ==> forall j :: 0 <= j < |images| ==> images[j].publicId != publicId
    decreases |images|
  {
    if images == [] then -1
    else if images[0].publicId == publicId then 0
    else
      var k := FindImage(images[1..], publicId);
      if k == -1 then -1 else k + 1
  }

  /** Splice out the first image whose public id matches and re-aim the thumbnail:
      the removed index resets it to 0, a larger index moves down by one,
      a smaller one stays. An unknown public id changes nothing. */
  function DeleteImage(g: Gallery, publicId: string): (r: Gallery)
    ensures FindImage(g.images, publicId) == -1 ==> r == g
    ensures var k := FindImage(g.images, publicId);
      k >= 0 ==>
        && |r.images| == |g.images| - 1
        && (forall j :: 0 <= j < k ==> r.images[j] == g.images[j])
        && (forall j :: k <= j < |r.images| ==> r.images[j] == g.images[j + 1])
    // a thumbnail that named another image still names that image
    ensures var k := FindImage(g.images, publicId);
      0 <= g.thumbnailIndex < |g.images| && g.thumbnailIndex != k ==>
        0 <= r.thumbnailIndex < |r.images| && r.images[r.thumbnailIndex] == g.images[g.thumbnailIndex]
    // a thumbnail in range stays in range whenever an image remains
    ensures 0 <= g.thumbnailIndex < |g.images| && r.images != [] ==> 0 <= r.thumbnailIndex < |r.images|
    // the new thumbnail: reset, moved down or kept
    ensures var k := FindImage(g.images, publicId);
      k >= 0 ==> r.thumbnailIndex == Reaimed(g.thumbnailIndex, k)
  {
    var k := FindImage(g.images, publicId);
    if k == -1 then g
    else
      ThumbnailFollows(g.images, k, g.thumbnailIndex);
      Gallery(Splice(g.images, k), Reaimed(g.thumbnailIndex, k))
  }

  /** The thumbnail index once the image at `k` is gone. */
  function Reaimed(t: int, k: nat): (r: int)
    ensures t == k ==> r == 0
    ensures t > k ==> r == t - 1
    ensures t < k ==> r == t
  {
    if t == k then 0 else if t > k then t - 1 else t
  }

  /** A re-aimed thumbnail names the image it named before, unless that image went,
      and stays in range while an image remains. */
  lemma ThumbnailFollows(images: seq<Image>, k: nat, t: int)
    requires k < |images|
    ensures 0 <= t < |images| && t != k ==>
      0 <= Reaimed(t, k) < |Splice(images, k)| && Splice(images, k)[Reaimed(t, k)] == images[t]
    ensures 0 <= t < |images| && Splice(images, k) != [] ==> 0 <= Reaimed(t, k) < |Splice(images, k)|
  {
  }

  /** Deleting an image never introduces an incomplete one. */
  lemma DeleteKeepsComplete(g: Gallery, publicId: string)
    requires ImagesComplete(g.images)
    ensures ImagesComplete(DeleteImage(g, publicId).images)
  {
    var k := FindImage(g.images, publicId);
    var r := DeleteImage(g, publicId);
    if k >= 0 {
      forall i | 0 <= i < |r.images| ensures r.images[i].url != "" && r.images[i].publicId != "" {
        if i >= k { assert r.images[i] == g.images[i + 1]; } else { assert r.images[i] == g.images[i]; }
      }
    }
  }

  /** Later images are not affected by the public ids before them: only the first match goes. */
  lemma OnlyFirstMatchRemoved(g: Gallery, publicId: string, j: int)
    requires FindImage(g.images, publicId) < j < |g.images|
    requires FindImage(g.images, publicId) >= 0
    ensures g.images[j] in DeleteImage(g, publicId).images
  {
    var r := DeleteImage(g, publicId);
    assert r.images[j - 1] == g.images[j];
  }
}

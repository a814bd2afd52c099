/**
  The image cache of ch_14_GoF_2/flyweight.cpp: `ImageResizer::get_box(w)`
  looks `w` up in its `images` map and, on a miss, creates an image resized to
  `w` by `w` and stores it, so that every later call for `w` shares it.

  The source's `Image` has no fields and its `resize` has an empty body; the
  model lets an image remember the box it was resized to, so that the entries
  of the cache can be told apart.
*/
module Flyweight {

  /** An image, identified by the box it was resized to. */
  datatype Image = Image(width: int, height: int)

  /** The image `get_box` creates on a miss: `img.resize(w, w)`. */
  function BoxImage(w: int): (img: Image)
    ensures img.width == w && img.height == w
  {
    Image(w, w)
  }

  /** The cache after `get_box(w)`. */
  function CacheAfter(images: map<int, Image>, w: int): (m: map<int, Image>)
    ensures m.Keys == images.Keys + {w}
    ensures forall k :: k in images ==> m[k] == images[k]
    ensures w !in images ==> m[w] == BoxImage(w)
    ensures |m| <= |images| + 1
  {
    if w in images then images else images[w := BoxImage(w)]
  }

  /** A hit leaves the cache as it is; a miss adds exactly one entry. */
  lemma CacheAfterGrowth(images: map<int, Image>, w: int)
    ensures w in images ==> CacheAfter(images, w) == images
    ensures w !in images ==> |CacheAfter(images, w)| == |images| + 1
  {
    if w !in images {
      assert CacheAfter(images, w).Keys == images.Keys + {w};
    }
  }

  /** Asking for the same box twice leaves the same cache as asking once. */
  lemma CacheAfterIdempotent(images: map<int, Image>, w: int)
    ensures CacheAfter(CacheAfter(images, w), w) == CacheAfter(images, w)
  {
  }

  class ImageResizer {
    var images: map<int, Image>

    constructor ()
      ensures images == map[]
    {
      images := map[];
    }

    /** `get_box`: find `w`, emplace a new image on a miss, return the cached one. */
    method GetBox(w: int) returns (img: Image)
      modifies this
      ensures images == CacheAfter(old(images), w)
      ensures w in images && img == images[w]
      ensures w in old(images) ==> images == old(images) && img == old(images)[w]
    {
      if w !in images {
        var created := BoxImage(w);
        images := images[w := created];
      }
      img := images[w];
    }
  }

  /** `testImageResizer`: boxes 100, 640 and 1000 leave three cache entries. */
  method TestImageResizer() returns (cached: nat)
    ensures cached == 3
  {
    var rs := new ImageResizer();
    var image100 := rs.GetBox(100);
    var image640 := rs.GetBox(640);
    var image1000 := rs.GetBox(1000);
    assert rs.images.Keys == {100, 640, 1000};
    cached := |rs.images|;
  }

  /** `ImageView`: a view of `width` by `height` over a shared image. */
  class ImageView {
    const image: Image
    const width: int
    const height: int

    constructor (width: int, height: int, image: Image)
      ensures this.width == width && this.height == height && this.image == image
    {
      this.image := image;
      this.height := height;
      this.width := width;
    }
  }
}

/**
 * The build check of a presentation: whether its slide images must be
 * regenerated, and the de-duplication of slide images that have the same
 * content. Hashing and the file system are parameters: `md5` gives the hash
 * of an image file, `present` says whether an image file is present.
 */
module PresentationBuild {
  import opened Wrappers

  /** The hashes recorded by the last build. */
  datatype Cache = Cache(pdfHash: string, tomlHash: string)

  /** Some frame image is missing from the directory. */
  predicate SomeMissing(images: seq<string>, present: string -> bool) {
    exists i :: 0 <= i < |images| && !present(images[i])
  }

  /**
   * The flags of `check_presentation`: `rebuildPdf` is set by a forced
   * rebuild, a missing cache, a PDF hash that differs from the cached one, or
   * a missing image; `rebuild` by all of these and also by a TOML hash that
   * differs from the cached one.
   */
  method RebuildFlags(force: bool, cache: Option<Cache>, pdfHash: string, tomlHash: string,
                      images: seq<string>, present: string -> bool)
    returns (rebuild: bool, rebuildPdf: bool)
    ensures rebuildPdf ==> rebuild
    ensures rebuildPdf <==> force || cache.None? || cache.value.pdfHash != pdfHash || SomeMissing(images, present)
    ensures rebuild <==> rebuildPdf || (cache.Some? && cache.value.tomlHash != tomlHash)
  {
    rebuild := force;
    rebuildPdf := force;
    if cache.Some? {
      if tomlHash != cache.value.tomlHash {
        rebuild := true;
      }
      if pdfHash != cache.value.pdfHash {
        rebuild := true;
        rebuildPdf := true;
      }
    } else {
      rebuild := true;
      rebuildPdf := true;
    }
    var i := 0;
    while i < |images|
      invariant 0 <= i <= |images|
      invariant rebuildPdf ==> rebuild
      invariant rebuildPdf <==> force || cache.None? || cache.value.pdfHash != pdfHash || SomeMissing(images[..i], present)
      invariant rebuild <==> rebuildPdf || (cache.Some? && cache.value.tomlHash != tomlHash)
    {
      assert images[..i + 1] == images[..i] + [images[i]];
      if !present(images[i]) {
        rebuild := true;
        rebuildPdf := true;
      }
      i := i + 1;
    }
    assert images[..i] == images;
  }

  /** The first image, in frame order, whose hash is h. */
  function FirstWithHash(images: seq<string>, md5: string -> string, h: string): (r: Option<string>)
    ensures r.Some? ==> r.value in images && md5(r.value) == h
    ensures r.None? <==> forall i :: 0 <= i < |images| ==> md5(images[i]) != h
  {
    if images == [] then None
    else
      var first := FirstWithHash(images[..|images| - 1], md5, h);
      if first.Some? then first
      else if md5(images[|images| - 1]) == h then Some(images[|images| - 1])
      else None
  }

  /** The representative comes before (or is) every image with the same hash. */
  lemma {:induction false} FirstWithHashIsFirst(images: seq<string>, md5: string -> string, j: nat)
    requires j < |images|
    ensures var r := FirstWithHash(images, md5, md5(images[j]));
      r.Some? && exists i :: 0 <= i <= j && images[i] == r.value
  {
    var init := images[..|images| - 1];
    if j < |images| - 1 {
      FirstWithHashIsFirst(init, md5, j);
    } else if FirstWithHash(init, md5, md5(images[j])).Some? {
      var r := FirstWithHash(init, md5, md5(images[j])).value;
      var i :| 0 <= i < |init| && init[i] == r;
      assert images[i] == r;
    } else {
      assert images[j] == FirstWithHash(images, md5, md5(images[j])).value;
    }
  }

  /** Appending an image never changes a representative that was already found. */
  lemma FirstWithHashStable(images: seq<string>, x: string, md5: string -> string, h: string)
    requires FirstWithHash(images, md5, h).Some?
    ensures FirstWithHash(images + [x], md5, h) == FirstWithHash(images, md5, h)
  {
    assert (images + [x])[..|images|] == images;
  }

  /**
   * The map `image_to_image` of `check_presentation`: every frame image maps
   * to the first image, in frame order, with the same hash.
   */
  method DedupImages(images: seq<string>, md5: string -> string) returns (imageToImage: map<string, string>)
    ensures forall x :: x in imageToImage <==> x in images
    ensures forall x :: x in imageToImage ==> imageToImage[x] == FirstWithHash(images, md5, md5(x)).value
  {
    var md5ToImage: map<string, string> := map[];
    imageToImage := map[];
    var i := 0;
    while i < |images|
      invariant 0 <= i <= |images|
      invariant forall x :: x in imageToImage <==> x in images[..i]
      invariant forall h :: h in md5ToImage <==> FirstWithHash(images[..i], md5, h).Some?
      invariant forall h :: h in md5ToImage ==> md5ToImage[h] == FirstWithHash(images[..i], md5, h).value
      invariant forall x :: x in imageToImage ==> imageToImage[x] == FirstWithHash(images[..i], md5, md5(x)).value
    {
      assert images[..i + 1] == images[..i] + [images[i]];
      md5ToImage, imageToImage := DedupStep(images[..i], images[i], images[..i + 1], md5, md5ToImage, imageToImage);
      i := i + 1;
    }
    assert images[..i] == images;
  }

  /** One frame of the de-duplication loop. */
  method DedupStep(seen: seq<string>, image: string, all: seq<string>, md5: string -> string,
                   md5ToImage: map<string, string>, imageToImage: map<string, string>)
    returns (md5ToImage': map<string, string>, imageToImage': map<string, string>)
    requires all == seen + [image]
    requires forall x :: x in imageToImage <==> x in seen
    requires forall h :: h in md5ToImage <==> FirstWithHash(seen, md5, h).Some?
    requires forall h :: h in md5ToImage ==> md5ToImage[h] == FirstWithHash(seen, md5, h).value
    requires forall x :: x in imageToImage ==> imageToImage[x] == FirstWithHash(seen, md5, md5(x)).value
    ensures forall x :: x in imageToImage' <==> x in all
    ensures forall h :: h in md5ToImage' <==> FirstWithHash(all, md5, h).Some?
    ensures forall h :: h in md5ToImage' ==> md5ToImage'[h] == FirstWithHash(all, md5, h).value
    ensures forall x :: x in imageToImage' ==> imageToImage'[x] == FirstWithHash(all, md5, md5(x)).value
  {
    assert all[..|seen|] == seen;
    var hash := md5(image);
    forall h | FirstWithHash(seen, md5, h).Some?
      ensures FirstWithHash(all, md5, h) == FirstWithHash(seen, md5, h)
    {
      FirstWithHashStable(seen, image, md5, h);
    }
    if hash !in md5ToImage {
      assert FirstWithHash(all, md5, hash) == Some(image);
      md5ToImage' := md5ToImage[hash := image];
    } else {
      md5ToImage' := md5ToImage;
    }
    imageToImage' := imageToImage[image := md5ToImage'[hash]];
  }

  /** Every representative maps to itself, so the map is idempotent, and it keeps the hash. */
  lemma DedupIdempotent(images: seq<string>, md5: string -> string, imageToImage: map<string, string>)
    requires forall x :: x in imageToImage <==> x in images
    requires forall x :: x in imageToImage ==> imageToImage[x] == FirstWithHash(images, md5, md5(x)).value
    ensures forall x :: x in imageToImage ==>
      imageToImage[x] in imageToImage && imageToImage[imageToImage[x]] == imageToImage[x] && md5(imageToImage[x]) == md5(x)
  {
    forall x | x in imageToImage
      ensures imageToImage[x] in imageToImage && imageToImage[imageToImage[x]] == imageToImage[x]
    {
      var j :| 0 <= j < |images| && images[j] == x;
      FirstWithHashIsFirst(images, md5, j);
    }
  }

  /** Images with the same hash share one representative; images with different hashes do not. */
  lemma DedupSameHash(images: seq<string>, md5: string -> string, imageToImage: map<string, string>, x: string, y: string)
    requires forall x :: x in imageToImage <==> x in images
    requires forall x :: x in imageToImage ==> imageToImage[x] == FirstWithHash(images, md5, md5(x)).value
    requires x in imageToImage && y in imageToImage
    ensures imageToImage[x] == imageToImage[y] <==> md5(x) == md5(y)
  {
    var i :| 0 <= i < |images| && images[i] == x;
    var j :| 0 <= j < |images| && images[j] == y;
    FirstWithHashIsFirst(images, md5, i);
    FirstWithHashIsFirst(images, md5, j);
  }

  /** The frame loop that replaces every frame's image by its representative, in place. */
  method RewriteFrames(frames: array<string>, imageToImage: map<string, string>)
    requires forall i :: 0 <= i < frames.Length ==> frames[i] in imageToImage
    modifies frames
    ensures forall i :: 0 <= i < frames.Length ==> frames[i] == imageToImage[old(frames[i])]
  {
    var i := 0;
    while i < frames.Length
      invariant 0 <= i <= frames.Length
      invariant forall k :: 0 <= k < i ==> frames[k] == imageToImage[old(frames[k])]
      invariant forall k :: i <= k < frames.Length ==> frames[k] == old(frames[k])
    {
      frames[i] := imageToImage[frames[i]];
      i := i + 1;
    }
  }

  /** What `check_presentation` does: nothing, or a rebuild (with or without regenerating the images) that writes a cache. */
  datatype Outcome = UpToDate | Rebuilt(pdf: bool, cache: Cache)

  /**
   * `check_presentation` with the file system as parameters: `pdfHash` and
   * `tomlHash` are the hashes of the files on entry, `newTomlHash` that of
   * the rewritten description, `md5` the hashes of the images after any
   * regeneration. On a rebuild every frame's image is replaced by its
   * representative and the cache records the PDF hash read on entry.
   */
  method CheckPresentation(force: bool, cache: Option<Cache>, pdfHash: string, tomlHash: string,
                           frames: array<string>, present: string -> bool, md5: string -> string,
                           newTomlHash: string)
    returns (outcome: Outcome)
    modifies frames
    ensures outcome.UpToDate? <==>
      !force && cache.Some? && cache.value == Cache(pdfHash, tomlHash) && !SomeMissing(old(frames[..]), present)
    ensures outcome.UpToDate? ==> frames[..] == old(frames[..])
    ensures outcome.Rebuilt? ==> outcome.cache == Cache(pdfHash, newTomlHash)
    ensures outcome.Rebuilt? ==> (outcome.pdf <==> force || cache.None? || cache.value.pdfHash != pdfHash || SomeMissing(old(frames[..]), present))
    ensures outcome.Rebuilt? ==> forall i :: 0 <= i < frames.Length ==>
      frames[i] == FirstWithHash(old(frames[..]), md5, md5(old(frames[i]))).value
    ensures outcome.Rebuilt? ==> forall i :: 0 <= i < frames.Length ==>
      frames[i] in old(frames[..]) && FirstWithHash(old(frames[..]), md5, md5(frames[i])).value == frames[i]
  {
    var rebuild, rebuildPdf := RebuildFlags(force, cache, pdfHash, tomlHash, frames[..], present);
    if !rebuild {
      return UpToDate;
    }
    var images := frames[..];
    var imageToImage := DedupImages(images, md5);
    assert forall i :: 0 <= i < frames.Length ==> frames[i] == images[i];
    DedupIdempotent(images, md5, imageToImage);
    RewriteFrames(frames, imageToImage);
    outcome := Rebuilt(rebuildPdf, Cache(pdfHash, newTomlHash));
  }
}

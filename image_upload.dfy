/** The image-upload panel: a bounded list of chosen files, extended by drag-and-drop
    (images only) or by the file picker (any file), and shortened by removing one entry.
    Every change is reported to the page through `onImagesChange`. */
module Upload {
  import opened ArrayOps

  /** A browser `File`, reduced to the two strings the panel looks at. */
  datatype File = File(name: string, mimeType: string)

  const DefaultMaxImages: nat := 3

  predicate IsImage(f: File) { "image/" <= f.mimeType }

  /** `files.filter(file => file.type.startsWith("image/"))`. */
  function ImagesOnly(files: seq<File>): (r: seq<File>)
    ensures |r| <= |files|
    ensures forall k :: 0 <= k < |r| ==> IsImage(r[k])
    ensures forall k :: 0 <= k < |files| && IsImage(files[k]) ==> files[k] in r
    ensures forall f :: f in r ==> f in files
  {
    if |files| == 0 then []
    else (if IsImage(files[0]) then [files[0]] else []) + ImagesOnly(files[1..])
  }

  /** The filter distributes over concatenation: it keeps the images of each part, in order. */
  lemma {:induction false} ImagesOnlyAppend(xs: seq<File>, ys: seq<File>)
    ensures ImagesOnly(xs + ys) == ImagesOnly(xs) + ImagesOnly(ys)
  {
    if |xs| > 0 {
      ImagesOnlyAppend(xs[1..], ys);
      assert (xs + ys)[1..] == xs[1..] + ys;
    } else {
      assert xs + ys == ys;
    }
  }

  /** On one file the filter keeps it exactly when it is an image. */
  lemma ImagesOnlySingleton(f: File)
    ensures ImagesOnly([f]) == if IsImage(f) then [f] else []
  {
    assert [f][1..] == [];
  }

  /** Together, order and multiplicity: two images in a row are both kept, in the same order. */
  lemma ImagesOnlyKeepsOrder(a: File, b: File)
    requires IsImage(a) && IsImage(b)
    ensures ImagesOnly([a, b]) == [a, b]
  {
    ImagesOnlyAppend([a], [b]);
    assert [a] + [b] == [a, b];
    ImagesOnlySingleton(a);
    ImagesOnlySingleton(b);
  }

  /** The new list after a drop: append the dropped images, keep the first `maxImages`. */
  function AfterDrop(images: seq<File>, dropped: seq<File>, maxImages: nat): seq<File> {
    Take(images + ImagesOnly(dropped), maxImages)
  }

  /** The new list after the file picker: append every chosen file, keep the first `maxImages`. */
  function AfterFileInput(images: seq<File>, chosen: seq<File>, maxImages: nat): seq<File> {
    Take(images + chosen, maxImages)
  }

  /** The new list after removing the entry at `index`. */
  function AfterRemove(images: seq<File>, index: int): seq<File> {
    WithoutIndex(images, index)
  }

  /** Appending then truncating: an old list within the bound is kept as a prefix, and the
      new length is the smaller of the combined length and the bound. */
  lemma AppendKeepsOldList(images: seq<File>, added: seq<File>, maxImages: nat)
    requires |images| <= maxImages
    ensures images <= Take(images + added, maxImages)
    ensures |Take(images + added, maxImages)| == Min(|images| + |added|, maxImages)
    ensures |Take(images + added, maxImages)| <= maxImages
  {
    var r := Take(images + added, maxImages);
    assert r[..|images|] == images by {
      assert r <= images + added;
      assert (images + added)[..|images|] == images;
    }
  }

  /** A drop adds only images: whatever it adds to the old list is an image. */
  lemma DropAddsOnlyImages(images: seq<File>, dropped: seq<File>, maxImages: nat)
    requires |images| <= maxImages
    ensures forall k :: |images| <= k < |AfterDrop(images, dropped, maxImages)| ==> IsImage(AfterDrop(images, dropped, maxImages)[k])
  {
    var added := ImagesOnly(dropped);
    var r := AfterDrop(images, dropped, maxImages);
    forall k | |images| <= k < |r| ensures IsImage(r[k]) {
      assert r[k] == (images + added)[k] == added[k - |images|];
    }
  }

  /** A drop keeps an in-bound old list and then adds the leading dropped images, in the
      order they were dropped, as many as fit below `maxImages`. */
  lemma DropAppendsLeadingImages(images: seq<File>, dropped: seq<File>, maxImages: nat)
    requires |images| <= maxImages
    ensures var added := ImagesOnly(dropped);
            AfterDrop(images, dropped, maxImages)
            == images + added[..Min(|added|, maxImages - |images|)]
    ensures AfterDrop(images, dropped, maxImages)[|images|..] <= ImagesOnly(dropped)
  {
    var added := ImagesOnly(dropped);
    var k := Min(|added|, maxImages - |images|);
    var r := AfterDrop(images, dropped, maxImages);
    assert r == (images + added)[..|images| + k];
    assert (images + added)[..|images| + k] == images + added[..k];
    assert r[|images|..] == added[..k];
  }

  /** Removing deletes exactly position `index`; an index outside the list changes nothing. */
  lemma RemoveDeletesOnePosition(images: seq<File>, index: int)
    ensures 0 <= index < |images| ==> AfterRemove(images, index) == images[..index] + images[index + 1..]
    ensures 0 <= index < |images| ==> |AfterRemove(images, index)| == |images| - 1
    ensures !(0 <= index < |images|) ==> AfterRemove(images, index) == images
  {
    WithoutIndexIsSplice(images, index);
  }

  /** The three user actions of the panel. */
  datatype Action = Drop(dropped: seq<File>) | Choose(chosen: seq<File>) | Remove(index: int)

  function Step(images: seq<File>, a: Action, maxImages: nat): seq<File> {
    match a
    case Drop(dropped) => AfterDrop(images, dropped, maxImages)
    case Choose(chosen) => AfterFileInput(images, chosen, maxImages)
    case Remove(index) => AfterRemove(images, index)
  }

  /** The list after a history of actions, starting from the empty list. */
  function Replay(history: seq<Action>, maxImages: nat): seq<File> {
    if |history| == 0 then []
    else Step(Replay(history[..|history| - 1], maxImages), history[|history| - 1], maxImages)
  }

  lemma StepKeepsBound(images: seq<File>, a: Action, maxImages: nat)
    requires |images| <= maxImages
    ensures |Step(images, a, maxImages)| <= maxImages
  {
    if a.Remove? {
      RemoveDeletesOnePosition(images, a.index);
    }
  }

  /** Starting empty, no history of drops, picks and removals exceeds the bound. */
  lemma {:induction false} ReplayWithinBound(history: seq<Action>, maxImages: nat)
    ensures |Replay(history, maxImages)| <= maxImages
  {
    if |history| > 0 {
      ReplayWithinBound(history[..|history| - 1], maxImages);
      StepKeepsBound(Replay(history[..|history| - 1], maxImages), history[|history| - 1], maxImages);
    }
  }

  /** The page mounts the panel with the default bound: it never holds more than three files. */
  lemma DefaultPanelHoldsAtMostThree(history: seq<Action>)
    ensures |Replay(history, DefaultMaxImages)| <= 3
  {
    ReplayWithinBound(history, DefaultMaxImages);
  }

  /** The component's state. `reported` records every list handed to `onImagesChange`,
      oldest first; `history` is the ghost record of the actions taken. */
  class ImageUpload {
    const maxImages: nat
    var images: seq<File>
    var reported: seq<seq<File>>
    ghost var history: seq<Action>

    ghost predicate Valid()
      reads this
    {
      && images == Replay(history, maxImages)
      && |images| <= maxImages
      && (|reported| > 0 ==> reported[|reported| - 1] == images)
    }

    constructor (maxImages: nat)
      ensures Valid()
      ensures this.maxImages == maxImages && images == [] && reported == [] && history == []
    {
      this.maxImages := maxImages;
      images := [];
      reported := [];
      history := [];
    }

    /** `handleDrop`. */
    method HandleDrop(dropped: seq<File>)
      requires Valid()
      modifies this
      ensures Valid()
      ensures images == AfterDrop(old(images), dropped, maxImages)
      ensures reported == old(reported) + [images]
      ensures history == old(history) + [Drop(dropped)]
    {
      var newImages := Take(images + ImagesOnly(dropped), maxImages);
      history := history + [Drop(dropped)];
      assert history[..|history| - 1] == old(history);
      images := newImages;
      reported := reported + [newImages];
      ReplayWithinBound(history, maxImages);
    }

    /** `handleFileInput`. */
    method HandleFileInput(chosen: seq<File>)
      requires Valid()
      modifies this
      ensures Valid()
      ensures images == AfterFileInput(old(images), chosen, maxImages)
      ensures reported == old(reported) + [images]
      ensures history == old(history) + [Choose(chosen)]
    {
      var newImages := Take(images + chosen, maxImages);
      history := history + [Choose(chosen)];
      assert history[..|history| - 1] == old(history);
      images := newImages;
      reported := reported + [newImages];
      ReplayWithinBound(history, maxImages);
    }

    /** `removeImage`. */
    method RemoveImage(index: int)
      requires Valid()
      modifies this
      ensures Valid()
      ensures images == AfterRemove(old(images), index)
      ensures reported == old(reported) + [images]
      ensures history == old(history) + [Remove(index)]
    {
      var newImages := WithoutIndex(images, index);
      history := history + [Remove(index)];
      assert history[..|history| - 1] == old(history);
      images := newImages;
      reported := reported + [newImages];
      ReplayWithinBound(history, maxImages);
    }
  }
}

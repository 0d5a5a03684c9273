/**
 * The settings editor: the edits it makes to the gallery collection and to
 * its transient selection of image ids. Each edit is first given as a
 * function from the old collection (or selection) to the new one, with the
 * properties it keeps; the Panel class then applies them to the root view's
 * state the way the panel's handlers do.
 */
module SettingsPanel {
  import opened SlideTypes
  import opened Text
  import App

  // ---------------------------------------------------------------------
  // The selection of image ids
  // ---------------------------------------------------------------------

  /** `ids` with every occurrence of `x` filtered out, order kept. */
  function Without(ids: seq<string>, x: string): (r: seq<string>)
    ensures multiset(r) == multiset(ids)[x := 0]
    ensures x !in r
    ensures forall y {:trigger y in r} :: y != x ==> (y in r <==> y in ids)
    ensures |r| == |ids| - multiset(ids)[x]
  {
    if ids == [] then []
    else
      assert ids == [ids[0]] + ids[1..];
      (if ids[0] == x then [] else [ids[0]]) + Without(ids[1..], x)
  }

  lemma WithoutCons(h: string, t: seq<string>, x: string)
    ensures Without([h] + t, x) == (if h == x then [] else [h]) + Without(t, x)
  {
  }

  /** Filtering distributes over concatenation, so the kept ids stay in
      their original order. */
  lemma {:induction false} WithoutConcat(a: seq<string>, b: seq<string>, x: string)
    ensures Without(a + b, x) == Without(a, x) + Without(b, x)
  {
    if a != [] {
      var h, t := a[0], a[1..];
      SplitHead(a, b);
      WithoutCons(h, t + b, x);
      WithoutCons(h, t, x);
      WithoutConcat(t, b, x);
      ConcatAssoc(if h == x then [] else [h], Without(t, x), Without(b, x));
    } else {
      assert a + b == b;
    }
  }

  lemma ConcatAssoc<T>(p: seq<T>, q: seq<T>, r: seq<T>)
    ensures p + (q + r) == (p + q) + r
  {
  }

  lemma SplitHead<T>(a: seq<T>, b: seq<T>)
    requires a != []
    ensures a == [a[0]] + a[1..] && a + b == [a[0]] + (a[1..] + b)
  {
  }

  /** In a list without repetitions, an id present occurs exactly once. */
  lemma {:induction false} DistinctOccursOnce(ids: seq<string>, x: string)
    requires Distinct(ids) && x in ids
    ensures multiset(ids)[x] == 1
  {
    assert ids == [ids[0]] + ids[1..];
    if ids[0] == x {
      assert x !in ids[1..] by {
        forall j | 0 <= j < |ids[1..]| ensures ids[1..][j] != x {
          assert ids[1..][j] == ids[j + 1];
        }
      }
    } else {
      DistinctOccursOnce(ids[1..], x);
    }
  }

  /** The select-all toggle: it clears the selection when the selection is
      as long as the image list, and otherwise selects every image. */
  function SelectAllToggled(selected: seq<string>, images: seq<SlideImage>): (r: seq<string>)
    ensures |selected| == |images| ==> r == []
    ensures |selected| != |images| ==> |r| == |images| && forall i :: 0 <= i < |images| ==> r[i] == images[i].id
  {
    if |selected| == |images| then [] else ImageIds(images)
  }

  /** Pressing select-all on a selection that is not full selects all, and
      pressing it again clears. */
  lemma SelectAllTwice(selected: seq<string>, images: seq<SlideImage>)
    requires |selected| != |images|
    ensures forall img :: img in images ==> img.id in SelectAllToggled(selected, images)
    ensures SelectAllToggled(SelectAllToggled(selected, images), images) == []
  {
  }

  /** Ticking one image row: a selected id is removed (all its occurrences),
      an unselected one is appended at the end. */
  function SelectionToggled(selected: seq<string>, x: string): (r: seq<string>)
    ensures (x in r) <==> (x !in selected)
    ensures forall y :: y != x ==> (y in r <==> y in selected)
    ensures x !in selected ==> r == selected + [x]
    ensures x in selected ==> |r| == |selected| - multiset(selected)[x]
  {
    if x in selected then Without(selected, x) else selected + [x]
  }

  /** Toggling the same row twice restores which ids are selected. */
  lemma ToggleTwiceRestoresMembership(selected: seq<string>, x: string)
    ensures forall y :: y in SelectionToggled(SelectionToggled(selected, x), x) <==> y in selected
  {
  }

  /** Toggling an unselected id twice gives back the very same selection. */
  lemma ToggleTwiceFromUnselected(selected: seq<string>, x: string)
    requires x !in selected
    ensures SelectionToggled(SelectionToggled(selected, x), x) == selected
  {
    WithoutConcat(selected, [x], x);
    WithoutAbsent(selected, x);
  }

  /** Filtering an absent id changes nothing. */
  lemma {:induction false} WithoutAbsent(ids: seq<string>, x: string)
    requires x !in ids
    ensures Without(ids, x) == ids
  {
    if ids != [] {
      WithoutAbsent(ids[1..], x);
      assert ids == [ids[0]] + ids[1..];
    }
  }

  // ---------------------------------------------------------------------
  // Edits of one gallery's image list
  // ---------------------------------------------------------------------

  /** The bulk duration edit: every image whose id is selected gets duration
      `d`; nothing else about any image, nor their number or order, changes. */
  function BulkDurationApplied(images: seq<SlideImage>, selected: seq<string>, d: real): (r: seq<SlideImage>)
    ensures |r| == |images|
    ensures forall i :: 0 <= i < |r| ==>
      r[i].duration == (if images[i].id in selected then d else images[i].duration)
    ensures forall i :: 0 <= i < |r| ==> r[i] == images[i].(duration := r[i].duration)
  {
    if images == [] then []
    else
      var img := images[0];
      [if img.id in selected then img.(duration := d) else img] + BulkDurationApplied(images[1..], selected, d)
  }

  /** The field a row's inputs edit: the caption text or the duration. */
  datatype ImageEdit = SetCaption(caption: string) | SetDuration(duration: real)

  /** An image with one field replaced. */
  function Edited(img: SlideImage, e: ImageEdit): (r: SlideImage)
    ensures r.id == img.id && r.blob == img.blob && r.preview == img.preview && r.filter == img.filter
    ensures r.caption == (if e.SetCaption? then e.caption else img.caption)
    ensures r.duration == (if e.SetDuration? then e.duration else img.duration)
  {
    match e
    case SetCaption(c) => img.(caption := c)
    case SetDuration(d) => img.(duration := d)
  }

  /** A row's field edit: the images with the row's id get the edit, every
      other image is left as it is. */
  function ImagesEdited(images: seq<SlideImage>, id: string, e: ImageEdit): (r: seq<SlideImage>)
    ensures |r| == |images|
    ensures forall i :: 0 <= i < |r| ==>
      r[i] == (if images[i].id == id then Edited(images[i], e) else images[i])
  {
    if images == [] then []
    else
      [if images[0].id == id then Edited(images[0], e) else images[0]] + ImagesEdited(images[1..], id, e)
  }

  /** Editing one row's duration is the bulk edit with that row alone selected. */
  lemma DurationEditIsBulkOfOne(images: seq<SlideImage>, id: string, d: real)
    ensures ImagesEdited(images, id, SetDuration(d)) == BulkDurationApplied(images, [id], d)
  {
  }

  /** A row's delete: every image with the row's id goes, the rest stay. */
  function ImagesWithout(images: seq<SlideImage>, id: string): (r: seq<SlideImage>)
    ensures forall img {:trigger img in r} :: img in r <==> img in images && img.id != id
    ensures images == [] ==> r == []
    ensures |images| == 1 ==> r == (if images[0].id == id then [] else images)
  {
    if images == [] then []
    else (if images[0].id == id then [] else [images[0]]) + ImagesWithout(images[1..], id)
  }

  /** The ids left are the old ids with `id` filtered out, in the same order. */
  lemma {:induction false} ImagesWithoutIds(images: seq<SlideImage>, id: string)
    ensures ImageIds(ImagesWithout(images, id)) == Without(ImageIds(images), id)
  {
    if images != [] {
      var h, t := images[0], images[1..];
      assert images == [h] + t;
      ImageIdsConcat([h], t);
      assert ImageIds([h]) == [h.id];
      WithoutCons(h.id, ImageIds(t), id);
      ImagesWithoutIds(t, id);
      if h.id != id {
        ImageIdsConcat([h], ImagesWithout(t, id));
      }
    }
  }

  /** The filter distributes over concatenation, so the kept images stay in
      their original order. */
  lemma {:induction false} ImagesWithoutConcat(a: seq<SlideImage>, b: seq<SlideImage>, id: string)
    ensures ImagesWithout(a + b, id) == ImagesWithout(a, id) + ImagesWithout(b, id)
  {
    if a != [] {
      var h, t := a[0], a[1..];
      SplitHead(a, b);
      ImagesWithoutCons(h, t + b, id);
      ImagesWithoutCons(h, t, id);
      ImagesWithoutConcat(t, b, id);
      ConcatAssoc(if h.id == id then [] else [h], ImagesWithout(t, id), ImagesWithout(b, id));
    } else {
      assert a + b == b;
    }
  }

  lemma ImagesWithoutCons(h: SlideImage, t: seq<SlideImage>, id: string)
    ensures ImagesWithout([h] + t, id) == (if h.id == id then [] else [h]) + ImagesWithout(t, id)
  {
    assert ([h] + t)[1..] == t;
  }

  lemma ImageIdsConcat(a: seq<SlideImage>, b: seq<SlideImage>)
    ensures ImageIds(a + b) == ImageIds(a) + ImageIds(b)
  {
  }

  /** Removing an image whose id occurs once leaves one image fewer. */
  lemma RemoveDropsOne(images: seq<SlideImage>, id: string)
    requires Distinct(ImageIds(images)) && id in ImageIds(images)
    ensures |ImagesWithout(images, id)| == |images| - 1
  {
    DistinctOccursOnce(ImageIds(images), id);
    ImagesWithoutIds(images, id);
    assert |ImageIds(ImagesWithout(images, id))| == |ImagesWithout(images, id)|;
  }

  /** A file handed in by the file picker. */
  datatype File = File(name: string, blob: Blob)

  /** The images an import creates, one per file in file order, with the
      fresh ids and display handles supplied by the caller. */
  function ImportedImages(files: seq<File>, ids: seq<string>, handles: seq<Handle>): (r: seq<SlideImage>)
    requires |ids| == |files| && |handles| == |files|
    ensures |r| == |files|
    ensures forall i :: 0 <= i < |r| ==>
      r[i].id == ids[i] && r[i].blob == files[i].blob && r[i].preview == handles[i] &&
      r[i].duration == 3.0 && r[i].filter == "none" && r[i].caption == BeforeFirstDot(files[i].name)
  {
    seq(|files|, i requires 0 <= i < |files| =>
      SlideImage(ids[i], files[i].blob, handles[i], 3.0, BeforeFirstDot(files[i].name), "none"))
  }

  /** A file name without a dot is taken whole as the caption: the name
      itself has the three properties that determine the caption. */
  lemma ImportCaption(name: string)
    ensures '.' !in name ==> BeforeFirstDot(name) == name
  {
    if '.' !in name {
      BeforeFirstDotUnique(name, name);
    }
  }

  /** Reordering by a permutation keeps the number of images and the set of
      their ids. */
  lemma ReorderKeepsIds(images: seq<SlideImage>, newOrder: seq<SlideImage>)
    requires multiset(newOrder) == multiset(images)
    ensures |newOrder| == |images|
    ensures forall x :: x in ImageIds(newOrder) <==> x in ImageIds(images)
  {
    assert |multiset(newOrder)| == |multiset(images)|;
    forall x ensures x in ImageIds(newOrder) <==> x in ImageIds(images) {
      if x in ImageIds(newOrder) {
        var i :| 0 <= i < |newOrder| && ImageIds(newOrder)[i] == x;
        assert newOrder[i] in multiset(images);
        var j :| 0 <= j < |images| && images[j] == newOrder[i];
        assert ImageIds(images)[j] == x;
      }
      if x in ImageIds(images) {
        var i :| 0 <= i < |images| && ImageIds(images)[i] == x;
        assert images[i] in multiset(newOrder);
        var j :| 0 <= j < |newOrder| && newOrder[j] == images[i];
        assert ImageIds(newOrder)[j] == x;
      }
    }
  }

  // ---------------------------------------------------------------------
  // Edits of the gallery collection
  // ---------------------------------------------------------------------

  /** The collection with gallery `a`'s image list replaced. */
  function WithImages(galleries: seq<Gallery>, a: int, images: seq<SlideImage>): (r: seq<Gallery>)
    requires 0 <= a < |galleries|
    ensures |r| == |galleries|
    ensures r[a].images == images
    ensures r[a].id == galleries[a].id && r[a].name == galleries[a].name && r[a].settings == galleries[a].settings
    ensures forall j :: 0 <= j < |r| && j != a ==> r[j] == galleries[j]
  {
    galleries[a := galleries[a].(images := images)]
  }

  /** The collection with gallery `a`'s settings replaced. */
  function WithSettings(galleries: seq<Gallery>, a: int, settings: Settings): (r: seq<Gallery>)
    requires 0 <= a < |galleries|
    ensures |r| == |galleries|
    ensures r[a].settings == settings
    ensures r[a].id == galleries[a].id && r[a].name == galleries[a].name && r[a].images == galleries[a].images
    ensures forall j :: 0 <= j < |r| && j != a ==> r[j] == galleries[j]
  {
    galleries[a := galleries[a].(settings := settings)]
  }

  /** The name a new gallery gets when the collection has `n` galleries. */
  function NewGalleryName(n: nat): string
  {
    "Gallery " + DecimalString(n + 1)
  }

  /** New gallery: appended after the others, empty, named after its
      position, with the first gallery's settings but autoplay off. */
  function WithNewGallery(galleries: seq<Gallery>, freshId: string): (r: seq<Gallery>)
    requires |galleries| >= 1
    ensures |r| == |galleries| + 1 && r[..|galleries|] == galleries
    ensures r[|galleries|].id == freshId && r[|galleries|].images == []
    ensures r[|galleries|].name == NewGalleryName(|galleries|)
    ensures r[|galleries|].settings == galleries[0].settings.(autoplay := false)
  {
    galleries + [Gallery(freshId, NewGalleryName(|galleries|), [], galleries[0].settings.(autoplay := false))]
  }

  /** The new gallery's name is "Gallery " and the decimal digits of the new
      collection length; collections of different lengths name their new
      galleries differently. */
  lemma NewGalleryNameSpelled(m: nat, n: nat)
    ensures NewGalleryName(n)[..8] == "Gallery "
    ensures forall i :: 8 <= i < |NewGalleryName(n)| ==> IsDigit(NewGalleryName(n)[i])
    ensures DecimalValue(NewGalleryName(n)[8..]) == n + 1
    ensures NewGalleryName(m) == NewGalleryName(n) ==> m == n
  {
    assert NewGalleryName(n)[8..] == DecimalString(n + 1);
    assert NewGalleryName(m)[8..] == DecimalString(m + 1);
    DecimalRoundTrip(n + 1);
    DecimalRoundTrip(m + 1);
  }

  /** Delete gallery: every gallery with that id goes, the rest stay. */
  function GalleriesWithout(galleries: seq<Gallery>, id: string): (r: seq<Gallery>)
    ensures forall g {:trigger g in r} :: g in r <==> g in galleries && g.id != id
    ensures galleries == [] ==> r == []
    ensures |galleries| == 1 ==> r == (if galleries[0].id == id then [] else galleries)
  {
    if galleries == [] then []
    else (if galleries[0].id == id then [] else [galleries[0]]) + GalleriesWithout(galleries[1..], id)
  }

  /** The ids left are the old ids with `id` filtered out, in the same order. */
  lemma {:induction false} GalleriesWithoutIds(galleries: seq<Gallery>, id: string)
    ensures GalleryIds(GalleriesWithout(galleries, id)) == Without(GalleryIds(galleries), id)
  {
    if galleries != [] {
      var h, t := galleries[0], galleries[1..];
      assert galleries == [h] + t;
      GalleryIdsConcat([h], t);
      assert GalleryIds([h]) == [h.id];
      WithoutCons(h.id, GalleryIds(t), id);
      GalleriesWithoutIds(t, id);
      if h.id != id {
        GalleryIdsConcat([h], GalleriesWithout(t, id));
      }
    }
  }

  /** The filter distributes over concatenation, so the galleries left stay
      in their original order. */
  lemma {:induction false} GalleriesWithoutConcat(a: seq<Gallery>, b: seq<Gallery>, id: string)
    ensures GalleriesWithout(a + b, id) == GalleriesWithout(a, id) + GalleriesWithout(b, id)
  {
    if a != [] {
      var h, t := a[0], a[1..];
      SplitHead(a, b);
      GalleriesWithoutCons(h, t + b, id);
      GalleriesWithoutCons(h, t, id);
      GalleriesWithoutConcat(t, b, id);
      ConcatAssoc(if h.id == id then [] else [h], GalleriesWithout(t, id), GalleriesWithout(b, id));
    } else {
      assert a + b == b;
    }
  }

  lemma GalleriesWithoutCons(h: Gallery, t: seq<Gallery>, id: string)
    ensures GalleriesWithout([h] + t, id) == (if h.id == id then [] else [h]) + GalleriesWithout(t, id)
  {
    assert ([h] + t)[1..] == t;
  }

  lemma GalleryIdsConcat(a: seq<Gallery>, b: seq<Gallery>)
    ensures GalleryIds(a + b) == GalleryIds(a) + GalleryIds(b)
  {
  }

  /** With distinct gallery ids, deleting one of at least two galleries
      leaves all but one, so at least one gallery remains. */
  lemma DeleteLeavesOne(galleries: seq<Gallery>, idx: int)
    requires Distinct(GalleryIds(galleries)) && |galleries| >= 2 && 0 <= idx < |galleries|
    ensures |GalleriesWithout(galleries, galleries[idx].id)| == |galleries| - 1 >= 1
    ensures galleries[idx] !in GalleriesWithout(galleries, galleries[idx].id)
  {
    assert GalleryIds(galleries)[idx] == galleries[idx].id;
    DistinctOccursOnce(GalleryIds(galleries), galleries[idx].id);
    GalleriesWithoutIds(galleries, galleries[idx].id);
    assert |GalleryIds(GalleriesWithout(galleries, galleries[idx].id))| ==
           |GalleriesWithout(galleries, galleries[idx].id)|;
  }

  // ---------------------------------------------------------------------
  // The panel's handlers over the root view's state
  // ---------------------------------------------------------------------

  /** The settings panel: its own selection and bulk-duration input, and the
      root view whose collection and active gallery it edits. */
  class Panel {
    const app: App.Slideshow
    var selectedIds: seq<string>
    var bulkDuration: real

    /** The panel is mounted when the view opens its settings. */
    constructor (app: App.Slideshow)
      requires app.isSettingsOpen
      ensures this.app == app && selectedIds == [] && bulkDuration == 3.0
    {
      this.app := app;
      selectedIds := [];
      bulkDuration := 3.0;
    }

    /** The panel is shown only while the root view has an active gallery. */
    ghost predicate HasActiveGallery()
      reads this, app
    {
      app.HasActiveGallery()
    }

    function ActiveImages(): seq<SlideImage>
      reads this, app
      requires HasActiveGallery()
    {
      app.galleries[app.activeIdx].images
    }

    function ActiveSettings(): Settings
      reads this, app
      requires HasActiveGallery()
    {
      app.galleries[app.activeIdx].settings
    }

    method ToggleSelectAll()
      requires HasActiveGallery()
      requires app.isSettingsOpen
      modifies this`selectedIds
      ensures selectedIds == SelectAllToggled(old(selectedIds), ActiveImages())
    {
      if |selectedIds| == |ActiveImages()| {
        selectedIds := [];
      } else {
        selectedIds := ImageIds(ActiveImages());
      }
    }

    /** The bulk-duration input. */
    method SetBulkDuration(d: real)
      requires app.isSettingsOpen
      modifies this`bulkDuration
      ensures bulkDuration == d
    {
      bulkDuration := d;
    }

    method ApplyBulkDuration()
      requires HasActiveGallery()
      requires app.isSettingsOpen
      modifies app`galleries
      ensures HasActiveGallery()
      ensures app.galleries ==
        WithImages(old(app.galleries), app.activeIdx, BulkDurationApplied(old(ActiveImages()), selectedIds, bulkDuration))
    {
      var imgs := BulkDurationApplied(ActiveImages(), selectedIds, bulkDuration);
      app.galleries := WithImages(app.galleries, app.activeIdx, imgs);
    }

    /** The file picker's change: the new images are appended to the active
        gallery's list. */
    method HandleFileUpload(files: seq<File>, ids: seq<string>, handles: seq<Handle>)
      requires HasActiveGallery() && |ids| == |files| && |handles| == |files|
      requires app.isSettingsOpen
      modifies app`galleries
      ensures HasActiveGallery()
      ensures app.galleries ==
        WithImages(old(app.galleries), app.activeIdx, old(ActiveImages()) + ImportedImages(files, ids, handles))
      ensures ActiveImages()[..|old(ActiveImages())|] == old(ActiveImages())
    {
      var imgs := ActiveImages() + ImportedImages(files, ids, handles);
      app.galleries := WithImages(app.galleries, app.activeIdx, imgs);
    }

    /** The new-gallery button: the new gallery becomes the active one. */
    method NewGallery(freshId: string)
      requires HasActiveGallery()
      requires app.isSettingsOpen
      modifies app`galleries, app`activeIdx
      ensures HasActiveGallery()
      ensures app.galleries == WithNewGallery(old(app.galleries), freshId)
      ensures app.activeIdx == old(|app.galleries|)
      ensures ActiveImages() == [] && app.galleries[app.activeIdx].id == freshId
    {
      var n := |app.galleries|;
      app.galleries := WithNewGallery(app.galleries, freshId);
      app.activeIdx := n;
    }

    /** A click on gallery row `idx`: it becomes active and the selection is
        cleared; the current image index is left as it was. */
    method OpenGallery(idx: int)
      requires 0 <= idx < |app.galleries|
      requires app.isSettingsOpen
      modifies app`activeIdx, this`selectedIds
      ensures HasActiveGallery() && app.activeIdx == idx && selectedIds == []
    {
      app.activeIdx := idx;
      selectedIds := [];
    }

    /** The name input of gallery row `idx`; any text, even empty, is taken. */
    method RenameGallery(idx: int, name: string)
      requires 0 <= idx < |app.galleries|
      requires app.isSettingsOpen
      modifies app`galleries
      ensures app.galleries == old(app.galleries)[idx := old(app.galleries[idx]).(name := name)]
    {
      app.galleries := app.galleries[idx := app.galleries[idx].(name := name)];
    }

    /** The delete button of gallery row `idx`, offered only while there are
        at least two galleries; the first gallery becomes active. */
    method DeleteGallery(idx: int)
      requires HasActiveGallery() && 0 <= idx < |app.galleries|
      requires app.isSettingsOpen
      modifies app`galleries, app`activeIdx
      ensures old(|app.galleries|) > 1 ==>
        app.galleries == GalleriesWithout(old(app.galleries), old(app.galleries[idx].id)) && app.activeIdx == 0
      ensures old(|app.galleries|) <= 1 ==>
        app.galleries == old(app.galleries) && app.activeIdx == old(app.activeIdx)
      ensures old(Distinct(GalleryIds(app.galleries))) ==> HasActiveGallery()
    {
      if |app.galleries| > 1 {
        if Distinct(GalleryIds(app.galleries)) {
          DeleteLeavesOne(app.galleries, idx);
        }
        app.galleries := GalleriesWithout(app.galleries, app.galleries[idx].id);
        app.activeIdx := 0;
      }
    }

    /** The drag-to-reorder list reports a new order of the active images. */
    method Reorder(newOrder: seq<SlideImage>)
      requires HasActiveGallery()
      requires app.isSettingsOpen
      modifies app`galleries
      ensures HasActiveGallery()
      ensures app.galleries == WithImages(old(app.galleries), app.activeIdx, newOrder)
    {
      app.galleries := WithImages(app.galleries, app.activeIdx, newOrder);
    }

    /** The check box of the image row with id `id`. */
    method ToggleImage(id: string)
      requires app.isSettingsOpen
      modifies this`selectedIds
      ensures selectedIds == SelectionToggled(old(selectedIds), id)
    {
      if id in selectedIds {
        selectedIds := Without(selectedIds, id);
      } else {
        selectedIds := selectedIds + [id];
      }
    }

    /** The caption or duration input of the image row with id `id`. */
    method UpdateImage(id: string, e: ImageEdit)
      requires HasActiveGallery()
      requires app.isSettingsOpen
      modifies app`galleries
      ensures HasActiveGallery()
      ensures app.galleries == WithImages(old(app.galleries), app.activeIdx, ImagesEdited(old(ActiveImages()), id, e))
    {
      app.galleries := WithImages(app.galleries, app.activeIdx, ImagesEdited(ActiveImages(), id, e));
    }

    /** The delete button of the image row with id `id`: the id leaves both
        the active gallery and the selection. */
    method RemoveImage(id: string)
      requires HasActiveGallery()
      requires app.isSettingsOpen
      modifies app`galleries, this`selectedIds
      ensures HasActiveGallery()
      ensures app.galleries == WithImages(old(app.galleries), app.activeIdx, ImagesWithout(old(ActiveImages()), id))
      ensures selectedIds == Without(old(selectedIds), id)
      ensures id !in ImageIds(ActiveImages()) && id !in selectedIds
    {
      ImagesWithoutIds(ActiveImages(), id);
      app.galleries := WithImages(app.galleries, app.activeIdx, ImagesWithout(ActiveImages(), id));
      selectedIds := Without(selectedIds, id);
    }

    method SetTransition(t: TransitionType)
      requires HasActiveGallery()
      requires app.isSettingsOpen
      modifies app`galleries
      ensures HasActiveGallery()
      ensures app.galleries == WithSettings(old(app.galleries), app.activeIdx, old(ActiveSettings()).(globalTransitionType := t))
    {
      app.galleries := WithSettings(app.galleries, app.activeIdx, ActiveSettings().(globalTransitionType := t));
    }

    method SetLoop(loop: bool)
      requires HasActiveGallery()
      requires app.isSettingsOpen
      modifies app`galleries
      ensures HasActiveGallery()
      ensures app.galleries == WithSettings(old(app.galleries), app.activeIdx, old(ActiveSettings()).(loop := loop))
    {
      app.galleries := WithSettings(app.galleries, app.activeIdx, ActiveSettings().(loop := loop));
    }

    method SetAutoplay(autoplay: bool)
      requires HasActiveGallery()
      requires app.isSettingsOpen
      modifies app`galleries
      ensures HasActiveGallery()
      ensures app.galleries == WithSettings(old(app.galleries), app.activeIdx, old(ActiveSettings()).(autoplay := autoplay))
    {
      app.galleries := WithSettings(app.galleries, app.activeIdx, ActiveSettings().(autoplay := autoplay));
    }

    /** The blur slider, whose range is 0 to 40. */
    method SetBgBlur(blur: int)
      requires HasActiveGallery() && 0 <= blur <= 40
      requires app.isSettingsOpen
      modifies app`galleries
      ensures HasActiveGallery() && 0 <= ActiveSettings().bgBlur <= 40
      ensures app.galleries == WithSettings(old(app.galleries), app.activeIdx, old(ActiveSettings()).(bgBlur := blur))
    {
      app.galleries := WithSettings(app.galleries, app.activeIdx, ActiveSettings().(bgBlur := blur));
    }

    /** The close button. Closing unmounts the panel and discards its own
        state, so the next opening starts again from the constructor's
        empty selection and bulk duration of 3. */
    method Close()
      requires app.isSettingsOpen
      modifies app`isSettingsOpen, this`selectedIds, this`bulkDuration
      ensures !app.isSettingsOpen
      ensures selectedIds == [] && bulkDuration == 3.0
    {
      app.isSettingsOpen := false;
      selectedIds := [];
      bulkDuration := 3.0;
    }
  }
}

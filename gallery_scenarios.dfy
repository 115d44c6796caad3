/** Clients of the gallery that follow it through a session using nothing but
    its contracts. */
module GalleryScenarios {
  import opened Wrappers
  import opened GalleryPaging
  import opened GalleryChrome
  import opened GalleryController

  /** Not part of the gallery: the page container's own step of settling
      `front` in front with `pages` as its children. */
  method ContainerSettles<T(==)>(gallery: GalleryViewController<T>, front: PageView?<T>, pages: seq<PageView<T>>)
    requires gallery.Valid()
    requires Distinct(pages)
    modifies gallery`frontPage, gallery`children
    ensures gallery.Valid()
    ensures gallery.frontPage == front && gallery.children == pages
  {
    gallery.frontPage := front;
    gallery.children := pages;
  }

  /** Three items: show the second, swipe forward to the third, then ask for
      an index past the end. */
  method SwipeThenOverrun<T(==)>(a: T, b: T, c: T)
    requires a != b && b != c && a != c
  {
    var gallery := new GalleryViewController<T>();
    gallery.SetImages([a, b, c]);
    gallery.SetCurrentImage(1, false);
    assert gallery.currentImage == 1 && gallery.countText == Some(CountText(2, 3));
    assert gallery.installs[|gallery.installs| - 1].direction == Forward;

    IndexOfDistinct([a, b, c], 1);
    var offered := PageAfter(gallery.images, gallery.frontPage.content);
    assert offered == Some(ImagePage(c));
    var next := new PageView(offered.value);
    ContainerSettles(gallery, next, [next]);
    gallery.DidFinishAnimating(true, true);
    assert gallery.currentImage == 2 && gallery.countText == Some(CountText(3, 3));

    IndexOfDistinct([a, b, c], 2);
    assert PageAfter(gallery.images, gallery.frontPage.content) == None;

    gallery.SetCurrentImage(5, false);
    assert gallery.currentImage == 0 && gallery.frontPage.content == Placeholder;
    assert gallery.installs[|gallery.installs| - 1] == Installation(Placeholder, Forward, false);
  }

  /** Asking again for the index already shown slides in reverse, and toggling
      the bars twice restores them. */
  method SameIndexAndDoubleToggle<T(==)>(a: T, b: T)
  {
    var gallery := new GalleryViewController<T>();
    gallery.SetImages([a, b]);
    gallery.SetCurrentImage(0, true);
    assert gallery.installs[|gallery.installs| - 1] == Installation(ImagePage(a), Reverse, true);

    var hidden := gallery.PrefersStatusBarHidden();
    gallery.ToggleBarVisibility();
    gallery.ToggleBarVisibility();
    assert gallery.PrefersStatusBarHidden() == hidden;
  }

  /** Replacing a list by a shorter one keeps the index, which may then lie
      past the end: the label reads "3 of 1", the child page that showed the
      third item keeps it, and the one that showed the first is rebound. */
  method ShrinkingListLeavesIndexBehind<T(==)>(a: T, b: T, c: T, d: T)
    requires a != b && b != c && a != c
  {
    var gallery := new GalleryViewController<T>();
    gallery.SetImages([a, b, c]);
    gallery.SetCurrentImage(2, false);
    var first := new PageView(ImagePage(a));
    var shown := gallery.frontPage;
    ContainerSettles(gallery, shown, [first, shown]);

    IndexOfDistinct([a, b, c], 0);
    IndexOfDistinct([a, b, c], 2);
    gallery.SetImages([d]);
    assert gallery.children[0] == first && gallery.children[1] == shown;
    assert gallery.currentImage == 2 && gallery.countText == Some(CountText(3, 1));
    assert first.content == ImagePage(d);
    assert shown.content == ImagePage(c);
  }

  /** The current image view controller is set only when the view appears:
      after a swipe to the next item the action still receives the item shown
      when the view appeared, and a double tap still zooms that page. */
  method ActionFollowsAppearanceNotSwipe<T(==)>(a: T, b: T)
    requires a != b
  {
    var gallery := new GalleryViewController<T>();
    gallery.SetImages([a, b]);
    gallery.SetActionForGalleryItem(Some(7));
    gallery.ViewWillAppear(false);
    assert gallery.currentImageViewController.content == ImagePage(a);

    var offered := PageAfter(gallery.images, gallery.frontPage.content);
    assert offered == Some(ImagePage(b));
    var next := new PageView(offered.value);
    ContainerSettles(gallery, next, [next]);
    gallery.DidFinishAnimating(true, true);
    assert gallery.currentImage == 1;

    gallery.PerformAction();
    assert gallery.actionCalls == [(7, a)];
    gallery.ToggleZoom();
    assert gallery.zoomToggles == [ImagePage(a)];
  }

  /** The delegate's answer is asked again for each new trait collection, so a
      delegate that hides the dismiss control only in trait collection 1
      hides it there and shows it again in 2. */
  method DoneButtonFollowsTraitCollection<T(==)>()
  {
    var gallery := new GalleryViewController<T>();
    var delegate := PhotoViewDelegate(Some((traits: TraitCollection) => traits != 1), false);
    gallery.SetPhotoViewDelegate(Some(delegate));
    assert gallery.doneButtonShown;
    gallery.TraitCollectionDidChange(1);
    assert !gallery.doneButtonShown;
    gallery.TraitCollectionDidChange(2);
    assert gallery.doneButtonShown;
  }
}

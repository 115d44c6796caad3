/** The gallery view controller: its item list, current index, bar visibility
    and button configuration, and the callbacks through which the page
    container asks it for pages and reports which page settled in front.

    The page container itself is not part of this model. Its state that the
    controller reads or changes is kept here as two fields: `frontPage`, the
    first of its shown view controllers, and `children`, its child view
    controllers. Installing a page records it as the front page and logs the
    installation; everything the container does beyond that is left out. */
module GalleryController {
  import opened Wrappers
  import opened GalleryPaging
  import opened GalleryChrome

  /** One view controller shown by the page container. Its content says
      whether it is a bare placeholder or a single-image view, and to which
      item that view is bound; single-image views are rebound in place. */
  class PageView<T> {
    var content: Page<T>

    constructor (content: Page<T>)
      ensures this.content == content
    {
      this.content := content;
    }
  }

  /** One call to the container's `setViewControllers`: the page installed,
      the direction it slides in from, and whether that is animated. */
  datatype Installation<T> = Installation(page: Page<T>, direction: Direction, animated: bool)

  /** One request to the host to hide or show its tool and navigation bars. */
  datatype BarUpdate = BarUpdate(hidden: bool, animated: bool)

  /** The identity of the closure set as the action for a gallery item. */
  type ActionHandler = nat

  class GalleryViewController<T(==)> {
    var images: seq<T>
    var currentImage: int
    var navigationBarsHidden: bool
    var photoViewDelegate: Option<PhotoViewDelegate>
    /** The trait collection the view is currently shown in. */
    var traitCollection: TraitCollection
    var actionForGalleryItem: Option<ActionHandler>
    /** Whether the navigation item's left button is the done button. */
    var doneButtonShown: bool
    /** Whether the navigation item's right button is the action button. */
    var actionButtonShown: bool
    var currentImageViewController: PageView?<T>
    /** The text of the count label; none until it is first written. */
    var countText: Option<CountText>

    // The page container's state.
    var frontPage: PageView?<T>
    var children: seq<PageView<T>>

    // What the controller has asked of its collaborators, in order.
    var indexNotifications: seq<int>
    var installs: seq<Installation<T>>
    var barUpdates: seq<BarUpdate>
    var dismissals: seq<Dismissal>
    var actionCalls: seq<(ActionHandler, T)>
    var zoomToggles: seq<Page<T>>

    /** The index is never negative, and the container never lists a child
        twice. */
    ghost predicate Valid()
      reads this
    {
      0 <= currentImage && Distinct(children)
    }

    constructor ()
      ensures Valid()
      ensures images == [] && currentImage == 0 && !navigationBarsHidden
      ensures photoViewDelegate == None && actionForGalleryItem == None && traitCollection == 0
      ensures !doneButtonShown && !actionButtonShown
      ensures currentImageViewController == null && countText == None
      ensures frontPage == null && children == []
      ensures indexNotifications == [] && installs == [] && barUpdates == []
      ensures dismissals == [] && actionCalls == [] && zoomToggles == []
    {
      images := [];
      currentImage := 0;
      navigationBarsHidden := false;
      photoViewDelegate := None;
      traitCollection := 0;
      actionForGalleryItem := None;
      doneButtonShown := false;
      actionButtonShown := false;
      currentImageViewController := null;
      countText := None;
      frontPage := null;
      children := [];
      indexNotifications := [];
      installs := [];
      barUpdates := [];
      dismissals := [];
      actionCalls := [];
      zoomToggles := [];
    }

    /** Writes the count label from the current index and the item count. */
    method UpdateCountText()
      modifies this`countText
      ensures countText == Some(CountFor(currentImage, |images|))
    {
      countText := Some(CountText(currentImage + 1, |images|));
    }

    /** An assignment to `currentImage` with its observer: the delegate, when
        it handles index updates, is told the new index, and the count label
        is rewritten, even when the value does not change. */
    method AssignCurrentImage(index: int)
      requires Valid() && 0 <= index
      modifies this`currentImage, this`indexNotifications, this`countText
      ensures Valid()
      ensures currentImage == index
      ensures indexNotifications == old(indexNotifications) + IndexUpdates(photoViewDelegate, index)
      ensures countText == Some(CountFor(index, |images|))
    {
      currentImage := index;
      if photoViewDelegate.Some? && photoViewDelegate.value.handlesIndexUpdate {
        indexNotifications := indexNotifications + [currentImage];
      }
      UpdateCountText();
    }

    /** The container's `setViewControllers` with a single page. */
    method Install(page: PageView<T>, direction: Direction, animated: bool)
      modifies this`frontPage, this`installs
      ensures frontPage == page
      ensures installs == old(installs) + [Installation(page.content, direction, animated)]
    {
      frontPage := page;
      installs := installs + [Installation(page.content, direction, animated)];
    }

    /** Shows the item at `target`. An index outside the list resets the
        index to 0 and installs a placeholder page sliding forward; otherwise
        a page bound to the item is installed, sliding forward only when the
        target is greater than the old index. */
    method SetCurrentImage(target: int, animated: bool)
      requires Valid()
      modifies this`currentImage, this`indexNotifications, this`countText
      modifies this`frontPage, this`installs
      ensures Valid()
      ensures frontPage != null && fresh(frontPage)
      ensures 0 <= target < |images| ==>
        currentImage == target &&
        frontPage.content == ImagePage(images[target]) &&
        installs == old(installs) + [Installation(ImagePage(images[target]), ChooseDirection(old(currentImage), target), animated)]
      ensures !(0 <= target < |images|) ==>
        currentImage == 0 &&
        frontPage.content == Placeholder &&
        installs == old(installs) + [Installation(Placeholder, Forward, animated)]
      ensures indexNotifications == old(indexNotifications) + IndexUpdates(photoViewDelegate, currentImage)
      ensures countText == Some(CountFor(currentImage, |images|))
    {
      if !(target >= 0 && target < |images|) {
        AssignCurrentImage(0);
        var placeholder := new PageView(Placeholder);
        Install(placeholder, Forward, animated);
        return;
      }
      var newView := new PageView(ImagePage(images[target]));
      var direction: Direction;
      if currentImage < target {
        direction := Forward;
      } else {
        direction := Reverse;
      }
      AssignCurrentImage(target);
      Install(newView, direction, animated);
    }

    /** Before the gallery appears: the bars are brought in line with the
        flag, and when the index is inside the list a page bound to its item
        becomes both the current image view controller and the front page. */
    method ViewWillAppear(animated: bool)
      requires Valid()
      modifies this`barUpdates, this`currentImageViewController, this`frontPage, this`installs
      ensures Valid()
      ensures barUpdates == old(barUpdates) + [BarUpdate(navigationBarsHidden, false)]
      ensures currentImage < |images| ==>
        currentImageViewController != null && fresh(currentImageViewController) &&
        frontPage == currentImageViewController &&
        frontPage.content == ImagePage(images[currentImage]) &&
        installs == old(installs) + [Installation(ImagePage(images[currentImage]), Forward, false)]
      ensures currentImage >= |images| ==>
        currentImageViewController == old(currentImageViewController) &&
        frontPage == old(frontPage) && installs == old(installs)
    {
      UpdateBarStatus(false);
      if currentImage < |images| {
        var photoPage := new PageView(ImagePage(images[currentImage]));
        currentImageViewController := photoPage;
        Install(photoPage, Forward, false);
      }
    }

    /** Asks the host to hide or show its bars as the flag says. */
    method UpdateBarStatus(animated: bool)
      modifies this`barUpdates
      ensures barUpdates == old(barUpdates) + [BarUpdate(navigationBarsHidden, animated)]
    {
      barUpdates := barUpdates + [BarUpdate(navigationBarsHidden, animated)];
    }

    /** The status bar is hidden exactly when the bars are. */
    function PrefersStatusBarHidden(): (hidden: bool)
      reads this
      ensures hidden <==> navigationBarsHidden
    {
      navigationBarsHidden
    }

    /** A single tap flips the bar flag, which the status bar follows, and
        asks the host, with animation, to apply it. */
    method ToggleBarVisibility()
      modifies this`navigationBarsHidden, this`barUpdates
      ensures navigationBarsHidden == !old(navigationBarsHidden)
      ensures PrefersStatusBarHidden() == !old(PrefersStatusBarHidden())
      ensures barUpdates == old(barUpdates) + [BarUpdate(navigationBarsHidden, true)]
    {
      navigationBarsHidden := !navigationBarsHidden;
      UpdateBarStatus(true);
    }

    /** A double tap asks the current image view controller, if any, to
        toggle its zoom. */
    method ToggleZoom()
      modifies this`zoomToggles
      ensures currentImageViewController != null ==>
        zoomToggles == old(zoomToggles) + [currentImageViewController.content]
      ensures currentImageViewController == null ==> zoomToggles == old(zoomToggles)
    {
      if currentImageViewController != null {
        zoomToggles := zoomToggles + [currentImageViewController.content];
      }
    }

    /** The done button: a set delegate is asked to dismiss the gallery,
        otherwise the gallery dismisses itself. */
    method DismissPhotoView()
      modifies this`dismissals
      ensures dismissals == old(dismissals) + [DismissRoute(photoViewDelegate)]
    {
      if photoViewDelegate.Some? {
        dismissals := dismissals + [DelegateDismisses];
      } else {
        dismissals := dismissals + [GalleryDismissesItself];
      }
    }

    /** The action button: when the current image view controller is bound to
        an item and an action is set, the action is called with that item. */
    method PerformAction()
      modifies this`actionCalls
      ensures currentImageViewController != null && currentImageViewController.content.ImagePage? && actionForGalleryItem.Some? ==>
        actionCalls == old(actionCalls) + [(actionForGalleryItem.value, currentImageViewController.content.item)]
      ensures !(currentImageViewController != null && currentImageViewController.content.ImagePage? && actionForGalleryItem.Some?) ==>
        actionCalls == old(actionCalls)
    {
      if currentImageViewController != null && currentImageViewController.content.ImagePage? {
        var item := currentImageViewController.content.item;
        if actionForGalleryItem.Some? {
          actionCalls := actionCalls + [(actionForGalleryItem.value, item)];
        }
      }
    }

    method ConfigureDoneButton()
      modifies this`doneButtonShown
      ensures doneButtonShown == DoneButtonShown(photoViewDelegate, traitCollection)
    {
      if photoViewDelegate.Some? && photoViewDelegate.value.showDismissForTraitCollection.Some? {
        doneButtonShown := photoViewDelegate.value.showDismissForTraitCollection.value(traitCollection);
      } else {
        doneButtonShown := true;
      }
    }

    method ConfigureActionButton()
      modifies this`actionButtonShown
      ensures actionButtonShown == ActionButtonShown(actionForGalleryItem)
    {
      actionButtonShown := actionForGalleryItem != None;
    }

    /** Setting the delegate re-decides whether the done button is shown. */
    method SetPhotoViewDelegate(delegate: Option<PhotoViewDelegate>)
      modifies this`photoViewDelegate, this`doneButtonShown
      ensures photoViewDelegate == delegate
      ensures doneButtonShown == DoneButtonShown(delegate, traitCollection)
    {
      photoViewDelegate := delegate;
      ConfigureDoneButton();
    }

    /** Setting the action re-decides whether the action button is shown. */
    method SetActionForGalleryItem(action: Option<ActionHandler>)
      modifies this`actionForGalleryItem, this`actionButtonShown
      ensures actionForGalleryItem == action
      ensures actionButtonShown == (action != None)
    {
      actionForGalleryItem := action;
      ConfigureActionButton();
    }

    /** Replacing the done button, and loading the view, each re-decide
        whether the done button is shown. */
    method ReplaceDoneButton()
      modifies this`doneButtonShown
      ensures doneButtonShown == DoneButtonShown(photoViewDelegate, traitCollection)
    {
      ConfigureDoneButton();
    }

    method ViewDidLoad()
      modifies this`doneButtonShown
      ensures doneButtonShown == DoneButtonShown(photoViewDelegate, traitCollection)
    {
      ConfigureDoneButton();
    }

    /** A change of trait collection asks the delegate again, now for the new
        trait collection. */
    method TraitCollectionDidChange(traits: TraitCollection)
      modifies this`traitCollection, this`doneButtonShown
      ensures traitCollection == traits
      ensures doneButtonShown == DoneButtonShown(photoViewDelegate, traits)
    {
      traitCollection := traits;
      ConfigureDoneButton();
    }

    /** Replacing the action button re-decides whether it is shown. */
    method ReplaceActionButton()
      modifies this`actionButtonShown
      ensures actionButtonShown == ActionButtonShown(actionForGalleryItem)
    {
      ConfigureActionButton();
    }

    /** When a transition settles, the index becomes the first position of the
        front page's item in the list; it is left alone (and nothing is sent)
        when there is no front page, it is a placeholder, or its item is not in
        the list. Whether the transition finished or completed is not read. */
    method DidFinishAnimating(finished: bool, completed: bool)
      requires Valid()
      modifies this`currentImage, this`indexNotifications, this`countText
      ensures Valid()
      ensures frontPage != null && IndexOfPage(images, frontPage.content).Some? ==>
        currentImage == IndexOfPage(images, frontPage.content).value &&
        indexNotifications == old(indexNotifications) + IndexUpdates(photoViewDelegate, currentImage) &&
        countText == Some(CountFor(currentImage, |images|))
      ensures !(frontPage != null && IndexOfPage(images, frontPage.content).Some?) ==>
        currentImage == old(currentImage) &&
        indexNotifications == old(indexNotifications) && countText == old(countText)
    {
      if frontPage != null {
        var index := IndexOfPage(images, frontPage.content);
        if index.Some? {
          AssignCurrentImage(index.value);
        }
      }
    }

    /** Replacing the item list: every child whose item sits at first position
        `i` of the old list, with `i` inside the new one, is rebound to the
        new item at `i`; other children, the index and every other page are
        left alone; the count label is rewritten. */
    method SetImages(newImages: seq<T>)
      requires Valid()
      modifies this`images, this`countText, children
      ensures Valid()
      ensures images == newImages
      ensures forall k :: 0 <= k < |children| ==>
        children[k].content == RebindPage(old(children[k].content), old(images), newImages)
      ensures countText == Some(CountFor(currentImage, |newImages|))
    {
      var oldValue := images;
      images := newImages;
      HandleImagesUpdate(oldValue);
    }

    method HandleImagesUpdate(oldValue: seq<T>)
      requires Valid()
      modifies this`countText, children
      ensures Valid()
      ensures forall k :: 0 <= k < |children| ==>
        children[k].content == RebindPage(old(children[k].content), oldValue, images)
      ensures countText == Some(CountFor(currentImage, |images|))
    {
      var n := 0;
      while n < |children|
        invariant 0 <= n <= |children|
        invariant forall k :: 0 <= k < n ==>
          children[k].content == RebindPage(old(children[k].content), oldValue, images)
        invariant forall k :: n <= k < |children| ==> children[k].content == old(children[k].content)
      {
        var viewController := children[n];
        var index := IndexOfPage(oldValue, viewController.content);
        if index.Some? && index.value < |images| {
          viewController.content := ImagePage(images[index.value]);
        }
        n := n + 1;
      }
      UpdateCountText();
    }
  }
}

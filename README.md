# RIGImageGallery paging core in Dafny

RIGImageGallery is a paging image-gallery view controller,
`RIGImageGalleryViewController`, built on the platform's page view
controller. This project models its index, paging and visibility state
machine:

- the item list `images` and the index `currentImage`, whose observer tells the
  delegate about every assignment and rewrites the "N of M" count label;
- `setCurrentImage`, with its bounds check and choice of slide direction;
- the two page-supply callbacks, which offer the page next to a given one;
- the transition-completion callback, which takes the index back from the
  item on the front page;
- replacing `images`, which rebinds the child pages in place by their position
  in the old list;
- the bar-visibility toggle, the status-bar preference, the done/action button
  decisions, and the dismiss, action and zoom dispatch;
- the two gesture-precedence answers that give the double tap priority over
  the single tap.

Items are a type parameter `T` compared by equality. A page is
`Placeholder | ImagePage(item)`. Page objects are instances of the class
`PageView`, so rebinding a child in place also changes the front page or the
current image view controller when either is that same child. The count label
is the pair `(currentImage + 1, images.count)`. The trait collection is kept
by identity in the field `traitCollection`. The delegate is a value
`PhotoViewDelegate(showDismissForTraitCollection, handlesIndexUpdate)`.
`showDismissForTraitCollection` is its answer as a function of the trait
collection, or none when it does not implement that question. The action closure is replaced by a
handler identity. What the controller asks of its collaborators is recorded
in logs on the controller: index notifications, page installations, bar
updates, dismissals, action calls and zoom toggles.

The page container is not modelled. Its state that the controller reads is
kept as two fields: `frontPage`, the first of its view controllers, and
`children`, its child view controllers. `setViewControllers` only records the
page as front page and logs the installation. `ContainerSettles`, in the
scenarios module, is the container's own step of settling a front page and a
child list. The client scenarios use it to stand for a swipe. It is not part
of the gallery.

Modules: `Wrappers` (Option), `GalleryPaging` (the pure paging rules),
`GalleryChrome` (button, dismiss, notification and gesture decisions),
`GalleryController` (the controller class), and `GalleryScenarios` (clients
that follow five sessions through the contracts).

Behaviour of the code worth knowing:

- Moving to the index already shown slides in **reverse**: the test at
  RIGImageGalleryViewController.swift:71 is a strict `<`.
- `currentImage` is not kept inside the list. Replacing `images` never touches
  it (:272-281), so after a shorter list arrives it can point past the end and
  the label can read "3 of 1". `ShrinkingListLeavesIndexBehind` shows this.
  The only invariant that holds is `currentImage >= 0`.
- A page whose old position is beyond the new list is left bound to its old
  item. Nothing is closed.
- `currentImageViewController` is assigned only when the view appears
  (:118-122). After a swipe, the action button and the double tap still act
  on the page shown at that time (`ActionFollowsAppearanceNotSwipe`).
- Paging works from the first occurrence of an item. With a repeated item the
  last item may still be offered a next page, and later pages can become
  unreachable by swiping (`RepeatedItemHidesLaterPages`). The "no next page
  after the last item" property holds only for lists without repetitions
  (`SupplyStopsAtEnds`).

## Model

| member | source | states |
|---|---|---|
| `GalleryPaging.IndexOf` | RIGImageGallery/RIGImageGalleryViewController.swift:237 | the result is none exactly when the item is absent; otherwise it is a position holding the item with no earlier position holding it |
| `GalleryPaging.IndexOfDistinct` | RIGImageGallery/RIGImageGalleryViewController.swift:237 | in a list without repetitions the item at `i` is found at `i` |
| `GalleryPaging.IndexOfPage` | RIGImageGallery/RIGImageGalleryViewController.swift:233-239 | a placeholder page has no position; an image page has the first position of its item, or none when the item is absent |
| `GalleryPaging.PageAfter` | RIGImageGallery/RIGImageGalleryViewController.swift:191-199 | a page bound to the item after the first occurrence `k` of the page's item is offered exactly when `k + 1` is inside the list; nothing is offered for a placeholder or an absent item |
| `GalleryPaging.PageBefore` | RIGImageGallery/RIGImageGalleryViewController.swift:201-208 | a page bound to the item before the first occurrence `k` is offered exactly when `k >= 1`; nothing is offered for a placeholder or an absent item |
| `GalleryPaging.SupplyStopsAtEnds` | RIGImageGallery/RIGImageGalleryViewController.swift:191-208 | without repetitions, nothing is offered after the last item or before the first |
| `GalleryPaging.AfterThenBefore` | RIGImageGallery/RIGImageGalleryViewController.swift:191-208 | without repetitions, the page offered after `p` sits one position further, and the page offered before it is `p` again |
| `GalleryPaging.BeforeThenAfter` | RIGImageGallery/RIGImageGalleryViewController.swift:191-208 | without repetitions, the page offered before `p` sits one position earlier, and the page offered after it is `p` again |
| `GalleryPaging.SwipesReachEveryItem` | RIGImageGallery/RIGImageGalleryViewController.swift:191-199 | without repetitions, `n` forward swipes from the first item reach the item at `n` |
| `GalleryPaging.RepeatedItemHidesLaterPages` | RIGImageGallery/RIGImageGalleryViewController.swift:191-199 | in `[a, b, a, c]` every number of forward swipes from `a` lands on `a` or `b`, never on `c` |
| `GalleryPaging.RebindPage` | RIGImageGallery/RIGImageGalleryViewController.swift:273-278 | a page whose item sits at first position `i` of the old list, with `i` inside the new list, is bound to the new item at `i`; placeholders, absent items and positions past the new end are left unchanged |
| `GalleryPaging.RebindSameList` | RIGImageGallery/RIGImageGalleryViewController.swift:273-278 | replacing a list by itself rebinds no page |
| `GalleryPaging.RebindKeepsPosition` | RIGImageGallery/RIGImageGalleryViewController.swift:273-278 | when the new list has no repetitions, a rebound page's item is found in the new list at the position its old item had |
| `GalleryPaging.RebindLeavesStalePage` | RIGImageGallery/RIGImageGalleryViewController.swift:273-278 | a page whose old position is past the end of the new list keeps its old item |
| `GalleryPaging.ChooseDirection` | RIGImageGallery/RIGImageGalleryViewController.swift:70-76 | the direction is forward exactly when the old index is strictly less than the target; an equal or smaller target gives reverse |
| `GalleryPaging.CountFor` | RIGImageGallery/RIGImageGalleryViewController.swift:288-291 | the label's first number is the index plus one and its second the item count |
| `GalleryChrome.DoneButtonShown` | RIGImageGallery/RIGImageGalleryViewController.swift:244-249 | the done button is hidden exactly when a delegate is set and answers no for the given trait collection; no delegate, or no answer, shows it |
| `GalleryChrome.ActionButtonShown` | RIGImageGallery/RIGImageGalleryViewController.swift:255-260 | the action button is shown exactly when an action is set |
| `GalleryChrome.DismissRoute` | RIGImageGallery/RIGImageGalleryViewController.swift:172-179 | the delegate dismisses exactly when one is set; otherwise the gallery dismisses itself |
| `GalleryChrome.IndexUpdates` | RIGImageGallery/RIGImageGalleryViewController.swift:53 | at most one notification, carrying the new index, sent exactly when a delegate that handles index updates is set |
| `GalleryChrome.ShouldBeRequiredToFailBy` | RIGImageGallery/RIGImageGalleryViewController.swift:143-148 | only the zoom recognizer answers yes, and it answers yes exactly for the bar-toggle recognizer |
| `GalleryChrome.ShouldRequireFailureOf` | RIGImageGallery/RIGImageGalleryViewController.swift:150-155 | only the bar-toggle recognizer answers yes, and it answers yes exactly for the zoom recognizer |
| `GalleryChrome.TapPrecedenceIsStrict` | RIGImageGallery/RIGImageGalleryViewController.swift:141-157 | the two answers are converse, irreflexive and antisymmetric, and relate only bar toggle to zoom: double tap over single tap |
| `GalleryController.GalleryViewController.constructor` | RIGImageGallery/RIGImageGalleryViewController.swift:33-61 | a new controller has no items, index 0, bars shown, no delegate or action, no buttons, no label text and empty logs |
| `GalleryController.GalleryViewController.UpdateCountText` | RIGImageGallery/RIGImageGalleryViewController.swift:288-291 | the label becomes `(currentImage + 1, images.count)` |
| `GalleryController.GalleryViewController.AssignCurrentImage` | RIGImageGallery/RIGImageGalleryViewController.swift:51-56 | every assignment sets the index, appends the delegate's notification of it, and rewrites the label, even when the value is unchanged |
| `GalleryController.GalleryViewController.Install` | RIGImageGallery/RIGImageGalleryViewController.swift:78 | the installed page becomes the front page and the installation is logged with its direction and animation flag |
| `GalleryController.GalleryViewController.SetCurrentImage` | RIGImageGallery/RIGImageGalleryViewController.swift:63-79 | inside the list: the index becomes the target and a fresh page bound to that item is installed with the direction from the old index; outside it: the index becomes 0 and a fresh placeholder is installed forward; either way the notification is sent, the label rewritten and the invariant kept |
| `GalleryController.GalleryViewController.ViewWillAppear` | RIGImageGallery/RIGImageGalleryViewController.swift:115-123 | the bars are updated without animation; when the index is inside the list a fresh page bound to its item becomes the current image view controller and the front page, installed forward without animation; otherwise neither changes |
| `GalleryController.GalleryViewController.UpdateBarStatus` | RIGImageGallery/RIGImageGalleryViewController.swift:263-266 | the host is asked to set its bars to the flag's value with the given animation |
| `GalleryController.GalleryViewController.PrefersStatusBarHidden` | RIGImageGallery/RIGImageGalleryViewController.swift:125-127 | the status bar is hidden exactly when the bars are |
| `GalleryController.GalleryViewController.ToggleBarVisibility` | RIGImageGallery/RIGImageGalleryViewController.swift:163-166 | the flag and the status-bar preference are negated, so two toggles restore them, and an animated bar update is requested |
| `GalleryController.GalleryViewController.ToggleZoom` | RIGImageGallery/RIGImageGalleryViewController.swift:168-170 | a zoom toggle is requested of the current image view controller exactly when there is one |
| `GalleryController.GalleryViewController.DismissPhotoView` | RIGImageGallery/RIGImageGalleryViewController.swift:172-179 | the dismissal is routed to the delegate when one is set, and to the gallery itself otherwise |
| `GalleryController.GalleryViewController.PerformAction` | RIGImageGallery/RIGImageGalleryViewController.swift:181-185 | the action is called with the current image view controller's item exactly when that controller is bound to an item and an action is set |
| `GalleryController.GalleryViewController.ConfigureDoneButton` | RIGImageGallery/RIGImageGalleryViewController.swift:241-250 | the done button is shown as `DoneButtonShown` decides for the current delegate and trait collection |
| `GalleryController.GalleryViewController.ConfigureActionButton` | RIGImageGallery/RIGImageGalleryViewController.swift:252-261 | the action button is shown as `ActionButtonShown` decides for the current action |
| `GalleryController.GalleryViewController.SetPhotoViewDelegate` | RIGImageGallery/RIGImageGalleryViewController.swift:21-25 | the delegate is stored and the done button re-decided for it |
| `GalleryController.GalleryViewController.SetActionForGalleryItem` | RIGImageGallery/RIGImageGalleryViewController.swift:27-31 | the action is stored and the action button shown exactly when one is set |
| `GalleryController.GalleryViewController.ReplaceDoneButton` | RIGImageGallery/RIGImageGalleryViewController.swift:39-43 | replacing the done button re-decides whether it is shown |
| `GalleryController.GalleryViewController.ReplaceActionButton` | RIGImageGallery/RIGImageGalleryViewController.swift:45-49 | replacing the action button re-decides whether it is shown |
| `GalleryController.GalleryViewController.ViewDidLoad` | RIGImageGallery/RIGImageGalleryViewController.swift:95-96 | loading the view decides whether the done button is shown |
| `GalleryController.GalleryViewController.TraitCollectionDidChange` | RIGImageGallery/RIGImageGalleryViewController.swift:134-137 | the new trait collection is recorded and the delegate's answer for it decides whether the done button is shown |
| `GalleryController.GalleryViewController.DidFinishAnimating` | RIGImageGallery/RIGImageGalleryViewController.swift:222-226 | when the front page is an image page whose item is in the list, the index becomes that item's first position, with notification and label; otherwise index, notifications and label are unchanged; the finished and completed flags are not read |
| `GalleryController.GalleryViewController.SetImages` | RIGImageGallery/RIGImageGalleryViewController.swift:33-37 | the list is replaced; every child page becomes `RebindPage` of its old content from the old list to the new one; the index is unchanged; the label becomes `(currentImage + 1, new count)`; no other page or field changes (the modifies frame) |
| `GalleryController.GalleryViewController.HandleImagesUpdate` | RIGImageGallery/RIGImageGalleryViewController.swift:272-281 | the loop over the children rebinds each one in place by its first position in the old list, then rewrites the label |

## Left out

- Layout insets: `scrollViewInset`, `baseInsets`, the layout guides, `viewWillLayoutSubviews` and `willTransitionToViewControllers` (:129-132, :214-220, :283-286). They are floating-point geometry. The `scrollViewInset` getter also calls `loadViewIfNeeded()` (:284), which is not geometry; see the next line.
- Lazy view loading: the model assumes the view is already loaded. Otherwise, reading the insets while `handleImagesUpdate` rebinds a child (:277) can load the view and run `viewDidLoad` (:95-113), and with it `configureDoneButton` (:96). The frame of `SetImages` leaves `doneButtonShown` unchanged.
- The page container's own behaviour: animation, how it fills its child list, and when it asks for pages. Installing a page only records it as the front page and does not add it to `children`. So a page installed by `SetCurrentImage` or `ViewWillAppear` is rebound by `SetImages` only after the container step lists it as a child. In the source, the container lists its shown page among `childViewControllers`. For example, on `[a, b]`, `SetCurrentImage(1)` then `SetImages([c, c])` leaves the model's front page on `b`.
- Order between side effects: each collaborator has its own log. So the model does not show that the delegate is notified (:53) before the label is rewritten (:54). Re-entry into the gallery from the delegate or action callbacks (:53, :174, :183) is not modelled either: each callback is a logged request that changes no gallery state.
- `UpdateBarStatus`: the host's navigation controller, which may be absent, the status-bar refresh and the inset animation are reduced to one logged request.
- View and toolbar setup in `init` and `viewDidLoad`: gesture wiring, the background colour, the toolbar items, the label's font and size. `ViewDidLoad` models only its call to configure the done button.
- Bar-button targets and selectors, and the identity of the button objects.
- `RIGSingleImageViewController` and `RIGImageGalleryItem` are not part of this model. A page is modelled by its bound item, an item by equality, and the zoom toggle by a logged request.
- The contents of the trait collection. It is kept as an opaque identity, and the delegate's answer is a function of that identity.
- The formatting of the "N of M" text. The label is kept as its two numbers.
- The trap of `successor()` at the largest Swift `Int` in the label. Integers are unbounded here. Every value assigned to `currentImage` is 0 or a position of the list at the time of the assignment (:65, :77, :224), so `currentImage + 1` cannot trap.

/** The gallery's decisions about its chrome: which bar buttons it shows, how a
    dismiss request is routed, whom it tells about index changes, and which of
    its two tap recognizers takes precedence. */
module GalleryChrome {
  import opened Wrappers

  /** The trait collection the gallery is shown in, by identity; its
      contents (size classes, display scale) are not modelled. */
  type TraitCollection = nat

  /** What the optional photo-view delegate can do. `showDismissForTraitCollection`
      is its answer to "show the dismiss control for this trait collection?",
      none when it does not implement that question; `handlesIndexUpdate` is
      whether it implements the index-change notification. */
  datatype PhotoViewDelegate = PhotoViewDelegate(
    showDismissForTraitCollection: Option<TraitCollection -> bool>,
    handlesIndexUpdate: bool)

  /** Who closes the gallery when its done button is pressed. */
  datatype Dismissal = DelegateDismisses | GalleryDismissesItself

  /** The two tap recognizers the gallery installs, and any other recognizer
      the framework asks about. */
  datatype Recognizer = ZoomRecognizer | ToggleBarRecognizer | OtherRecognizer

  /** The done button is shown unless a delegate is set and answers no for
      `traits`; a delegate that does not answer, or no delegate, leaves it
      shown. */
  function DoneButtonShown(delegate: Option<PhotoViewDelegate>, traits: TraitCollection): (shown: bool)
    ensures !shown <==>
      delegate.Some? && delegate.value.showDismissForTraitCollection.Some? &&
      !delegate.value.showDismissForTraitCollection.value(traits)
    ensures delegate.None? ==> shown
    ensures delegate.Some? && delegate.value.showDismissForTraitCollection.None? ==> shown
  {
    // The optional chain `delegate?.showDismissForTraitCollection?(traits)`.
    var answer :=
      if delegate.Some? && delegate.value.showDismissForTraitCollection.Some?
      then Some(delegate.value.showDismissForTraitCollection.value(traits))
      else None;
    answer.GetOr(true)
  }

  /** The action button is shown exactly when an action handler is set. */
  function ActionButtonShown<H>(action: Option<H>): (shown: bool)
    ensures shown <==> action.Some?
  {
    match action
    case Some(_) => true
    case None => false
  }

  /** A set delegate closes the gallery; without one the gallery closes itself. */
  function DismissRoute(delegate: Option<PhotoViewDelegate>): (route: Dismissal)
    ensures route == DelegateDismisses <==> delegate.Some?
    ensures route == GalleryDismissesItself <==> delegate.None?
  {
    if delegate.Some? then DelegateDismisses else GalleryDismissesItself
  }

  /** The notifications an assignment of `index` sends: one, carrying the
      index, when a delegate is set that handles index updates; none otherwise. */
  function IndexUpdates(delegate: Option<PhotoViewDelegate>, index: int): (sent: seq<int>)
    ensures |sent| <= 1
    ensures forall k :: 0 <= k < |sent| ==> sent[k] == index
    ensures |sent| == 1 <==> delegate.Some? && delegate.value.handlesIndexUpdate
  {
    if delegate.Some? && delegate.value.handlesIndexUpdate then [index] else []
  }

  /** Whether `recognizer` must fail before `other` may begin, as the gallery
      answers the framework: only the bar toggle waits for the zoom. */
  function ShouldBeRequiredToFailBy(recognizer: Recognizer, other: Recognizer): (r: bool)
    ensures r ==> recognizer == ZoomRecognizer
    ensures recognizer == ZoomRecognizer ==> (r <==> other == ToggleBarRecognizer)
  {
    if recognizer == ZoomRecognizer then other == ToggleBarRecognizer else false
  }

  /** Whether `recognizer` waits for `other` to fail, as the gallery answers
      the framework: only the bar toggle waits, and only for the zoom. */
  function ShouldRequireFailureOf(recognizer: Recognizer, other: Recognizer): (r: bool)
    ensures r ==> recognizer == ToggleBarRecognizer
    ensures recognizer == ToggleBarRecognizer ==> (r <==> other == ZoomRecognizer)
  {
    if recognizer == ToggleBarRecognizer then other == ZoomRecognizer else false
  }

  /** The two answers describe the same single precedence, double tap over
      single tap: each is the other read from the opposite side, neither
      relates a recognizer to itself, and no pair is related both ways. */
  lemma TapPrecedenceIsStrict(a: Recognizer, b: Recognizer)
    ensures ShouldBeRequiredToFailBy(a, b) <==> ShouldRequireFailureOf(b, a)
    ensures ShouldRequireFailureOf(a, b) <==> a == ToggleBarRecognizer && b == ZoomRecognizer
    ensures !ShouldRequireFailureOf(a, a)
    ensures ShouldRequireFailureOf(a, b) ==> !ShouldRequireFailureOf(b, a)
  {
  }
}

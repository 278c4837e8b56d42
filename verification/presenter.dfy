/**
 * The Image Presenter of the slideshow page (setImage): it builds the
 * image URL and drives the fade transition of three page elements, the
 * blurred background, the slideshow image and the metadata text, by
 * adding and removing the `fade-out` and `fade-in` classes. The two
 * one-second waits are not modelled; only the order of the three events
 * is: Start (setImage is called), ImageLoaded (the image's onload fires)
 * and Settle (the wait after the fade-in ends).
 */
module Presenter {
  import opened ResourceUrl

  const FADE_IN := "fade-in"
  const FADE_OUT := "fade-out"

  datatype FadeEvent = Start | ImageLoaded | Settle

  /** The class set of one element after one event of the transition. */
  function AfterEvent(e: FadeEvent, classes: set<string>): (r: set<string>)
    ensures forall t :: t != FADE_IN && t != FADE_OUT ==> (t in r <==> t in classes)
    ensures e == Start ==> FADE_OUT in r && (FADE_IN in r <==> FADE_IN in classes)
    ensures e == ImageLoaded ==> FADE_IN in r && FADE_OUT !in r
    ensures e == Settle ==> FADE_IN !in r && (FADE_OUT in r <==> FADE_OUT in classes)
  {
    match e
    case Start => classes + {FADE_OUT}
    case ImageLoaded => classes + {FADE_IN} - {FADE_OUT}
    case Settle => classes - {FADE_IN}
  }

  /** The class set of one element after a history of events, oldest first. */
  function Replay(events: seq<FadeEvent>, classes: set<string>): set<string>
    decreases |events|
  {
    if events == [] then classes else Replay(events[1..], AfterEvent(events[0], classes))
  }

  lemma {:induction false} ReplayAppend(a: seq<FadeEvent>, b: seq<FadeEvent>, classes: set<string>)
    ensures Replay(a + b, classes) == Replay(b, Replay(a, classes))
    decreases |a|
  {
    if a != [] {
      var next := AfterEvent(a[0], classes);
      assert (a + b)[0] == a[0] && (a + b)[1..] == a[1..] + b;
      ReplayAppend(a[1..], b, next);
    } else {
      assert a + b == b;
    }
  }

  /**
   * A transition that runs to its end (Start, ImageLoaded, Settle) leaves
   * the element with neither fade class, whatever happened before, and
   * with its other classes untouched.
   */
  lemma CompleteTransitionIsNeutral(history: seq<FadeEvent>, classes: set<string>)
    ensures Replay(history + [Start, ImageLoaded, Settle], classes)
         == Replay(history, classes) - {FADE_IN, FADE_OUT}
  {
    ReplayAppend(history, [Start, ImageLoaded, Settle], classes);
  }

  /**
   * If the image never loads, nothing removes `fade-out`: the element stays
   * faded out until some later image loads.
   */
  lemma {:induction false} FadeOutPersistsWithoutLoad(events: seq<FadeEvent>, classes: set<string>)
    requires FADE_OUT in classes
    requires forall i :: 0 <= i < |events| ==> events[i] != ImageLoaded
    ensures FADE_OUT in Replay(events, classes)
    decreases |events|
  {
    if events != [] {
      FadeOutPersistsWithoutLoad(events[1..], AfterEvent(events[0], classes));
    }
  }

  /**
   * Nothing guards against overlapping transitions: a new Start between the
   * fade-in and its Settle leaves the element faded out after that Settle.
   */
  lemma OverlappingStartLeavesFadeOut(classes: set<string>)
    ensures var r := Replay([Start, ImageLoaded, Start, Settle], classes);
      FADE_OUT in r && FADE_IN !in r
  {
  }

  /** The class list of one page element, updated in place. */
  class ClassList {
    var classes: set<string>

    constructor (initial: set<string>)
      ensures classes == initial
    {
      classes := initial;
    }

    method Add(token: string)
      modifies this
      ensures classes == old(classes) + {token}
    {
      classes := classes + {token};
    }

    method Remove(token: string)
      modifies this
      ensures classes == old(classes) - {token}
    {
      classes := classes - {token};
    }
  }

  /** The three elements the transition fades together. */
  class Elements {
    const background: ClassList
    const image: ClassList
    const metadata: ClassList

    ghost predicate Valid() {
      background != image && image != metadata && background != metadata
    }

    constructor (backgroundClasses: set<string>, imageClasses: set<string>, metadataClasses: set<string>)
      ensures Valid()
      ensures fresh(background) && fresh(image) && fresh(metadata)
      ensures background.classes == backgroundClasses
      ensures image.classes == imageClasses
      ensures metadata.classes == metadataClasses
    {
      background := new ClassList(backgroundClasses);
      image := new ClassList(imageClasses);
      metadata := new ClassList(metadataClasses);
    }

    /**
     * setImage: builds the image URL for the available screen size and
     * starts the fade-out on all three elements. The URL is what the
     * deferred continuation assigns to the image and the background.
     */
    method SetImage(baseUrl: string, resourceId: string, availWidth: nat, availHeight: nat)
      returns (imageUrl: string)
      requires Valid()
      modifies background, image, metadata
      ensures imageUrl == ImageUrl(baseUrl, resourceId, availWidth, availHeight)
      ensures background.classes == AfterEvent(Start, old(background.classes))
      ensures image.classes == AfterEvent(Start, old(image.classes))
      ensures metadata.classes == AfterEvent(Start, old(metadata.classes))
    {
      imageUrl := ImageUrl(baseUrl, resourceId, availWidth, availHeight);
      background.Add(FADE_OUT);
      image.Add(FADE_OUT);
      metadata.Add(FADE_OUT);
    }

    /** The image's onload handler: fade in, and drop the fade-out. */
    method OnImageLoaded()
      requires Valid()
      modifies background, image, metadata
      ensures background.classes == AfterEvent(ImageLoaded, old(background.classes))
      ensures image.classes == AfterEvent(ImageLoaded, old(image.classes))
      ensures metadata.classes == AfterEvent(ImageLoaded, old(metadata.classes))
    {
      background.Add(FADE_IN);
      background.Remove(FADE_OUT);
      image.Add(FADE_IN);
      image.Remove(FADE_OUT);
      metadata.Add(FADE_IN);
      metadata.Remove(FADE_OUT);
    }

    /** The end of the fade-in: drop the fade-in class. */
    method OnFadeInEnd()
      requires Valid()
      modifies background, image, metadata
      ensures background.classes == AfterEvent(Settle, old(background.classes))
      ensures image.classes == AfterEvent(Settle, old(image.classes))
      ensures metadata.classes == AfterEvent(Settle, old(metadata.classes))
    {
      background.Remove(FADE_IN);
      image.Remove(FADE_IN);
      metadata.Remove(FADE_IN);
    }
  }

  /**
   * One presentation that runs to its end: after the image has loaded no
   * element is faded out, and after the transition settles none carries a
   * fade class.
   */
  method PresentToEnd(elements: Elements, baseUrl: string, resourceId: string, availWidth: nat, availHeight: nat)
    returns (imageUrl: string)
    requires elements.Valid()
    modifies elements.background, elements.image, elements.metadata
    ensures imageUrl == ImageUrl(baseUrl, resourceId, availWidth, availHeight)
    ensures elements.background.classes == old(elements.background.classes) - {FADE_IN, FADE_OUT}
    ensures elements.image.classes == old(elements.image.classes) - {FADE_IN, FADE_OUT}
    ensures elements.metadata.classes == old(elements.metadata.classes) - {FADE_IN, FADE_OUT}
  {
    imageUrl := elements.SetImage(baseUrl, resourceId, availWidth, availHeight);
    elements.OnImageLoaded();
    elements.OnFadeInEnd();
    CompleteTransitionIsNeutral([], old(elements.background.classes));
    CompleteTransitionIsNeutral([], old(elements.image.classes));
    CompleteTransitionIsNeutral([], old(elements.metadata.classes));
  }
}

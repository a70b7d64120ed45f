/**
 * The gallery lightbox: a modal that is closed or open on one of the
 * gallery's children, with keyboard and prev/next-button listeners that
 * exist only while it is open, and cyclic navigation over the children.
 */
module GalleryModal {
  import opened Wrappers

  /** What the modal shows of a child: its source, title and description. */
  datatype Image = Image(src: string, title: string, description: string)

  /** The listeners attached on open and detached on close. */
  datatype Listener = WindowKeyup | NextButtonClick | PrevButtonClick

  const Transient: set<Listener> := {WindowKeyup, NextButtonClick, PrevButtonClick}

  // ---------------------------------------------------------------------------
  // Cyclic navigation
  // ---------------------------------------------------------------------------

  /** The next sibling, or the first child after the last. */
  function NextIndex(i: nat, n: nat): (r: nat)
    requires i < n
    ensures r < n && r == (i + 1) % n
    ensures PrevIndex(r, n) == i
  {
    if i + 1 < n then i + 1 else 0
  }

  /** The previous sibling, or the last child before the first. */
  function PrevIndex(i: nat, n: nat): (r: nat)
    requires i < n
    ensures r < n && (r + 1) % n == i
  {
    if 0 < i then i - 1 else n - 1
  }

  /** Going back and then forward returns to the same child. */
  lemma NextAfterPrev(i: nat, n: nat)
    requires i < n
    ensures NextIndex(PrevIndex(i, n), n) == i
  {
  }

  /** `k` steps forward from child `i`. */
  function NextTimes(i: nat, n: nat, k: nat): (r: nat)
    requires i < n
    ensures r < n
  {
    if k == 0 then i else NextIndex(NextTimes(i, n, k - 1), n)
  }

  /** Steps that stay before the end move forward one child each. */
  lemma {:induction false} NextTimesInRange(i: nat, n: nat, k: nat)
    requires i + k < n
    ensures NextTimes(i, n, k) == i + k
  {
    if k > 0 {
      NextTimesInRange(i, n, k - 1);
    }
  }

  /** `a + b` steps forward are `a` steps followed by `b` steps. */
  lemma {:induction false} NextTimesAdd(i: nat, n: nat, a: nat, b: nat)
    requires i < n
    ensures NextTimes(i, n, a + b) == NextTimes(NextTimes(i, n, a), n, b)
  {
    if b > 0 {
      NextTimesAdd(i, n, a, b - 1);
    }
  }

  /** As many steps forward as there are children come back to the start. */
  lemma NextCycle(i: nat, n: nat)
    requires i < n
    ensures NextTimes(i, n, n) == i
  {
    var toLast := n - 1 - i;
    NextTimesInRange(i, n, toLast);
    NextTimesAdd(i, n, toLast, 1);
    NextTimesAdd(i, n, toLast + 1, i);
    NextTimesInRange(0, n, i);
  }

  // ---------------------------------------------------------------------------
  // The modal
  // ---------------------------------------------------------------------------

  /**
   * One gallery: its children, the current child (None before any was shown),
   * whether the modal is open, the attached transient listeners, and what the
   * modal displays (None while it still shows the page's initial markup).
   */
  class Gallery {
    const children: seq<Image>
    var current: Option<nat>
    var open: bool
    var listeners: set<Listener>
    var display: Option<Image>

    /** The listeners are attached exactly while the modal is open, and it shows the current child. */
    ghost predicate Valid()
      reads this
    {
      && (current.Some? ==> current.value < |children| && display == Some(children[current.value]))
      && (open ==> current.Some?)
      && listeners == (if open then Transient else {})
    }

    /** The part of `Gallery(gallery)` that runs when the root element exists. */
    constructor (children: seq<Image>)
      ensures Valid()
      ensures this.children == children
      ensures current == None && !open && listeners == {} && display == None
    {
      this.children := children;
      current := None;
      open := false;
      listeners := {};
      display := None;
    }

    /** Open the modal and attach the listeners, unless it is already open. */
    method OpenModal()
      requires Valid() && current.Some?
      modifies this
      ensures Valid()
      ensures old(open) ==> listeners == old(listeners)
      ensures open && listeners == Transient
      ensures current == old(current) && display == old(display)
    {
      if open {
        return;
      }
      open := true;
      listeners := listeners + {WindowKeyup};
      listeners := listeners + {NextButtonClick};
      listeners := listeners + {PrevButtonClick};
    }

    /** Close the modal and detach the listeners, from whatever state. */
    method CloseModal()
      requires Valid()
      modifies this
      ensures Valid()
      ensures !open && listeners == {}
      ensures current == old(current) && display == old(display)
    {
      open := false;
      listeners := listeners - {WindowKeyup};
      listeners := listeners - {NextButtonClick};
      listeners := listeners - {PrevButtonClick};
    }

    /** Show child `el` (None stands for a null element) and open the modal. */
    method ShowImage(el: Option<nat>)
      requires Valid()
      requires el.Some? ==> el.value < |children|
      modifies this
      ensures Valid()
      ensures el.None? ==> current == old(current) && open == old(open) && listeners == old(listeners) && display == old(display)
      ensures el.Some? ==> current == el && display == Some(children[el.value]) && open && listeners == Transient
    {
      if el.None? {
        return;
      }
      display := Some(children[el.value]);
      current := el;
      OpenModal();
    }

    /** Show the next child, wrapping from the last to the first. */
    method ShowNextImage()
      requires Valid() && current.Some?
      modifies this
      ensures Valid() && open
      ensures current == Some(NextIndex(old(current.value), |children|))
    {
      ShowImage(Some(NextIndex(current.value, |children|)));
    }

    /** Show the previous child, wrapping from the first to the last. */
    method ShowPrevImage()
      requires Valid() && current.Some?
      modifies this
      ensures Valid() && open
      ensures current == Some(PrevIndex(old(current.value), |children|))
    {
      ShowImage(Some(PrevIndex(current.value, |children|)));
    }

    /** The keyup listener: Escape closes, the arrows navigate, any other key does nothing. */
    method HandleKeyup(key: string)
      requires Valid() && open
      modifies this
      ensures Valid()
      ensures key == "Escape" ==> !open && listeners == {} && current == old(current)
      ensures key == "ArrowRight" ==> open && current == Some(NextIndex(old(current.value), |children|))
      ensures key == "ArrowLeft" ==> open && current == Some(PrevIndex(old(current.value), |children|))
      ensures key !in {"Escape", "ArrowRight", "ArrowLeft"} ==>
                current == old(current) && open == old(open) && listeners == old(listeners) && display == old(display)
    {
      if key == "Escape" {
        CloseModal();
        return;
      }
      if key == "ArrowRight" {
        ShowNextImage();
        return;
      }
      if key == "ArrowLeft" {
        ShowPrevImage();
        return;
      }
    }

    /** The modal's click listener: only a click on the background itself closes. */
    method HandleClickOutside(onBackground: bool)
      requires Valid()
      modifies this
      ensures Valid()
      ensures onBackground ==> !open && listeners == {} && current == old(current) && display == old(display)
      ensures !onBackground ==> current == old(current) && open == old(open) && listeners == old(listeners) && display == old(display)
    {
      if onBackground {
        CloseModal();
      }
    }

    // -------------------------------------------------------------------------
    // Event delivery: a handler runs only while its listener is attached
    // -------------------------------------------------------------------------

    /** A keyup reaching the window. */
    method WindowKeyupEvent(key: string)
      requires Valid()
      modifies this
      ensures Valid()
      ensures !old(open) ==> current == old(current) && !open && listeners == {} && display == old(display)
      ensures old(open) && key == "Escape" ==> !open && listeners == {} && current == old(current)
      ensures old(open) && key == "ArrowRight" ==> open && current == Some(NextIndex(old(current.value), |children|))
      ensures old(open) && key == "ArrowLeft" ==> open && current == Some(PrevIndex(old(current.value), |children|))
      ensures old(open) && key !in {"Escape", "ArrowRight", "ArrowLeft"} ==>
                current == old(current) && open && listeners == old(listeners) && display == old(display)
    {
      if WindowKeyup in listeners {
        HandleKeyup(key);
      }
    }

    /** A click on the modal's next button. */
    method NextButtonClickEvent()
      requires Valid()
      modifies this
      ensures Valid()
      ensures !old(open) ==> current == old(current) && !open && listeners == {} && display == old(display)
      ensures old(open) ==> open && current == Some(NextIndex(old(current.value), |children|))
    {
      if NextButtonClick in listeners {
        ShowNextImage();
      }
    }

    /** A click on the modal's prev button. */
    method PrevButtonClickEvent()
      requires Valid()
      modifies this
      ensures Valid()
      ensures !old(open) ==> current == old(current) && !open && listeners == {} && display == old(display)
      ensures old(open) ==> open && current == Some(PrevIndex(old(current.value), |children|))
    {
      if PrevButtonClick in listeners {
        ShowPrevImage();
      }
    }

    /** A click on child `i`. */
    method ImageClickEvent(i: nat)
      requires Valid() && i < |children|
      modifies this
      ensures Valid()
      ensures current == Some(i) && open && listeners == Transient && display == Some(children[i])
    {
      ShowImage(Some(i));
    }

    /** A keyup on child `i`: Enter shows it, any other key does nothing. */
    method ImageKeyupEvent(i: nat, key: string)
      requires Valid() && i < |children|
      modifies this
      ensures Valid()
      ensures key == "Enter" ==> current == Some(i) && open && listeners == Transient
      ensures key != "Enter" ==> current == old(current) && open == old(open) && listeners == old(listeners) && display == old(display)
    {
      if key == "Enter" {
        ShowImage(Some(i));
      }
    }
  }

  /** `Gallery(gallery)`: throws when the root element is missing. */
  method NewGallery(root: Option<seq<Image>>) returns (r: Result<Gallery>)
    ensures r.Err? <==> root.None?
    ensures r.Err? ==> r.message == "No Gallery Found"
    ensures r.Ok? ==> fresh(r.value) && r.value.Valid() && r.value.children == root.value
                      && !r.value.open && r.value.listeners == {} && r.value.current == None
                      && r.value.display == None
  {
    if root.None? {
      return Err("No Gallery Found");
    }
    var g := new Gallery(root.value);
    r := Ok(g);
  }
}

/**
 * The root view of the slideshow: the gallery collection it holds, the
 * start-up bootstrap, the autosave guard, and the navigation state machine
 * (current image, animation flag, last direction) with its autoplay timer.
 */
module App {
  import opened SlideTypes

  // ---------------------------------------------------------------------
  // Start-up and autosave
  // ---------------------------------------------------------------------

  /** The settings of the gallery created on first run. */
  const DefaultSettings := Settings(Slide, EaseInOut, Contain, 15, true, false)

  /** The gallery created on first run. */
  const DefaultGallery := Gallery("default", "Main Gallery", [], DefaultSettings)

  /** The collection the view starts with, given what the store returned:
      a non-empty load is kept as it is, an empty one becomes the single
      default gallery. */
  function Bootstrap(loaded: seq<Gallery>): (r: seq<Gallery>)
    ensures |r| >= 1
    ensures |loaded| > 0 ==> r == loaded
    ensures |loaded| == 0 ==> |r| == 1 && r[0].id == "default" && r[0].name == "Main Gallery" && r[0].images == []
    ensures |loaded| == 0 ==> r[0].settings == Settings(Slide, EaseInOut, Contain, 15, true, false)
  {
    if |loaded| > 0 then loaded else [DefaultGallery]
  }

  /** What the store holds after the autosave effect has run on `galleries`:
      an empty collection is never written. */
  function SaveSnapshot(galleries: seq<Gallery>, stored: seq<Gallery>): (r: seq<Gallery>)
    ensures |galleries| == 0 ==> r == stored
    ensures |galleries| > 0 ==> r == galleries
  {
    if |galleries| > 0 then galleries else stored
  }

  /** The store after autosave has run on each collection of `history` in turn. */
  function SaveAll(history: seq<seq<Gallery>>, stored: seq<Gallery>): seq<Gallery>
    decreases |history|
  {
    if history == [] then stored else SaveAll(history[1..], SaveSnapshot(history[0], stored))
  }

  /** A store that holds a collection keeps holding one, whatever autosave
      runs on; in particular the first autosave, which runs before the load
      completes on an empty collection, does not erase it. */
  lemma {:induction false} StoreNeverEmptied(history: seq<seq<Gallery>>, stored: seq<Gallery>)
    requires |stored| > 0
    ensures |SaveAll(history, stored)| > 0
    decreases |history|
  {
    if history != [] {
      StoreNeverEmptied(history[1..], SaveSnapshot(history[0], stored));
    }
  }

  /** After a run of autosaves the store holds the last non-empty collection
      of the run. */
  lemma {:induction false} SaveAllKeepsLastNonEmpty(history: seq<seq<Gallery>>, stored: seq<Gallery>, k: nat)
    requires k < |history| && |history[k]| > 0
    requires forall j :: k < j < |history| ==> |history[j]| == 0
    ensures SaveAll(history, stored) == history[k]
    decreases |history|
  {
    if k == 0 {
      SaveAllNoWrites(history[1..], history[0]);
    } else {
      SaveAllKeepsLastNonEmpty(history[1..], SaveSnapshot(history[0], stored), k - 1);
    }
  }

  /** A run of autosaves over empty collections leaves the store as it was. */
  lemma {:induction false} SaveAllNoWrites(history: seq<seq<Gallery>>, stored: seq<Gallery>)
    requires forall j :: 0 <= j < |history| ==> |history[j]| == 0
    ensures SaveAll(history, stored) == stored
    decreases |history|
  {
    if history != [] {
      SaveAllNoWrites(history[1..], stored);
    }
  }

  // ---------------------------------------------------------------------
  // The next-index rule of paginate
  // ---------------------------------------------------------------------

  /** The index paginate moves to from `prev` in direction `dir` over a list
      of `len` images: past the end it wraps to 0 with loop on and stays put
      with loop off; before the start it wraps to the last index with loop on
      and stays put with loop off. */
  function NextIndex(prev: int, dir: int, len: nat, loop: bool): (next: int)
    ensures 0 <= prev < len && (dir == 1 || dir == -1) ==> 0 <= next < len
    ensures !loop && (next != prev + dir) ==> next == prev
  {
    var n := prev + dir;
    if n >= len then (if loop then 0 else prev)
    else if n < 0 then (if loop then len - 1 else prev)
    else n
  }

  function Clamp(x: int, lo: int, hi: int): int
    requires lo <= hi
  {
    if x < lo then lo else if x > hi then hi else x
  }

  /** With loop on, a step from a valid index is a step modulo the length. */
  lemma LoopStepIsModular(prev: int, dir: int, len: nat)
    requires 0 <= prev < len && (dir == 1 || dir == -1)
    ensures NextIndex(prev, dir, len, true) == (prev + dir) % len
  {
  }

  /** With loop off, a step from a valid index is the neighbour clamped to
      the list. */
  lemma NoLoopStepClamps(prev: int, dir: int, len: nat)
    requires 0 <= prev < len && (dir == 1 || dir == -1)
    ensures NextIndex(prev, dir, len, false) == Clamp(prev + dir, 0, len - 1)
  {
  }

  /** The index is never reset when images are removed or the gallery
      changes; stepping forward from beyond the end restarts at 0 with loop
      on and never leaves that index with loop off. */
  lemma StaleIndexForward(prev: int, len: nat)
    requires prev >= len
    ensures NextIndex(prev, 1, len, true) == 0
    ensures NextIndex(prev, 1, len, false) == prev
  {
  }

  /** The index reached after `k` steps in direction `dir`. */
  function Steps(i: int, dir: int, k: nat, len: nat, loop: bool): int
    decreases k
  {
    if k == 0 then i else NextIndex(Steps(i, dir, k - 1, len, loop), dir, len, loop)
  }

  /** Steps compose: `a + b` steps are `a` steps followed by `b` steps. */
  lemma {:induction false} StepsAdd(i: int, dir: int, a: nat, b: nat, len: nat, loop: bool)
    ensures Steps(i, dir, a + b, len, loop) == Steps(Steps(i, dir, a, len, loop), dir, b, len, loop)
    decreases b
  {
    if b > 0 {
      StepsAdd(i, dir, a, b - 1, len, loop);
    }
  }

  /** Forward steps that stay inside the list move one image each. */
  lemma {:induction false} ForwardRun(i: int, k: nat, len: nat, loop: bool)
    requires 0 <= i && i + k < len
    ensures Steps(i, 1, k, len, loop) == i + k
  {
    if k > 0 {
      ForwardRun(i, k - 1, len, loop);
    }
  }

  /** Backward steps that stay inside the list move one image each. */
  lemma {:induction false} BackwardRun(i: int, k: nat, len: nat, loop: bool)
    requires 0 <= i - k && i < len
    ensures Steps(i, -1, k, len, loop) == i - k
  {
    if k > 0 {
      BackwardRun(i, k - 1, len, loop);
    }
  }

  /** With loop on, as many steps as there are images, forward or backward,
      come back to the starting image. */
  lemma LoopFullCycle(i: int, len: nat)
    requires 0 <= i < len
    ensures Steps(i, 1, len, len, true) == i
    ensures Steps(i, -1, len, len, true) == i
  {
    ForwardCycle(i, len);
    BackwardCycle(i, len);
  }

  /** Forward: up to the last image, wrap to 0, then up to i again. */
  lemma ForwardCycle(i: int, len: nat)
    requires 0 <= i < len
    ensures Steps(i, 1, len, len, true) == i
  {
    ForwardRun(i, len - 1 - i, len, true);
    StepsAdd(i, 1, len - 1 - i, 1, len, true);
    ForwardRun(0, i, len, true);
    StepsAdd(i, 1, len - i, i, len, true);
  }

  /** Backward: down to 0, wrap to the last image, then down to i again. */
  lemma BackwardCycle(i: int, len: nat)
    requires 0 <= i < len
    ensures Steps(i, -1, len, len, true) == i
  {
    BackwardRun(i, i, len, true);
    StepsAdd(i, -1, i, 1, len, true);
    BackwardRun(len - 1, len - 1 - i, len, true);
    StepsAdd(i, -1, i + 1, len - 1 - i, len, true);
  }

  /** With loop off, any number of forward steps from the last image stays
      there, and any number of backward steps from the first stays there. */
  lemma {:induction false} NoLoopHoldsAtEnds(k: nat, len: nat)
    requires len >= 1
    ensures Steps(len - 1, 1, k, len, false) == len - 1
    ensures Steps(0, -1, k, len, false) == 0
  {
    if k > 0 {
      NoLoopHoldsAtEnds(k - 1, len);
    }
  }

  // ---------------------------------------------------------------------
  // The root view's state
  // ---------------------------------------------------------------------

  /** The state the root view holds: the collection, the active gallery and
      image, whether the settings panel is open, the last direction and
      whether a transition is in flight; `stored` is the snapshot the
      persistence adapter holds. */
  class Slideshow {
    var galleries: seq<Gallery>
    var activeIdx: int
    var currentImgIdx: int
    var isSettingsOpen: bool
    var direction: int
    var isAnimating: bool
    var stored: seq<Gallery>

    /** The view before the load completes, over a store holding `store`. */
    constructor (store: seq<Gallery>)
      ensures galleries == [] && activeIdx == 0 && currentImgIdx == 0
      ensures !isSettingsOpen && direction == 0 && !isAnimating
      ensures stored == store
    {
      galleries := [];
      activeIdx := 0;
      currentImgIdx := 0;
      isSettingsOpen := false;
      direction := 0;
      isAnimating := false;
      stored := store;
    }

    /** The active gallery is the one at `activeIdx`, if there is one. */
    ghost predicate HasActiveGallery()
      reads this
    {
      0 <= activeIdx < |galleries|
    }

    function ActiveGallery(): (g: Option<Gallery>)
      reads this
      ensures g.Some? <==> HasActiveGallery()
      ensures g.Some? ==> g.value == galleries[activeIdx]
    {
      if 0 <= activeIdx < |galleries| then Some(galleries[activeIdx]) else None
    }

    /** The guard of paginate: no transition in flight and an active
        gallery with at least one image. */
    predicate CanNavigate()
      reads this
    {
      !isAnimating && ActiveGallery().Some? && |ActiveGallery().value.images| > 0
    }

    /** The load completion: the store's collection, or the default gallery. */
    method Load(data: seq<Gallery>)
      modifies this`galleries
      ensures galleries == Bootstrap(data)
    {
      galleries := Bootstrap(data);
    }

    /** The autosave effect, run whenever the collection changes. */
    method Autosave()
      modifies this`stored
      ensures stored == SaveSnapshot(galleries, old(stored))
    {
      if |galleries| > 0 {
        stored := galleries;
      }
    }

    /** Manual next (dir = 1) or previous (dir = -1). Ignored while a
        transition is in flight or without images; otherwise the direction
        is recorded and a transition starts even when, at an end with loop
        off, the index does not move. */
    method Paginate(dir: int)
      modifies this`direction, this`isAnimating, this`currentImgIdx
      ensures !old(CanNavigate()) ==>
        direction == old(direction) && isAnimating == old(isAnimating) && currentImgIdx == old(currentImgIdx)
      ensures old(CanNavigate()) ==>
        isAnimating && direction == dir &&
        currentImgIdx == NextIndex(old(currentImgIdx), dir, |ActiveGallery().value.images|,
                                   ActiveGallery().value.settings.loop)
    {
      if isAnimating || !(0 <= activeIdx < |galleries|) || |galleries[activeIdx].images| == 0 {
        return;
      }
      var g := galleries[activeIdx];
      direction := dir;
      isAnimating := true;
      var next := currentImgIdx + dir;
      if next >= |g.images| {
        currentImgIdx := if g.settings.loop then 0 else currentImgIdx;
      } else if next < 0 {
        currentImgIdx := if g.settings.loop then |g.images| - 1 else currentImgIdx;
      } else {
        currentImgIdx := next;
      }
    }

    /** The rendering layer reports that the outgoing slide has left. */
    method ExitComplete()
      modifies this`isAnimating
      ensures !isAnimating
    {
      isAnimating := false;
    }

    /** The viewer's settings button, shown only while the panel is closed.
        Closing is the panel's own close button (`SettingsPanel.Panel.Close`). */
    method OpenSettings()
      requires !isSettingsOpen
      modifies this`isSettingsOpen
      ensures isSettingsOpen
    {
      isSettingsOpen := true;
    }

    /** The delay of the autoplay timer armed in the current state, if any:
        armed exactly when the active gallery has autoplay on and at least
        one image and the settings panel is closed; the delay is the current
        image's duration, or 3 seconds when there is no current image or its
        duration is 0. */
    function ArmedDuration(): (d: Option<real>)
      reads this
      ensures d.Some? <==>
        (ActiveGallery().Some? && ActiveGallery().value.settings.autoplay &&
         |ActiveGallery().value.images| > 0 && !isSettingsOpen)
      ensures d.Some? ==> d.value != 0.0
      ensures d.Some? ==>
        var imgs := ActiveGallery().value.images;
        if 0 <= currentImgIdx < |imgs| && imgs[currentImgIdx].duration != 0.0
        then d.value == imgs[currentImgIdx].duration
        else d.value == 3.0
    {
      match ActiveGallery()
      case None => None
      case Some(g) =>
        if g.settings.autoplay && |g.images| > 0 && !isSettingsOpen then
          var dur := if 0 <= currentImgIdx < |g.images| then g.images[currentImgIdx].duration else 0.0;
          Some(if dur != 0.0 then dur else 3.0)
        else None
    }

    /** The armed timer expires: the same step as a manual next. */
    method TimerFires()
      modifies this`direction, this`isAnimating, this`currentImgIdx
      ensures old(ArmedDuration()).None? ==>
        direction == old(direction) && isAnimating == old(isAnimating) && currentImgIdx == old(currentImgIdx)
      ensures old(ArmedDuration()).Some? && old(CanNavigate()) ==>
        isAnimating && direction == 1 &&
        currentImgIdx == NextIndex(old(currentImgIdx), 1, |ActiveGallery().value.images|,
                                   ActiveGallery().value.settings.loop)
      ensures old(ArmedDuration()).Some? && !old(CanNavigate()) ==>
        direction == old(direction) && isAnimating == old(isAnimating) && currentImgIdx == old(currentImgIdx)
    {
      if ArmedDuration().Some? {
        Paginate(1);
      }
    }

    /** `n` presses of next, each followed by the rendering layer's exit
        report: the index advances as `n` steps of the next-index rule. */
    method PlayForward(n: nat)
      requires HasActiveGallery() && |galleries[activeIdx].images| > 0 && !isAnimating
      modifies this`direction, this`isAnimating, this`currentImgIdx
      ensures !isAnimating
      ensures n > 0 ==> direction == 1
      ensures n == 0 ==> direction == old(direction)
      ensures currentImgIdx == Steps(old(currentImgIdx), 1, n, |galleries[activeIdx].images|,
                                     galleries[activeIdx].settings.loop)
    {
      var k := 0;
      while k < n
        invariant 0 <= k <= n && !isAnimating
        invariant k > 0 ==> direction == 1
        invariant k == 0 ==> direction == old(direction)
        invariant currentImgIdx == Steps(old(currentImgIdx), 1, k, |galleries[activeIdx].images|,
                                         galleries[activeIdx].settings.loop)
      {
        Paginate(1);
        ExitComplete();
        k := k + 1;
      }
    }
  }
}

// The controller object itself: the fields it updates in place, the class
// flags of screens and menu links as arrays, and one method per method of
// the controller, each proved to change the page exactly as the matching
// function of ScrollSpec says.
module ScrollController {
  import opened ScrollSpec

  class FullPageScroll {
    // Read once from the markup, never changed.
    const ids: seq<string>
    const delays: seq<string>
    const delayPrevScreens: seq<string>
    const hrefs: seq<string>

    // Class flags of the screen and menu elements, toggled in place.
    const hidden: array<bool>
    const active: array<bool>
    const menuActive: array<bool>

    var activeScreen: int
    var screenName: string

    // `document.body.dataset.screenName` and `.prevScreenName`.
    var bodyScreenName: string
    var bodyPrevScreenName: string

    // Dispatched `screenChanged` events and visibility swaps handed to timers.
    var events: seq<ScreenChanged>
    var pendingSwaps: seq<PendingSwap>

    function MarkupView(): Markup {
      Markup(ids, delays, delayPrevScreens, hrefs)
    }

    function PageView(): Page
      reads this, hidden, active, menuActive
    {
      Page(activeScreen, screenName, bodyScreenName, bodyPrevScreenName,
           hidden[..], active[..], menuActive[..], events, pendingSwaps)
    }

    ghost predicate Valid()
      reads this, hidden, active, menuActive
    {
      WellFormed(MarkupView()) && Consistent(MarkupView(), PageView()) &&
      hidden != active && hidden != menuActive && active != menuActive
    }

    constructor (doc: Document)
      requires |doc.screens| > 0
      ensures Valid() && fresh(hidden) && fresh(active) && fresh(menuActive)
      ensures MarkupView() == MarkupOf(doc) && PageView() == InitialPage(doc)
    {
      var n, l := |doc.screens|, |doc.links|;
      ids := seq(n, i requires 0 <= i < n => doc.screens[i].id);
      delays := seq(n, i requires 0 <= i < n => doc.screens[i].delay);
      delayPrevScreens := seq(n, i requires 0 <= i < n => doc.screens[i].delayPrevScreen);
      hrefs := seq(l, i requires 0 <= i < l => doc.links[i].href);
      hidden := new bool[n](i requires 0 <= i < n => doc.screens[i].hidden);
      active := new bool[n](i requires 0 <= i < n => doc.screens[i].active);
      menuActive := new bool[l](i requires 0 <= i < l => doc.links[i].active);
      activeScreen := 0;
      screenName := doc.screens[0].id;
      bodyScreenName, bodyPrevScreenName := doc.bodyScreenName, doc.bodyPrevScreenName;
      events, pendingSwaps := [], [];
    }

    /** Start-up: sync the display with the current URL hash. */
    method Init(hash: string)
      requires Valid()
      modifies this, hidden, active, menuActive
      ensures Valid()
      ensures PageView() == HashChangeOf(MarkupView(), old(PageView()), hash)
    {
      OnUrlHashChanged(hash);
    }

    /** One handled wheel event. */
    method OnScroll(e: WheelEvent)
      requires Valid()
      modifies this, hidden, active, menuActive
      ensures Valid()
      ensures PageView() == ScrollOf(MarkupView(), old(PageView()), e)
    {
      var delta := ShiftStep(RawDelta(e));
      var currentPosition := activeScreen;
      ReCalculateActiveScreenPosition(delta);
      if currentPosition != activeScreen {
        ChangePageDisplay();
      }
    }

    /** Browser navigation to `hash` (the value of `location.hash`). */
    method OnUrlHashChanged(hash: string)
      requires Valid()
      modifies this, hidden, active, menuActive
      ensures Valid()
      ensures PageView() == HashChangeOf(MarkupView(), old(PageView()), hash)
    {
      var newIndex := FirstIndex(ids, HashKey(hash));
      activeScreen := if newIndex < 0 then 0 else newIndex;
      screenName := ids[activeScreen];
      ChangePageDisplay();
    }

    method ChangePageDisplay()
      requires Valid()
      modifies this`bodyScreenName, this`bodyPrevScreenName, this`pendingSwaps, this`events
      modifies hidden, active, menuActive
      ensures Valid()
      ensures PageView() == DisplayOf(MarkupView(), old(PageView()))
    {
      LogScreen();
      ChangeVisibilityDisplay();
      ChangeActiveMenuItem();
      EmitChangeDisplayEvent();
    }

    method ChangeVisibilityDisplay()
      requires Valid()
      modifies hidden, active, this`pendingSwaps
      ensures Valid()
      ensures PageView() == VisibilityOf(MarkupView(), old(PageView()))
    {
      var k := activeScreen;
      if Deferred(MarkupView(), k, bodyPrevScreenName) {
        pendingSwaps := pendingSwaps + [PendingSwap(k, delays[k])];
        return;
      }
      var i := 0;
      while i < hidden.Length
        invariant 0 <= i <= hidden.Length
        invariant forall j :: 0 <= j < i ==> hidden[j] && !active[j]
        invariant pendingSwaps == old(pendingSwaps)
      {
        hidden[i] := true;
        active[i] := false;
        i := i + 1;
      }
      hidden[k] := false;
      active[k] := true;
      assert hidden[..] == seq(hidden.Length, j => j != k);
      assert active[..] == seq(active.Length, j => j == k);
    }

    method ChangeActiveMenuItem()
      requires Valid()
      modifies menuActive
      ensures Valid()
      ensures PageView() == MenuOf(MarkupView(), old(PageView()))
    {
      var activeItem := FirstIndex(hrefs, ids[activeScreen]);
      if activeItem >= 0 {
        var i := 0;
        while i < menuActive.Length
          invariant 0 <= i <= menuActive.Length
          invariant forall j :: 0 <= j < i ==> !menuActive[j]
        {
          menuActive[i] := false;
          i := i + 1;
        }
        menuActive[activeItem] := true;
        assert menuActive[..] == seq(menuActive.Length, j => j == activeItem);
      }
    }

    method EmitChangeDisplayEvent()
      requires Valid()
      modifies this`events
      ensures Valid()
      ensures PageView() == EmitOf(old(PageView()))
    {
      events := events + [ScreenChanged(activeScreen, screenName)];
    }

    /** Step the index by one in the direction of `delta`, clamped. */
    method ReCalculateActiveScreenPosition(delta: int)
      requires Valid()
      modifies this`activeScreen, this`screenName
      ensures Valid()
      ensures PageView() == MoveTo(MarkupView(), old(PageView()),
                                   NextPosition(old(activeScreen), delta, |ids|))
    {
      if delta > 0 {
        activeScreen := activeScreen + 1;
        activeScreen := Min(|ids| - 1, activeScreen);
      } else {
        activeScreen := activeScreen - 1;
        activeScreen := Max(0, activeScreen);
      }
      screenName := ids[activeScreen];
    }

    method LogScreen()
      requires Valid()
      modifies this`bodyScreenName, this`bodyPrevScreenName
      ensures Valid()
      ensures PageView() == LogScreenOf(old(PageView()))
    {
      if bodyScreenName != "" {
        bodyPrevScreenName := bodyScreenName;
      }
      bodyScreenName := screenName;
    }
  }
}

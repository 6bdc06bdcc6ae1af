/**
 * The level selection screen (`level_select.py`): a grid of level cards,
 * twelve to a page, a scroll offset moved by the mouse wheel or by a click
 * on the page indicator, and the choices the screen hands back to the
 * game: the main menu, the editor, or a level to play.
 *
 * The mouse position is read once per batch of events, as the source
 * does, and is a parameter here.
 */
module LevelSelection {
  import opened Wrappers
  import opened Geometry
  import opened LevelManage

  const CARDS_PER_ROW := 4
  const CARD_WIDTH := 200
  const CARD_HEIGHT := 150
  const CARD_SPACING := 30
  /** `cards_per_row * 3`: the cards one page shows. */
  const ITEMS_PER_PAGE := 12
  const INDICATOR_WIDTH := 100

  /** `all_levels[start:end]` for a non-negative start and end. */
  function Slice<T>(s: seq<T>, start: nat, end: nat): (r: seq<T>)
    requires start <= end
    ensures |r| <= end - start
    ensures forall k :: 0 <= k < |r| ==> start + k < |s| && r[k] == s[start + k]
    ensures |r| == (if start >= |s| then 0 else if end <= |s| then end - start else |s| - start)
  {
    if start >= |s| then [] else if end <= |s| then s[start..end] else s[start..]
  }

  /**
   * `get_visible_levels()`: the page of at most twelve levels starting at
   * `offset * 12`, and whether there are more levels than one page holds.
   */
  function VisibleLevels(all: seq<Level>, offset: nat): (seq<Level>, bool) {
    (Slice(all, offset * ITEMS_PER_PAGE, offset * ITEMS_PER_PAGE + ITEMS_PER_PAGE), |all| > ITEMS_PER_PAGE)
  }

  /**
   * The visible page holds the levels from `offset * 12` on, at most
   * twelve of them, and is empty exactly when the offset is past the end
   * of the list. Scrolling is offered iff there are more than twelve.
   */
  lemma VisibleLevelsMeaning(all: seq<Level>, offset: nat)
    ensures var (visible, hasScroll) := VisibleLevels(all, offset);
      |visible| <= ITEMS_PER_PAGE &&
      (forall k :: 0 <= k < |visible| ==> visible[k] == all[offset * ITEMS_PER_PAGE + k]) &&
      (visible == [] <==> offset * ITEMS_PER_PAGE >= |all|) &&
      (hasScroll <==> |all| > ITEMS_PER_PAGE)
  {
  }

  /**
   * `total_pages`: the level count divided by eight, rounded up. Pages
   * are counted in eights although a page shows twelve levels.
   */
  function TotalPages(n: nat): nat {
    (n + CARDS_PER_ROW * 2 - 1) / (CARDS_PER_ROW * 2)
  }

  /** `TotalPages(n)` is the least number of eight-level pages that hold `n` levels. */
  lemma TotalPagesCeil(n: nat)
    ensures TotalPages(n) * 8 >= n
    ensures TotalPages(n) > 0 ==> (TotalPages(n) - 1) * 8 < n
  {
  }

  /**
   * Because pages are counted in eights, the last page the offset can
   * reach may show nothing: seventeen levels give three pages, and the
   * third starts at level 24.
   */
  lemma LastPageEmpty(all: seq<Level>)
    requires |all| == 17
    ensures TotalPages(|all|) == 3
    ensures VisibleLevels(all, TotalPages(|all|) - 1).0 == []
    ensures VisibleLevels(all, TotalPages(|all|) - 1).1
  {
  }

  /** The card of the `idx`-th visible level: four to a row, 230 pixels apart, rows 180 apart. */
  function CardRect(screenWidth: int, idx: nat): Rect {
    var row := idx / CARDS_PER_ROW;
    var col := idx % CARDS_PER_ROW;
    var x := screenWidth / 2 - (CARDS_PER_ROW * (CARD_WIDTH + CARD_SPACING) - CARD_SPACING) / 2 +
             col * (CARD_WIDTH + CARD_SPACING);
    Rect(x, 100 + row * (CARD_HEIGHT + CARD_SPACING), CARD_WIDTH, CARD_HEIGHT)
  }

  /** The first visible card, in list order, under the point. */
  function FirstCard(screenWidth: int, count: nat, mx: int, my: int): (i: Option<nat>)
    ensures i.Some? ==>
      i.value < count && ContainsPoint(CardRect(screenWidth, i.value), mx, my) &&
      forall j :: 0 <= j < i.value ==> !ContainsPoint(CardRect(screenWidth, j), mx, my)
    ensures i.None? ==> forall j :: 0 <= j < count ==> !ContainsPoint(CardRect(screenWidth, j), mx, my)
  {
    if count == 0 then None
    else
      var before := FirstCard(screenWidth, count - 1, mx, my);
      if before.Some? then before
      else if ContainsPoint(CardRect(screenWidth, count - 1), mx, my) then Some(count - 1)
      else None
  }

  /** What the screen hands back to the game. */
  datatype Selection =
    | MainMenu
    | LevelSelectAgain
    | PlayLevel(levelId: string)
    /** The window was closed. */
    | Quit
    /** `ZeroDivisionError`: the page indicator is narrower than the page count. */
    | Crash

  /** The events the screen tells apart; the button of a press is not looked at. */
  datatype SelectEvent = QuitEvent | ButtonDown | ButtonUp(button: int) | OtherEvent

  /** `max(lo, min(hi, v))`. */
  function ClampPage(v: int, hi: int): int {
    if v > hi then (if hi < 0 then 0 else hi) else if v < 0 then 0 else v
  }

  class LevelSelect {
    const screenWidth: int
    const screenHeight: int
    const backButton: Rect
    const editButton: Rect
    const manager: LevelManager
    var scrollOffset: nat

    /** `LevelSelect(screen)`, reading the catalogue through `manager`. */
    constructor(screenWidth: int, screenHeight: int, manager: LevelManager)
      ensures this.screenWidth == screenWidth && this.screenHeight == screenHeight && this.manager == manager
      ensures backButton == Rect(10, 10, 40, 40) && editButton == Rect(screenWidth - 150, 10, 140, 40)
      ensures scrollOffset == 0
    {
      this.screenWidth := screenWidth;
      this.screenHeight := screenHeight;
      this.manager := manager;
      backButton := Rect(10, 10, 40, 40);
      editButton := Rect(screenWidth - 150, 10, 140, 40);
      scrollOffset := 0;
    }

    /** The strip below the cards that shows, and sets, the page. */
    function IndicatorRect(): Rect {
      Rect(screenWidth / 2 - INDICATOR_WIDTH / 2, screenHeight - 50, INDICATOR_WIDTH, 8)
    }

    /**
     * One event of `handle_events`, given the offset, the level count `n`
     * and the number of visible cards: the new offset and, when the event
     * ends the screen, what it hands back.
     */
    function Step(offset: nat, n: nat, visible: seq<Level>, mx: int, my: int, e: SelectEvent): (nat, Option<Selection>) {
      var hasScroll := n > ITEMS_PER_PAGE;
      var totalPages := TotalPages(n);
      match e
      case QuitEvent => (offset, Some(Quit))
      case ButtonDown =>
        if ContainsPoint(backButton, mx, my) then (offset, Some(MainMenu))
        else if ContainsPoint(editButton, mx, my) then (offset, Some(LevelSelectAgain))
        else
          var card := FirstCard(screenWidth, |visible|, mx, my);
          if card.Some? then (offset, Some(PlayLevel(visible[card.value].levelId)))
          else if hasScroll && ContainsPoint(IndicatorRect(), mx, my) then
            if INDICATOR_WIDTH / totalPages == 0 then (offset, Some(Crash))
            else
              var page := (mx - IndicatorRect().x) / (INDICATOR_WIDTH / totalPages);
              (ClampPage(page, totalPages - 1), None)
          else (offset, None)
      case ButtonUp(button) =>
        if button == 4 && hasScroll then (if offset >= 1 then offset - 1 else 0, None)
        else if button == 5 && hasScroll then (ClampPage(offset + 1, totalPages - 1), None)
        else (offset, None)
      case OtherEvent => (offset, None)
    }

    /** The events of one batch in turn, up to the first that ends the screen. */
    function Run(offset: nat, n: nat, visible: seq<Level>, mx: int, my: int, events: seq<SelectEvent>): (nat, Option<Selection>)
      decreases |events|
    {
      if events == [] then (offset, None)
      else
        var (next, choice) := Step(offset, n, visible, mx, my, events[0]);
        if choice.Some? then (next, choice) else Run(next, n, visible, mx, my, events[1..])
    }

    /** `get_visible_levels()` on the catalogue as it is now. */
    method GetVisibleLevels() returns (visible: seq<Level>, hasScroll: bool)
      ensures (visible, hasScroll) == VisibleLevels(AllLevels(manager.levelFile), scrollOffset)
    {
      var all := AllLevels(manager.levelFile);
      var start := scrollOffset * ITEMS_PER_PAGE;
      visible := Slice(all, start, start + ITEMS_PER_PAGE);
      hasScroll := |all| > ITEMS_PER_PAGE;
    }

    /**
     * `handle_events()`: the page is computed once, then each event of the
     * batch is handled in turn until one ends the screen.
     */
    method HandleEvents(mx: int, my: int, events: seq<SelectEvent>) returns (choice: Option<Selection>)
      modifies this
      ensures var n := |AllLevels(manager.levelFile)|;
        var visible := VisibleLevels(AllLevels(manager.levelFile), old(scrollOffset)).0;
        (scrollOffset, choice) == Run(old(scrollOffset), n, visible, mx, my, events)
    {
      var visible, _ := GetVisibleLevels();
      var n := |AllLevels(manager.levelFile)|;
      var i := 0;
      while i < |events|
        invariant 0 <= i <= |events|
        invariant Run(scrollOffset, n, visible, mx, my, events[i..]) ==
                  Run(old(scrollOffset), n, visible, mx, my, events)
      {
        assert events[i..][1..] == events[i + 1..];
        var (next, c) := Step(scrollOffset, n, visible, mx, my, events[i]);
        scrollOffset := next;
        if c.Some? {
          return c;
        }
        i := i + 1;
      }
      return None;
    }

    /**
     * The wheel moves one page up or down and only when there is more
     * than one screenful; up stops at the first page, down at the last.
     */
    lemma WheelScroll(offset: nat, n: nat, visible: seq<Level>, mx: int, my: int, button: int)
      ensures var (next, choice) := Step(offset, n, visible, mx, my, ButtonUp(button));
        choice.None? &&
        (n <= ITEMS_PER_PAGE || (button != 4 && button != 5) ==> next == offset) &&
        (n > ITEMS_PER_PAGE && button == 4 ==> next == if offset == 0 then 0 else offset - 1) &&
        (n > ITEMS_PER_PAGE && button == 5 ==>
          next == if offset + 1 <= TotalPages(n) - 1 then offset + 1 else TotalPages(n) - 1)
    {
      TotalPagesCeil(n);
    }

    /**
     * A press on the page indicator, away from the buttons and the cards,
     * jumps to the page under the pointer, clamped to the existing pages;
     * more than a hundred pages make the indicator's page width zero and
     * the division raises.
     */
    lemma IndicatorJump(offset: nat, n: nat, visible: seq<Level>, mx: int, my: int)
      requires n > ITEMS_PER_PAGE && ContainsPoint(IndicatorRect(), mx, my)
      requires !ContainsPoint(backButton, mx, my) && !ContainsPoint(editButton, mx, my)
      requires FirstCard(screenWidth, |visible|, mx, my).None?
      ensures var (next, choice) := Step(offset, n, visible, mx, my, ButtonDown);
        (TotalPages(n) > 100 <==> choice == Some(Crash)) &&
        (TotalPages(n) <= 100 ==>
          choice.None? && next <= TotalPages(n) - 1 &&
          next == ClampPage((mx - IndicatorRect().x) / (100 / TotalPages(n)), TotalPages(n) - 1))
    {
      TotalPagesCeil(n);
    }

    /**
     * A press on a visible card, away from the two buttons, plays that
     * card's level: the cards do not overlap, so no earlier card is hit.
     */
    lemma CardPlays(offset: nat, n: nat, visible: seq<Level>, mx: int, my: int, idx: nat)
      requires idx < |visible| && ContainsPoint(CardRect(screenWidth, idx), mx, my)
      requires !ContainsPoint(backButton, mx, my) && !ContainsPoint(editButton, mx, my)
      ensures var (next, choice) := Step(offset, n, visible, mx, my, ButtonDown);
        next == offset && choice == Some(PlayLevel(visible[idx].levelId))
    {
      var card := FirstCard(screenWidth, |visible|, mx, my);
      assert card.Some?;
      var j := card.value;
      if j != idx {
        assert false;
      }
    }

    /**
     * The offset stays within the pages while scrolling is offered, and
     * does not move at all when it is not.
     */
    lemma StepInRange(offset: nat, n: nat, visible: seq<Level>, mx: int, my: int, e: SelectEvent)
      ensures var next := Step(offset, n, visible, mx, my, e).0;
        (n <= ITEMS_PER_PAGE ==> next == offset) &&
        (n > ITEMS_PER_PAGE && offset <= TotalPages(n) - 1 ==> next <= TotalPages(n) - 1)
    {
      TotalPagesCeil(n);
    }

    /** A whole batch keeps the offset within the pages, as each event does. */
    lemma {:induction false} RunInRange(offset: nat, n: nat, visible: seq<Level>, mx: int, my: int, events: seq<SelectEvent>)
      requires n > ITEMS_PER_PAGE && offset <= TotalPages(n) - 1
      ensures Run(offset, n, visible, mx, my, events).0 <= TotalPages(n) - 1
      decreases |events|
    {
      if events != [] {
        StepInRange(offset, n, visible, mx, my, events[0]);
        var next := Step(offset, n, visible, mx, my, events[0]).0;
        RunInRange(next, n, visible, mx, my, events[1..]);
      }
    }
  }
}

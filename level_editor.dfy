/**
 * The custom level editor (`level_editor.py`): a parameter dialog whose
 * four text fields are edited key by key and read back with defaults and
 * clamping, and an editor screen that adds, deletes and drags 40 by 40
 * obstacles and saves the result as a custom level.
 *
 * Screen coordinates are integers; the screen size is a constructor
 * argument. Events arrive one at a time as values.
 */
module LevelEdit {
  import opened Wrappers
  import opened Text
  import opened Geometry
  import opened LevelManage

  /** The dialog's input fields, in the order Tab visits them. */
  datatype Field = NameField | ScoreTargetField | TimeLimitField | SpeedField

  /** The level parameters the editor and the dialog hold. */
  datatype Params = Params(name: string, scoreTarget: int, timeLimit: int, speed: int)

  const DEFAULT_NAME := "自定义关卡"

  const DEFAULT_PARAMS := Params(DEFAULT_NAME, 500, 100, 10)

  /** The text of each input field. */
  datatype Texts = Texts(name: string, scoreTarget: string, timeLimit: string, speed: string)
  {
    function Get(f: Field): string {
      match f
      case NameField => name
      case ScoreTargetField => scoreTarget
      case TimeLimitField => timeLimit
      case SpeedField => speed
    }

    function Set(f: Field, s: string): (t: Texts)
      ensures t.Get(f) == s && forall g :: g != f ==> t.Get(g) == Get(g)
    {
      match f
      case NameField => this.(name := s)
      case ScoreTargetField => this.(scoreTarget := s)
      case TimeLimitField => this.(timeLimit := s)
      case SpeedField => this.(speed := s)
    }
  }

  /** `{k: str(v) for k, v in params.items()}`. */
  function TextsOf(p: Params): Texts {
    Texts(p.name, IntToString(p.scoreTarget), IntToString(p.timeLimit), IntToString(p.speed))
  }

  /** The checks `save_custom_level` makes before it saves anything: a name that is not all blanks, and three ranges. */
  predicate ValidParams(p: Params) {
    HasNonSpace(p.name) && p.scoreTarget >= 100 && p.timeLimit >= 30 && 5 <= p.speed <= 20
  }

  function Max(a: int, b: int): int {
    if a >= b then a else b
  }

  function Min(a: int, b: int): int {
    if a <= b then a else b
  }

  /** `text or default`: an empty text is replaced by the default. */
  function OrDefault(text: string, default: string): string {
    if text == "" then default else text
  }

  /** The default parameters pass the save checks. */
  lemma DefaultParamsValid(p: Params)
    requires p == DEFAULT_PARAMS
    ensures ValidParams(p)
  {
    assert !IsSpace(p.name[0]);
  }

  /** `input_text["name"].strip() or "自定义关卡"`: never blank, even after another strip. */
  function NameOf(text: string): (name: string)
    ensures HasNonSpace(name)
    ensures Strip(text) != "" ==> name == Strip(text)
    ensures Strip(text) == "" ==> name == DEFAULT_NAME
  {
    var s := Strip(text);
    if s == "" then
      DefaultParamsValid(DEFAULT_PARAMS);
      DEFAULT_NAME
    else
      StripUnpadded(s);
      assert !IsSpace(s[0]);
      s
  }

  /**
   * `get_params()`: the stripped name or the default name, the three
   * numbers read with their defaults for empty texts and clamped into the
   * range the editor accepts; the `stored` parameters when any number does
   * not read as an integer.
   */
  function GetParams(t: Texts, stored: Params): Params {
    var name := NameOf(t.name);
    var scoreTarget := ParseInt(OrDefault(t.scoreTarget, "500"));
    var timeLimit := ParseInt(OrDefault(t.timeLimit, "100"));
    var speed := ParseInt(OrDefault(t.speed, "10"));
    if scoreTarget.None? || timeLimit.None? || speed.None? then stored
    else Params(name, Max(100, scoreTarget.value), Max(30, timeLimit.value), Max(5, Min(20, speed.value)))
  }

  /** Whether every numeric text reads as an integer, once empty texts take their defaults. */
  predicate NumbersRead(t: Texts) {
    ParseInt(OrDefault(t.scoreTarget, "500")).Some? && ParseInt(OrDefault(t.timeLimit, "100")).Some? &&
    ParseInt(OrDefault(t.speed, "10")).Some?
  }


  /**
   * What `get_params` reads is always a level the editor may save: a name
   * that is not blank and numbers inside the ranges `save_custom_level`
   * checks. A number that does not read gives back the stored parameters.
   */
  lemma GetParamsValid(t: Texts, stored: Params)
    ensures NumbersRead(t) ==> ValidParams(GetParams(t, stored))
    ensures !NumbersRead(t) ==> GetParams(t, stored) == stored
  {
    if NumbersRead(t) {
      var p := GetParams(t, stored);
      assert HasNonSpace(p.name);
      assert p.scoreTarget >= 100;
      assert p.timeLimit >= 30;
      assert 5 <= p.speed <= 20;
    }
  }

  /** The default texts of the numeric fields read as 500, 100 and 10. */
  lemma DefaultNumbersRead()
    ensures ParseInt("500") == Some(500) && ParseInt("100") == Some(100) && ParseInt("10") == Some(10)
  {
    var a, b, c := "500", "100", "10";
    assert a[..2] == "50" && a[..2][..1] == "5" && a[..2][..1][..0] == "";
    assert DigitsValue("5") == 5 && DigitsValue("50") == 50;
    assert b[..2] == "10" && b[..2][..1] == "1" && b[..2][..1][..0] == "";
    assert DigitsValue("1") == 1 && DigitsValue("10") == 10;
    assert c[..1] == "1" && c[..1][..0] == "";
  }

  /**
   * A blank name becomes the default name, and empty numeric texts take
   * 500, 100 and 10.
   */
  lemma GetParamsDefaults(t: Texts, stored: Params)
    requires Strip(t.name) == "" && t.scoreTarget == "" && t.timeLimit == "" && t.speed == ""
    ensures GetParams(t, stored) == DEFAULT_PARAMS
  {
    DefaultNumbersRead();
  }

  /** Opening the dialog on saved parameters and confirming at once gives them back unchanged. */
  lemma ConfirmUnedited(p: Params, stored: Params)
    requires ValidParams(p) && Strip(p.name) == p.name
    ensures GetParams(TextsOf(p), stored) == p
  {
    StripBlank(p.name);
    assert NameOf(p.name) == p.name;
    NumberReadsBack(p.scoreTarget, "500");
    NumberReadsBack(p.timeLimit, "100");
    NumberReadsBack(p.speed, "10");
  }

  /** A positive number written out reads back as itself, whatever the default. */
  lemma NumberReadsBack(n: int, default: string)
    requires n >= 1
    ensures ParseInt(OrDefault(IntToString(n), default)) == Some(n)
  {
    IntToStringRoundTrip(n);
  }

  /** The field Tab moves to: name, score target, time limit, speed, and round again. */
  function NextField(f: Field): (g: Field)
    ensures g != f
  {
    match f
    case NameField => ScoreTargetField
    case ScoreTargetField => TimeLimitField
    case TimeLimitField => SpeedField
    case SpeedField => NameField
  }

  /** Four presses of Tab come back to the field they started from, visiting every field. */
  lemma TabCycles(f: Field)
    ensures NextField(NextField(NextField(NextField(f)))) == f
    ensures {f, NextField(f), NextField(NextField(f)), NextField(NextField(NextField(f)))} ==
      {NameField, ScoreTargetField, TimeLimitField, SpeedField}
  {
  }

  /** Backspace on a field: the last character goes, an empty text stays empty. */
  function Backspaced(text: string): (r: string)
    ensures text != [] ==> text == r + [text[|text| - 1]]
    ensures text == [] ==> r == []
  {
    if text != [] then text[..|text| - 1] else ""
  }

  /**
   * The text of field `f` after typing `typed`: a name takes any text
   * while it is shorter than 20 characters, a numeric field only digits
   * that leave a number of at least 1.
   */
  function Typed(f: Field, current: string, typed: string): string {
    if typed == "" then current
    else if f == NameField then
      if |current| < 20 then current + typed else current
    else if IsDigits(typed) && ParseInt(current + typed).Some? && ParseInt(current + typed).value >= 1 then
      current + typed
    else current
  }

  /**
   * A keystroke either leaves the field alone or appends exactly what was
   * typed; a name stops growing once it has 20 characters, and a numeric
   * field only ever takes digits that read as a positive number.
   */
  lemma TypedMeaning(f: Field, current: string, typed: string)
    ensures var r := Typed(f, current, typed); r == current || r == current + typed
    ensures f == NameField && |current| >= 20 ==> Typed(f, current, typed) == current
    ensures f == NameField && |current| < 20 && typed != "" ==> Typed(f, current, typed) == current + typed
    ensures f != NameField && Typed(f, current, typed) != current ==>
      IsDigits(typed) && ParseInt(Typed(f, current, typed)).Some? && ParseInt(Typed(f, current, typed)).value >= 1
  {
  }

  /** A numeric field that is empty does not take a first `0`. */
  lemma ZeroNotFirst(f: Field)
    requires f != NameField
    ensures Typed(f, "", "0") == ""
  {
    assert ParseInt("" + "0") == Some(0) by {
      assert "0"[..0] == "";
    }
  }

  /** The dialog's answer to a click or a key. */
  datatype Answer = Confirm | Cancel

  /** The keys the dialog tells apart; every other key is `OtherKey`. */
  datatype Key = ReturnKey | EscapeKey | TabKey | BackspaceKey | OtherKey

  class ParamDialog {
    const dialog: Rect
    var isActive: bool
    var params: Params
    var activeInput: Option<Field>
    var inputText: Texts

    constructor(screenWidth: int, screenHeight: int)
      ensures dialog == Rect((screenWidth - 400) / 2, (screenHeight - 400) / 2, 400, 400)
      ensures !isActive && params == DEFAULT_PARAMS && activeInput.None?
      ensures inputText == Texts(DEFAULT_NAME, "500", "100", "10")
    {
      dialog := Rect((screenWidth - 400) / 2, (screenHeight - 400) / 2, 400, 400);
      isActive := false;
      params := DEFAULT_PARAMS;
      activeInput := None;
      inputText := Texts(DEFAULT_NAME, "500", "100", "10");
    }

    /** The input box of a field, 70 pixels below the one before. */
    function InputRect(f: Field): Rect {
      var row := match f
        case NameField => 80
        case ScoreTargetField => 150
        case TimeLimitField => 220
        case SpeedField => 290;
      Rect(dialog.x + 100, dialog.y + row, 250, 35)
    }

    function ConfirmRect(): Rect {
      Rect(dialog.x + 100, dialog.y + 350, 120, 40)
    }

    function CancelRect(): Rect {
      Rect(dialog.x + 230, dialog.y + 350, 120, 40)
    }

    /** The first input box, in field order, that holds the point. */
    function ClickedField(mx: int, my: int): (f: Option<Field>)
      ensures f.Some? ==> ContainsPoint(InputRect(f.value), mx, my)
      ensures f.None? ==> forall g :: !ContainsPoint(InputRect(g), mx, my)
    {
      if ContainsPoint(InputRect(NameField), mx, my) then Some(NameField)
      else if ContainsPoint(InputRect(ScoreTargetField), mx, my) then Some(ScoreTargetField)
      else if ContainsPoint(InputRect(TimeLimitField), mx, my) then Some(TimeLimitField)
      else if ContainsPoint(InputRect(SpeedField), mx, my) then Some(SpeedField)
      else None
    }

    /** `set_params(params)`: shows the given parameters as text and opens the dialog. */
    method SetParams(p: Params)
      modifies this
      ensures params == p && inputText == TextsOf(p) && isActive && activeInput.None?
    {
      params := p;
      inputText := TextsOf(p);
      isActive := true;
      activeInput := None;
    }

    /**
     * `handle_click(pos)`: confirm closes the dialog and keeps what the
     * fields read as, cancel closes it, and any other click selects the
     * input box under the point, or none. A closed dialog ignores clicks.
     */
    method HandleClick(mx: int, my: int) returns (answer: Option<Answer>)
      modifies this
      ensures inputText == old(inputText)
      ensures ValidParams(old(params)) ==> ValidParams(params)
      ensures !old(isActive) ==> answer.None? && unchanged(this)
      ensures old(isActive) && ContainsPoint(ConfirmRect(), mx, my) ==>
        answer == Some(Confirm) && !isActive && params == GetParams(inputText, old(params)) &&
        activeInput == old(activeInput)
      ensures old(isActive) && !ContainsPoint(ConfirmRect(), mx, my) && ContainsPoint(CancelRect(), mx, my) ==>
        answer == Some(Cancel) && !isActive && params == old(params) && activeInput == old(activeInput)
      ensures old(isActive) && !ContainsPoint(ConfirmRect(), mx, my) && !ContainsPoint(CancelRect(), mx, my) ==>
        answer.None? && isActive && params == old(params) && activeInput == ClickedField(mx, my)
    {
      if !isActive {
        return None;
      }
      if ContainsPoint(ConfirmRect(), mx, my) {
        isActive := false;
        GetParamsValid(inputText, params);
        params := GetParams(inputText, params);
        return Some(Confirm);
      }
      if ContainsPoint(CancelRect(), mx, my) {
        isActive := false;
        return Some(Cancel);
      }
      activeInput := ClickedField(mx, my);
      return None;
    }

    /**
     * `handle_key(event)`: only an open dialog with a selected field
     * listens. Return deselects the field, Escape closes the dialog as a
     * cancel, Tab moves to the next field, Backspace deletes the last
     * character, and any other key types its text into the field.
     */
    method HandleKey(key: Key, typed: string) returns (answer: Option<Answer>)
      modifies this
      ensures params == old(params)
      ensures !old(isActive) || old(activeInput).None? ==> answer.None? && unchanged(this)
      ensures old(isActive) && old(activeInput).Some? ==>
        var f := old(activeInput).value;
        (key == ReturnKey ==> answer.None? && isActive && activeInput.None? && inputText == old(inputText)) &&
        (key == EscapeKey ==> answer == Some(Cancel) && !isActive && activeInput == old(activeInput) &&
                              inputText == old(inputText)) &&
        (key == TabKey ==> answer.None? && isActive && activeInput == Some(NextField(f)) &&
                           inputText == old(inputText)) &&
        (key == BackspaceKey ==> answer.None? && isActive && activeInput == old(activeInput) &&
                                 inputText == old(inputText).Set(f, Backspaced(old(inputText).Get(f)))) &&
        (key == OtherKey ==> answer.None? && isActive && activeInput == old(activeInput) &&
                             inputText == old(inputText).Set(f, Typed(f, old(inputText).Get(f), typed)))
    {
      if !isActive || activeInput.None? {
        return None;
      }
      var f := activeInput.value;
      var current := inputText.Get(f);
      match key {
        case ReturnKey =>
          activeInput := None;
        case EscapeKey =>
          isActive := false;
          return Some(Cancel);
        case TabKey =>
          activeInput := Some(NextField(f));
        case BackspaceKey =>
          inputText := inputText.Set(f, Backspaced(current));
        case OtherKey =>
          inputText := inputText.Set(f, Typed(f, current, typed));
      }
      return None;
    }
  }

  /** `max(lo, min(v, hi))`. */
  function Clamp(v: int, lo: int, hi: int): int {
    Max(lo, Min(v, hi))
  }

  /** A clamped coordinate lies in the range, and one already in the range is kept. */
  lemma ClampBounds(v: int, lo: int, hi: int)
    requires lo <= hi
    ensures lo <= Clamp(v, lo, hi) <= hi
    ensures lo <= v <= hi ==> Clamp(v, lo, hi) == v
  {
  }

  /** The index of the first obstacle under the point, as the drag search finds it. */
  function FirstHit(obstacles: seq<Rect>, mx: int, my: int): (i: Option<nat>)
    ensures i.Some? ==>
      i.value < |obstacles| && ContainsPoint(obstacles[i.value], mx, my) &&
      forall j :: 0 <= j < i.value ==> !ContainsPoint(obstacles[j], mx, my)
    ensures i.None? ==> forall j :: 0 <= j < |obstacles| ==> !ContainsPoint(obstacles[j], mx, my)
  {
    if obstacles == [] then None
    else if ContainsPoint(obstacles[0], mx, my) then Some(0)
    else
      var rest := FirstHit(obstacles[1..], mx, my);
      assert forall j :: 1 <= j < |obstacles| ==> obstacles[j] == obstacles[1..][j - 1];
      if rest.Some? then Some(rest.value + 1) else None
  }

  /** What the editor screen asks of the caller after an event. */
  datatype Exit = StayInEditor | BackToLevelSelect | Raised

  /** The events the editor reacts to; positions are the event's own. */
  datatype EditorEvent =
    | MouseDown(mx: int, my: int)
    | MouseUp
    | MouseMotion(mx: int, my: int)
    | KeyDown(key: Key, typed: string)
    | OtherEvent

  /** Every obstacle the editor makes is 40 by 40. */
  predicate AllBlocks(obstacles: seq<Rect>) {
    forall i :: 0 <= i < |obstacles| ==> obstacles[i].w == 40 && obstacles[i].h == 40
  }

  class LevelEditor {
    const editorRect: Rect
    const backButton: Rect
    const saveButton: Rect
    const addButton: Rect
    const paramButton: Rect
    const deleteButton: Rect
    const dialog: ParamDialog
    const manager: LevelManager
    var obstacles: seq<Rect>
    var dragging: Option<nat>
    var dragOffset: (int, int)
    var editParams: Params

    /**
     * The editor's own invariant: its parameters always pass the save
     * checks (so do the dialog's), and all obstacles are 40 by 40.
     */
    ghost predicate Valid()
      reads this, dialog
    {
      ValidParams(editParams) && ValidParams(dialog.params) && AllBlocks(obstacles)
    }

    /** `LevelEditor(screen)`, sharing the level catalogue `manager`. */
    constructor(screenWidth: int, screenHeight: int, manager: LevelManager)
      ensures Valid() && fresh(dialog) && this.manager == manager
      ensures editorRect == Rect(20, 70, screenWidth - 40, screenHeight - 160)
      ensures obstacles == [] && dragging.None? && editParams == DEFAULT_PARAMS && !dialog.isActive
    {
      editorRect := Rect(20, 70, screenWidth - 40, screenHeight - 160);
      backButton := Rect(10, 10, 40, 40);
      saveButton := Rect(screenWidth - 110, 10, 100, 40);
      addButton := Rect(screenWidth - 220, 10, 100, 40);
      paramButton := Rect(screenWidth - 330, 10, 100, 40);
      deleteButton := Rect(60, 10, 120, 40);
      dialog := new ParamDialog(screenWidth, screenHeight);
      this.manager := manager;
      obstacles := [];
      dragging := None;
      dragOffset := (0, 0);
      editParams := DEFAULT_PARAMS;
      new;
      DefaultParamsValid(editParams);
      DefaultParamsValid(dialog.params);
    }

    /** The add button: one obstacle centred in the editing area. */
    method AddObstacle()
      modifies this
      ensures obstacles == old(obstacles) + [Rect(editorRect.CenterX() - 20, editorRect.CenterY() - 20, 40, 40)]
      ensures dragging == old(dragging) && dragOffset == old(dragOffset) && editParams == old(editParams)
    {
      obstacles := obstacles + [Rect(editorRect.CenterX() - 20, editorRect.CenterY() - 20, 40, 40)];
    }

    /**
     * The delete button: removes the obstacle being dragged, or else the
     * last one. A drag index past the end of the list raises.
     */
    method DeleteObstacle() returns (raised: bool)
      modifies this
      ensures dragOffset == old(dragOffset) && editParams == old(editParams)
      ensures raised <==> old(dragging).Some? && old(dragging).value >= |old(obstacles)|
      ensures AllBlocks(old(obstacles)) ==> AllBlocks(obstacles)
      ensures raised ==> unchanged(this)
      ensures old(dragging).Some? && !raised ==>
        var i := old(dragging).value;
        obstacles == old(obstacles)[..i] + old(obstacles)[i + 1..] && dragging.None?
      ensures old(dragging).None? ==>
        dragging.None? &&
        obstacles == (if old(obstacles) == [] then [] else old(obstacles)[..|old(obstacles)| - 1])
    {
      ghost var before := obstacles;
      if dragging.Some? {
        var i := dragging.value;
        if i >= |obstacles| {
          return true;
        }
        obstacles := obstacles[..i] + obstacles[i + 1..];
        dragging := None;
      } else if obstacles != [] {
        obstacles := obstacles[..|obstacles| - 1];
      }
      forall j | 0 <= j < |obstacles| ensures obstacles[j] in before {
      }
      return false;
    }

    /**
     * A press inside the editing area picks the first obstacle under the
     * pointer, remembering where on it the pointer is, or picks none.
     */
    method StartDrag(mx: int, my: int)
      modifies this
      ensures obstacles == old(obstacles) && editParams == old(editParams)
      ensures dragging == FirstHit(obstacles, mx, my)
      ensures dragging.Some? ==>
        dragOffset == (mx - obstacles[dragging.value].x, my - obstacles[dragging.value].y)
      ensures dragging.None? ==> dragOffset == old(dragOffset)
    {
      dragging := None;
      var i := 0;
      while i < |obstacles|
        invariant 0 <= i <= |obstacles|
        invariant forall j :: 0 <= j < i ==> !ContainsPoint(obstacles[j], mx, my)
        invariant dragging.None? && dragOffset == old(dragOffset) && obstacles == old(obstacles)
        invariant editParams == old(editParams)
      {
        if ContainsPoint(obstacles[i], mx, my) {
          dragging := Some(i);
          dragOffset := (mx - obstacles[i].x, my - obstacles[i].y);
          return;
        }
        i := i + 1;
      }
    }

    /**
     * Motion while dragging: the obstacle follows the pointer, clamped so
     * that it stays inside the editing area, and keeps its 40 by 40 size.
     * A drag index past the end of the list raises.
     */
    method Drag(mx: int, my: int) returns (raised: bool)
      requires dragging.Some?
      modifies this
      ensures dragging == old(dragging) && dragOffset == old(dragOffset) && editParams == old(editParams)
      ensures raised <==> dragging.value >= |old(obstacles)|
      ensures raised ==> obstacles == old(obstacles)
      ensures !raised ==>
        obstacles == old(obstacles)[dragging.value := Rect(
          Clamp(mx - dragOffset.0, editorRect.x, editorRect.Right() - 40),
          Clamp(my - dragOffset.1, editorRect.y, editorRect.Bottom() - 40), 40, 40)]
    {
      var idx := dragging.value;
      var x := Clamp(mx - dragOffset.0, editorRect.x, editorRect.Right() - 40);
      var y := Clamp(my - dragOffset.1, editorRect.y, editorRect.Bottom() - 40);
      if idx >= |obstacles| {
        return true;
      }
      obstacles := obstacles[idx := Rect(x, y, 40, 40)];
      return false;
    }

    /**
     * `save_custom_level()`: refuses a blank name, a target below 100, a
     * time below 30 or a speed outside 5 to 20; otherwise hands the level to
     * the catalogue and, once it is added, clears the obstacles and
     * restores the default parameters. `None` is the exception a malformed
     * custom id in the catalogue raises.
     */
    method SaveCustomLevel() returns (saved: Option<bool>)
      modifies this, manager
      ensures !ValidParams(old(editParams)) ==> saved == Some(false) && unchanged(this) && unchanged(manager)
    ensures ValidParams(old(editParams)) ==> ValidParams(editParams)
      ensures ValidParams(old(editParams)) ==>
        var data := LevelData(None, Some(old(editParams).name), Some(old(editParams).scoreTarget),
                              Some(old(editParams).timeLimit), Some(old(editParams).speed), Some(old(obstacles)), None);
        var levels := AllLevels(old(manager.levelFile));
        manager.scoreFile == old(manager.scoreFile) &&
        (saved.None? <==> CustomNumbers(levels).None?) &&
        (saved.None? ==> unchanged(this) && manager.levelFile == old(manager.levelFile)) &&
        (saved.Some? ==>
          saved.value && obstacles == [] && editParams == DEFAULT_PARAMS &&
          dragging == old(dragging) && dragOffset == old(dragOffset) &&
          manager.levelFile == LevelsJson(levels + [NewLevel(CustomId(NextNumber(CustomNumbers(levels).value)), data)]))
    {
      StripBlank(editParams.name);
      if Strip(editParams.name) == "" {
        return Some(false);
      }
      if editParams.scoreTarget < 100 {
        return Some(false);
      }
      if editParams.timeLimit < 30 {
        return Some(false);
      }
      if !(5 <= editParams.speed <= 20) {
        return Some(false);
      }
      var data := LevelData(None, Some(editParams.name), Some(editParams.scoreTarget),
                            Some(editParams.timeLimit), Some(editParams.speed), Some(obstacles), None);
      var success := manager.AddCustomLevel(data);
      if success.None? {
        return None;
      }
      obstacles := [];
      editParams := DEFAULT_PARAMS;
      DefaultParamsValid(editParams);
      return Some(true);
    }

    /**
     * An event while the dialog is open: a press goes to `handle_click`,
     * a key to `handle_key`, and a confirm copies what the dialog reads
     * into the editor's parameters. Only a confirm changes them.
     */
    method DialogEvent(e: EditorEvent)
      requires Valid() && dialog.isActive
      modifies this, dialog
      ensures Valid()
      ensures obstacles == old(obstacles) && dragging == old(dragging) && dragOffset == old(dragOffset)
      ensures e.MouseDown? && ContainsPoint(dialog.ConfirmRect(), e.mx, e.my) ==>
        editParams == GetParams(old(dialog.inputText), old(dialog.params)) &&
        dialog.params == editParams && !dialog.isActive
      ensures !(e.MouseDown? && ContainsPoint(dialog.ConfirmRect(), e.mx, e.my)) ==> editParams == old(editParams)
      ensures e.MouseDown? ==> dialog.inputText == old(dialog.inputText)
      ensures e.MouseDown? && !ContainsPoint(dialog.ConfirmRect(), e.mx, e.my) ==>
        dialog.params == old(dialog.params) &&
        (ContainsPoint(dialog.CancelRect(), e.mx, e.my) ==>
          !dialog.isActive && dialog.activeInput == old(dialog.activeInput)) &&
        (!ContainsPoint(dialog.CancelRect(), e.mx, e.my) ==>
          dialog.isActive && dialog.activeInput == dialog.ClickedField(e.mx, e.my))
      ensures e.KeyDown? && old(dialog.activeInput).None? ==> unchanged(this) && unchanged(dialog)
      ensures e.KeyDown? && old(dialog.activeInput).Some? ==>
        var f := old(dialog.activeInput).value;
        var text := old(dialog.inputText);
        dialog.params == old(dialog.params) &&
        (e.key == ReturnKey ==> dialog.isActive && dialog.activeInput.None? && dialog.inputText == text) &&
        (e.key == EscapeKey ==> !dialog.isActive && dialog.activeInput == Some(f) && dialog.inputText == text) &&
        (e.key == TabKey ==> dialog.isActive && dialog.activeInput == Some(NextField(f)) && dialog.inputText == text) &&
        (e.key == BackspaceKey ==>
          dialog.isActive && dialog.activeInput == Some(f) && dialog.inputText == text.Set(f, Backspaced(text.Get(f)))) &&
        (e.key == OtherKey ==>
          dialog.isActive && dialog.activeInput == Some(f) && dialog.inputText == text.Set(f, Typed(f, text.Get(f), e.typed)))
      ensures !e.MouseDown? && !e.KeyDown? ==> unchanged(this) && unchanged(dialog)
    {
      match e {
        case MouseDown(mx, my) =>
          var answer := dialog.HandleClick(mx, my);
          if answer == Some(Confirm) {
            ConfirmIdempotent(dialog.inputText, old(dialog.params));
            editParams := GetParams(dialog.inputText, dialog.params);
          }
        case KeyDown(key, typed) =>
          var _ := dialog.HandleKey(key, typed);
        case _ =>
      }
    }

    /**
     * A press while the dialog is closed runs through the buttons in the
     * source's order: back, save, add, delete, parameters, editing area.
     * Back and a successful save leave the editor; every other press
     * falls through to the next button.
     */
    method MouseDownEvent(mx: int, my: int) returns (exit: Exit)
      requires Valid() && !dialog.isActive
      modifies this, dialog, manager
      ensures Valid()
      ensures exit == BackToLevelSelect ==> ContainsPoint(backButton, mx, my) || ContainsPoint(saveButton, mx, my)
      ensures ContainsPoint(backButton, mx, my) ==> exit == BackToLevelSelect && unchanged(this) && unchanged(manager)
    {
      if ContainsPoint(backButton, mx, my) {
        return BackToLevelSelect;
      }
      if ContainsPoint(saveButton, mx, my) {
        var saved := SaveCustomLevel();
        if saved.None? {
          return Raised;
        }
        if saved.value {
          return BackToLevelSelect;
        }
      }
      if ContainsPoint(addButton, mx, my) {
        AddObstacle();
      }
      if ContainsPoint(deleteButton, mx, my) {
        var raised := DeleteObstacle();
        if raised {
          return Raised;
        }
      }
      if ContainsPoint(paramButton, mx, my) {
        dialog.SetParams(editParams);
      }
      if ContainsPoint(editorRect, mx, my) {
        StartDrag(mx, my);
      }
      return StayInEditor;
    }

    /**
     * One pass of `handle_events` over a single event. While the dialog
     * is open it takes every event. Otherwise a press goes through the
     * buttons, a release ends any drag, and motion moves the dragged
     * obstacle.
     */
    method HandleEvent(e: EditorEvent) returns (exit: Exit)
      requires Valid()
      modifies this, dialog, manager
      ensures Valid()
      ensures old(dialog.isActive) ==>
        exit == StayInEditor && obstacles == old(obstacles) && unchanged(manager) && dragging == old(dragging) &&
        dragOffset == old(dragOffset)
      ensures old(dialog.isActive) && e.MouseDown? && ContainsPoint(dialog.ConfirmRect(), e.mx, e.my) ==>
        editParams == GetParams(old(dialog.inputText), old(dialog.params)) &&
        dialog.params == editParams && !dialog.isActive
      ensures old(dialog.isActive) && !(e.MouseDown? && ContainsPoint(dialog.ConfirmRect(), e.mx, e.my)) ==>
        editParams == old(editParams)
      ensures old(dialog.isActive) && e.MouseDown? ==> dialog.inputText == old(dialog.inputText)
      ensures old(dialog.isActive) && e.MouseDown? && !ContainsPoint(dialog.ConfirmRect(), e.mx, e.my) ==>
        dialog.params == old(dialog.params) &&
        (ContainsPoint(dialog.CancelRect(), e.mx, e.my) ==>
          !dialog.isActive && dialog.activeInput == old(dialog.activeInput)) &&
        (!ContainsPoint(dialog.CancelRect(), e.mx, e.my) ==>
          dialog.isActive && dialog.activeInput == dialog.ClickedField(e.mx, e.my))
      ensures old(dialog.isActive) && (e.MouseUp? || e.MouseMotion?) ==> unchanged(this) && unchanged(dialog)
      ensures old(dialog.isActive) && e.KeyDown? && old(dialog.activeInput).None? ==>
        unchanged(this) && unchanged(dialog)
      ensures old(dialog.isActive) && e.KeyDown? && old(dialog.activeInput).Some? ==>
        var f := old(dialog.activeInput).value;
        var text := old(dialog.inputText);
        dialog.params == old(dialog.params) &&
        (e.key == ReturnKey ==> dialog.isActive && dialog.activeInput.None? && dialog.inputText == text) &&
        (e.key == EscapeKey ==> !dialog.isActive && dialog.activeInput == Some(f) && dialog.inputText == text) &&
        (e.key == TabKey ==> dialog.isActive && dialog.activeInput == Some(NextField(f)) && dialog.inputText == text) &&
        (e.key == BackspaceKey ==>
          dialog.isActive && dialog.activeInput == Some(f) && dialog.inputText == text.Set(f, Backspaced(text.Get(f)))) &&
        (e.key == OtherKey ==>
          dialog.isActive && dialog.activeInput == Some(f) && dialog.inputText == text.Set(f, Typed(f, text.Get(f), e.typed)))
      ensures exit == BackToLevelSelect ==>
        e.MouseDown? && (ContainsPoint(backButton, e.mx, e.my) || ContainsPoint(saveButton, e.mx, e.my))
      ensures !old(dialog.isActive) && e.MouseDown? && ContainsPoint(backButton, e.mx, e.my) ==>
        exit == BackToLevelSelect && unchanged(this) && unchanged(manager)
      ensures !old(dialog.isActive) && e.MouseUp? ==> dragging.None? && obstacles == old(obstacles)
      ensures e.OtherEvent? ==> exit == StayInEditor && unchanged(this) && unchanged(manager)
      ensures !old(dialog.isActive) && e.KeyDown? ==> exit == StayInEditor && unchanged(this) && unchanged(manager)
      ensures !old(dialog.isActive) && e.MouseMotion? && old(dragging).None? ==>
        exit == StayInEditor && unchanged(this) && unchanged(manager)
      ensures !old(dialog.isActive) && e.MouseMotion? && old(dragging).Some? ==>
        unchanged(manager) && dragging == old(dragging) && dragOffset == old(dragOffset) &&
        editParams == old(editParams) &&
        (exit == Raised <==> old(dragging).value >= |old(obstacles)|) &&
        (exit == Raised ==> obstacles == old(obstacles)) &&
        (exit != Raised ==>
           exit == StayInEditor &&
           obstacles == old(obstacles)[old(dragging).value := Rect(
             Clamp(e.mx - old(dragOffset).0, editorRect.x, editorRect.Right() - 40),
             Clamp(e.my - old(dragOffset).1, editorRect.y, editorRect.Bottom() - 40), 40, 40)])
    {
      if dialog.isActive {
        DialogEvent(e);
        return StayInEditor;
      }
      match e {
        case MouseDown(mx, my) =>
          exit := MouseDownEvent(mx, my);
          return;
        case MouseUp =>
          dragging := None;
        case MouseMotion(mx, my) =>
          if dragging.Some? {
            var raised := Drag(mx, my);
            if raised {
              return Raised;
            }
          }
        case _ =>
      }
      return StayInEditor;
    }
  }

  /** Reading the same texts twice gives the same parameters: the second read falls back to the first. */
  lemma ConfirmIdempotent(t: Texts, stored: Params)
    ensures GetParams(t, GetParams(t, stored)) == GetParams(t, stored)
  {
  }

  /** A dragged obstacle stays inside an editing area that is at least 40 by 40. */
  lemma DraggedInside(editor: Rect, mx: int, my: int, offset: (int, int))
    requires editor.w >= 40 && editor.h >= 40
    ensures var r := Rect(Clamp(mx - offset.0, editor.x, editor.Right() - 40),
                          Clamp(my - offset.1, editor.y, editor.Bottom() - 40), 40, 40);
      editor.x <= r.x && r.Right() <= editor.Right() && editor.y <= r.y && r.Bottom() <= editor.Bottom()
  {
    ClampBounds(mx - offset.0, editor.x, editor.Right() - 40);
    ClampBounds(my - offset.1, editor.y, editor.Bottom() - 40);
  }
}

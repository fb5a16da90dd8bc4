/** The interactive table (components/.../table/VirtualTable.kt) as a
    sequential state machine: the running check of `start`, one iteration of
    the render loop, `stop`, `refresh` and the key dispatch of
    `handleKeyEvent`. The lock, the input thread and the sleep are left out;
    rendered frames are collected in `frames` instead of being printed, and
    the `onSelect` callback's invocations are collected in `selections`. */
module VirtualTables {
  import opened Wrappers
  import opened KeyEvents
  import opened Cells
  import opened Styles
  import TableState
  import opened VirtualTableRendering
  import opened Text

  datatype Move = MoveUp | MoveDown | MovePageUp | MovePageDown | MoveHome | MoveEnd

  /** What `handleKeyEvent` does with an event. */
  datatype Action = Navigate(move: Move) | Quit | ToggleSelection | Select | Ignore

  /** The `when (event)` of `handleKeyEvent`. */
  function Dispatch(e: KeyEvent): (a: Action)
    ensures a.Navigate? <==> e in {Up, Down, PageUp, PageDown, Home, End}
    ensures a == Quit <==> e in {Escape, Char('q'), Char('Q')}
    ensures a == Quit <==> Quits(e)
    ensures a == ToggleSelection <==> e == Char(' ')
    ensures a == Select <==> e == Enter
  {
    match e
    case Up => Navigate(MoveUp)
    case Down => Navigate(MoveDown)
    case PageUp => Navigate(MovePageUp)
    case PageDown => Navigate(MovePageDown)
    case Home => Navigate(MoveHome)
    case End => Navigate(MoveEnd)
    case Enter => Select
    case Char(c) => if c == 'q' || c == 'Q' then Quit else if c == ' ' then ToggleSelection else Ignore
    case Escape => Quit
    case _ => Ignore
  }

  /** The keys that stop the table. */
  predicate Quits(e: KeyEvent)
  {
    e == Escape || e == Char('q') || e == Char('Q')
  }

  /** The keys the table ignores. */
  lemma IgnoredKeys(e: KeyEvent)
    ensures Dispatch(e) == Ignore <==>
      e in {KeyEvent.Left, KeyEvent.Right, Tab, Backspace, Delete, Unknown} || e.Ctrl? ||
      (e.Char? && e.c !in {'q', 'Q', ' '})
  {
  }

  /** The cursor transition of a navigation key. */
  function Apply(m: Move, c: TableState.Cursor): TableState.Cursor
  {
    match m
    case MoveUp => TableState.MoveUp(c)
    case MoveDown => TableState.MoveDown(c)
    case MovePageUp => TableState.MovePageUp(c)
    case MovePageDown => TableState.MovePageDown(c)
    case MoveHome => TableState.MoveHome(c)
    case MoveEnd => TableState.MoveEnd(c)
  }

  /** Every navigation key keeps the state valid, for any height >= 0. */
  lemma NavigationKeepsValid(m: Move, c: TableState.Cursor)
    requires TableState.Valid(c) && c.height >= 0
    ensures TableState.Valid(Apply(m, c))
  {
  }

  /** What the keys change: the cursor and the selected indices. */
  datatype View = View(nav: TableState.Cursor, selected: set<int>)

  /** The effect of one key on the view, as `handleKeyEvent` has it:
      navigation moves the cursor, space toggles the highlighted row, and
      every other key leaves both alone. */
  function KeyStep(v: View, e: KeyEvent): (w: View)
    ensures Dispatch(e).Navigate? ==> w == View(Apply(Dispatch(e).move, v.nav), v.selected)
    ensures Dispatch(e) == ToggleSelection ==> w.nav == v.nav && w.selected == TableState.Toggled(v.selected, v.nav.current)
    ensures !Dispatch(e).Navigate? && Dispatch(e) != ToggleSelection ==> w == v
  {
    match Dispatch(e)
    case Navigate(m) => View(Apply(m, v.nav), v.selected)
    case ToggleSelection => View(v.nav, TableState.Toggled(v.selected, v.nav.current))
    case _ => v
  }

  /** The view after the first `n` keys, handled in order. */
  function Replay(v: View, keys: seq<KeyEvent>, n: nat): View
    requires n <= |keys|
  {
    if n == 0 then v else KeyStep(Replay(v, keys, n - 1), keys[n - 1])
  }

  /** How many of `keys`, from the `n`th on, the loop handles: up to and
      including the first key that quits, or all of them. */
  function HandledFrom(keys: seq<KeyEvent>, n: nat): nat
    requires n <= |keys|
    decreases |keys| - n
  {
    if n == |keys| then n else if Quits(keys[n]) then n + 1 else HandledFrom(keys, n + 1)
  }

  /** The loop stops right after the first key that quits: none of the keys
      it handles before the last one quits, and when keys are left over the
      last one it handled did. */
  lemma {:induction false} HandledFromStops(keys: seq<KeyEvent>, n: nat)
    requires n <= |keys|
    ensures n <= HandledFrom(keys, n) <= |keys|
    ensures forall i :: n <= i < HandledFrom(keys, n) - 1 ==> !Quits(keys[i])
    ensures HandledFrom(keys, n) < |keys| ==> HandledFrom(keys, n) > n && Quits(keys[HandledFrom(keys, n) - 1])
    ensures n < |keys| && !Quits(keys[n]) ==> HandledFrom(keys, n) == HandledFrom(keys, n + 1)
    decreases |keys| - n
  {
    if n < |keys| && !Quits(keys[n]) {
      HandledFromStops(keys, n + 1);
    }
  }

  /** Some key among the first `n` quits. */
  predicate QuitIn(keys: seq<KeyEvent>, n: nat)
    requires n <= |keys|
  {
    n > 0 && (Quits(keys[n - 1]) || QuitIn(keys, n - 1))
  }

  /** `QuitIn` is the existential it is meant to be. */
  lemma {:induction false} QuitInSome(keys: seq<KeyEvent>, n: nat)
    requires n <= |keys|
    ensures QuitIn(keys, n) <==> exists i :: 0 <= i < n && Quits(keys[i])
  {
    if n > 0 {
      QuitInSome(keys, n - 1);
    }
  }

  /** One key keeps the cursor valid, the row count and the height. */
  lemma KeyStepKeepsValid(v: View, e: KeyEvent)
    requires TableState.Valid(v.nav) && v.nav.height >= 0
    ensures TableState.Valid(KeyStep(v, e).nav)
    ensures KeyStep(v, e).nav.total == v.nav.total && KeyStep(v, e).nav.height == v.nav.height
  {
    if Dispatch(e).Navigate? {
      NavigationKeepsValid(Dispatch(e).move, v.nav);
    }
  }

  /** Replaying keeps the cursor valid, whatever the keys. */
  lemma {:induction false} ReplayKeepsValid(v: View, keys: seq<KeyEvent>, n: nat)
    requires n <= |keys|
    requires TableState.Valid(v.nav) && v.nav.height >= 0
    ensures TableState.Valid(Replay(v, keys, n).nav)
    ensures Replay(v, keys, n).nav.total == v.nav.total && Replay(v, keys, n).nav.height == v.nav.height
    decreases n
  {
    if n > 0 {
      ReplayKeepsValid(v, keys, n - 1);
      KeyStepKeepsValid(Replay(v, keys, n - 1), keys[n - 1]);
    }
  }

  /** Keys that neither move nor toggle change nothing: a run of them leaves
      the view as it was. */
  lemma {:induction false} InertKeys(v: View, keys: seq<KeyEvent>, n: nat)
    requires n <= |keys|
    requires forall i :: 0 <= i < n ==> !Dispatch(keys[i]).Navigate? && Dispatch(keys[i]) != ToggleSelection
    ensures Replay(v, keys, n) == v
    decreases n
  {
    if n > 0 {
      InertKeys(v, keys, n - 1);
    }
  }

  /** Space twice on the same row restores the selection. */
  lemma SpaceTwice(v: View)
    ensures Replay(v, [Char(' '), Char(' ')], 2) == v
  {
    var space := Char(' ');
    var once := KeyStep(v, space);
    assert Replay(v, [space, space], 1) == once;
    assert once == View(v.nav, TableState.Toggled(v.selected, v.nav.current));
    TableState.ToggleTwice(v.selected, v.nav.current);
  }

  datatype StartError = AlreadyRunning

  class VirtualTable<T> {
    const state: TableState.VirtualTableState<T>
    const renderer: VirtualTableRenderer<T>
    const hasOnSelect: bool
    var running: bool
    var needsRender: bool
    /** The frames rendered so far, oldest first. */
    var frames: seq<string>
    /** The rows handed to `onSelect` so far, oldest first. */
    var selections: seq<T>
    /** The view the newest frame in `frames` was drawn from. */
    ghost var shown: View

    /** The state is valid and the frame can be built from it. */
    predicate Valid()
      reads state
    {
      renderer.Valid() && TableState.Valid(state.Nav()) && state.visibleHeight >= 0
    }

    constructor (rows: seq<T>, columns: seq<Column<T>>, style: VirtualTableStyle, height: int,
                 terminalWidth: int, hasOnSelect: bool)
      ensures fresh(state) && state.rows == rows && state.visibleHeight == height
      ensures state.Nav() == TableState.Initial(|rows|, height) && state.selectedIndices == {}
      ensures renderer == NewRenderer(columns, style, terminalWidth) && this.hasOnSelect == hasOnSelect
      ensures !running && needsRender && frames == [] && selections == []
      ensures height >= 0 && (forall i :: 0 <= i < |columns| && columns[i].width.Some? ==> columns[i].width.value >= 0) ==> Valid()
    {
      state := new TableState.VirtualTableState(rows, height);
      renderer := NewRenderer(columns, style, terminalWidth);
      this.hasOnSelect := hasOnSelect;
      running := false;
      needsRender := true;
      frames := [];
      selections := [];
      shown := View(TableState.Initial(|rows|, height), {});
    }

    /** The view of the state the keys change. */
    function CurrentView(): View
      reads state
    {
      View(state.Nav(), state.selectedIndices)
    }

    /** The frame `renderFrame` draws for the current state. */
    function CurrentFrame(): (f: string)
      requires Valid()
      reads state
      ensures state.GetVisibleRows().Success?
      ensures f == Terminated(renderer.FrameLines(state.Nav(), state.selectedIndices,
                                                  |state.GetSelectedRows()|, state.GetVisibleRows().value))
    {
      Terminated(renderer.FrameLines(state.Nav(), state.selectedIndices,
                                     |state.GetSelectedRows()|, state.GetVisibleRows().value))
    }

    /** `renderer.renderFrame(state)`. */
    method RenderFrame()
      requires Valid()
      modifies this`frames, this`shown
      ensures frames == old(frames) + [CurrentFrame()] && shown == CurrentView()
    {
      var frame := renderer.BuildFrame(state);
      frames := frames + [frame];
      shown := CurrentView();
    }

    /** `start` up to the render loop: fails if already running; otherwise
        sets `running`, renders the first frame and clears `needsRender`. */
    method Start() returns (r: Result<(), StartError>)
      requires Valid()
      modifies this`running, this`frames, this`needsRender, this`shown
      ensures old(running) ==>
        r == Failure(AlreadyRunning) && running && needsRender == old(needsRender) &&
        frames == old(frames) && shown == old(shown)
      ensures !old(running) ==>
        r.Success? && running && !needsRender && frames == old(frames) + [CurrentFrame()] && shown == CurrentView()
    {
      if running {
        return Failure(AlreadyRunning);
      }
      running := true;
      RenderFrame();
      needsRender := false;
      r := Success(());
    }

    /** One pass of the render loop: render only when needed, then clear the flag. */
    method Tick()
      requires Valid()
      modifies this`frames, this`needsRender, this`shown
      ensures !needsRender
      ensures old(needsRender) ==> frames == old(frames) + [CurrentFrame()] && shown == CurrentView()
      ensures !old(needsRender) ==> frames == old(frames) && shown == old(shown)
    {
      if needsRender {
        RenderFrame();
        needsRender := false;
      }
    }

    method Stop()
      modifies this`running
      ensures !running
    {
      running := false;
    }

    method Refresh()
      modifies this`needsRender
      ensures needsRender
    {
      needsRender := true;
    }

    function GetCurrentSelection(): (r: Option<T>)
      reads this, state
      ensures r == state.GetCurrentSelection()
    {
      state.GetCurrentSelection()
    }

    function GetSelectedRows(): (r: seq<T>)
      reads this, state
      ensures r == TableState.SelectedRows(state.rows, state.selectedIndices)
    {
      state.GetSelectedRows()
    }

    /** `handleKeyEvent`. */
    method HandleKeyEvent(e: KeyEvent)
      requires Valid()
      modifies this`running, this`needsRender, this`selections, state
      ensures Valid()
      ensures Dispatch(e).Navigate? ==>
        state.Nav() == Apply(Dispatch(e).move, old(state.Nav())) && needsRender &&
        state.selectedIndices == old(state.selectedIndices) && running == old(running) && selections == old(selections)
      ensures Dispatch(e) == Quit ==>
        !running && needsRender == old(needsRender) && state.Nav() == old(state.Nav()) &&
        state.selectedIndices == old(state.selectedIndices) && selections == old(selections)
      ensures Dispatch(e) == ToggleSelection ==>
        state.selectedIndices == TableState.Toggled(old(state.selectedIndices), old(state.currentRowIndex)) &&
        needsRender && state.Nav() == old(state.Nav()) && running == old(running) && selections == old(selections)
      ensures Dispatch(e) == Select ==>
        selections == old(selections) +
          (if hasOnSelect && old(state.GetCurrentSelection()).Some? then [old(state.GetCurrentSelection()).value] else []) &&
        state.Nav() == old(state.Nav()) && state.selectedIndices == old(state.selectedIndices) &&
        running == old(running) && needsRender == old(needsRender)
      ensures Dispatch(e) == Ignore ==>
        state.Nav() == old(state.Nav()) && state.selectedIndices == old(state.selectedIndices) &&
        running == old(running) && needsRender == old(needsRender) && selections == old(selections)
      ensures CurrentView() == KeyStep(old(CurrentView()), e)
      ensures !Dispatch(e).Navigate? && Dispatch(e) != ToggleSelection ==> unchanged(state)
      ensures running == (old(running) && Dispatch(e) != Quit)
      ensures needsRender == (old(needsRender) || Dispatch(e).Navigate? || Dispatch(e) == ToggleSelection)
    {
      match e
      case Up =>
        state.MoveUpRow();
        needsRender := true;
      case Down =>
        state.MoveDownRow();
        needsRender := true;
      case PageUp =>
        state.MovePageUpRows();
        needsRender := true;
      case PageDown =>
        state.MovePageDownRows();
        needsRender := true;
      case Home =>
        state.MoveHomeRow();
        needsRender := true;
      case End =>
        state.MoveEndRow();
        needsRender := true;
      case Enter =>
        var selected := state.GetCurrentSelection();
        if selected.Some? && hasOnSelect {
          selections := selections + [selected.value];
        }
      case Char(c) =>
        if c == 'q' || c == 'Q' {
          running := false;
        } else if c == ' ' {
          state.ToggleSelection();
          needsRender := true;
        }
      case Escape =>
        running := false;
      case _ =>
    }

    /** One pass of the loop with key `keys[n]` waiting: handle it, then
        render if needed. The view moves one step further along `Replay`, and
        the newest frame still shows the current view. */
    method Pass(keys: seq<KeyEvent>, n: nat, ghost start: View)
      requires n < |keys|
      requires Valid() && running && !needsRender && CurrentView() == Replay(start, keys, n) && shown == CurrentView()
      modifies this, state
      ensures Valid() && !needsRender
      ensures running == !Quits(keys[n])
      ensures CurrentView() == Replay(start, keys, n + 1) && shown == CurrentView()
      ensures |frames| >= |old(frames)|
    {
      HandleKeyEvent(keys[n]);
      Tick();
    }

    /** The render loop of a running table, with the keys arriving in order
        between passes: each pass handles one key, then renders if needed,
        until a key stops the table or the keys run out. The loop handles
        `HandledFrom(keys, 0)` keys, they leave the cursor and selection
        `Replay` gives, and the newest frame shows that view. */
    method Loop(keys: seq<KeyEvent>) returns (handled: nat)
      requires Valid() && running && !needsRender && shown == CurrentView()
      modifies this, state
      ensures Valid() && handled <= |keys| && !needsRender
      ensures handled == HandledFrom(keys, 0)
      ensures running == !QuitIn(keys, handled)
      ensures CurrentView() == Replay(old(CurrentView()), keys, handled) && shown == CurrentView()
      ensures |frames| >= |old(frames)|
    {
      ghost var start := CurrentView();
      handled := 0;
      while running && handled < |keys|
        invariant Valid() && handled <= |keys| && !needsRender
        invariant running == !QuitIn(keys, handled)
        invariant running ==> HandledFrom(keys, handled) == HandledFrom(keys, 0)
        invariant !running ==> handled == HandledFrom(keys, 0)
        invariant CurrentView() == Replay(start, keys, handled) && shown == CurrentView()
        invariant |frames| >= |old(frames)|
        decreases |keys| - handled
      {
        Pass(keys, handled, start);
        handled := handled + 1;
      }
    }

    /** `start` followed by its loop: the first frame, then the keys. */
    method Run(keys: seq<KeyEvent>) returns (handled: nat)
      requires Valid() && !running
      modifies this, state
      ensures Valid() && handled <= |keys| && !needsRender
      ensures handled == HandledFrom(keys, 0)
      ensures running == !QuitIn(keys, handled)
      ensures CurrentView() == Replay(old(CurrentView()), keys, handled) && shown == CurrentView()
      ensures |frames| > |old(frames)|
    {
      var started := Start();
      handled := Loop(keys);
    }
  }
}

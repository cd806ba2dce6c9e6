/**
 * The tanks-menu application: its menu state, one iteration of its event loop, and the
 * frame its render callback draws.
 */
module TanksMenu {
  import opened Wrappers
  import opened Input
  import opened Canvas

  datatype MenuState = SingleMode | CoopMode | GameStarting

  /** The interface record as the application allocates it: the single-player entry. */
  function Init(): (s: MenuState)
    ensures s == SingleMode
  {
    SingleMode
  }

  /** Queue entries: key events only. */
  datatype Event = Key(input: InputEvent)

  /** The result of one loop iteration: the new state and the loop flag. */
  datatype Outcome = Outcome(state: MenuState, processing: bool)

  /** The body of the Up/Down case: swap the two menu entries, leave GameStarting alone. */
  function Toggle(s: MenuState): (r: MenuState)
    ensures s == SingleMode <==> r == CoopMode
    ensures s == CoopMode <==> r == SingleMode
    ensures s == GameStarting <==> r == GameStarting
  {
    if s == SingleMode then CoopMode
    else if s == CoopMode then SingleMode
    else s
  }

  /** The body of the Ok case. */
  function OkCase(s: MenuState): (r: MenuState)
    ensures r == GameStarting
  {
    if s == SingleMode || s == CoopMode then GameStarting else assert s.GameStarting?; s
  }

  /** A key press dispatched on its key. */
  function PressKey(s: MenuState, key: InputKey): (r: Outcome)
    ensures r.processing <==> key != Back
    ensures key in {Right, Left, Back} ==> r.state == s
    ensures s == GameStarting ==> r.state == GameStarting
  {
    match key
    // Up and Down have no `break`: after the toggle they fall into the Right/Left case,
    // whose only statement is `break`, so the toggle is their whole effect.
    case Up => Outcome(Toggle(s), true)
    case Down => Outcome(Toggle(s), true)
    case Right => Outcome(s, true)
    case Left => Outcome(s, true)
    case Ok => Outcome(OkCase(s), true)
    case Back => Outcome(s, false)
  }

  /** One iteration of the loop body, between acquiring and releasing the state mutex. */
  function Next(s: MenuState, received: Received<Event>): (r: Outcome)
    ensures !r.processing <==> received == Got(Key(InputEvent(Back, Press)))
    ensures s == GameStarting ==> r.state == GameStarting
    ensures r.state != s ==>
      received.Got? && received.event.input.kind == Press && received.event.input.key in {Up, Down, Ok}
  {
    match received
    case Timeout => Outcome(s, true)
    case Got(Key(input)) => if input.kind == Press then PressKey(s, input.key) else Outcome(s, true)
  }

  /** The state after a run of iterations, and whether Back ended it. */
  datatype Trace = Trace(state: MenuState, stopped: bool)

  /** The loop run over a finite script: it stops at the iteration that clears `processing`. */
  function Run(s: MenuState, script: seq<Received<Event>>): (t: Trace)
    ensures t.stopped <==> exists i :: 0 <= i < |script| && script[i] == Got(Key(InputEvent(Back, Press)))
    decreases |script|
  {
    if script == [] then Trace(s, false)
    else
      var o := Next(s, script[0]);
      if !o.processing then Trace(o.state, true) else Run(o.state, script[1..])
  }

  /** The frame the render callback draws; `locked` is None when the mutex was not acquired in time. */
  function Render(locked: Option<MenuState>): (ops: seq<DrawOp>)
    ensures locked.None? ==> ops == []
    ensures locked.Some? ==> |ops| >= 3 && ops[0] == DrawFrame(0, 0, 128, 64) && ops[1] == DrawIcon(0, 0, TanksSplashScreen128x64)
  {
    match locked
    case None => []
    case Some(s) =>
      [DrawFrame(0, 0, 128, 64), DrawIcon(0, 0, TanksSplashScreen128x64)]
      + (if s == GameStarting then []
         else [SetFont(FontPrimary),
               DrawStrAligned(110, 10, AlignRight, AlignBottom, "Single"),
               DrawStrAligned(110, 30, AlignRight, AlignBottom, "Co-op")])
      + [DrawFrame(0, 0, 128, 64)]
      + (if s == SingleMode then [DrawIcon(70, 3, TankRight6x6)]
         else if s == CoopMode then [DrawIcon(70, 23, TankRight6x6)]
         else [])
  }

  /** The cursor positions drawn in a frame. */
  function Cursors(ops: seq<DrawOp>): set<int> {
    set i | 0 <= i < |ops| && ops[i].DrawIcon? && ops[i].icon == TankRight6x6 :: ops[i].y
  }

  // ---------------------------------------------------------------------------
  // Transitions

  /** Up or Down swaps the two menu entries, so two presses restore the entry. */
  lemma UpDownSwaps(s: MenuState, key: InputKey)
    requires key == Up || key == Down
    requires s != GameStarting
    ensures var o := Next(s, Got(Key(InputEvent(key, Press))));
      && o.processing
      && o.state != GameStarting && o.state != s
      && Next(o.state, Got(Key(InputEvent(key, Press)))).state == s
  {
  }

  /**
   * The missing `break` after Up/Down reaches only Right/Left's `break`: an Up or Down
   * press has exactly the toggle's effect, and Right and Left change nothing, in every state.
   */
  lemma FallthroughHarmless(s: MenuState, key: InputKey)
    ensures key in {Up, Down} ==>
      Next(s, Got(Key(InputEvent(key, Press)))) ==
        Outcome(match s
                case SingleMode => CoopMode
                case CoopMode => SingleMode
                case GameStarting => GameStarting, true)
    ensures key in {Right, Left} ==> Next(s, Got(Key(InputEvent(key, Press)))) == Outcome(s, true)
  {
  }

  /** Ok from either menu entry starts the game. */
  lemma OkStarts(s: MenuState)
    ensures Next(s, Got(Key(InputEvent(Ok, Press)))) == Outcome(GameStarting, true)
  {
  }

  /** The run ends at the first Back press: events after it have no effect. */
  lemma {:induction false} RunStopsAtBack(s: MenuState, script: seq<Received<Event>>, k: nat)
    requires k < |script|
    requires script[k] == Got(Key(InputEvent(Back, Press)))
    requires forall j :: 0 <= j < k ==> script[j] != Got(Key(InputEvent(Back, Press)))
    ensures Run(s, script) == Run(s, script[..k + 1])
    decreases k
  {
    if k > 0 {
      assert script[..k + 1][1..] == script[1..][..k];
      RunStopsAtBack(Next(s, script[0]).state, script[1..], k - 1);
    }
  }

  /** Once the game is starting, every run stays there. */
  lemma {:induction false} RunStaysStarting(script: seq<Received<Event>>)
    ensures Run(GameStarting, script).state == GameStarting
    decreases |script|
  {
    if script != [] {
      RunStaysStarting(script[1..]);
    }
  }

  /** A run reaches GameStarting exactly when one of its iterations handles an Ok press before Back. */
  lemma {:induction false} RunStartsOnOk(s: MenuState, script: seq<Received<Event>>)
    requires s != GameStarting
    ensures Run(s, script).state == GameStarting <==>
      exists i :: 0 <= i < |script| && script[i] == Got(Key(InputEvent(Ok, Press)))
                  && forall j :: 0 <= j < i ==> script[j] != Got(Key(InputEvent(Back, Press)))
    decreases |script|
  {
    var okAt := (i: int) => 0 <= i < |script| && script[i] == Got(Key(InputEvent(Ok, Press)))
                  && forall j :: 0 <= j < i ==> script[j] != Got(Key(InputEvent(Back, Press)));
    if script == [] {
    } else if script[0] == Got(Key(InputEvent(Ok, Press))) {
      assert okAt(0);
      RunStaysStarting(script[1..]);
    } else {
      var o := Next(s, script[0]);
      assert o.state != GameStarting;
      if !o.processing {
        assert script[0] == Got(Key(InputEvent(Back, Press)));
        assert forall i :: 0 < i < |script| ==> !okAt(i);
      } else {
        RunStartsOnOk(o.state, script[1..]);
        if Run(o.state, script[1..]).state == GameStarting {
          var k :| 0 <= k < |script[1..]| && script[1..][k] == Got(Key(InputEvent(Ok, Press)))
                   && forall j :: 0 <= j < k ==> script[1..][j] != Got(Key(InputEvent(Back, Press)));
          assert okAt(k + 1);
        }
      }
    }
  }

  // ---------------------------------------------------------------------------
  // Rendering

  /** The two menu labels are drawn exactly when the game is not starting. */
  lemma RenderLabels(s: MenuState)
    ensures DrawStrAligned(110, 10, AlignRight, AlignBottom, "Single") in Render(Some(s)) <==> s != GameStarting
    ensures DrawStrAligned(110, 30, AlignRight, AlignBottom, "Co-op") in Render(Some(s)) <==> s != GameStarting
  {
  }

  /** The cursor sits at y=3 on SingleMode, at y=23 on CoopMode, and is absent on GameStarting. */
  lemma RenderCursor(s: MenuState)
    ensures Cursors(Render(Some(s))) == match s
      case SingleMode => {3}
      case CoopMode => {23}
      case GameStarting => {}
  {
    var ops := Render(Some(s));
    if s != GameStarting {
      assert ops[|ops| - 1].DrawIcon? && ops[|ops| - 1].icon == TankRight6x6;
    }
  }
}

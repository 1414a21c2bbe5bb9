/**
  The application (`src/app.rs`): start-up loads the configuration and shows
  the main view; afterwards every key press goes through one step of a small
  state machine over the visible view (main or help). A step returns the next
  state, the effects it issues (spawning a command, closing the window) and
  whether the key event is consumed.
 */
module App {

  import opened Options
  import opened Config
  import opened Effects
  import opened Keys
  import opened Ui

  /** The visible child of the window's stack. */
  datatype View = Main | Help

  /** The launcher's state while the window is open. */
  datatype Menu = Menu(view: View, commands: seq<CommandEntry>)

  /** One handled key press: the next state and the response to the event. */
  datatype Transition = Transition(next: Menu, response: Response)

  /** The effects a single event may have: none, closing, or launching one configured entry. */
  predicate Permitted(commands: seq<CommandEntry>, effects: seq<Effect>) {
    || effects == []
    || effects == [CloseWindow]
    || exists i :: 0 <= i < |commands| && effects == Launch(commands[i].command)
  }

  /** The key-to-position table of `handle_command_key`. */
  function CommandIndex(key: Key): (r: Option<nat>)
    ensures r.Some? ==> r.value < RequiredCommands
    ensures key == Escape || key == Question ==> r.None?
  {
    if key == KeyA then Some(0)
    else if key == KeyS then Some(1)
    else if key == KeyD then Some(2)
    else if key == KeyF then Some(3)
    else if key == KeyH then Some(4)
    else if key == KeyJ then Some(5)
    else if key == KeyK then Some(6)
    else if key == KeyL then Some(7)
    else None
  }

  /**
    `handle_command_key`: a mapped key whose position holds an entry launches
    that entry and consumes the event; any other key is passed on untouched.
   */
  function HandleCommandKey(key: Key, commands: seq<CommandEntry>): (r: Response)
    ensures r.propagation == Stop <==> CommandIndex(key).Some? && CommandIndex(key).value < |commands|
    ensures r.propagation == Stop ==> r.effects == Launch(commands[CommandIndex(key).value].command)
    ensures r.propagation == Proceed ==> r.effects == []
  {
    match CommandIndex(key)
    case Some(index) =>
      if index < |commands| then Response(Launch(commands[index].command), Stop)
      else Response([], Proceed)
    case None => Response([], Proceed)
  }

  /** The `connect_key_pressed` handler. */
  function Step(m: Menu, key: Key): (t: Transition)
    ensures t.next.commands == m.commands
    ensures Permitted(m.commands, t.response.effects)
    ensures t.response.effects != [] ==> m.view == Main
    ensures t.response.propagation == Proceed ==> t.next == m && t.response.effects == []
    ensures key == Escape ==> && t.response.propagation == Stop
                              && (m.view == Help ==> t.next.view == Main && t.response.effects == [])
                              && (m.view == Main ==> t.response.effects == [CloseWindow] && t.next == m)
    ensures key == Question ==> && t.response.propagation == Stop
                                && t.next.view != m.view
                                && t.response.effects == []
    ensures key != Escape && key != Question ==>
              && t.next.view == m.view
              && (t.response.propagation == Stop <==>
                    m.view == Main && CommandIndex(key).Some? && CommandIndex(key).value < |m.commands|)
              && (t.response.propagation == Stop ==>
                    t.response.effects == Launch(m.commands[CommandIndex(key).value].command))
  {
    if key == Escape then
      if m.view.Help? then Transition(m.(view := Main), Response([], Stop))
      else Transition(m, Response([CloseWindow], Stop))
    else if key == Question then
      if m.view.Main? then Transition(m.(view := Help), Response([], Stop))
      else Transition(m.(view := Main), Response([], Stop))
    else if m.view.Main? then
      Transition(m, HandleCommandKey(key, m.commands))
    else
      Transition(m, Response([], Proceed))
  }

  /** A run of key presses: where it ended, what it did, and whether the window closed. */
  datatype Session = Session(final: Menu, effects: seq<Effect>, closed: bool)

  /**
    Feeds `keys` to the handler one at a time. Closing the window ends the
    session: keys after that are never delivered.
   */
  function Run(m: Menu, keys: seq<Key>): (s: Session)
    ensures s.final.commands == m.commands
    ensures s.closed <==> s.effects != []
    ensures Permitted(m.commands, s.effects)
    decreases |keys|
  {
    if keys == [] then Session(m, [], false)
    else
      var t := Step(m, keys[0]);
      if CloseWindow in t.response.effects then Session(t.next, t.response.effects, true)
      else Run(t.next, keys[1..])
  }

  /** `QuickMenuApp::new` and `build_ui`: load the configuration and show the main view. */
  function Start(read: FileRead, env: SaveEnv): (m: Menu)
    ensures m.view == Main
    ensures |m.commands| == RequiredCommands
    ensures Usable(read) ==> m.commands == read.config.commands
    ensures !Usable(read) ==> m.commands == Default().commands
  {
    Menu(Main, LoadConfig(read, env).commands)
  }

  /** Start-up as a whole: the main view built from any loaded configuration never panics. */
  method BuildUi(read: FileRead, env: SaveEnv) returns (m: Menu, buttons: seq<Button>)
    ensures m == Start(read, env)
    ensures |buttons| == RequiredCommands
    ensures Shows(m.commands, buttons)
  {
    m := Start(read, env);
    var view := CreateMainView(m.commands);
    buttons := view.buttons;
  }

  /**
    The shortcut shown at position `i` is exactly the key the handler maps to
    `i`, and no other key maps to `i`.
   */
  lemma ShortcutTableAgrees(key: Key, i: nat)
    requires i < |Shortcuts|
    ensures IsLatin1Graphic(Shortcuts[i])
    ensures CommandIndex(OfChar(Shortcuts[i])) == Some(i)
    ensures CommandIndex(key) == Some(i) ==> key == OfChar(Shortcuts[i])
  {
  }

  /** Only the eight shortcut keys are mapped, each to its own position. */
  lemma CommandIndexInjective(k1: Key, k2: Key)
    requires CommandIndex(k1).Some? && CommandIndex(k1) == CommandIndex(k2)
    ensures k1 == k2
  {
  }

  /** Pressing the key shown under a button does exactly what clicking the button does. */
  lemma KeyMatchesClick(commands: seq<CommandEntry>, buttons: seq<Button>, i: nat)
    requires Shows(commands, buttons)
    requires i < |buttons|
    ensures IsLatin1Graphic(buttons[i].hint)
    ensures Step(Menu(Main, commands), OfChar(buttons[i].hint))
            == Transition(Menu(Main, commands), Response(buttons[i].onClick, Stop))
  {
    ShortcutTableAgrees(OfChar(buttons[i].hint), i);
  }

  /** Pressing `?` twice returns to the view it started from. */
  lemma QuestionTwiceRestores(m: Menu)
    ensures Step(Step(m, Question).next, Question).next == m
  {
  }

  /**
    While the help view is shown, command keys are suppressed: keys other than
    Escape and `?` change nothing and issue nothing.
   */
  lemma {:induction false} HelpSuppressesCommands(m: Menu, keys: seq<Key>)
    requires m.view == Help
    requires forall i :: 0 <= i < |keys| ==> keys[i] != Escape && keys[i] != Question
    ensures Run(m, keys) == Session(m, [], false)
    decreases |keys|
  {
    if keys != [] {
      HelpSuppressesCommands(m, keys[1..]);
    }
  }

  /** Once the window has closed, further keys are never handled. */
  lemma {:induction false} ClosedSessionIgnoresLaterKeys(m: Menu, keys: seq<Key>, later: seq<Key>)
    requires Run(m, keys).closed
    ensures Run(m, keys + later) == Run(m, keys)
    decreases |keys|
  {
    assert keys != [];
    assert (keys + later)[0] == keys[0];
    assert (keys + later)[1..] == keys[1..] + later;
    var t := Step(m, keys[0]);
    if CloseWindow !in t.response.effects {
      ClosedSessionIgnoresLaterKeys(t.next, keys[1..], later);
    }
  }

  /**
    A session still open after `keys` handles the next key exactly as one
    handler step from where it stands: a closing step ends the session with
    that step's effects, any other step carries on with the remaining keys.
   */
  lemma {:induction false} RunExtends(m: Menu, keys: seq<Key>, k: Key, later: seq<Key>)
    requires !Run(m, keys).closed
    ensures var t := Step(Run(m, keys).final, k);
            Run(m, keys + [k] + later)
            == if CloseWindow in t.response.effects then Session(t.next, t.response.effects, true)
               else Run(t.next, later)
    decreases |keys|
  {
    if keys == [] {
      assert keys + [k] + later == [k] + later;
      assert ([k] + later)[1..] == later;
    } else {
      var t0 := Step(m, keys[0]);
      assert (keys + [k] + later)[0] == keys[0];
      assert (keys + [k] + later)[1..] == keys[1..] + [k] + later;
      RunExtends(t0.next, keys[1..], k, later);
    }
  }

  /**
    In a session still open on the main view, pressing the shortcut of a
    position that holds an entry launches that entry and closes the window.
   */
  lemma ShortcutLaunchesInOpenSession(m: Menu, keys: seq<Key>, i: nat, later: seq<Key>)
    requires !Run(m, keys).closed && Run(m, keys).final.view == Main
    requires i < |m.commands| && i < |Shortcuts|
    ensures IsLatin1Graphic(Shortcuts[i])
    ensures Run(m, keys + [OfChar(Shortcuts[i])] + later).closed
    ensures Run(m, keys + [OfChar(Shortcuts[i])] + later).effects == Launch(m.commands[i].command)
  {
    var k := OfChar(Shortcuts[i]);
    ShortcutTableAgrees(k, i);
    var before := Run(m, keys);
    assert before.final.commands == m.commands;
    var t := Step(before.final, k);
    assert t.response.effects == Launch(m.commands[i].command);
    assert CloseWindow in t.response.effects;
    RunExtends(m, keys, k, later);
  }

  /** Escape pressed twice closes the window from either view, and spawns nothing. */
  lemma EscapeTwiceCloses(m: Menu)
    ensures Run(m, [Escape, Escape]).closed
    ensures Run(m, [Escape, Escape]).effects == [CloseWindow]
  {
  }
}

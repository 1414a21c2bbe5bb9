/**
  The main view (`create_main_view` in `src/ui.rs`): one button per command
  entry, laid out row-major in a four-column grid, each showing its entry's
  label and the shortcut letter of its position, and each launching its
  entry's command when clicked. Widget construction, markup and the help view
  are toolkit calls and are not modelled; a button is the data it is built from.
 */
module Ui {

  import opened Config
  import opened Effects
  import Keys

  /** The shortcut hint shown under the button at each position. */
  const Shortcuts: seq<char> := ['a', 's', 'd', 'f', 'h', 'j', 'k', 'l']

  /** The number of grid columns. */
  const Columns: nat := 4

  datatype Cell = Cell(row: nat, column: nat)

  /** The grid cell of the button at `index`: row `index / 4`, column `index % 4`. */
  function Placement(index: nat): (c: Cell)
    ensures c.column < Columns
    ensures c.row * Columns + c.column == index
  {
    Cell(index / Columns, index % Columns)
  }

  /** A button as built: its label, its shortcut hint, its cell and what a click does. */
  datatype Button = Button(title: string, hint: char, cell: Cell, onClick: seq<Effect>)

  /** The outcome of building the main view: the buttons, or the panic of an out-of-bounds index. */
  datatype MainView = Built(buttons: seq<Button>) | Panicked(index: nat, length: nat)

  /**
    `buttons` is the main view of `commands`: one button per entry, in order,
    labelled with the entry's label and the position's shortcut, placed at the
    position's cell, launching the entry's command.
   */
  predicate Shows(commands: seq<CommandEntry>, buttons: seq<Button>) {
    && |buttons| == |commands| <= |Shortcuts|
    && forall i :: 0 <= i < |buttons| ==>
         && buttons[i].title == commands[i].title
         && buttons[i].hint == Shortcuts[i]
         && buttons[i].cell == Placement(i)
         && buttons[i].onClick == Launch(commands[i].command)
  }

  /**
    `create_main_view`: builds the buttons one entry at a time. An entry past
    the shortcut table makes `shortcuts[index]` panic, which ends the build.
   */
  method CreateMainView(commands: seq<CommandEntry>) returns (view: MainView)
    ensures view.Built? <==> |commands| <= |Shortcuts|
    ensures view.Built? ==> Shows(commands, view.buttons)
    ensures view.Panicked? ==> view.index == view.length == |Shortcuts|
  {
    var buttons: seq<Button> := [];
    var index := 0;
    while index < |commands|
      invariant index <= |commands| && index <= |Shortcuts|
      invariant |buttons| == index
      invariant forall i :: 0 <= i < index ==>
                  && buttons[i].title == commands[i].title
                  && buttons[i].hint == Shortcuts[i]
                  && buttons[i].cell == Placement(i)
                  && buttons[i].onClick == Launch(commands[i].command)
    {
      if index >= |Shortcuts| {
        return Panicked(index, |Shortcuts|);
      }
      var entry := commands[index];
      var button := Button(entry.title, Shortcuts[index], Placement(index), Launch(entry.command));
      buttons := buttons + [button];
      index := index + 1;
    }
    view := Built(buttons);
  }

  /** Every shortcut is a distinct graphic Latin-1 character, hence a key of its own. */
  lemma ShortcutsAreDistinctKeys()
    ensures forall i :: 0 <= i < |Shortcuts| ==> Keys.IsLatin1Graphic(Shortcuts[i])
    ensures forall i, j :: 0 <= i < j < |Shortcuts| ==> Shortcuts[i] != Shortcuts[j]
  {
  }

  /** The eight entries of a full configuration fill two rows of four. */
  lemma PlacementFitsGrid(index: nat)
    requires index < RequiredCommands
    ensures Placement(index).row < 2 && Placement(index).column < 4
  {
  }

  /** No two positions share a cell. */
  lemma PlacementInjective(i: nat, j: nat)
    requires i != j
    ensures Placement(i) != Placement(j)
  {
  }

  /**
    In a main view no two buttons share a cell, a shortcut or the shortcut's key, and clicking
    button `i` spawns exactly entry `i`'s command, once, and then closes the window.
   */
  lemma ButtonsAreDistinctAndLaunch(commands: seq<CommandEntry>, buttons: seq<Button>, i: nat)
    requires Shows(commands, buttons)
    requires i < |buttons|
    ensures forall j :: 0 <= j < |buttons| && j != i ==> buttons[j].cell != buttons[i].cell && buttons[j].hint != buttons[i].hint
    ensures Keys.IsLatin1Graphic(buttons[i].hint)
    ensures forall j :: 0 <= j < |buttons| && j != i ==> Keys.IsLatin1Graphic(buttons[j].hint) && Keys.OfChar(buttons[j].hint) != Keys.OfChar(buttons[i].hint)
    ensures buttons[i].onClick == [Spawn(commands[i].command), CloseWindow]
  {
    ShortcutsAreDistinctKeys();
    forall j | 0 <= j < |buttons| && j != i
      ensures buttons[j].cell != buttons[i].cell && buttons[j].hint != buttons[i].hint
      ensures Keys.IsLatin1Graphic(buttons[j].hint) && Keys.OfChar(buttons[j].hint) != Keys.OfChar(buttons[i].hint)
    {
      PlacementInjective(i, j);
      Keys.OfCharInjective(buttons[j].hint, buttons[i].hint);
    }
  }
}

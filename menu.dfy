/**
 * The level-select menu (src/menu.rs): a cursor over a fixed list of
 * options, moved by Up and Down and confirmed by Enter. Key presses are
 * passed in as booleans.
 */
module Menu {
  import opened Options

  /** What confirming the menu asks for: a level to play (numbered from 1)
      or leaving the game. */
  datatype MenuChoice = Play(level: nat) | Exit

  /** The choice Enter makes with the cursor on `selected` of `count`
      options: the last option exits, every other one plays a level between 1
      and count - 1. */
  function ChoiceAt(selected: nat, count: nat): (r: MenuChoice)
    requires selected < count
    ensures r.Exit? <==> selected == count - 1
    ensures r.Play? ==> 1 <= r.level < count
  {
    if selected == count - 1 then Exit else Play(selected + 1)
  }

  /** Every position has its own choice: the level number names the position
      back. */
  lemma ChoiceAtOneToOne(i: nat, j: nat, count: nat)
    requires i < count && j < count
    ensures ChoiceAt(i, count) == ChoiceAt(j, count) <==> i == j
    ensures ChoiceAt(i, count).Play? ==> ChoiceAt(i, count).level - 1 == i
  {
  }

  /** The cursor after one frame's Up and Down: Up moves it one place
      towards the top unless it is there already, then Down one place towards
      the bottom unless it is there already. It stays on an option and moves
      by at most one place. */
  function CursorAfter(selected: nat, count: nat, upPressed: bool, downPressed: bool): (r: nat)
    requires selected < count
    ensures r < count
    ensures selected - 1 <= r <= selected + 1
  {
    var afterUp := if upPressed && selected > 0 then selected - 1 else selected;
    if downPressed && afterUp < count - 1 then afterUp + 1 else afterUp
  }

  /** The cursor moves only when a key is pressed, Up stops at the top, Down
      stops at the bottom, and Up and Down together cancel out except at the
      top edge. */
  lemma CursorKeys(selected: nat, count: nat, upPressed: bool, downPressed: bool)
    requires selected < count
    ensures var s := CursorAfter(selected, count, upPressed, downPressed);
            && (!upPressed && !downPressed ==> s == selected)
            && (upPressed && !downPressed ==> s == if selected == 0 then 0 else selected - 1)
            && (!upPressed && downPressed ==> s == if selected == count - 1 then selected else selected + 1)
            && (upPressed && downPressed && 0 < selected ==> s == selected)
  {
  }

  /** The menu with its cursor. The options never change. */
  class Menu {
    var selected: nat
    const options: seq<string>

    /** The cursor points at one of the options. */
    predicate Valid()
      reads this
    {
      0 < |options| && selected < |options|
    }

    /** `Menu::new`: the cursor on the first of the three options. */
    constructor ()
      ensures Valid()
      ensures selected == 0 && options == ["Level 1", "Level 2", "Exit"]
    {
      selected := 0;
      options := ["Level 1", "Level 2", "Exit"];
    }

    /** `Menu::update`: move the cursor, then, if Enter was pressed, report the
      choice under the cursor's new position. */
    method Update(upPressed: bool, downPressed: bool, enterPressed: bool) returns (choice: Option<MenuChoice>)
      requires Valid()
      modifies this
      ensures Valid()
      ensures selected == CursorAfter(old(selected), |options|, upPressed, downPressed)
      ensures choice == if enterPressed then Some(ChoiceAt(selected, |options|)) else None
    {
      if upPressed && selected > 0 {
        selected := selected - 1;
      }
      if downPressed && selected < |options| - 1 {
        selected := selected + 1;
      }
      if enterPressed {
        if selected == |options| - 1 {
          return Some(Exit);
        }
        return Some(Play(selected + 1));
      }
      return None;
    }
  }
}

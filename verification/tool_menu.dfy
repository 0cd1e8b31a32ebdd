/** The interactive menu loop of the controller script
    `optimization_toolboxV3.21.py` (`run_interactive_cli`): the console
    input is a parameter and the chosen actions are returned as events. */
module ToolMenu {
  import opened Wrappers
  import opened Text

  /** What a menu entry runs. */
  datatype Action =
    | ShowSystemStatus
    | BackupDatabase
    | CleanupImportLogs(days: int)
    | SqlInteractive
    | ListTools(verbose: bool)
    | ToolInteractive

  /** Days of import logs the menu's cleanup keeps, as the `cleanup`
      sub-command's default also does. */
  const DefaultRetentionDays: int := 30

  /** The menu: each entry's key and action (none for "exit"); the
      descriptions it prints are left out. */
  const MenuItems: seq<(string, Option<Action>)> := [
    ("1", Some(ShowSystemStatus)),
    ("2", Some(BackupDatabase)),
    ("3", Some(CleanupImportLogs(DefaultRetentionDays))),
    ("4", Some(SqlInteractive)),
    ("5", Some(ListTools(true))),
    ("6", Some(ToolInteractive)),
    ("0", None)
  ]

  /** The action of the first entry whose key is `choice` and which has one. */
  function ActionOf(items: seq<(string, Option<Action>)>, choice: string): (r: Option<Action>)
    ensures r.Some? <==> exists i :: 0 <= i < |items| && items[i].0 == choice && items[i].1.Some?
    ensures r.Some? ==> exists i :: 0 <= i < |items| && items[i].0 == choice && items[i].1 == r
  {
    if |items| == 0 then None
    else if items[0].0 == choice && items[0].1.Some? then items[0].1
    else
      var r := ActionOf(items[1..], choice);
      assert forall i :: 0 <= i < |items| - 1 ==> items[1..][i] == items[i + 1];
      r
  }

  /** The menu read key by key. */
  function MenuAction(choice: string): Option<Action> {
    if choice == "1" then Some(ShowSystemStatus)
    else if choice == "2" then Some(BackupDatabase)
    else if choice == "3" then Some(CleanupImportLogs(DefaultRetentionDays))
    else if choice == "4" then Some(SqlInteractive)
    else if choice == "5" then Some(ListTools(true))
    else if choice == "6" then Some(ToolInteractive)
    else None
  }

  /** The `for ... else` over the menu: the first entry with key `choice`
      and an action runs it; when there is none the choice is invalid. */
  method Dispatch(choice: string) returns (action: Option<Action>)
    ensures action == ActionOf(MenuItems, choice)
    ensures action == MenuAction(choice)
  {
    MenuTable(choice);
    var i := 0;
    while i < |MenuItems|
      invariant 0 <= i <= |MenuItems|
      invariant ActionOf(MenuItems[i..], choice) == ActionOf(MenuItems, choice)
    {
      var (key, func) := MenuItems[i];
      if choice == key && func.Some? {
        return func;
      }
      assert MenuItems[i..][1..] == MenuItems[i + 1..];
      i := i + 1;
    }
    return None;
  }

  /** The keys that run something: "1" to "6"; every other choice, "0"
      included, runs nothing. */
  lemma MenuKeys(choice: string)
    ensures ActionOf(MenuItems, choice).Some? <==> choice in ["1", "2", "3", "4", "5", "6"]
  {
    var keys := ["1", "2", "3", "4", "5", "6"];
    assert forall i :: 0 <= i < 6 ==> MenuItems[i].0 == keys[i] && MenuItems[i].1.Some?;
    assert MenuItems[6].1.None?;
    if choice in keys {
      var i :| 0 <= i < 6 && keys[i] == choice;
      assert MenuItems[i].0 == choice;
    }
  }

  /** The entry with key `key` at position `at` runs its action. */
  lemma MenuEntry(key: string, at: nat)
    requires at < |MenuItems| && MenuItems[at].0 == key && MenuItems[at].1.Some?
    requires forall i :: 0 <= i < |MenuItems| && MenuItems[i].0 == key ==> i == at
    ensures ActionOf(MenuItems, key) == MenuItems[at].1
  {
    var i :| 0 <= i < |MenuItems| && MenuItems[i].0 == key && MenuItems[i].1 == ActionOf(MenuItems, key);
  }

  /** Looking the choice up in the menu list gives the entry of the same key. */
  lemma MenuTable(choice: string)
    ensures ActionOf(MenuItems, choice) == MenuAction(choice)
  {
    MenuKeys(choice);
    if choice in ["1", "2", "3", "4", "5", "6"] {
      var at := if choice == "1" then 0 else if choice == "2" then 1 else if choice == "3" then 2
                else if choice == "4" then 3 else if choice == "5" then 4 else 5;
      MenuEntry(choice, at);
    }
  }

  /** The cleanup entry keeps 30 days of logs; the listing entry is verbose. */
  lemma MenuActions()
    ensures ActionOf(MenuItems, "3") == Some(CleanupImportLogs(30))
    ensures ActionOf(MenuItems, "5") == Some(ListTools(true))
  {
    MenuEntry("3", 2);
    MenuEntry("5", 4);
  }

  /** Entries "4" and "6" read one more line: the SQL statement to execute
      (`_sql_interactive`) or, after listing the tools, the tool to run
      (`_tool_interactive`). */
  predicate Prompts(a: Action) {
    a == SqlInteractive || a == ToolInteractive
  }

  /** The entries that prompt are exactly "4" and "6". */
  lemma PromptingKeys(choice: string)
    ensures (ActionOf(MenuItems, choice).Some? && Prompts(ActionOf(MenuItems, choice).value))
        <==> choice == "4" || choice == "6"
  {
    MenuTable(choice);
  }

  /** The answer to an entry's own prompt: not asked; the stripped line
      typed, which is executed or run unless it is blank; or the input ended
      there, whose `EOFError` the loop catches like any error of an action. */
  datatype Prompt = NotAsked | Answer(text: string) | InputEnded

  /** One round of the loop after the choice is read. */
  datatype Event = Dispatched(action: Action, prompt: Prompt) | Invalid(choice: string)

  /** The lines typed, each stripped as `input(...).strip()` returns it. */
  function Stripped(inputs: seq<string>): (lines: seq<string>)
    ensures |lines| == |inputs| && forall j :: 0 <= j < |inputs| ==> lines[j] == Strip(inputs[j])
  {
    seq(|inputs|, j requires 0 <= j < |inputs| => Strip(inputs[j]))
  }

  /** How many lines after line `i` its round reads: the answer line of a
      prompting entry, when there is one. */
  function LinesRead(lines: seq<string>, i: nat): (n: nat)
    requires i < |lines|
    ensures n <= 1 && i + 1 + n <= |lines|
  {
    if MenuAction(lines[i]).Some? && Prompts(MenuAction(lines[i]).value) && i + 1 < |lines| then 1 else 0
  }

  /** The event of the round whose choice is line `i`. */
  function RoundEvent(lines: seq<string>, i: nat): Event
    requires i < |lines|
  {
    match MenuAction(lines[i])
    case None => Invalid(lines[i])
    case Some(a) =>
      if !Prompts(a) then Dispatched(a, NotAsked)
      else if i + 1 == |lines| then Dispatched(a, InputEnded)
      else Dispatched(a, Answer(lines[i + 1]))
  }

  /** The rounds of `run_interactive_cli` over the stripped lines from line
      `i` on, up to a "0" choice or the end of the lines. */
  function Rounds(lines: seq<string>, i: nat): (r: seq<Event>)
    requires i <= |lines|
    ensures |r| <= |lines| - i
    decreases |lines| - i
  {
    if i == |lines| || lines[i] == "0" then []
    else [RoundEvent(lines, i)] + Rounds(lines, i + 1 + LinesRead(lines, i))
  }

  /** The line at which the loop from line `i` on stops: a "0" choice, or
      the end of the lines, where the next `input()` of the menu raises
      `EOFError`. */
  function StopsAt(lines: seq<string>, i: nat): (e: nat)
    requires i <= |lines|
    ensures i <= e <= |lines|
    ensures e < |lines| ==> lines[e] == "0"
    decreases |lines| - i
  {
    if i == |lines| || lines[i] == "0" then i
    else StopsAt(lines, i + 1 + LinesRead(lines, i))
  }

  /** A choice other than "0" is followed by its round and the rounds after
      the lines that round read. */
  lemma RoundsStep(lines: seq<string>, i: nat, next: nat)
    requires i < |lines| && lines[i] != "0" && next == i + 1 + LinesRead(lines, i)
    ensures next <= |lines|
    ensures Rounds(lines, i) == [RoundEvent(lines, i)] + Rounds(lines, next)
    ensures StopsAt(lines, i) == StopsAt(lines, next)
  {
  }

  /** A "0" choice ends the rounds there. */
  lemma RoundsStop(lines: seq<string>, i: nat)
    requires i < |lines| && lines[i] == "0"
    ensures Rounds(lines, i) == [] && StopsAt(lines, i) == i
  {
  }

  /** The loop's invariant carried over one round. */
  lemma RoundsCarry(lines: seq<string>, events: seq<Event>, i: nat, next: nat)
    requires i < |lines| && lines[i] != "0" && next == i + 1 + LinesRead(lines, i)
    requires Rounds(lines, 0) == events + Rounds(lines, i) && StopsAt(lines, 0) == StopsAt(lines, i)
    ensures next <= |lines|
    ensures Rounds(lines, 0) == (events + [RoundEvent(lines, i)]) + Rounds(lines, next)
    ensures StopsAt(lines, 0) == StopsAt(lines, next)
  {
    RoundsStep(lines, i, next);
    var later := Rounds(lines, next);
    assert events + ([RoundEvent(lines, i)] + later) == (events + [RoundEvent(lines, i)]) + later;
  }

  /** The dispatched action run, reading its prompt's answer from the line
      after the choice when it has one. */
  method RunAction(inputs: seq<string>, i: nat, action: Option<Action>) returns (event: Event, used: nat)
    requires i < |inputs| && action == MenuAction(Strip(inputs[i]))
    ensures event == RoundEvent(Stripped(inputs), i) && used == LinesRead(Stripped(inputs), i)
  {
    event, used := Invalid(Strip(inputs[i])), 0;
    if action.Some? {
      if !Prompts(action.value) {
        event := Dispatched(action.value, NotAsked);
      } else if i + 1 < |inputs| {
        event, used := Dispatched(action.value, Answer(Strip(inputs[i + 1]))), 1;
      } else {
        event := Dispatched(action.value, InputEnded);
      }
    }
  }

  /** `run_interactive_cli` over the lines typed: each stripped choice is
      dispatched or reported invalid until one is "0", and entries "4" and
      "6" take the line after them as their answer. Errors inside an action
      are caught and the loop goes on. */
  method RunInteractiveCli(inputs: seq<string>) returns (events: seq<Event>, exited: bool)
    ensures events == Rounds(Stripped(inputs), 0)
    ensures exited <==> StopsAt(Stripped(inputs), 0) < |inputs|
  {
    ghost var lines := Stripped(inputs);
    events := [];
    var i := 0;
    while i < |inputs|
      invariant 0 <= i <= |inputs|
      invariant Rounds(lines, 0) == events + Rounds(lines, i)
      invariant StopsAt(lines, 0) == StopsAt(lines, i)
      decreases |inputs| - i
    {
      var choice := Strip(inputs[i]);
      if choice == "0" {
        RoundsStop(lines, i);
        return events, true;
      }
      var action := Dispatch(choice);
      var event, used := RunAction(inputs, i, action);
      var next := i + 1 + used;
      RoundsCarry(lines, events, i, next);
      events := events + [event];
      i := next;
    }
    return events, false;
  }

  /** With no line choosing "4" or "6", every line is a choice: the rounds
      answer the lines one for one until a "0", which ends the loop, and
      otherwise every line is answered. */
  lemma {:induction false} RoundsWithoutPrompts(lines: seq<string>, i: nat)
    requires i <= |lines|
    requires forall j :: i <= j < |lines| ==> lines[j] != "4" && lines[j] != "6"
    ensures i + |Rounds(lines, i)| <= |lines|
    ensures forall j :: i <= j < i + |Rounds(lines, i)| ==>
      lines[j] != "0" && Rounds(lines, i)[j - i] == RoundEvent(lines, j)
    ensures StopsAt(lines, i) == i + |Rounds(lines, i)|
    decreases |lines| - i
  {
    if i < |lines| && lines[i] == "0" {
      RoundsStop(lines, i);
    } else if i < |lines| {
      assert LinesRead(lines, i) == 0;
      RoundsStep(lines, i, i + 1);
      RoundsWithoutPrompts(lines, i + 1);
      var rest := Rounds(lines, i + 1);
      forall j | i + 1 <= j < i + |Rounds(lines, i)|
        ensures lines[j] != "0" && Rounds(lines, i)[j - i] == RoundEvent(lines, j)
      {
        assert Rounds(lines, i)[j - i] == rest[j - (i + 1)];
      }
    }
  }

  /** The line after "4" is the statement, never a menu choice: a "0"
      there is run as SQL and does not end the loop. */
  lemma SqlAnswerIsNotAChoice()
    ensures Rounds(["4", "select 1", "0"], 0) == [Dispatched(SqlInteractive, Answer("select 1"))]
    ensures StopsAt(["4", "select 1", "0"], 0) == 2
    ensures Rounds(["4", "0"], 0) == [Dispatched(SqlInteractive, Answer("0"))]
    ensures StopsAt(["4", "0"], 0) == 2
  {
    var a := ["4", "select 1", "0"];
    assert LinesRead(a, 0) == 1;
    RoundsStep(a, 0, 2);
    RoundsStop(a, 2);
    var b := ["4", "0"];
    assert LinesRead(b, 0) == 1;
    RoundsStep(b, 0, 2);
  }
}

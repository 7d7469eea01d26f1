/** The command palette of a room: a fixed table of commands, filtered by the
    typed query, shown grouped by category, and walked with the arrow keys. */
module CommandPalette {
  import opened JsText

  datatype Command = Command(id: string, caption: string, category: string, shortcut: Option<string>)

  /** The command table, in display order. */
  const Commands: seq<Command> := [
    Command("tool-select", "Select Tool", "Tools", Some("V")),
    Command("tool-pen", "Pen Tool", "Tools", Some("P")),
    Command("tool-eraser", "Eraser", "Tools", Some("E")),
    Command("tool-rect", "Rectangle", "Tools", Some("R")),
    Command("tool-circle", "Circle", "Tools", Some("C")),
    Command("tool-text", "Text", "Tools", Some("T")),
    Command("view-zoom-in", "Zoom In", "View", None),
    Command("view-zoom-out", "Zoom Out", "View", None),
    Command("view-zoom-fit", "Zoom to Fit", "View", Some("Shift+1")),
    Command("action-clear", "Clear Canvas", "Actions", None),
    Command("action-export", "Export as PNG", "Actions", None),
    Command("action-sidebar", "Toggle Sidebar", "Actions", None),
    Command("action-leave", "Leave Room", "Room", None)
  ]

  // ---------------------------------------------------------------------------
  // Filter

  /** The label or the category contains the query, ignoring case. */
  predicate Matches(cmd: Command, query: string) {
    Includes(ToLower(cmd.caption), ToLower(query)) || Includes(ToLower(cmd.category), ToLower(query))
  }

  /** `COMMANDS.filter(...)`: the matching commands in table order. */
  function Filter(cmds: seq<Command>, query: string): (r: seq<Command>)
    ensures |r| <= |cmds|
    ensures forall c {:trigger c in r} :: c in r <==> c in cmds && Matches(c, query)
  {
    if cmds == [] then []
    else (if Matches(cmds[0], query) then [cmds[0]] else []) + Filter(cmds[1..], query)
  }

  /** The palette keeps the table's order: filtering a concatenation filters each part. */
  lemma {:induction false} FilterAppend(a: seq<Command>, b: seq<Command>, query: string)
    ensures Filter(a + b, query) == Filter(a, query) + Filter(b, query)
  {
    if a != [] {
      FilterAppend(a[1..], b, query);
      assert (a + b)[0] == a[0] && (a + b)[1..] == a[1..] + b;
      var h := if !Matches(a[0], query) then [] else [a[0]];
      assert Filter(a + b, query) == h + (Filter(a[1..], query) + Filter(b, query));
      assert Filter(a, query) == h + Filter(a[1..], query);
    } else {
      assert a + b == b;
    }
  }

  /** The empty query matches every command. */
  lemma {:induction false} EmptyQueryKeepsAll(cmds: seq<Command>)
    ensures Filter(cmds, "") == cmds
  {
    if cmds != [] {
      assert IsPrefix("", ToLower(cmds[0].caption));
      EmptyQueryKeepsAll(cmds[1..]);
    }
  }

  // ---------------------------------------------------------------------------
  // Group and flatten

  datatype Group = Group(category: string, cmds: seq<Command>)

  /** The position of the group of a category, if there is one. */
  function GroupIndex(groups: seq<Group>, category: string): (r: Option<nat>)
    ensures r.Some? ==> r.value < |groups| && groups[r.value].category == category
    ensures r.None? <==> forall k :: 0 <= k < |groups| ==> groups[k].category != category
  {
    if groups == [] then None
    else if groups[|groups| - 1].category == category then Some(|groups| - 1)
    else GroupIndex(groups[..|groups| - 1], category)
  }

  /** One step of the reduce: push the command onto its category's group,
      opening the group at the end when the category is new. */
  function AddToGroup(groups: seq<Group>, cmd: Command): (r: seq<Group>)
  {
    match GroupIndex(groups, cmd.category)
    case None => groups + [Group(cmd.category, [cmd])]
    case Some(k) => groups[k := groups[k].(cmds := groups[k].cmds + [cmd])]
  }

  /** `reduce` over the commands: groups in order of first appearance. */
  function GroupByCategory(cmds: seq<Command>): (r: seq<Group>)
  {
    if cmds == [] then [] else AddToGroup(GroupByCategory(cmds[..|cmds| - 1]), cmds[|cmds| - 1])
  }

  /** `Object.values(groups).flat()`. */
  function Flatten(groups: seq<Group>): (r: seq<Command>)
  {
    if groups == [] then [] else Flatten(groups[..|groups| - 1]) + groups[|groups| - 1].cmds
  }

  /** The list the keyboard walks. */
  function Flat(table: seq<Command>, query: string): seq<Command> {
    Flatten(GroupByCategory(Filter(table, query)))
  }

  /** The position of a category in the table's order of categories. */
  function Rank(category: string): nat {
    if category == "Tools" then 0
    else if category == "View" then 1
    else if category == "Actions" then 2
    else if category == "Room" then 3
    else 4
  }

  predicate Known(cmd: Command) {
    cmd.category in {"Tools", "View", "Actions", "Room"}
  }

  /** Commands of known categories, each category in one run, runs in rank order. */
  ghost predicate RankSorted(cmds: seq<Command>) {
    && (forall c :: c in cmds ==> Known(c))
    && (forall i, j :: 0 <= i < j < |cmds| ==> Rank(cmds[i].category) <= Rank(cmds[j].category))
  }

  /** Neighbouring commands are in rank order. */
  ghost predicate AdjacentRanked(cmds: seq<Command>) {
    forall i :: 0 <= i < |cmds| - 1 ==> Rank(cmds[i].category) <= Rank(cmds[i + 1].category)
  }

  lemma RankSortedTail(cmds: seq<Command>)
    requires RankSorted(cmds) && cmds != []
    ensures RankSorted(cmds[1..])
  {
    var t := cmds[1..];
    forall i, j | 0 <= i < j < |t| ensures Rank(t[i].category) <= Rank(t[j].category) {
      assert t[i] == cmds[i + 1] && t[j] == cmds[j + 1];
    }
  }

  lemma RankSortedInit(cmds: seq<Command>)
    requires RankSorted(cmds) && cmds != []
    ensures RankSorted(cmds[..|cmds| - 1])
  {
    var t := cmds[..|cmds| - 1];
    forall i, j | 0 <= i < j < |t| ensures Rank(t[i].category) <= Rank(t[j].category) {
      assert t[i] == cmds[i] && t[j] == cmds[j];
    }
  }

  /** The first command ranks no later than any that follows it. */
  lemma RankSortedHead(cmds: seq<Command>)
    requires RankSorted(cmds) && cmds != []
    ensures forall c :: c in cmds[1..] ==> Rank(cmds[0].category) <= Rank(c.category)
  {
    forall c | c in cmds[1..] ensures Rank(cmds[0].category) <= Rank(c.category) {
      var j :| 0 <= j < |cmds[1..]| && cmds[1..][j] == c;
      assert cmds[j + 1] == c;
    }
  }

  /** A known command ranking no later than a sorted list may go in front of it. */
  lemma RankSortedCons(x: Command, rest: seq<Command>)
    requires Known(x) && RankSorted(rest)
    requires forall c :: c in rest ==> Rank(x.category) <= Rank(c.category)
    ensures RankSorted([x] + rest)
  {
    var r := [x] + rest;
    forall i, j | 0 <= i < j < |r| ensures Rank(r[i].category) <= Rank(r[j].category) {
      assert r[j] == rest[j - 1];
      if i > 0 {
        assert r[i] == rest[i - 1];
      }
    }
  }

  /** Known commands whose neighbours are in rank order are rank-sorted. */
  lemma {:induction false} AdjacentRankedIsSorted(cmds: seq<Command>)
    requires forall i :: 0 <= i < |cmds| ==> Known(cmds[i])
    requires AdjacentRanked(cmds)
    ensures RankSorted(cmds)
    decreases |cmds|
  {
    if cmds != [] {
      var rest := cmds[1..];
      forall i | 0 <= i < |rest| ensures Known(rest[i]) {
        assert rest[i] == cmds[i + 1];
      }
      forall i | 0 <= i < |rest| - 1 ensures Rank(rest[i].category) <= Rank(rest[i + 1].category) {
        assert rest[i] == cmds[i + 1] && rest[i + 1] == cmds[i + 2];
      }
      AdjacentRankedIsSorted(rest);
      if rest != [] {
        NoLaterThanHead(rest, cmds[0]);
      }
      assert [cmds[0]] + rest == cmds;
      RankSortedCons(cmds[0], rest);
    }
  }

  /** A command ranking no later than the head of a sorted list ranks no later
      than all of it. */
  lemma NoLaterThanHead(rest: seq<Command>, x: Command)
    requires RankSorted(rest) && rest != [] && Rank(x.category) <= Rank(rest[0].category)
    ensures forall c :: c in rest ==> Rank(x.category) <= Rank(c.category)
  {
    forall c | c in rest ensures Rank(x.category) <= Rank(c.category) {
      var j :| 0 <= j < |rest| && rest[j] == c;
      if j > 0 {
        assert Rank(rest[0].category) <= Rank(rest[j].category);
      }
    }
  }

  /** The table itself is sorted by category rank. */
  lemma CommandsRankSorted()
    ensures RankSorted(Commands)
  {
    AdjacentRankedIsSorted(Commands);
  }

  /** Filtering keeps the rank order. */
  lemma {:induction false} FilterKeepsRankSorted(cmds: seq<Command>, query: string)
    requires RankSorted(cmds)
    ensures RankSorted(Filter(cmds, query))
  {
    if cmds != [] {
      RankSortedTail(cmds);
      FilterKeepsRankSorted(cmds[1..], query);
      var rest := Filter(cmds[1..], query);
      if Matches(cmds[0], query) {
        RankSortedHead(cmds);
        RankSortedCons(cmds[0], rest);
      } else {
        assert [] + rest == rest;
      }
    }
  }

  /** Adding a command gives its category a group and keeps every other group. */
  lemma AddToGroupIndex(groups: seq<Group>, cmd: Command, cat: string)
    ensures AddToGroup(groups, cmd) != []
    ensures GroupIndex(AddToGroup(groups, cmd), cat).Some? <==> GroupIndex(groups, cat).Some? || cat == cmd.category
  {
    var r := AddToGroup(groups, cmd);
    match GroupIndex(groups, cmd.category)
    case None =>
      assert r == groups + [Group(cmd.category, [cmd])];
      assert forall k :: 0 <= k < |groups| ==> r[k] == groups[k];
      assert r[|groups|].category == cmd.category;
    case Some(k) =>
      assert |r| == |groups| && forall j :: 0 <= j < |r| ==> r[j].category == groups[j].category;
  }

  /** A category has a group exactly when some command has that category. */
  lemma {:induction false} GroupCategory(cmds: seq<Command>, cat: string)
    ensures GroupIndex(GroupByCategory(cmds), cat).Some? <==> exists c :: c in cmds && c.category == cat
    decreases |cmds|
  {
    if cmds != [] {
      var init := cmds[..|cmds| - 1];
      var c := cmds[|cmds| - 1];
      var g := GroupByCategory(init);
      GroupCategory(init, cat);
      AddToGroupIndex(g, c, cat);
      assert GroupByCategory(cmds) == AddToGroup(g, c);
      assert cmds == init + [c];
      if GroupIndex(AddToGroup(g, c), cat).Some? {
        if cat == c.category {
          assert c in cmds;
        } else {
          var x :| x in init && x.category == cat;
          assert x in cmds;
        }
      } else {
        forall x | x in cmds ensures x.category != cat {
          assert x in init || x == c;
        }
      }
    }
  }

  /** The group of every category in the commands, and of no other. */
  lemma GroupCategories(cmds: seq<Command>)
    ensures forall cat :: GroupIndex(GroupByCategory(cmds), cat).Some? <==> exists c :: c in cmds && c.category == cat
    ensures cmds != [] ==> GroupByCategory(cmds) != []
  {
    forall cat
      ensures GroupIndex(GroupByCategory(cmds), cat).Some? <==> exists c :: c in cmds && c.category == cat
    {
      GroupCategory(cmds, cat);
    }
    if cmds != [] {
      AddToGroupIndex(GroupByCategory(cmds[..|cmds| - 1]), cmds[|cmds| - 1], "");
    }
  }

  /** Pushing onto the last group, or opening a new one, appends to the flat list. */
  lemma FlattenPushLast(groups: seq<Group>, cmd: Command)
    requires groups != []
    ensures Flatten(groups[|groups| - 1 := groups[|groups| - 1].(cmds := groups[|groups| - 1].cmds + [cmd])])
      == Flatten(groups) + [cmd]
  {
    var n := |groups| - 1;
    var r := groups[n := groups[n].(cmds := groups[n].cmds + [cmd])];
    assert r[..n] == groups[..n];
  }

  lemma FlattenPushNew(groups: seq<Group>, cmd: Command)
    ensures Flatten(groups + [Group(cmd.category, [cmd])]) == Flatten(groups) + [cmd]
  {
    assert (groups + [Group(cmd.category, [cmd])])[..|groups|] == groups;
  }

  /** The last group built is the group of the last command's category. */
  lemma {:induction false} LastGroupIsLastCategory(cmds: seq<Command>)
    requires RankSorted(cmds) && cmds != []
    ensures GroupByCategory(cmds) != []
    ensures GroupByCategory(cmds)[|GroupByCategory(cmds)| - 1].category == cmds[|cmds| - 1].category
    decreases |cmds|, 1
  {
    var c := cmds[|cmds| - 1];
    var g := GroupByCategory(cmds[..|cmds| - 1]);
    AddToGroupIndex(g, c, c.category);
    LastCommandJoinsLastGroup(cmds);
    match GroupIndex(g, c.category)
    case None =>
    case Some(k) =>
      assert k == |g| - 1;
  }

  /** In a rank-sorted list the last command opens a new group or joins the
      last group, never an earlier one. */
  lemma {:induction false} LastCommandJoinsLastGroup(cmds: seq<Command>)
    requires RankSorted(cmds) && cmds != []
    ensures var g := GroupByCategory(cmds[..|cmds| - 1]);
      GroupIndex(g, cmds[|cmds| - 1].category).None? || GroupIndex(g, cmds[|cmds| - 1].category) == Some(|g| - 1)
    decreases |cmds|, 0
  {
    var init := cmds[..|cmds| - 1];
    var c := cmds[|cmds| - 1];
    var g := GroupByCategory(init);
    if GroupIndex(g, c.category).Some? {
      assert init != [];
      RankSortedInit(cmds);
      LastGroupIsLastCategory(init);
      GroupCategory(init, c.category);
      SameRankSameCategory(cmds, init, c);
    }
  }

  /** Two known categories of the same rank are the same category. */
  lemma RankDetermines(a: Command, b: Command)
    requires Known(a) && Known(b) && Rank(a.category) == Rank(b.category)
    ensures a.category == b.category
  {
  }

  /** In a rank-sorted list, a category that already appeared before the last
      command is the category of the command just before it. */
  lemma SameRankSameCategory(cmds: seq<Command>, init: seq<Command>, c: Command)
    requires RankSorted(cmds) && cmds != [] && init == cmds[..|cmds| - 1] && c == cmds[|cmds| - 1] && init != []
    ensures (exists x :: x in init && x.category == c.category) ==> init[|init| - 1].category == c.category
  {
    if exists x :: x in init && x.category == c.category {
      var x :| x in init && x.category == c.category;
      var i :| 0 <= i < |init| && init[i] == x;
      var last := init[|init| - 1];
      assert cmds[i] == x && cmds[|init| - 1] == last;
      assert Rank(x.category) <= Rank(last.category) <= Rank(c.category);
      RankDetermines(last, c);
    }
  }

  /** Grouping then flattening a rank-sorted list gives back the list. */
  lemma {:induction false} FlattenGroupIdentity(cmds: seq<Command>)
    requires RankSorted(cmds)
    ensures Flatten(GroupByCategory(cmds)) == cmds
  {
    if cmds != [] {
      var init := cmds[..|cmds| - 1];
      var c := cmds[|cmds| - 1];
      RankSortedInit(cmds);
      FlattenGroupIdentity(init);
      var g := GroupByCategory(init);
      LastCommandJoinsLastGroup(cmds);
      FlattenLastStep(g, c);
      assert init + [c] == cmds;
    }
  }

  /** Adding a command that opens a new group or joins the last one appends it
      to the flat list. */
  lemma FlattenLastStep(g: seq<Group>, c: Command)
    requires GroupIndex(g, c.category).None? || GroupIndex(g, c.category) == Some(|g| - 1)
    ensures Flatten(AddToGroup(g, c)) == Flatten(g) + [c]
  {
    if GroupIndex(g, c.category).None? {
      FlattenPushNew(g, c);
    } else {
      FlattenPushLast(g, c);
    }
  }

  /** The list the keyboard walks is the filtered table in table order: every
      matching command, and only those, each once. */
  lemma FlatIsFilter(query: string)
    ensures Flat(Commands, query) == Filter(Commands, query)
    ensures forall c :: c in Flat(Commands, query) <==> c in Commands && Matches(c, query)
  {
    CommandsRankSorted();
    FilterKeepsRankSorted(Commands, query);
    FlattenGroupIdentity(Filter(Commands, query));
  }

  /** With nothing typed the palette lists the whole table. */
  lemma FlatEmptyQuery()
    ensures Flat(Commands, "") == Commands
  {
    FlatIsFilter("");
    EmptyQueryKeepsAll(Commands);
  }

  // ---------------------------------------------------------------------------
  // Keyboard navigation

  /** The remainder of a non-negative number below twice the divisor. */
  lemma RemBelowTwice(a: int, n: int)
    requires n > 0 && 0 <= a < 2 * n
    ensures JsRem(a, n) == if a < n then a else a - n
  {
    if a < n {
      assert a % n == a;
    } else {
      assert (a - n) % n == a - n;
      assert a % n == (a - n) % n;
    }
  }

  /** ArrowDown: `(prev + 1) % n`. */
  function NextIndex(i: nat, n: nat): (r: nat)
    requires i < n
    ensures r == if i + 1 < n then i + 1 else 0
  {
    RemBelowTwice(i + 1, n);
    JsRem(i + 1, n)
  }

  /** ArrowUp: `(prev - 1 + n) % n`. */
  function PrevIndex(i: nat, n: nat): (r: nat)
    requires i < n
    ensures r == if i > 0 then i - 1 else n - 1
  {
    RemBelowTwice(i - 1 + n, n);
    JsRem(i - 1 + n, n)
  }

  /** Within the list the two arrows undo each other, and each wraps at the ends. */
  lemma ArrowsUndoEachOther(i: nat, n: nat)
    requires i < n
    ensures PrevIndex(NextIndex(i, n), n) == i
    ensures NextIndex(PrevIndex(i, n), n) == i
    ensures NextIndex(n - 1, n) == 0 && PrevIndex(0, n) == n - 1
  {
  }

  /** The selection is a row of the list whenever the list has rows. */
  predicate Selectable(selected: Option<nat>, n: nat) {
    n > 0 ==> selected.Some? && selected.value < n
  }

  datatype Key = ArrowDown | ArrowUp | Enter | Escape | OtherKey

  class Palette {
    /** The command table the palette lists. */
    const table: seq<Command>
    var isOpen: bool
    var query: string
    /** `selectedIndex`; `None` is NaN, which an arrow over an empty list yields. */
    var selectedIndex: Option<nat>
    /** The ids passed to `onExecute`, in order. */
    var executed: seq<string>

    /** While the palette is open and lists anything, the selection is one of
        the listed commands. */
    ghost predicate Valid()
      reads this
    {
      isOpen ==> Selectable(selectedIndex, |Flat(table, query)|)
    }

    constructor ()
      ensures Valid() && table == Commands
      ensures !isOpen && query == "" && selectedIndex == Some(0) && executed == []
    {
      table := Commands;
      isOpen := false;
      query := "";
      selectedIndex := Some(0);
      executed := [];

    }

    /** Opening clears the query and selects the first command. */
    method Open()
      modifies this`isOpen, this`query, this`selectedIndex
      ensures Valid() && isOpen && query == "" && selectedIndex == Some(0)
    {
      isOpen := true;
      query := "";
      selectedIndex := Some(0);
    }

    /** Typing replaces the query and resets the selection to the first match. */
    method Type(q: string)
      modifies this`query, this`selectedIndex
      ensures Valid() && query == q && selectedIndex == Some(0)
    {
      query := q;
      selectedIndex := Some(0);
    }

    /** Hovering a row selects it. */
    method Hover(index: nat)
      requires index < |Flat(table, query)|
      modifies this`selectedIndex
      ensures Valid() && selectedIndex == Some(index)
    {
      selectedIndex := Some(index);
    }

    /** Clicking a row executes its command and closes the palette. */
    method Click(cmd: Command)
      requires cmd in Flat(table, query)
      modifies this`executed, this`isOpen
      ensures executed == old(executed) + [cmd.id] && !isOpen
    {
      executed := executed + [cmd.id];
      isOpen := false;
    }

    /** The window key handler, attached only while the palette is open. */
    method KeyDown(key: Key)
      requires Valid()
      modifies this`selectedIndex, this`executed, this`isOpen
      ensures Valid()
      ensures !old(isOpen) ==> selectedIndex == old(selectedIndex) && executed == old(executed) && isOpen == old(isOpen)
      ensures old(isOpen) && key == ArrowDown ==>
        executed == old(executed) && isOpen &&
        selectedIndex == (if old(selectedIndex).None? || |Flat(table, query)| == 0 then None
                          else Some(NextIndex(old(selectedIndex).value, |Flat(table, query)|)))
      ensures old(isOpen) && key == ArrowUp ==>
        executed == old(executed) && isOpen &&
        selectedIndex == (if old(selectedIndex).None? || |Flat(table, query)| == 0 then None
                          else Some(PrevIndex(old(selectedIndex).value, |Flat(table, query)|)))
      ensures old(isOpen) && key == Enter ==>
        && selectedIndex == old(selectedIndex)
        && (if old(selectedIndex).Some? && old(selectedIndex).value < |Flat(table, query)|
            then executed == old(executed) + [Flat(table, query)[old(selectedIndex).value].id] && !isOpen
            else executed == old(executed) && isOpen)
      ensures old(isOpen) && key == Escape ==> selectedIndex == old(selectedIndex) && executed == old(executed) && !isOpen
      ensures old(isOpen) && key == OtherKey ==> selectedIndex == old(selectedIndex) && executed == old(executed) && isOpen
    {
      if !isOpen {
        return;
      }
      var flat := Flat(table, query);
      var n := |flat|;
      match key
      case ArrowDown =>
        selectedIndex := if selectedIndex.None? || n == 0 then None else Some(NextIndex(selectedIndex.value, n));
      case ArrowUp =>
        selectedIndex := if selectedIndex.None? || n == 0 then None else Some(PrevIndex(selectedIndex.value, n));
      case Enter =>
        if selectedIndex.Some? && selectedIndex.value < n {
          executed := executed + [flat[selectedIndex.value].id];
          isOpen := false;
        }
      case Escape =>
        isOpen := false;
      case OtherKey =>
    }
  }
}

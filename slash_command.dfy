/**
 * The slash-command menu: filtering the command list by the typed term,
 * grouping it by category in a fixed order, flattening it for keyboard
 * navigation, and the cyclic selection index.
 */
module SlashCommand {
  import opened JsString

  datatype Category = Basic | List | Media | Advanced

  /** A menu entry; its action is an opaque callback and is not part of the value. */
  datatype Command = Command(
    id: string,
    labelText: string,  // `label`, a reserved word here
    description: string,
    keywords: seq<string>,
    category: Category)

  // ---------------------------------------------------------------------------
  // Filtering

  /** Some keyword, lowercased, contains the term. */
  predicate KeywordMatches(keywords: seq<string>, term: string) {
    exists k :: 0 <= k < |keywords| && Includes(ToLower(keywords[k]), term)
  }

  /** The label, the description or a keyword, lowercased, contains the (already lowered) term. */
  predicate Matches(c: Command, term: string) {
    Includes(ToLower(c.labelText), term) || Includes(ToLower(c.description), term)
      || KeywordMatches(c.keywords, term)
  }

  /** `commands.filter(...)` for a prepared term. */
  function FilterMatching(commands: seq<Command>, term: string): seq<Command> {
    if commands == [] then []
    else
      var init := FilterMatching(commands[..|commands| - 1], term);
      var last := commands[|commands| - 1];
      if Matches(last, term) then init + [last] else init
  }

  /** `filteredCommands`: all commands for a blank term, else those matching the lowered, trimmed term. */
  function FilterCommands(commands: seq<Command>, searchTerm: string): seq<Command> {
    if Trim(searchTerm) == "" then commands
    else FilterMatching(commands, Trim(ToLower(searchTerm)))
  }

  /** `xs` is `ys` with some elements left out, the rest in the same order. */
  predicate IsSubsequence<T(==)>(xs: seq<T>, ys: seq<T>) {
    if ys == [] then xs == []
    else
      || (xs != [] && xs[|xs| - 1] == ys[|ys| - 1] && IsSubsequence(xs[..|xs| - 1], ys[..|ys| - 1]))
      || IsSubsequence(xs, ys[..|ys| - 1])
  }

  lemma {:induction false} SubsequenceOfSelf<T>(ys: seq<T>)
    ensures IsSubsequence(ys, ys)
  {
    if ys != [] {
      SubsequenceOfSelf(ys[..|ys| - 1]);
    }
  }

  /** A blank term leaves the list as it is. */
  lemma FilterBlankIsIdentity(commands: seq<Command>, searchTerm: string)
    requires AllWhiteSpace(searchTerm)
    ensures FilterCommands(commands, searchTerm) == commands
  {
    TrimEmptyIff(searchTerm);
  }

  lemma {:induction false} FilterMatchingSubsequence(commands: seq<Command>, term: string)
    ensures IsSubsequence(FilterMatching(commands, term), commands)
  {
    if commands != [] {
      var init := commands[..|commands| - 1];
      FilterMatchingSubsequence(init, term);
      var f := FilterMatching(init, term);
      assert (f + [commands[|commands| - 1]])[..|f|] == f;
    }
  }

  /** A command is kept exactly when it is in the list and matches. */
  lemma {:induction false} FilterMatchingMembers(commands: seq<Command>, term: string, c: Command)
    ensures c in FilterMatching(commands, term) <==> c in commands && Matches(c, term)
  {
    if commands != [] {
      var init := commands[..|commands| - 1];
      FilterMatchingMembers(init, term, c);
      assert commands == init + [commands[|commands| - 1]];
    }
  }

  /**
   * The filtered list keeps the original order, and a command is in it
   * exactly when it matches the lowered, trimmed term (or the term is blank).
   */
  lemma FilterCommandsSpec(commands: seq<Command>, searchTerm: string, c: Command)
    ensures IsSubsequence(FilterCommands(commands, searchTerm), commands)
    ensures !AllWhiteSpace(searchTerm) ==>
      (c in FilterCommands(commands, searchTerm) <==> c in commands && Matches(c, Trim(ToLower(searchTerm))))
  {
    TrimEmptyIff(searchTerm);
    if Trim(searchTerm) == "" {
      SubsequenceOfSelf(commands);
    } else {
      FilterMatchingSubsequence(commands, Trim(ToLower(searchTerm)));
      FilterMatchingMembers(commands, Trim(ToLower(searchTerm)), c);
    }
  }

  // ---------------------------------------------------------------------------
  // Grouping and flattening

  /** The four groups, in the order `Object.values` lists them. */
  datatype Groups = Groups(basic: seq<Command>, list: seq<Command>, media: seq<Command>, advanced: seq<Command>) {
    function Get(cat: Category): seq<Command> {
      match cat
      case Basic => basic
      case List => list
      case Media => media
      case Advanced => advanced
    }

    /** `groups[command.category].push(command)`. */
    function Push(c: Command): (g: Groups)
      ensures g.Get(c.category) == Get(c.category) + [c]
      ensures forall cat :: cat != c.category ==> g.Get(cat) == Get(cat)
    {
      match c.category
      case Basic => this.(basic := basic + [c])
      case List => this.(list := list + [c])
      case Media => this.(media := media + [c])
      case Advanced => this.(advanced := advanced + [c])
    }

    /** `Object.values(groupedCommands).flat()`. */
    function Flat(): seq<Command> { basic + list + media + advanced }
  }

  /** The commands of one category, in list order. */
  function InCategory(commands: seq<Command>, cat: Category): seq<Command> {
    if commands == [] then []
    else
      var init := InCategory(commands[..|commands| - 1], cat);
      var last := commands[|commands| - 1];
      if last.category == cat then init + [last] else init
  }

  function GroupsOf(commands: seq<Command>): Groups {
    Groups(InCategory(commands, Basic), InCategory(commands, List),
           InCategory(commands, Media), InCategory(commands, Advanced))
  }

  /** `groupedCommands`: start from four empty groups and push each command into its category's group. */
  method GroupCommands(filtered: seq<Command>) returns (groups: Groups)
    ensures groups == GroupsOf(filtered)
    ensures forall cat :: groups.Get(cat) == InCategory(filtered, cat)
  {
    groups := Groups([], [], [], []);
    var i := 0;
    while i < |filtered|
      invariant 0 <= i <= |filtered|
      invariant groups == GroupsOf(filtered[..i])
    {
      assert filtered[..i + 1][..i] == filtered[..i];
      groups := groups.Push(filtered[i]);
      i := i + 1;
    }
    assert filtered[..i] == filtered;
  }

  /** A command lands in the group of its own category and in no other. */
  lemma {:induction false} InCategoryMembers(commands: seq<Command>, cat: Category, c: Command)
    ensures c in InCategory(commands, cat) <==> c in commands && c.category == cat
  {
    if commands != [] {
      InCategoryMembers(commands[..|commands| - 1], cat, c);
      assert commands == commands[..|commands| - 1] + [commands[|commands| - 1]];
    }
  }

  /** The flat list holds the filtered commands, each as often as before: a reordering by category. */
  lemma {:induction false} FlatIsPermutation(commands: seq<Command>)
    ensures multiset(GroupsOf(commands).Flat()) == multiset(commands)
    ensures |GroupsOf(commands).Flat()| == |commands|
  {
    if commands != [] {
      var init := commands[..|commands| - 1];
      FlatIsPermutation(init);
      assert commands == init + [commands[|commands| - 1]];
    }
  }

  // ---------------------------------------------------------------------------
  // Keyboard navigation

  /** ArrowDown: `prev < len - 1 ? prev + 1 : 0`. */
  function NextIndex(i: int, len: nat): (r: int)
    ensures len > 0 && -1 <= i ==> 0 <= r < len
  {
    if i < len - 1 then i + 1 else 0
  }

  /** ArrowUp: `prev > 0 ? prev - 1 : len - 1`. */
  function PrevIndex(i: int, len: nat): (r: int)
    ensures len > 0 && i <= len ==> 0 <= r < len
  {
    if i > 0 then i - 1 else len - 1
  }

  /** On an index in range, ArrowDown and ArrowUp undo each other. */
  lemma NextPrevInverse(i: int, len: nat)
    requires 0 <= i < len
    ensures PrevIndex(NextIndex(i, len), len) == i
    ensures NextIndex(PrevIndex(i, len), len) == i
  {
  }

  /** ArrowDown pressed `k` times. */
  function NextTimes(i: int, len: nat, k: nat): int {
    if k == 0 then i else NextIndex(NextTimes(i, len, k - 1), len)
  }

  lemma {:induction false} NextTimesAdd(i: int, len: nat, a: nat, b: nat)
    ensures NextTimes(i, len, a + b) == NextTimes(NextTimes(i, len, a), len, b)
  {
    if b > 0 {
      NextTimesAdd(i, len, a, b - 1);
    }
  }

  /** Before the end of the list, `k` presses move `k` places. */
  lemma {:induction false} NextTimesAdvance(i: int, len: nat, k: nat)
    requires 0 <= i && i + k < len
    ensures NextTimes(i, len, k) == i + k
  {
    if k > 0 {
      NextTimesAdvance(i, len, k - 1);
    }
  }

  /** Pressing ArrowDown as many times as there are entries comes back to the start. */
  lemma NextCycle(i: int, len: nat)
    requires 0 <= i < len
    ensures NextTimes(i, len, len) == i
  {
    NextTimesAdvance(i, len, len - i - 1);
    assert NextTimes(i, len, len - i) == 0;
    NextTimesAdd(i, len, len - i, i);
    if i > 0 {
      NextTimesAdvance(0, len, i);
    }
  }

  /** With an empty list, ArrowUp from the start leaves the index at -1, where Enter does nothing. */
  lemma EmptyListArrowUp()
    ensures PrevIndex(0, 0) == -1 && NextIndex(-1, 0) == 0
  {
  }

  datatype Key = ArrowDown | ArrowUp | Enter | Escape | OtherKey

  /** The callbacks the menu makes, in order. */
  datatype Effect = OnSelect(c: Command) | RunAction(c: Command) | OnClose

  /** `handleCommandSelect`: report the selection, run the command, then close. */
  function SelectEffects(c: Command): seq<Effect> {
    [OnSelect(c), RunAction(c), OnClose]
  }

  /** `flatCommands`: the list the keys move over, the filtered commands grouped and flattened. */
  function FlatCommands(commands: seq<Command>, searchTerm: string): seq<Command> {
    GroupsOf(FilterCommands(commands, searchTerm)).Flat()
  }

  /** Enter on the menu: `handleCommandSelect` of the highlighted entry when the index names one, else nothing. */
  function EnterEffects(flat: seq<Command>, index: int): (r: seq<Effect>)
    ensures r == [] <==> !(0 <= index < |flat|)
  {
    if 0 <= index < |flat| then SelectEffects(flat[index]) else []
  }

  /**
   * Enter picks the highlighted entry: the command reported is the command
   * run, it is one of the commands the search term lets through, and the
   * menu closes after it.
   */
  lemma EnterSelectsMatchingCommand(commands: seq<Command>, searchTerm: string, index: int)
    requires 0 <= index < |FlatCommands(commands, searchTerm)|
    ensures var e := EnterEffects(FlatCommands(commands, searchTerm), index);
      && |e| == 3 && e[0].OnSelect? && e[1] == RunAction(e[0].c) && e[2] == OnClose
      && e[0].c in FilterCommands(commands, searchTerm)
      && (!AllWhiteSpace(searchTerm) ==> e[0].c in commands && Matches(e[0].c, Trim(ToLower(searchTerm))))
  {
    var flat := FlatCommands(commands, searchTerm);
    FlatIsPermutation(FilterCommands(commands, searchTerm));
    assert flat[index] in multiset(flat);
    FilterCommandsSpec(commands, searchTerm, flat[index]);
  }

  /** The menu component's own state: the search box and the highlighted index. */
  class SlashMenu {
    const commands: seq<Command>
    var searchTerm: string
    var selectedIndex: int

    constructor (commands: seq<Command>)
      ensures this.commands == commands && searchTerm == "" && selectedIndex == 0
    {
      this.commands := commands;
      searchTerm, selectedIndex := "", 0;
    }

    /** Typing in the search box changes the term; the index is not reset. */
    method SetSearchTerm(term: string)
      modifies this
      ensures searchTerm == term && selectedIndex == old(selectedIndex)
    {
      searchTerm := term;
    }

    /**
     * The document keydown handler: nothing while hidden; the arrows move the
     * index cyclically over the flat list; Enter selects the highlighted
     * command when the index names one; Escape closes. `flat` is the
     * memoised `flatCommands` of the current render, that is,
     * `FlatCommands(commands, searchTerm)`.
     */
    method KeyDown(visible: bool, key: Key, flat: seq<Command>) returns (effects: seq<Effect>)
      requires flat == FlatCommands(commands, searchTerm)
      modifies this
      ensures searchTerm == old(searchTerm)
      ensures !visible ==> effects == [] && selectedIndex == old(selectedIndex)
      ensures visible && key == ArrowDown ==> effects == [] && selectedIndex == NextIndex(old(selectedIndex), |flat|)
      ensures visible && key == ArrowUp ==> effects == [] && selectedIndex == PrevIndex(old(selectedIndex), |flat|)
      ensures visible && key == Enter ==> selectedIndex == old(selectedIndex)
      ensures visible && key == Enter ==> effects == EnterEffects(flat, selectedIndex)
      ensures visible && key == Escape ==> effects == [OnClose] && selectedIndex == old(selectedIndex)
      ensures visible && key == OtherKey ==> effects == [] && selectedIndex == old(selectedIndex)
    {
      effects := [];
      if !visible {
        return;
      }
      match key
      case ArrowDown =>
        selectedIndex := if selectedIndex < |flat| - 1 then selectedIndex + 1 else 0;
      case ArrowUp =>
        selectedIndex := if selectedIndex > 0 then selectedIndex - 1 else |flat| - 1;
      case Enter =>
        effects := EnterEffects(flat, selectedIndex);
      case Escape =>
        effects := [OnClose];
      case OtherKey =>
    }
  }
}

// The chat's input box: which slash commands it suggests for the text typed
// so far, how the arrow keys move through the suggestions, and what Tab,
// Escape and Enter do.
//
// The input's value and the selected suggestion are component state; a
// change of value is the parent's `onChange` followed by the component's
// re-render, after which the selection is reset when the number of
// suggestions changed. `onSend` is recorded as a count of sends.

module ChatInput {
  import opened Text
  import opened ChatCommands

  // ---------------------------------------------------------------------------
  // Suggestions

  /** A command is offered for a partial name when its name or one of its
      aliases starts with it. */
  predicate Offers(cmd: Command, partial: string) {
    StartsWith(cmd.name, partial) || exists a :: a in cmd.aliases && StartsWith(a, partial)
  }

  /** `filter`: the commands offered for `partial`, in registry order. */
  function Filter(reg: seq<Command>, partial: string): (r: seq<Command>)
    ensures |r| <= |reg|
    ensures forall c :: c in r <==> c in reg && Offers(c, partial)
  {
    if reg == [] then []
    else
      var rest := Filter(reg[1..], partial);
      assert forall c :: c in reg <==> c == reg[0] || c in reg[1..];
      if Offers(reg[0], partial) then [reg[0]] + rest else rest
  }

  /** Filtering keeps registry order: the commands offered from a
      concatenation are those offered from the first part followed by those
      offered from the second. */
  lemma {:induction false} FilterAppend(a: seq<Command>, b: seq<Command>, partial: string)
    ensures Filter(a + b, partial) == Filter(a, partial) + Filter(b, partial)
  {
    if a == [] {
      assert a + b == b;
    } else {
      var c, t := a[0], a[1..];
      FilterAppend(t, b, partial);
      assert a == [c] + t;
      AppendAssoc([c], t, b);
      FilterCons(c, t, partial);
      FilterCons(c, t + b, partial);
      if Offers(c, partial) {
        AppendAssoc([c], Filter(t, partial), Filter(b, partial));
      }
    }
  }

  lemma FilterCons(c: Command, t: seq<Command>, partial: string)
    ensures Filter([c] + t, partial) == if Offers(c, partial) then [c] + Filter(t, partial) else Filter(t, partial)
  {
    assert ([c] + t)[0] == c && ([c] + t)[1..] == t;
  }

  /** Whether the typed text asks for suggestions at all: after trimming it
      starts with `/` and holds no space. */
  predicate Completing(value: string) {
    var t := Trim(value);
    StartsWith(t, "/") && ' ' !in t
  }

  /** The text after the slash, lower-cased. */
  function Partial(value: string): string
    requires Completing(value)
  {
    Lower(Trim(value)[1..])
  }

  /** The suggestions for the typed text, drawn from `reg` (the chat's
      command registry). */
  function Suggestions(reg: seq<Command>, value: string): seq<Command> {
    if Completing(value) then Filter(reg, Partial(value)) else []
  }

  /** The suggestions are the registry commands offered for the partial
      name, and there are none unless the text is a slash and a word. */
  lemma SuggestionsAre(reg: seq<Command>, value: string)
    ensures !Completing(value) ==> Suggestions(reg, value) == []
    ensures forall c :: c in Suggestions(reg, value) <==>
      Completing(value) && c in reg && Offers(c, Partial(value))
  {
  }

  /** The suggestions keep the registry's order: those drawn from two
      parts of a registry are those of the first part, then those of the
      second. */
  lemma SuggestionsInOrder(a: seq<Command>, b: seq<Command>, value: string)
    ensures Suggestions(a + b, value) == Suggestions(a, value) + Suggestions(b, value)
  {
    if Completing(value) {
      FilterAppend(a, b, Partial(value));
    }
  }

  /** Every command offers itself for the empty partial name. */
  lemma {:induction false} FilterEmpty(reg: seq<Command>)
    ensures Filter(reg, "") == reg
  {
    if reg != [] {
      FilterEmpty(reg[1..]);
      assert StartsWith(reg[0].name, "");
      assert [reg[0]] + reg[1..] == reg;
    }
  }

  /** A bare slash suggests every command, in registry order. */
  lemma BareSlashSuggestsAll(reg: seq<Command>)
    ensures Suggestions(reg, "/") == reg
  {
    SlashCompleting();
    FilterEmpty(reg);
  }

  lemma SlashCompleting()
    ensures Completing("/") && Partial("/") == ""
  {
    var slash := "/";
    assert !IsJsSpace(slash[0]);
    assert IsTrimmed(slash);
    TrimOfTrimmed(slash);
    assert StartsWith(slash, "/") && ' ' !in slash;
    assert slash[1..] == "";
  }

  /** A name that is lower-case, holds no space and is not padded. */
  predicate PlainName(name: string) {
    IsLowerCase(name) && ' ' !in name && IsTrimmed(name)
  }

  lemma RegistryNamesPlain()
    ensures forall k :: 0 <= k < |Registry| ==> PlainName(Registry[k].name)
  {
    PlainNames();
    assert Registry[0].name == "help" && Registry[1].name == "status";
    assert Registry[2].name == "clear" && Registry[3].name == "new";
    assert Registry[4].name == "summarize";
  }

  lemma PlainNames()
    ensures PlainName("help") && PlainName("status") && PlainName("clear")
    ensures PlainName("new") && PlainName("summarize")
  {
  }

  /** The text a completion writes: the command after a slash, then a
      space. Trimming drops that space again, so the completed command is
      still suggested. */
  function Completion(name: string): string {
    "/" + name + " "
  }

  lemma CompletionSuggestsItself(reg: seq<Command>, cmd: Command)
    requires cmd in reg && PlainName(cmd.name)
    ensures cmd in Suggestions(reg, Completion(cmd.name))
  {
    CompletionPartial(cmd.name);
    assert StartsWith(cmd.name, cmd.name);
  }

  /** Completing a plain name leaves that name as the partial name. */
  lemma CompletionPartial(name: string)
    requires PlainName(name)
    ensures Completing(Completion(name)) && Partial(Completion(name)) == name
  {
    var word := "/" + name;
    assert word[0] == '/' && word[1..] == name;
    assert ' ' !in word by {
      assert forall i :: 0 <= i < |name| ==> name[i] != ' ';
    }
    assert IsTrimmed(word);
    TrimTrailingSpace(word);
    assert Completion(name) == word + " ";
    LowerOfLowerCase(name);
  }

  // ---------------------------------------------------------------------------
  // Cyclic selection

  /** ArrowUp: one up, from the first to the last. */
  function Up(i: int, n: nat): int {
    if i > 0 then i - 1 else n - 1
  }

  /** ArrowDown: one down, from the last to the first. */
  function Down(i: int, n: nat): int {
    if i < n - 1 then i + 1 else 0
  }

  /** Both moves keep the selection among the `n` suggestions, wrap at the
      ends, and undo each other. */
  lemma UpDownCycle(i: int, n: nat)
    requires 0 <= i < n
    ensures 0 <= Up(i, n) < n && 0 <= Down(i, n) < n
    ensures Up(0, n) == n - 1 && Down(n - 1, n) == 0
    ensures Down(Up(i, n), n) == i && Up(Down(i, n), n) == i
  {
  }

  /** `k` presses of ArrowDown from `i`. */
  function DownTimes(i: int, n: nat, k: nat): int {
    if k == 0 then i else Down(DownTimes(i, n, k - 1), n)
  }

  /** Pressing `a` times and then `b` times is pressing `a + b` times. */
  lemma {:induction false} DownTimesAdd(i: int, n: nat, a: nat, b: nat)
    ensures DownTimes(DownTimes(i, n, a), n, b) == DownTimes(i, n, a + b)
  {
    if b > 0 {
      DownTimesAdd(i, n, a, b - 1);
    }
  }

  /** Before the last suggestion is passed, each press moves one down. */
  lemma {:induction false} DownTimesStraight(i: int, n: nat, k: nat)
    requires 0 <= i && i + k < n
    ensures DownTimes(i, n, k) == i + k
  {
    if k > 0 {
      DownTimesStraight(i, n, k - 1);
    }
  }

  /** `n` presses of ArrowDown go once round the suggestions and come back
      to where they started. */
  lemma DownTimesCycle(i: int, n: nat)
    requires 0 <= i < n
    ensures DownTimes(i, n, n) == i
  {
    DownTimesStraight(i, n, n - 1 - i);
    assert DownTimes(i, n, n - i) == 0;
    DownTimesStraight(0, n, i);
    DownTimesAdd(i, n, n - i, i);
  }

  // ---------------------------------------------------------------------------
  // Key handling

  datatype Key = ArrowUp | ArrowDown | Tab | Escape | Enter(shift: bool) | OtherKey

  /** The component's state: the value shown, the selected suggestion and
      how many times the message was sent. */
  datatype InputState = InputState(value: string, selectedIndex: int, sends: nat)

  /** The selection is a suggestion, or 0 when there are none. */
  predicate Valid(reg: seq<Command>, s: InputState) {
    0 <= s.selectedIndex && (s.selectedIndex < |Suggestions(reg, s.value)| || s.selectedIndex == 0)
  }

  /** `onChange(v)` and the re-render after it: the selection goes back to
      the first suggestion when the number of suggestions changed. */
  function Changed(reg: seq<Command>, s: InputState, v: string): (r: InputState)
    ensures Valid(reg, s) ==> Valid(reg, r)
  {
    var index := if |Suggestions(reg, v)| != |Suggestions(reg, s.value)| then 0 else s.selectedIndex;
    InputState(v, index, s.sends)
  }

  /** `handleKeyDown`: with suggestions shown, the arrows move the selection,
      Tab completes the selected command and Escape clears the input; Enter
      without Shift sends unless the input is busy, disabled or blank. */
  function Press(reg: seq<Command>, s: InputState, key: Key, isLoading: bool, disabled: bool): InputState {
    var suggestions := Suggestions(reg, s.value);
    var n := |suggestions|;
    if n > 0 && key.ArrowUp? then s.(selectedIndex := Up(s.selectedIndex, n))
    else if n > 0 && key.ArrowDown? then s.(selectedIndex := Down(s.selectedIndex, n))
    else if n > 0 && key.Tab? then
      if 0 <= s.selectedIndex < n then Changed(reg, s, Completion(suggestions[s.selectedIndex].name)) else s
    else if n > 0 && key.Escape? then Changed(reg, s, "")
    else if key.Enter? && !key.shift && !isLoading && Trim(s.value) != "" && !disabled then
      s.(sends := s.sends + 1)
    else s
  }

  /** `handleSuggestionClick`. */
  function Click(reg: seq<Command>, s: InputState, name: string): InputState {
    Changed(reg, s, Completion(name))
  }

  /** Every key keeps the selection on a suggestion. */
  lemma PressKeepsValid(reg: seq<Command>, s: InputState, key: Key, isLoading: bool, disabled: bool)
    requires Valid(reg, s)
    ensures Valid(reg, Press(reg, s, key, isLoading, disabled))
  {
    var n := |Suggestions(reg, s.value)|;
    if n > 0 && (key.ArrowUp? || key.ArrowDown?) {
      UpDownCycle(s.selectedIndex, n);
    }
  }

  /** Tab with suggestions shown always finds the selected one and writes
      its completion; with plain command names, that command is still
      suggested afterwards. */
  lemma TabCompletes(reg: seq<Command>, s: InputState, isLoading: bool, disabled: bool)
    requires Valid(reg, s) && Suggestions(reg, s.value) != []
    requires forall k :: 0 <= k < |reg| ==> PlainName(reg[k].name)
    ensures var cmd := Suggestions(reg, s.value)[s.selectedIndex];
      var r := Press(reg, s, Tab, isLoading, disabled);
      && r.value == Completion(cmd.name) && r.sends == s.sends
      && cmd in Suggestions(reg, r.value)
  {
    var cmd := Suggestions(reg, s.value)[s.selectedIndex];
    PressTab(reg, s, isLoading, disabled);
    SuggestedFromRegistry(reg, s.value, s.selectedIndex);
    PlainMember(reg, cmd);
    CompletionSuggestsItself(reg, cmd);
  }

  lemma PressTab(reg: seq<Command>, s: InputState, isLoading: bool, disabled: bool)
    requires 0 <= s.selectedIndex < |Suggestions(reg, s.value)|
    ensures Press(reg, s, Tab, isLoading, disabled) ==
      Changed(reg, s, Completion(Suggestions(reg, s.value)[s.selectedIndex].name))
  {
  }

  lemma PressArrow(reg: seq<Command>, s: InputState, key: Key, isLoading: bool, disabled: bool)
    requires |Suggestions(reg, s.value)| > 0 && (key.ArrowUp? || key.ArrowDown?)
    ensures var n := |Suggestions(reg, s.value)|;
      Press(reg, s, key, isLoading, disabled) ==
        s.(selectedIndex := if key.ArrowUp? then Up(s.selectedIndex, n) else Down(s.selectedIndex, n))
  {
  }

  lemma PressTabOutside(reg: seq<Command>, s: InputState, isLoading: bool, disabled: bool)
    requires |Suggestions(reg, s.value)| > 0 && !(0 <= s.selectedIndex < |Suggestions(reg, s.value)|)
    ensures Press(reg, s, Tab, isLoading, disabled) == s
  {
  }

  lemma PressEscape(reg: seq<Command>, s: InputState, isLoading: bool, disabled: bool)
    requires |Suggestions(reg, s.value)| > 0
    ensures Press(reg, s, Escape, isLoading, disabled) == Changed(reg, s, "")
  {
  }

  lemma PressOther(reg: seq<Command>, s: InputState, key: Key, isLoading: bool, disabled: bool)
    requires |Suggestions(reg, s.value)| == 0 || key.Enter? || key.OtherKey?
    ensures Press(reg, s, key, isLoading, disabled) ==
      if key.Enter? && !key.shift && !isLoading && Trim(s.value) != "" && !disabled then s.(sends := s.sends + 1) else s
  {
  }

  lemma SuggestedFromRegistry(reg: seq<Command>, value: string, k: int)
    requires 0 <= k < |Suggestions(reg, value)|
    ensures Suggestions(reg, value)[k] in reg
  {
    assert Suggestions(reg, value)[k] in Suggestions(reg, value);
  }

  lemma PlainMember(reg: seq<Command>, cmd: Command)
    requires forall k :: 0 <= k < |reg| ==> PlainName(reg[k].name)
    requires cmd in reg
    ensures PlainName(cmd.name)
  {
    var k :| 0 <= k < |reg| && reg[k] == cmd;
  }

  /** Escape with suggestions shown clears the input (without them it does
      nothing, as `NoSuggestionsOnlyEnter` states). */
  lemma EscapeClears(reg: seq<Command>, s: InputState, isLoading: bool, disabled: bool)
    requires Suggestions(reg, s.value) != []
    ensures var r := Press(reg, s, Escape, isLoading, disabled);
      r.value == "" && r.sends == s.sends
  {
  }

  /** Enter sends exactly when Shift is up and the input is idle, enabled
      and not blank; the value and the selection stay as they were. */
  lemma EnterSends(reg: seq<Command>, s: InputState, shift: bool, isLoading: bool, disabled: bool)
    ensures var r := Press(reg, s, Enter(shift), isLoading, disabled);
      && r.value == s.value && r.selectedIndex == s.selectedIndex
      && (r.sends == s.sends + 1 <==> !shift && !isLoading && !disabled && Trim(s.value) != "")
      && (r.sends == s.sends || r.sends == s.sends + 1)
  {
  }

  /** Without suggestions, only Enter does anything. */
  lemma NoSuggestionsOnlyEnter(reg: seq<Command>, s: InputState, key: Key, isLoading: bool, disabled: bool)
    requires Suggestions(reg, s.value) == [] && !key.Enter?
    ensures Press(reg, s, key, isLoading, disabled) == s
  {
  }

  // ---------------------------------------------------------------------------
  // The component

  class InputBox {
    const registry: seq<Command>
    var value: string
    var selectedIndex: int
    var sends: nat

    function State(): InputState
      reads this
    {
      InputState(value, selectedIndex, sends)
    }

    /** A fresh input over the chat's command registry. */
    constructor (value: string)
      ensures registry == Registry
      ensures State() == InputState(value, 0, 0) && Valid(registry, State())
    {
      registry := Registry;
      this.value := value;
      selectedIndex := 0;
      sends := 0;
    }

    /** The parent's `onChange`, then the selection reset. */
    method Change(v: string)
      modifies this
      ensures State() == Changed(registry, old(State()), v)
    {
      if |Suggestions(registry, v)| != |Suggestions(registry, value)| {
        selectedIndex := 0;
      }
      value := v;
    }

    method KeyDown(key: Key, isLoading: bool, disabled: bool)
      modifies this
      ensures State() == Press(registry, old(State()), key, isLoading, disabled)
    {
      ghost var s := State();
      var suggestions := Suggestions(registry, value);
      var n := |suggestions|;
      if n > 0 {
        match key {
          case ArrowUp =>
            PressArrow(registry, s, key, isLoading, disabled);
            selectedIndex := Up(selectedIndex, n);
            return;
          case ArrowDown =>
            PressArrow(registry, s, key, isLoading, disabled);
            selectedIndex := Down(selectedIndex, n);
            return;
          case Tab =>
            if 0 <= selectedIndex < n {
              PressTab(registry, s, isLoading, disabled);
              Change(Completion(suggestions[selectedIndex].name));
            } else {
              PressTabOutside(registry, s, isLoading, disabled);
            }
            return;
          case Escape =>
            PressEscape(registry, s, isLoading, disabled);
            Change("");
            return;
          case _ =>
        }
      }
      PressOther(registry, s, key, isLoading, disabled);
      if key.Enter? && !key.shift && !isLoading && Trim(value) != "" && !disabled {
        sends := sends + 1;
      }
    }

    method SuggestionClick(name: string)
      modifies this
      ensures State() == Click(registry, old(State()), name)
    {
      Change(Completion(name));
    }
  }
}

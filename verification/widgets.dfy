/**
 * The grouped select widget and its field, itkufs/common/widgets.py. The
 * choices are groups of (value, label) pairs under an optional group label;
 * the values appear here in their string form, as `smart_text` and `str`
 * give them. HTML escaping and the attribute string are opaque functions
 * and values the caller supplies.
 */
module Widgets {
  import opened Outcomes

  datatype Choice = Choice(key: string, caption: string)

  /** A group of choices; an empty label (or None) puts the choices outside
      any `<optgroup>`. */
  datatype ChoiceGroup = ChoiceGroup(caption: string, choices: seq<Choice>)

  /** The lines `render` outputs, before they are turned into text. */
  datatype Line =
    | SelectOpen
    | OptgroupOpen(caption: string)
    | OptionLine(key: string, selected: bool, caption: string)
    | OptgroupClose
    | SelectClose

  function OptionLines(cs: seq<Choice>, value: string): (ls: seq<Line>)
    ensures |ls| == |cs|
    ensures forall i :: 0 <= i < |cs| ==> ls[i] == OptionLine(cs[i].key, cs[i].key == value, cs[i].caption)
  {
    if cs == [] then [] else OptionLines(cs[..|cs| - 1], value) + [OptionLine(cs[|cs| - 1].key, cs[|cs| - 1].key == value, cs[|cs| - 1].caption)]
  }

  function GroupLines(g: ChoiceGroup, value: string): seq<Line>
  {
    (if g.caption != [] then [OptgroupOpen(g.caption)] else [])
    + OptionLines(g.choices, value)
    + (if g.caption != [] then [OptgroupClose] else [])
  }

  function GroupsLines(gs: seq<ChoiceGroup>, value: string): seq<Line>
  {
    if gs == [] then [] else GroupsLines(gs[..|gs| - 1], value) + GroupLines(gs[|gs| - 1], value)
  }

  /** The lines of the whole widget for the current value. */
  function Lines(gs: seq<ChoiceGroup>, value: string): seq<Line>
  {
    [SelectOpen] + GroupsLines(gs, value) + [SelectClose]
  }

  function LineText(l: Line, attrs: string, escape: string -> string): string
  {
    match l
    case SelectOpen => "<select" + attrs + ">"
    case OptgroupOpen(caption) => "<optgroup label=\"" + escape(caption) + "\">"
    case OptionLine(key, selected, caption) =>
      "<option value=\"" + escape(key) + "\"" + (if selected then " selected=\"selected\"" else "") + ">" + escape(caption) + "</option>"
    case OptgroupClose => "</optgroup>"
    case SelectClose => "</select>"
  }

  function Texts(ls: seq<Line>, attrs: string, escape: string -> string): (ts: seq<string>)
    ensures |ts| == |ls|
  {
    if ls == [] then [] else Texts(ls[..|ls| - 1], attrs, escape) + [LineText(ls[|ls| - 1], attrs, escape)]
  }

  lemma {:induction false} TextsAppend(a: seq<Line>, b: seq<Line>, attrs: string, escape: string -> string)
    ensures Texts(a + b, attrs, escape) == Texts(a, attrs, escape) + Texts(b, attrs, escape)
    decreases |b|
  {
    if b == [] {
      assert a + b == a;
    } else {
      assert (a + b)[..|a + b| - 1] == a + b[..|b| - 1];
      TextsAppend(a, b[..|b| - 1], attrs, escape);
    }
  }

  /** `value` as `render` compares it: None becomes the empty string. */
  function ValueText(value: Option<string>): string
  {
    if value.Some? then value.value else ""
  }

  lemma TextsSnoc(ls: seq<Line>, l: Line, attrs: string, escape: string -> string)
    ensures Texts(ls + [l], attrs, escape) == Texts(ls, attrs, escape) + [LineText(l, attrs, escape)]
  {
    assert (ls + [l])[..|ls|] == ls;
  }

  lemma TextsOne(l: Line, attrs: string, escape: string -> string)
    ensures Texts([l], attrs, escape) == [LineText(l, attrs, escape)]
  {
    TextsSnoc([], l, attrs, escape);
    assert [] + [l] == [l];
  }

  lemma OptionLinesSnoc(cs: seq<Choice>, j: nat, v: string)
    requires j < |cs|
    ensures OptionLines(cs[..j + 1], v) == OptionLines(cs[..j], v) + [OptionLine(cs[j].key, cs[j].key == v, cs[j].caption)]
  {
    assert cs[..j + 1][..j] == cs[..j];
  }

  /** The header of a group: `<optgroup>` when it has a label. */
  function Head(g: ChoiceGroup): seq<Line>
  {
    if g.caption != [] then [OptgroupOpen(g.caption)] else []
  }

  function Tail(g: ChoiceGroup): seq<Line>
  {
    if g.caption != [] then [OptgroupClose] else []
  }

  lemma OptionStep(out: seq<string>, output: seq<string>, cs: seq<Choice>, j: nat, v: string, attrs: string, escape: string -> string)
    requires j < |cs|
    requires out == output + Texts(OptionLines(cs[..j], v), attrs, escape)
    ensures out + [LineText(OptionLine(cs[j].key, cs[j].key == v, cs[j].caption), attrs, escape)]
         == output + Texts(OptionLines(cs[..j + 1], v), attrs, escape)
  {
    OptionLinesSnoc(cs, j, v);
    TextsSnoc(OptionLines(cs[..j], v), OptionLine(cs[j].key, cs[j].key == v, cs[j].caption), attrs, escape);
  }

  /** The loop over one group's choices: one `<option>` line per choice,
      appended to `output`. */
  method AppendOptions(output: seq<string>, cs: seq<Choice>, v: string, attrs: string, escape: string -> string)
    returns (out: seq<string>)
    ensures out == output + Texts(OptionLines(cs, v), attrs, escape)
  {
    out := output;
    assert cs[..0] == [];
    var j := 0;
    while j < |cs|
      invariant 0 <= j <= |cs|
      invariant out == output + Texts(OptionLines(cs[..j], v), attrs, escape)
    {
      OptionStep(out, output, cs, j, v, attrs, escape);
      out := out + [LineText(OptionLine(cs[j].key, cs[j].key == v, cs[j].caption), attrs, escape)];
      j := j + 1;
    }
    assert cs[..j] == cs;
  }

  /** The texts of a group split at its header and its footer. */
  lemma GroupTexts(g: ChoiceGroup, v: string, attrs: string, escape: string -> string)
    ensures Texts(GroupLines(g, v), attrs, escape)
         == Texts(Head(g), attrs, escape) + Texts(OptionLines(g.choices, v), attrs, escape) + Texts(Tail(g), attrs, escape)
  {
    assert GroupLines(g, v) == Head(g) + OptionLines(g.choices, v) + Tail(g);
    TextsAppend(Head(g), OptionLines(g.choices, v), attrs, escape);
    TextsAppend(Head(g) + OptionLines(g.choices, v), Tail(g), attrs, escape);
  }

  lemma HeadTexts(g: ChoiceGroup, attrs: string, escape: string -> string)
    ensures Texts(Head(g), attrs, escape) == (if g.caption != [] then [LineText(OptgroupOpen(g.caption), attrs, escape)] else [])
    ensures Texts(Tail(g), attrs, escape) == (if g.caption != [] then [LineText(OptgroupClose, attrs, escape)] else [])
  {
    if g.caption != [] {
      TextsOne(OptgroupOpen(g.caption), attrs, escape);
      TextsOne(OptgroupClose, attrs, escape);
    }
  }

  /** The body of the outer loop of `render`: one group's lines appended to `output`. */
  method AppendGroup(output: seq<string>, g: ChoiceGroup, v: string, attrs: string, escape: string -> string)
    returns (out: seq<string>)
    ensures out == output + Texts(GroupLines(g, v), attrs, escape)
  {
    HeadTexts(g, attrs, escape);
    out := output;
    if g.caption != [] {
      out := out + [LineText(OptgroupOpen(g.caption), attrs, escape)];
    }
    assert out == output + Texts(Head(g), attrs, escape);
    out := AppendOptions(out, g.choices, v, attrs, escape);
    ghost var options := out;
    if g.caption != [] {
      out := out + [LineText(OptgroupClose, attrs, escape)];
    }
    assert out == options + Texts(Tail(g), attrs, escape);
    GroupTexts(g, v, attrs, escape);
    ConcatAssoc(output, Texts(Head(g), attrs, escape), Texts(OptionLines(g.choices, v), attrs, escape), Texts(Tail(g), attrs, escape));
  }

  lemma ConcatAssoc(a: seq<string>, b: seq<string>, c: seq<string>, d: seq<string>)
    ensures a + b + c + d == a + (b + c + d)
  {
  }

  lemma GroupStep(output: seq<string>, gs: seq<ChoiceGroup>, i: nat, v: string, attrs: string, escape: string -> string)
    requires i < |gs|
    requires output == Texts([SelectOpen] + GroupsLines(gs[..i], v), attrs, escape)
    ensures output + Texts(GroupLines(gs[i], v), attrs, escape)
         == Texts([SelectOpen] + GroupsLines(gs[..i + 1], v), attrs, escape)
  {
    assert gs[..i + 1][..i] == gs[..i];
    assert [SelectOpen] + GroupsLines(gs[..i + 1], v) == ([SelectOpen] + GroupsLines(gs[..i], v)) + GroupLines(gs[i], v);
    TextsAppend([SelectOpen] + GroupsLines(gs[..i], v), GroupLines(gs[i], v), attrs, escape);
  }

  lemma RenderStart(gs: seq<ChoiceGroup>, v: string, attrs: string, escape: string -> string)
    ensures [LineText(SelectOpen, attrs, escape)] == Texts([SelectOpen] + GroupsLines(gs[..0], v), attrs, escape)
  {
    assert [SelectOpen] + GroupsLines(gs[..0], v) == [SelectOpen];
    TextsOne(SelectOpen, attrs, escape);
  }

  lemma RenderEnd(output: seq<string>, gs: seq<ChoiceGroup>, v: string, attrs: string, escape: string -> string)
    requires output == Texts([SelectOpen] + GroupsLines(gs, v), attrs, escape)
    ensures output + [LineText(SelectClose, attrs, escape)] == Texts(Lines(gs, v), attrs, escape)
  {
    TextsSnoc([SelectOpen] + GroupsLines(gs, v), SelectClose, attrs, escape);
  }

  /** `GroupedSelect.render`: `attrs` is the flattened attribute string of
      the select element. */
  method Render(value: Option<string>, attrs: string, gs: seq<ChoiceGroup>, escape: string -> string) returns (html: string)
    ensures html == Join('\n', Texts(Lines(gs, ValueText(value)), attrs, escape))
  {
    var v := ValueText(value);
    var output := [LineText(SelectOpen, attrs, escape)];
    RenderStart(gs, v, attrs, escape);
    var i := 0;
    while i < |gs|
      invariant 0 <= i <= |gs|
      invariant output == Texts([SelectOpen] + GroupsLines(gs[..i], v), attrs, escape)
    {
      GroupStep(output, gs, i, v, attrs, escape);
      output := AppendGroup(output, gs[i], v, attrs, escape);
      i := i + 1;
    }
    assert gs[..i] == gs;
    RenderEnd(output, gs, v, attrs, escape);
    output := output + [LineText(SelectClose, attrs, escape)];
    html := Join('\n', output);
  }

  /** The lines of a widget with one labelled group holding the current value. */
  lemma ExampleLines()
    ensures Lines([ChoiceGroup("Bar", [Choice("1", "Beer")])], "1")
         == [SelectOpen, OptgroupOpen("Bar"), OptionLine("1", true, "Beer"), OptgroupClose, SelectClose]
  {
    var g := ChoiceGroup("Bar", [Choice("1", "Beer")]);
    assert [Choice("1", "Beer")][..0] == [];
    assert OptionLines(g.choices, "1") == [OptionLine("1", true, "Beer")];
    assert [g][..0] == [];
    assert GroupsLines([g], "1") == GroupLines(g, "1");
  }

  lemma ExampleOption()
    ensures LineText(OptionLine("1", true, "Beer"), "", s => s) == "<option value=\"1\" selected=\"selected\">Beer</option>"
  {
    assert "<option value=\"" + "1" == "<option value=\"1";
    assert "<option value=\"1" + "\"" == "<option value=\"1\"";
    assert "<option value=\"1\"" + " selected=\"selected\"" == "<option value=\"1\" selected=\"selected\"";
    assert "<option value=\"1\" selected=\"selected\"" + ">" == "<option value=\"1\" selected=\"selected\">";
    assert "<option value=\"1\" selected=\"selected\">" + "Beer" == "<option value=\"1\" selected=\"selected\">Beer";
    assert "<option value=\"1\" selected=\"selected\">Beer" + "</option>" == "<option value=\"1\" selected=\"selected\">Beer</option>";
  }

  /** ... and their text, with escaping left out: the group header carries
      the group's label in a `label` attribute. */
  lemma RenderExample()
    ensures Texts(Lines([ChoiceGroup("Bar", [Choice("1", "Beer")])], "1"), "", s => s)
         == ["<select>",
             "<optgroup label=\"Bar\">",
             "<option value=\"1\" selected=\"selected\">Beer</option>",
             "</optgroup>",
             "</select>"]
  {
    var escape := (s: string) => s;
    assert LineText(SelectOpen, "", escape) == "<select>";
    assert LineText(OptgroupOpen("Bar"), "", escape) == "<optgroup label=\"Bar\">";
    ExampleOption();
    ExampleLines();
    var ls := [SelectOpen, OptgroupOpen("Bar"), OptionLine("1", true, "Beer"), OptgroupClose, SelectClose];
    TextsOne(SelectOpen, "", escape);
    TextsSnoc(ls[..1], ls[1], "", escape);
    TextsSnoc(ls[..2], ls[2], "", escape);
    TextsSnoc(ls[..3], ls[3], "", escape);
    TextsSnoc(ls[..4], ls[4], "", escape);
    assert ls[..1] == [SelectOpen];
    assert ls[..1] + [ls[1]] == ls[..2];
    assert ls[..2] + [ls[2]] == ls[..3];
    assert ls[..3] + [ls[3]] == ls[..4];
    assert ls[..4] + [ls[4]] == ls;
  }

  // ---------------------------------------------------------------------------
  // What the rendered lines are

  /** The options of some lines, in order. */
  function OptionsOf(ls: seq<Line>): seq<Choice>
  {
    if ls == [] then []
    else OptionsOf(ls[..|ls| - 1]) + (if ls[|ls| - 1].OptionLine? then [Choice(ls[|ls| - 1].key, ls[|ls| - 1].caption)] else [])
  }

  lemma {:induction false} OptionsOfAppend(a: seq<Line>, b: seq<Line>)
    ensures OptionsOf(a + b) == OptionsOf(a) + OptionsOf(b)
    decreases |b|
  {
    if b == [] {
      assert a + b == a;
    } else {
      assert (a + b)[..|a + b| - 1] == a + b[..|b| - 1];
      OptionsOfAppend(a, b[..|b| - 1]);
    }
  }

  lemma {:induction false} OptionsOfOptionLines(cs: seq<Choice>, value: string)
    ensures OptionsOf(OptionLines(cs, value)) == cs
    decreases |cs|
  {
    if cs != [] {
      var init := cs[..|cs| - 1];
      OptionsOfOptionLines(init, value);
      OptionsOfAppend(OptionLines(init, value), [OptionLine(cs[|cs| - 1].key, cs[|cs| - 1].key == value, cs[|cs| - 1].caption)]);
      assert OptionsOf([OptionLine(cs[|cs| - 1].key, cs[|cs| - 1].key == value, cs[|cs| - 1].caption)]) == [cs[|cs| - 1]];
    }
  }

  /** All the choices, group after group. */
  function AllChoices(gs: seq<ChoiceGroup>): seq<Choice>
  {
    if gs == [] then [] else AllChoices(gs[..|gs| - 1]) + gs[|gs| - 1].choices
  }

  lemma GroupOptions(g: ChoiceGroup, value: string)
    ensures OptionsOf(GroupLines(g, value)) == g.choices
  {
    var head: seq<Line> := if g.caption != [] then [OptgroupOpen(g.caption)] else [];
    var tail: seq<Line> := if g.caption != [] then [OptgroupClose] else [];
    OptionsOfOptionLines(g.choices, value);
    OptionsOfAppend(head, OptionLines(g.choices, value));
    OptionsOfAppend(head + OptionLines(g.choices, value), tail);
    assert OptionsOf(head) == [] by {
      if g.caption != [] { assert head[..0] == []; }
    }
    assert OptionsOf(tail) == [] by {
      if g.caption != [] { assert tail[..0] == []; }
    }
  }

  lemma {:induction false} GroupsOptions(gs: seq<ChoiceGroup>, value: string)
    ensures OptionsOf(GroupsLines(gs, value)) == AllChoices(gs)
    decreases |gs|
  {
    if gs != [] {
      GroupsOptions(gs[..|gs| - 1], value);
      GroupOptions(gs[|gs| - 1], value);
      OptionsOfAppend(GroupsLines(gs[..|gs| - 1], value), GroupLines(gs[|gs| - 1], value));
    }
  }

  /** The options appear in the order of the choices, none left out and
      none added. */
  lemma OptionsInChoiceOrder(gs: seq<ChoiceGroup>, value: string)
    ensures OptionsOf(Lines(gs, value)) == AllChoices(gs)
  {
    GroupsOptions(gs, value);
    OptionsOfAppend([SelectOpen], GroupsLines(gs, value));
    OptionsOfAppend([SelectOpen] + GroupsLines(gs, value), [SelectClose]);
    assert [SelectOpen][..0] == [] && [SelectClose][..0] == [];
  }

  /** An option is selected exactly when its value is the current value. */
  lemma {:induction false} SelectedIffCurrent(gs: seq<ChoiceGroup>, value: string)
    ensures forall l :: l in Lines(gs, value) && l.OptionLine? ==> (l.selected <==> l.key == value)
    ensures forall l :: l in GroupsLines(gs, value) && l.OptionLine? ==> (l.selected <==> l.key == value)
    decreases |gs|
  {
    if gs != [] {
      SelectedIffCurrent(gs[..|gs| - 1], value);
      var g := gs[|gs| - 1];
      assert forall l :: l in OptionLines(g.choices, value) ==> l.OptionLine? && (l.selected <==> l.key == value);
    }
  }

  /** The widget opens with the select element and closes it last. */
  lemma SelectFrames(gs: seq<ChoiceGroup>, value: string, attrs: string, escape: string -> string)
    ensures Texts(Lines(gs, value), attrs, escape)[0] == "<select" + attrs + ">"
    ensures Texts(Lines(gs, value), attrs, escape)[|Lines(gs, value)| - 1] == "</select>"
  {
    TextsOne(SelectOpen, attrs, escape);
    TextsAppend([SelectOpen], GroupsLines(gs, value), attrs, escape);
    TextsSnoc([SelectOpen] + GroupsLines(gs, value), SelectClose, attrs, escape);
  }

  function CountOpen(ls: seq<Line>): nat
  {
    if ls == [] then 0 else CountOpen(ls[..|ls| - 1]) + (if ls[|ls| - 1].OptgroupOpen? then 1 else 0)
  }

  function CountClose(ls: seq<Line>): nat
  {
    if ls == [] then 0 else CountClose(ls[..|ls| - 1]) + (if ls[|ls| - 1] == OptgroupClose then 1 else 0)
  }

  lemma {:induction false} CountsAppend(a: seq<Line>, b: seq<Line>)
    ensures CountOpen(a + b) == CountOpen(a) + CountOpen(b)
    ensures CountClose(a + b) == CountClose(a) + CountClose(b)
    decreases |b|
  {
    if b == [] {
      assert a + b == a;
    } else {
      assert (a + b)[..|a + b| - 1] == a + b[..|b| - 1];
      CountsAppend(a, b[..|b| - 1]);
    }
  }

  lemma {:induction false} NoGroupTagsInOptions(cs: seq<Choice>, value: string)
    ensures CountOpen(OptionLines(cs, value)) == 0 && CountClose(OptionLines(cs, value)) == 0
    decreases |cs|
  {
    if cs != [] {
      NoGroupTagsInOptions(cs[..|cs| - 1], value);
    }
  }

  /** The number of groups with a caption. */
  function LabelledGroups(gs: seq<ChoiceGroup>): nat
  {
    if gs == [] then 0 else LabelledGroups(gs[..|gs| - 1]) + (if gs[|gs| - 1].caption != [] then 1 else 0)
  }

  /** One `<optgroup>` and one `</optgroup>` per labelled group, and none
      for the others. */
  lemma {:induction false} OptgroupsBalanced(gs: seq<ChoiceGroup>, value: string)
    ensures CountOpen(GroupsLines(gs, value)) == LabelledGroups(gs)
    ensures CountClose(GroupsLines(gs, value)) == LabelledGroups(gs)
    decreases |gs|
  {
    if gs != [] {
      OptgroupsBalanced(gs[..|gs| - 1], value);
      GroupCounts(gs[|gs| - 1], value);
      CountsAppend(GroupsLines(gs[..|gs| - 1], value), GroupLines(gs[|gs| - 1], value));
    }
  }

  /** A group opens and closes one `<optgroup>` when it has a label, and none otherwise. */
  lemma GroupCounts(g: ChoiceGroup, value: string)
    ensures CountOpen(GroupLines(g, value)) == (if g.caption != [] then 1 else 0)
    ensures CountClose(GroupLines(g, value)) == (if g.caption != [] then 1 else 0)
  {
    NoGroupTagsInOptions(g.choices, value);
    CountsAppend(Head(g), OptionLines(g.choices, value));
    CountsAppend(Head(g) + OptionLines(g.choices, value), Tail(g));
    assert [OptgroupOpen(g.caption)][..0] == [] && [OptgroupClose][..0] == [];
    assert GroupLines(g, value) == Head(g) + OptionLines(g.choices, value) + Tail(g);
  }

  // ---------------------------------------------------------------------------
  // GroupedChoiceField.clean

  const RequiredMessage := "This field is required."
  const InvalidChoiceMessage := "Select a valid choice. That choice is not one of the available choices."

  function Keys(cs: seq<Choice>): (ks: seq<string>)
    ensures |ks| == |cs|
    ensures forall i :: 0 <= i < |cs| ==> ks[i] == cs[i].key
  {
    if cs == [] then [] else Keys(cs[..|cs| - 1]) + [cs[|cs| - 1].key]
  }

  /** `GroupedChoiceField.clean`: the base field refuses an empty value
      when the field is required; otherwise an empty value (None or "")
      cleans to "", and any other value must be the value of one of the
      choices. */
  method Clean(value: Option<string>, required: bool, gs: seq<ChoiceGroup>) returns (r: Result<string, FormError>)
    ensures ValueText(value) == [] ==> r == if required then Err(ValidationError([RequiredMessage])) else Ok([])
    ensures ValueText(value) != [] ==>
      (r.Ok? <==> ValueText(value) in Keys(AllChoices(gs)))
      && (r.Ok? ==> r.value == ValueText(value))
      && (r.Err? ==> r.error == ValidationError([InvalidChoiceMessage]))
  {
    if ValueText(value) == [] {
      if required {
        return Err(ValidationError([RequiredMessage]));
      }
      return Ok([]);
    }
    var v := ValueText(value);
    var validValues := [];
    var i := 0;
    while i < |gs|
      invariant 0 <= i <= |gs|
      invariant validValues == Keys(AllChoices(gs[..i]))
    {
      assert gs[..i + 1][..i] == gs[..i];
      KeysAppend(AllChoices(gs[..i]), gs[i].choices);
      validValues := validValues + Keys(gs[i].choices);
      i := i + 1;
    }
    assert gs[..i] == gs;
    if v !in validValues {
      return Err(ValidationError([InvalidChoiceMessage]));
    }
    return Ok(v);
  }

  lemma KeysAppend(a: seq<Choice>, b: seq<Choice>)
    ensures Keys(a + b) == Keys(a) + Keys(b)
  {
  }

  /** The values `clean` accepts are exactly those that `render` would
      show with a selected option. */
  lemma CleanAcceptsSelectable(gs: seq<ChoiceGroup>, value: string)
    ensures value in Keys(AllChoices(gs)) <==>
      exists l :: l in Lines(gs, value) && l.OptionLine? && l.selected
  {
    SelectedIffCurrent(gs, value);
    OptionsInChoiceOrder(gs, value);
    var ls := Lines(gs, value);
    if value in Keys(AllChoices(gs)) {
      var k :| 0 <= k < |Keys(AllChoices(gs))| && Keys(AllChoices(gs))[k] == value;
      OptionAt(ls, k);
    }
    if exists l :: l in ls && l.OptionLine? && l.selected {
      var l :| l in ls && l.OptionLine? && l.selected;
      OptionListed(ls, l);
    }
  }

  /** Each option of the lines is an option line, and vice versa. */
  lemma {:induction false} OptionAt(ls: seq<Line>, k: nat)
    requires k < |OptionsOf(ls)|
    ensures exists l :: l in ls && l.OptionLine? && l.key == OptionsOf(ls)[k].key
    decreases |ls|
  {
    var init := ls[..|ls| - 1];
    if k < |OptionsOf(init)| {
      OptionAt(init, k);
      var l :| l in init && l.OptionLine? && l.key == OptionsOf(init)[k].key;
      assert l in ls;
    } else {
      assert ls[|ls| - 1] in ls;
    }
  }

  lemma {:induction false} OptionListed(ls: seq<Line>, l: Line)
    requires l in ls && l.OptionLine?
    ensures l.key in Keys(OptionsOf(ls))
    decreases |ls|
  {
    var init := ls[..|ls| - 1];
    var extra := if ls[|ls| - 1].OptionLine? then [Choice(ls[|ls| - 1].key, ls[|ls| - 1].caption)] else [];
    KeysAppend(OptionsOf(init), extra);
    if l in init {
      OptionListed(init, l);
    } else {
      assert l == ls[|ls| - 1];
    }
  }
}

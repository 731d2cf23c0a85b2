/** The poll form (`pollData`): its option list editing and its field edits.

    The option list starts as two blank options and removal refuses to go below
    two, so every reachable poll has at least two options. */
module PollForm {

  import opened Wrappers

  /** The question and its texts, the options in display order, and whether more
      than one option may be chosen. */
  datatype PollData = PollData(
    question: string, description: string, options: seq<string>,
    deadline: string, allowMultiple: bool, slug: string)

  /** The fewest options a poll may have. */
  const MinOptions: nat := 2

  /** The state the page starts in: two blank options. */
  const Initial: PollData := PollData("", "", ["", ""], "", false, "")

  /** The invariant of the option list. */
  predicate Valid(p: PollData)
  {
    |p.options| >= MinOptions
  }

  /** `addPollOption`: a blank option goes at the end; every existing option keeps
      its position and text, and nothing but the options changes. */
  function AddOption(p: PollData): (r: PollData)
    ensures |r.options| == |p.options| + 1
    ensures r.options[|p.options|] == ""
    ensures forall i :: 0 <= i < |p.options| ==> r.options[i] == p.options[i]
    ensures r.(options := p.options) == p
    ensures Valid(p) ==> Valid(r)
  {
    p.(options := p.options + [""])
  }

  /** `t` is `s` with the element at position `k` taken out, the rest in order. */
  predicate RemovedAt(s: seq<string>, t: seq<string>, k: int)
  {
    && 0 <= k < |s|
    && |t| == |s| - 1
    && (forall j :: 0 <= j < k ==> t[j] == s[j])
    && (forall j :: k <= j < |t| ==> t[j] == s[j + 1])
  }

  /** Removing position `k` leaves exactly the elements before and after it. */
  lemma RemovedAtIsSlice(s: seq<string>, t: seq<string>, k: int)
    requires RemovedAt(s, t, k)
    ensures t == s[..k] + s[k + 1..]
  {
  }

  /** JavaScript's `a.splice(start, 1)` on a copy: a negative start counts from the
      end (and stops at 0); a start at or past the end removes nothing. */
  function SpliceOne(s: seq<string>, start: int): (r: seq<string>)
    ensures 0 <= start < |s| ==> RemovedAt(s, r, start)
    ensures -|s| <= start < 0 ==> RemovedAt(s, r, |s| + start)
    ensures start < -|s| && |s| > 0 ==> RemovedAt(s, r, 0)
    ensures start >= |s| || |s| == 0 ==> r == s
  {
    var k := if start < 0 then (if |s| + start < 0 then 0 else |s| + start) else start;
    if k < |s| then s[..k] + s[k + 1..] else s
  }

  /** `removePollOption(index)`. With two options or fewer it does nothing. Above
      that it takes out the option the index designates under `splice`: position
      `index` when in range, counted from the end when negative, none when past
      the end. Nothing but the options changes. */
  function RemoveOption(p: PollData, index: int): (r: PollData)
    ensures |p.options| <= MinOptions ==> r == p
    ensures |p.options| > MinOptions && 0 <= index < |p.options| ==>
              RemovedAt(p.options, r.options, index)
    ensures |p.options| > MinOptions && -|p.options| <= index < 0 ==>
              RemovedAt(p.options, r.options, |p.options| + index)
    ensures |p.options| > MinOptions && index < -|p.options| ==>
              RemovedAt(p.options, r.options, 0)
    ensures index >= |p.options| ==> r == p
    ensures r.(options := p.options) == p
    ensures Valid(p) ==> Valid(r)
  {
    if |p.options| <= MinOptions then p
    else p.(options := SpliceOne(p.options, index))
  }

  /** `updatePollOption(index, value)`: the option at `index` takes the value; the
      list keeps its length, every other option and every other field. */
  function UpdateOption(p: PollData, index: int, value: string): (r: PollData)
    requires 0 <= index < |p.options|
    ensures |r.options| == |p.options|
    ensures r.options[index] == value
    ensures forall j :: 0 <= j < |p.options| && j != index ==> r.options[j] == p.options[j]
    ensures r.(options := p.options) == p
    ensures Valid(p) ==> Valid(r)
  {
    p.(options := p.options[index := value])
  }

  /** The text fields an input writes. */
  datatype Field = Question | Description | Deadline | Slug

  function Get(p: PollData, f: Field): string
  {
    match f
    case Question => p.question
    case Description => p.description
    case Deadline => p.deadline
    case Slug => p.slug
  }

  /** `setPollData({ ...pollData, <field>: value })`: the one field takes the value;
      every other text field, the options and the switch read as before. */
  function Set(p: PollData, f: Field, value: string): (r: PollData)
    ensures Get(r, f) == value
    ensures forall g :: g != f ==> Get(r, g) == Get(p, g)
    ensures r.options == p.options && r.allowMultiple == p.allowMultiple
  {
    match f
    case Question => p.(question := value)
    case Description => p.(description := value)
    case Deadline => p.(deadline := value)
    case Slug => p.(slug := value)
  }

  /** What the user can do to the poll form. */
  datatype Edit =
    | Add
    | Remove(index: int)
    | Update(index: int, value: string)
    | SetText(field: Field, text: string)
    | SetAllowMultiple(allow: bool)

  /** The form issues `Update` only for an option it renders, that is, for a
      position of the current list. */
  predicate Issuable(p: PollData, e: Edit)
  {
    e.Update? ==> 0 <= e.index < |p.options|
  }

  /** The handler each edit runs. */
  function Apply(p: PollData, e: Edit): (r: PollData)
    requires Issuable(p, e)
    ensures Valid(p) ==> Valid(r)
    ensures !e.Add? && !e.Remove? && !e.Update? ==> r.options == p.options
  {
    match e
    case Add => AddOption(p)
    case Remove(i) => RemoveOption(p, i)
    case Update(i, v) => UpdateOption(p, i, v)
    case SetText(f, v) => Set(p, f, v)
    case SetAllowMultiple(b) => p.(allowMultiple := b)
  }

  /** The edits in order, or `None` if one of them is not issuable when it comes. */
  function Run(p: PollData, edits: seq<Edit>): Option<PollData>
    decreases |edits|
  {
    if |edits| == 0 then Some(p)
    else if !Issuable(p, edits[0]) then None
    else Run(Apply(p, edits[0]), edits[1..])
  }

  /** Starting from two blank options, every sequence of edits the form can issue
      leaves at least two options. */
  lemma {:induction false} RunKeepsTwoOptions(p: PollData, edits: seq<Edit>)
    requires Valid(p)
    requires Run(p, edits).Some?
    ensures Valid(Run(p, edits).value)
    decreases |edits|
  {
    if |edits| > 0 {
      RunKeepsTwoOptions(Apply(p, edits[0]), edits[1..]);
    }
  }

  /** The poll clause of the generate button's `disabled` expression, negated:
      a question is given and no option is blank. */
  predicate Ready(p: PollData)
  {
    p.question != "" && forall o :: o in p.options ==> o != ""
  }

  /** A freshly added option is blank, so adding an option always makes the form
      not ready until the new option is filled in. */
  lemma AddedOptionBlocks(p: PollData)
    ensures !Ready(AddOption(p))
  {
    var r := AddOption(p);
    assert r.options[|p.options|] in r.options;
  }
}

/** The betting form (`bettingData`), the static per-source event table, and the
    dependent source/event selection.

    Odds are kept as the strings JavaScript's `toString` gives the table's number
    literals, so no floating point is involved. */
module BettingForm {

  import opened Wrappers

  /** One event a source offers. */
  datatype BettingEvent = BettingEvent(id: string, name: string, odds: string)

  /** A source the source select offers: its key and its label. */
  datatype BettingSource = BettingSource(id: string, name: string)

  /** `bettingSources`, in the order the select lists them. */
  const Sources: seq<BettingSource> := [
    BettingSource("bet365", "Bet365"),
    BettingSource("stake", "Stake"),
    BettingSource("draftkings", "DraftKings")
  ]

  /** `bettingEvents`: for each source key, its events in order. */
  const Events: map<string, seq<BettingEvent>> := map[
    "bet365" := [
      BettingEvent("b365-1", "Manchester United vs Liverpool", "2.5"),
      BettingEvent("b365-2", "Lakers vs Warriors", "1.95"),
      BettingEvent("b365-3", "Wimbledon Final", "1.75")
    ],
    "stake" := [
      BettingEvent("stake-1", "Bitcoin price above $100k by EOY", "3.2"),
      BettingEvent("stake-2", "Ethereum merge success", "1.5"),
      BettingEvent("stake-3", "Solana vs Cardano market cap", "2.1")
    ],
    "draftkings" := [
      BettingEvent("dk-1", "Super Bowl LVIII", "1.9"),
      BettingEvent("dk-2", "World Series", "2.2"),
      BettingEvent("dk-3", "Stanley Cup", "2.4")
    ]
  ]

  /** The select offers exactly the sources the table has lists for, so looking
      one up never fails for a source chosen through the form. */
  lemma SourcesHaveEvents()
    ensures forall i :: 0 <= i < |Sources| ==> Sources[i].id in Events
    ensures forall s :: s in Events ==> exists i :: 0 <= i < |Sources| && Sources[i].id == s
    ensures forall i :: 0 <= i < |Sources| ==> |Events[Sources[i].id]| == 3
  {
    assert Events.Keys == {Sources[0].id, Sources[1].id, Sources[2].id};
  }

  /** Within each source's list, no two events share an id. */
  predicate UniqueIds(events: seq<BettingEvent>)
  {
    forall i, j :: 0 <= i < j < |events| ==> events[i].id != events[j].id
  }

  lemma TableIdsUnique()
    ensures forall s :: s in Events ==> UniqueIds(Events[s])
  {
  }

  /** `events.find((e) => e.id === id)`: the first event with that id, if any. */
  function Find(events: seq<BettingEvent>, id: string): (r: Option<BettingEvent>)
    ensures r.Some? ==> exists i :: 0 <= i < |events| && events[i] == r.value
                                    && (forall j :: 0 <= j < i ==> events[j].id != id)
    ensures r.Some? ==> r.value.id == id
    ensures r.None? <==> forall e :: e in events ==> e.id != id
  {
    if |events| == 0 then None
    else if events[0].id == id then Some(events[0])
    else
      var r := Find(events[1..], id);
      r
  }

  /** Within a list without duplicate ids, the event found is the one with that id. */
  lemma FindUnique(events: seq<BettingEvent>, id: string, e: BettingEvent)
    requires UniqueIds(events)
    requires e in events && e.id == id
    ensures Find(events, id) == Some(e)
  {
  }

  /** The form's state. `source` is a key of `Events` when chosen through the
      form; `odds` is the odds text of the chosen event, or "". */
  datatype BettingData = BettingData(
    title: string, description: string, source: string, eventId: string,
    odds: string, stake: string, currency: string, slug: string)

  /** The state the page starts in: source "bet365", no event. */
  const Initial: BettingData := BettingData("", "", "bet365", "", "", "", "SUI", "")

  /** `handleBettingSourceChange(source)`: the source is set and the event
      selection is cleared. The odds keep whatever they were, and every other
      field stays. */
  function SelectSource(b: BettingData, source: string): (r: BettingData)
    ensures r.source == source && r.eventId == ""
    ensures r.odds == b.odds
    ensures r.(source := b.source, eventId := b.eventId) == b
  {
    b.(source := source, eventId := "")
  }

  /** `handleBettingEventChange(eventId)`. The current source's list is looked up;
      a source with no list makes `.find` throw before any state is set, which is
      `None` here. Otherwise the event id is set and the odds become the odds of
      the event with that id, or "" when the list has none. Nothing else changes. */
  function SelectEvent(b: BettingData, eventId: string): (r: Option<BettingData>)
    ensures r.None? <==> b.source !in Events
    ensures r.Some? ==> r.value.eventId == eventId
    ensures r.Some? ==> forall e :: e in Events[b.source] && e.id == eventId ==> r.value.odds == e.odds
    ensures r.Some? ==> (forall e :: e in Events[b.source] ==> e.id != eventId) ==> r.value.odds == ""
    ensures r.Some? ==> r.value.(eventId := b.eventId, odds := b.odds) == b
  {
    if b.source !in Events then None
    else
      var found := Find(Events[b.source], eventId);
      Some(b.(eventId := eventId, odds := if found.Some? then found.value.odds else ""))
  }

  /** The odds of `eventId` under `source` per the table, "" when there is none. */
  function TableOdds(source: string, eventId: string): string
  {
    if source !in Events then ""
    else
      match Find(Events[source], eventId)
      case Some(e) => e.odds
      case None => ""
  }

  /** The odds of the event at position `i` of a source's list, per the table. */
  lemma TableOddsAt(source: string, i: nat)
    requires source in Events && i < |Events[source]|
    ensures TableOdds(source, Events[source][i].id) == Events[source][i].odds
  {
  }

  /** The table's odds, event by event; an id outside a source's list has none. */
  lemma TableOddsValues()
    ensures TableOdds("bet365", "b365-1") == "2.5"
    ensures TableOdds("bet365", "b365-2") == "1.95"
    ensures TableOdds("bet365", "b365-3") == "1.75"
    ensures TableOdds("stake", "stake-1") == "3.2"
    ensures TableOdds("stake", "stake-2") == "1.5"
    ensures TableOdds("stake", "stake-3") == "2.1"
    ensures TableOdds("draftkings", "dk-1") == "1.9"
    ensures TableOdds("draftkings", "dk-2") == "2.2"
    ensures TableOdds("draftkings", "dk-3") == "2.4"
    ensures TableOdds("stake", "b365-1") == ""
  {
    TableOddsAt("bet365", 0);
    TableOddsAt("bet365", 1);
    TableOddsAt("bet365", 2);
    TableOddsAt("stake", 0);
    TableOddsAt("stake", 1);
    TableOddsAt("stake", 2);
    TableOddsAt("draftkings", 0);
    TableOddsAt("draftkings", 1);
    TableOddsAt("draftkings", 2);
  }

  /** Whenever an event is selected, the odds shown are that event's odds in the
      current source's table: the odds are a derived copy, never edited directly. */
  predicate OddsAgree(b: BettingData)
  {
    b.eventId != "" ==> b.source in Events && b.odds == TableOdds(b.source, b.eventId)
  }

  /** The text fields an input writes. The source, the event and the odds have no
      input of their own. */
  datatype Field = Title | Description | Stake | Currency | Slug

  function Get(b: BettingData, f: Field): string
  {
    match f
    case Title => b.title
    case Description => b.description
    case Stake => b.stake
    case Currency => b.currency
    case Slug => b.slug
  }

  /** `setBettingData({ ...bettingData, <field>: value })`: the one field takes the
      value; every other text field, the source, the event and the odds stay. */
  function Set(b: BettingData, f: Field, value: string): (r: BettingData)
    ensures Get(r, f) == value
    ensures forall g :: g != f ==> Get(r, g) == Get(b, g)
    ensures r.source == b.source && r.eventId == b.eventId && r.odds == b.odds
  {
    match f
    case Title => b.(title := value)
    case Description => b.(description := value)
    case Stake => b.(stake := value)
    case Currency => b.(currency := value)
    case Slug => b.(slug := value)
  }

  /** What the user can do to the betting form. */
  datatype Edit =
    | SetText(field: Field, text: string)
    | ChooseSource(source: string)
    | ChooseEvent(eventId: string)

  /** The handler each edit runs; a handler that throws leaves the form as it was. */
  function Apply(b: BettingData, e: Edit): (r: BettingData)
    ensures OddsAgree(b) ==> OddsAgree(r)
    ensures !e.ChooseEvent? ==> r.odds == b.odds
  {
    match e
    case SetText(f, v) => Set(b, f, v)
    case ChooseSource(s) => SelectSource(b, s)
    case ChooseEvent(id) =>
      match SelectEvent(b, id)
      case None => b
      case Some(r) => r
  }

  /** The betting clause of the generate button's `disabled` expression, negated:
      a title, an event and a stake are all given. */
  predicate Ready(b: BettingData)
  {
    b.title != "" && b.eventId != "" && b.stake != ""
  }

  /** Changing the source withdraws readiness: the event must be chosen again. */
  lemma SourceChangeBlocks(b: BettingData, source: string)
    ensures !Ready(SelectSource(b, source))
  {
  }

  /** The odds are not reset with the source: choosing an event and then another
      source leaves the first event's odds in place with no event selected. */
  lemma SourceChangeKeepsOdds()
    ensures SelectEvent(Initial, "b365-1") == Some(Initial.(eventId := "b365-1", odds := "2.5"))
    ensures SelectSource(Initial.(eventId := "b365-1", odds := "2.5"), "stake").eventId == ""
    ensures SelectSource(Initial.(eventId := "b365-1", odds := "2.5"), "stake").odds == "2.5"
  {
  }
}

/** The page's state as a whole: the active link type, all four form records
    (each keeps its contents while another is active), the image, and the
    generated link. The events are the handlers the page wires to its controls. */
module PaymentPage {

  import opened Wrappers
  import opened Link
  import ShortId
  import PaymentForm
  import CrowdfundForm
  import PollForm
  import BettingForm
  import ImageUpload

  datatype Page = Page(
    linkType: LinkType,
    payment: PaymentForm.PaymentData,
    crowdfund: CrowdfundForm.CrowdfundData,
    poll: PollForm.PollData,
    betting: BettingForm.BettingData,
    image: ImageUpload.ImageState,
    paymentLink: string,
    showPreview: bool)

  /** The state on load: the payment form active, every form at its initial state,
      no image and no link. */
  const Initial: Page := Page(
    Payment, PaymentForm.Initial, CrowdfundForm.Initial, PollForm.Initial,
    BettingForm.Initial, ImageUpload.Initial, "", false)

  /** The active variant's record, tagged by its variant. */
  datatype ActiveForm =
    | PaymentRecord(payment: PaymentForm.PaymentData)
    | CrowdfundRecord(crowdfund: CrowdfundForm.CrowdfundData)
    | PollRecord(poll: PollForm.PollData)
    | BettingRecord(betting: BettingForm.BettingData)
  {
    function Kind(): LinkType
    {
      match this
      case PaymentRecord(_) => Payment
      case CrowdfundRecord(_) => Crowdfund
      case PollRecord(_) => Poll
      case BettingRecord(_) => Betting
    }
  }

  /** The record the current link type selects. */
  function Active(p: Page): (f: ActiveForm)
    ensures f.Kind() == p.linkType
    ensures f.PaymentRecord? ==> f.payment == p.payment
    ensures f.CrowdfundRecord? ==> f.crowdfund == p.crowdfund
    ensures f.PollRecord? ==> f.poll == p.poll
    ensures f.BettingRecord? ==> f.betting == p.betting
  {
    match p.linkType
    case Payment => PaymentRecord(p.payment)
    case Crowdfund => CrowdfundRecord(p.crowdfund)
    case Poll => PollRecord(p.poll)
    case Betting => BettingRecord(p.betting)
  }

  /** Whether the active record has what a link needs: the validator over the
      tagged union, one clause per variant. */
  predicate Ready(f: ActiveForm)
  {
    match f
    case PaymentRecord(d) => PaymentForm.Ready(d)
    case CrowdfundRecord(d) => CrowdfundForm.Ready(d)
    case PollRecord(d) => PollForm.Ready(d)
    case BettingRecord(d) => BettingForm.Ready(d)
  }

  /** The generate button's `disabled` expression as the page writes it: one
      guarded clause per link type, or-ed together. It holds exactly when the
      active record is not ready: only the active variant's fields take part. */
  predicate GenerateDisabled(p: Page)
    ensures GenerateDisabled(p) <==> !Ready(Active(p))
  {
    || (p.linkType == Payment && (p.payment.description == "" || p.payment.amount == ""))
    || (p.linkType == Crowdfund && (p.crowdfund.title == "" || p.crowdfund.goal == ""))
    || (p.linkType == Poll && (p.poll.question == "" || exists o :: o in p.poll.options && o == ""))
    || (p.linkType == Betting && (p.betting.title == "" || p.betting.eventId == "" || p.betting.stake == ""))
  }

  /** Each variant is enabled exactly when its required fields are given. */
  lemma EnabledPerVariant(p: Page)
    ensures p.linkType == Payment ==>
              (!GenerateDisabled(p) <==> p.payment.description != "" && p.payment.amount != "")
    ensures p.linkType == Crowdfund ==>
              (!GenerateDisabled(p) <==> p.crowdfund.title != "" && p.crowdfund.goal != "")
    ensures p.linkType == Poll ==>
              (!GenerateDisabled(p) <==>
                 p.poll.question != "" && forall i :: 0 <= i < |p.poll.options| ==> p.poll.options[i] != "")
    ensures p.linkType == Betting ==>
              (!GenerateDisabled(p) <==>
                 p.betting.title != "" && p.betting.eventId != "" && p.betting.stake != "")
  {
    var opts := p.poll.options;
    if exists o :: o in opts && o == "" {
      var o :| o in opts && o == "";
      var i :| 0 <= i < |opts| && opts[i] == o;
      assert !(forall j :: 0 <= j < |opts| ==> opts[j] != "");
    } else {
      forall j | 0 <= j < |opts|
        ensures opts[j] != ""
      {
        assert opts[j] in opts;
      }
    }
  }

  /** Payment with an empty amount is disabled; with a description and an amount
      it is enabled. */
  lemma PaymentExamples()
    ensures GenerateDisabled(Initial.(payment := Initial.payment.(description := "Rent")))
    ensures !GenerateDisabled(Initial.(payment := Initial.payment.(description := "Rent", amount := "10")))
  {
  }

  /** `generateLink`: a fresh identifier of the default length, the link for the
      current type, and the preview dialog opened. The forms, the type and the
      image are not touched. */
  function GenerateLink(p: Page, draw: nat -> ShortId.Draw): (r: Page)
    ensures r.showPreview
    ensures ParseLink(r.paymentLink) == Some((ShortId.GenerateShortId(ShortId.DefaultLength, draw), p.linkType))
    ensures r.(paymentLink := p.paymentLink, showPreview := p.showPreview) == p
  {
    var id := ShortId.GenerateShortId(ShortId.DefaultLength, draw);
    NoQueryInId(id);
    ParseAssembled(id, p.linkType);
    p.(paymentLink := AssembleLink(id, p.linkType), showPreview := true)
  }

  /** Identifiers are drawn from letters and digits, so they hold no `?`. */
  lemma NoQueryInId(id: string)
    requires forall c :: c in id ==> c in ShortId.Alphabet
    ensures '?' !in id
  {
  }

  /** The generated link is the domain, five alphabet characters, and the query
      naming the current type. */
  lemma GeneratedLinkShape(p: Page, draw: nat -> ShortId.Draw)
    ensures var link := GenerateLink(p, draw).paymentLink;
            && StartsWith(link, Domain)
            && |link| == |Domain| + 5 + |TypeQuery| + |TypeName(p.linkType)|
            && (forall k :: |Domain| <= k < |Domain| + 5 ==> link[k] in ShortId.Alphabet)
            && link[|Domain| + 5..] == TypeQuery + TypeName(p.linkType)
  {
  }

  /** A click on the generate button: nothing when it is disabled, `generateLink`
      otherwise. */
  function PressGenerate(p: Page, draw: nat -> ShortId.Draw): (r: Page)
    ensures !Ready(Active(p)) ==> r == p
    ensures Ready(Active(p)) ==> r == GenerateLink(p, draw)
  {
    if GenerateDisabled(p) then p else GenerateLink(p, draw)
  }

  /** What the user can do on the page. */
  datatype Event =
    | ChooseType(t: LinkType)
    | EditPayment(field: PaymentForm.Field, text: string)
    | EditCrowdfund(cfield: CrowdfundForm.Field, ctext: string)
    | EditPoll(pollEdit: PollForm.Edit)
    | EditBetting(bettingEdit: BettingForm.Edit)
    | PickFile(file: ImageUpload.File)
    | ClearImage
    | Generate(draw: nat -> ShortId.Draw)

  /** The page's invariants: at least two poll options, and betting odds that are
      the selected event's odds. */
  predicate Valid(p: Page)
  {
    PollForm.Valid(p.poll) && BettingForm.OddsAgree(p.betting)
  }

  /** The page on load satisfies its invariants. */
  lemma InitialValid()
    ensures Valid(Initial)
  {
  }

  /** The handler an event runs, or `None` for an event the page cannot issue (an
      option update for a position the list does not have). Each event changes
      only its own part of the page. */
  function Step(p: Page, e: Event): (r: Option<Page>)
    ensures r.None? <==> e.EditPoll? && !PollForm.Issuable(p.poll, e.pollEdit)
    ensures r.Some? && e.ChooseType? ==> r.value == p.(linkType := e.t)
    ensures r.Some? && e.EditPayment? ==> r.value.payment == PaymentForm.Set(p.payment, e.field, e.text)
    ensures r.Some? && e.EditCrowdfund? ==> r.value.crowdfund == CrowdfundForm.Set(p.crowdfund, e.cfield, e.ctext)
    ensures r.Some? && e.EditPoll? ==> r.value.poll == PollForm.Apply(p.poll, e.pollEdit)
    ensures r.Some? && e.EditBetting? ==> r.value.betting == BettingForm.Apply(p.betting, e.bettingEdit)
    ensures r.Some? && e.PickFile? ==> r.value.image == ImageUpload.SelectFile(p.image, e.file).0
    ensures r.Some? && e.ClearImage? ==> r.value.image == ImageUpload.RemoveImage(p.image)
    ensures r.Some? && e.Generate? ==> r.value == PressGenerate(p, e.draw)
    ensures r.Some? && !e.ChooseType? ==> r.value.linkType == p.linkType
    ensures r.Some? && !e.EditPayment? ==> r.value.payment == p.payment
    ensures r.Some? && !e.EditCrowdfund? ==> r.value.crowdfund == p.crowdfund
    ensures r.Some? && !e.EditPoll? ==> r.value.poll == p.poll
    ensures r.Some? && !e.EditBetting? ==> r.value.betting == p.betting
    ensures r.Some? && !e.PickFile? && !e.ClearImage? ==> r.value.image == p.image
    ensures r.Some? && !e.Generate? ==> r.value.paymentLink == p.paymentLink
    ensures r.Some? && !e.Generate? ==> r.value.showPreview == p.showPreview
    ensures r.Some? && Valid(p) ==> Valid(r.value)
  {
    match e
    case ChooseType(t) => Some(p.(linkType := t))
    case EditPayment(f, v) => Some(p.(payment := PaymentForm.Set(p.payment, f, v)))
    case EditCrowdfund(f, v) => Some(p.(crowdfund := CrowdfundForm.Set(p.crowdfund, f, v)))
    case EditPoll(pe) =>
      if PollForm.Issuable(p.poll, pe) then Some(p.(poll := PollForm.Apply(p.poll, pe))) else None
    case EditBetting(be) => Some(p.(betting := BettingForm.Apply(p.betting, be)))
    case PickFile(f) => Some(p.(image := ImageUpload.SelectFile(p.image, f).0))
    case ClearImage => Some(p.(image := ImageUpload.RemoveImage(p.image)))
    case Generate(draw) => Some(PressGenerate(p, draw))
  }

  /** The events in order, or `None` if one of them cannot be issued when it comes. */
  function Run(p: Page, events: seq<Event>): Option<Page>
    decreases |events|
  {
    if |events| == 0 then Some(p)
    else
      match Step(p, events[0])
      case None => None
      case Some(q) => Run(q, events[1..])
  }

  /** Every state the page reaches from its initial state satisfies its invariants. */
  lemma {:induction false} RunPreservesValid(p: Page, events: seq<Event>)
    requires Valid(p)
    requires Run(p, events).Some?
    ensures Valid(Run(p, events).value)
    decreases |events|
  {
    if |events| > 0 {
      RunPreservesValid(Step(p, events[0]).value, events[1..]);
    }
  }

  /** Switching the link type and back loses nothing in any form. */
  lemma SwitchingTypesKeepsForms(p: Page, t: LinkType)
    ensures Step(Step(p, ChooseType(t)).value, ChooseType(p.linkType)) == Some(p)
  {
  }

  /** Editing a form that is not active never changes whether the button is enabled. */
  lemma InactiveEditsKeepEnablement(p: Page, e: Event)
    requires Step(p, e).Some?
    requires e.EditPayment? ==> p.linkType != Payment
    requires e.EditCrowdfund? ==> p.linkType != Crowdfund
    requires e.EditPoll? ==> p.linkType != Poll
    requires e.EditBetting? ==> p.linkType != Betting
    requires !e.ChooseType? && !e.Generate?
    ensures GenerateDisabled(Step(p, e).value) == GenerateDisabled(p)
  {
  }
}

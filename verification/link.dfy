/** The shareable link of `generateLink`: `slingo.pay/<id>?type=<variant>`,
    and the reading of such a link back into its identifier and variant. */
module Link {

  import opened Wrappers

  /** The page's discriminant `linkType`: which of the four forms is active. */
  datatype LinkType = Payment | Crowdfund | Poll | Betting

  /** The fixed domain and path separator in front of the identifier. */
  const Domain: string := "slingo.pay/"

  /** The query that announces the variant. */
  const TypeQuery: string := "?type="

  /** The name of each variant as it appears in the link. */
  function TypeName(t: LinkType): string
  {
    match t
    case Payment => "payment"
    case Crowdfund => "crowdfund"
    case Poll => "poll"
    case Betting => "betting"
  }

  /** The variant a name denotes, if any. */
  function TypeOfName(name: string): (r: Option<LinkType>)
    ensures r.Some? ==> TypeName(r.value) == name
  {
    if name == "payment" then Some(Payment)
    else if name == "crowdfund" then Some(Crowdfund)
    else if name == "poll" then Some(Poll)
    else if name == "betting" then Some(Betting)
    else None
  }

  /** Every variant has a name, and different variants have different names. */
  lemma TypeNamesDistinct(t: LinkType)
    ensures TypeOfName(TypeName(t)) == Some(t)
  {
  }

  /** `${baseLink}?type=<variant>` with `baseLink` = `slingo.pay/${shortId}`: the
      domain, then the identifier, then the query naming the variant. */
  function AssembleLink(id: string, t: LinkType): (link: string)
    ensures |link| == |Domain| + |id| + |TypeQuery| + |TypeName(t)|
    ensures StartsWith(link, Domain)
    ensures link[|Domain|..|Domain| + |id|] == id
    ensures link[|Domain| + |id|..] == TypeQuery + TypeName(t)
  {
    Domain + id + TypeQuery + TypeName(t)
  }

  /** Reads a link back: the segment between the domain and the first `?` is the
      identifier, and what follows must be the query naming a variant. */
  function ParseLink(link: string): Option<(string, LinkType)>
  {
    if !StartsWith(link, Domain) then None
    else
      var rest := link[|Domain|..];
      match IndexOf(rest, '?')
      case None => None
      case Some(q) =>
        var query := rest[q..];
        if !StartsWith(query, TypeQuery) then None
        else
          match TypeOfName(query[|TypeQuery|..])
          case None => None
          case Some(t) => Some((rest[..q], t))
  }

  /** An identifier without `?` and a variant survive a round trip through a link. */
  lemma ParseAssembled(id: string, t: LinkType)
    requires '?' !in id
    ensures ParseLink(AssembleLink(id, t)) == Some((id, t))
  {
    var query := TypeQuery + TypeName(t);
    var rest := id + query;
    assert AssembleLink(id, t) == Domain + rest;
    StartsWithJoin(Domain, rest);
    IndexOfJoin(id, query, '?');
    assert rest[..|id|] == id && rest[|id|..] == query;
    StartsWithJoin(TypeQuery, TypeName(t));
    TypeNamesDistinct(t);
  }

  /** Conversely, every link that reads back is exactly the link of what it reads
      back to, and its identifier has no `?`: the two directions agree. */
  lemma AssembleParsed(link: string)
    requires ParseLink(link).Some?
    ensures '?' !in ParseLink(link).value.0
    ensures link == AssembleLink(ParseLink(link).value.0, ParseLink(link).value.1)
  {
  }
}

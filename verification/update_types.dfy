/** The push protocol's update kinds and the table from wire tags to kinds. */
module UpdateTypes {
  import opened Wrappers

  datatype UpdateKind = UnknownKind | EventKind | MarketKind | SelectionKind | PriceKind

  /** The numeric value of each kind (Go `iota` order); `UnknownKind` is the zero value. */
  function Code(k: UpdateKind): nat {
    match k
    case UnknownKind => 0
    case EventKind => 1
    case MarketKind => 2
    case SelectionKind => 3
    case PriceKind => 4
  }

  /** Wire tag to kind, as written: `EVENT` is mapped to the market kind, not the event kind. */
  const Tags: map<string, UpdateKind> :=
    map["EVENT" := MarketKind, "EVMKT" := MarketKind, "SELCN" := SelectionKind, "PRICE" := PriceKind]

  /** Table lookup; the decoder reports an absent tag as an error. */
  function KindOf(tag: string): (r: Option<UpdateKind>)
    ensures r.Some? <==> tag == "EVENT" || tag == "EVMKT" || tag == "SELCN" || tag == "PRICE"
    ensures r.Some? ==> r.value != EventKind && r.value != UnknownKind
    ensures tag == "EVENT" || tag == "EVMKT" ==> r == Some(MarketKind)
    ensures tag == "SELCN" ==> r == Some(SelectionKind)
    ensures tag == "PRICE" ==> r == Some(PriceKind)
  {
    if tag in Tags then Some(Tags[tag]) else None
  }

  /** Exactly four tags are recognised, none of them yields the event or unknown kind, and the zero value is distinct from every real kind. */
  lemma TagTableShape()
    ensures Tags.Keys == {"EVENT", "EVMKT", "SELCN", "PRICE"}
    ensures EventKind !in Tags.Values && UnknownKind !in Tags.Values
    ensures Code(UnknownKind) == 0
    ensures forall k :: k != UnknownKind ==> Code(k) != 0
  {
  }
}

/** The activity list: one card per venue with a sport count, at most three
    sport chips and a `+N` label for the rest, and a link to the venue. */
module Activity {
  import opened Base
  import Routing
  import AppRoutes

  /** How many chips a card shows at most. */
  const ChipLimit := 3

  /** A venue as the search returns it. */
  datatype ListedVenue = ListedVenue(vid: nat, name: string, sports: seq<Sport>)

  /** A rendered card: the badge count, the chips, and the `+N` label if any. */
  datatype Card = Card(badge: nat, chips: seq<Sport>, overflow: Option<nat>)

  function Min(a: nat, b: nat): nat
  {
    if a <= b then a else b
  }

  /** `sports.length`, `sports.slice(0, 3)` and `sports.length > 3 && +{length - 3}`. */
  function CardFor(sports: seq<Sport>): (c: Card)
    ensures c.badge == |sports|
    ensures |c.chips| == Min(ChipLimit, |sports|)
    ensures c.overflow.Some? <==> |sports| > ChipLimit
  {
    Card(|sports|, sports[..Min(ChipLimit, |sports|)],
         if |sports| > ChipLimit then Some(|sports| - ChipLimit) else None)
  }

  /** The chips are the first sports in their own order, and every sport is
      either shown as a chip or counted by the `+N` label, never both. */
  lemma CardAccountsForEverySport(sports: seq<Sport>)
    ensures forall i :: 0 <= i < |CardFor(sports).chips| ==> CardFor(sports).chips[i] == sports[i]
    ensures |CardFor(sports).chips| + CardFor(sports).overflow.GetOr(0) == |sports|
    ensures CardFor(sports).overflow.None? ==> CardFor(sports).chips == sports
    ensures CardFor(sports).overflow.Some? ==> CardFor(sports).overflow.value >= 1
  {
  }

  /** What the list area shows. */
  datatype Body = EmptyState | Cards(cards: seq<Card>)

  /** `venues.length === 0 ? empty : venues.map(card)`. */
  function Render(venues: seq<ListedVenue>): (b: Body)
    ensures b.EmptyState? <==> venues == []
    ensures b.Cards? ==> |b.cards| == |venues|
                         && forall i :: 0 <= i < |venues| ==> b.cards[i] == CardFor(venues[i].sports)
  {
    if venues == [] then EmptyState else Cards(CardsFor(venues))
  }

  function CardsFor(venues: seq<ListedVenue>): (cs: seq<Card>)
    ensures |cs| == |venues|
    ensures forall i :: 0 <= i < |venues| ==> cs[i] == CardFor(venues[i].sports)
  {
    if venues == [] then [] else [CardFor(venues[0].sports)] + CardsFor(venues[1..])
  }

  /** `fetchVenues` as the page shows it: a refused or failed search leaves the
      cards exactly as they were; a successful one shows the empty state iff it
      found nothing, and otherwise one card per venue found, in order. */
  lemma RenderAfterFetch(venues: seq<ListedVenue>, response: Outcome<Reply<seq<ListedVenue>>>)
    ensures !(response.Ok? && response.data.success) ==>
              Render(AfterListFetch(venues, response)) == Render(venues)
    ensures response.Ok? && response.data.success ==>
              (Render(AfterListFetch(venues, response)).EmptyState? <==> response.data.data == [])
    ensures response.Ok? && response.data.success && response.data.data != [] ==>
              var b := Render(AfterListFetch(venues, response));
              b.Cards? && |b.cards| == |response.data.data|
              && forall i :: 0 <= i < |b.cards| ==> b.cards[i] == CardFor(response.data.data[i].sports)
  {
  }

  /** `handleClickVenue(vid)`: the path `/venue/${vid}`. */
  function VenueLink(vid: nat): (path: string)
    ensures |path| > |Routing.VenuePrefix| && path[..|Routing.VenuePrefix|] == Routing.VenuePrefix
  {
    Routing.VenuePrefix + NatToString(vid)
  }

  /** A card's link opens the venue view of that very venue: the table takes
      the segment as `:id`, and the segment reads back as the id. */
  lemma VenueLinkRoutes(vid: nat)
    ensures AppRoutes.ViewOf(VenueLink(vid)) == AppRoutes.VenueView(NatToString(vid))
    ensures DecimalValue(NatToString(vid)) == vid
  {
    var seg := NatToString(vid);
    assert forall k :: 0 <= k < |seg| ==> seg[k] != '/';
    AppRoutes.VenuePathView(seg);
    DecimalRoundTrip(vid);
  }
}

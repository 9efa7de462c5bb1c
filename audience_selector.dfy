/** The audience picker shown after a business is chosen: a search over
    name and both descriptions, the card text, and the header count and
    empty-state message. */
module AudienceSelector {
  import opened Values
  import Text
  import Seqs
  import MockBackend

  type Audience = MockBackend.TargetAudience

  /** `field && field.toLowerCase().includes(term.toLowerCase())`. */
  predicate FieldMatches(field: Option<string>, term: string)
  {
    Truthy(field) && Text.Contains(Text.ToLower(field.value), Text.ToLower(term))
  }

  /** The search matches the name, the description or the manual
      description. */
  predicate MatchesSearch(a: Audience, term: string)
  {
    Text.Contains(Text.ToLower(a.name), Text.ToLower(term))
    || FieldMatches(a.description, term)
    || FieldMatches(a.manualDescription, term)
  }

  /** `filteredAudiences`, in the original order. */
  function FilterAudiences(audiences: seq<Audience>, term: string): (r: seq<Audience>)
    ensures forall a :: a in r <==> a in audiences && MatchesSearch(a, term)
    ensures Seqs.IsSubsequence(r, audiences)
    ensures forall a :: multiset(r)[a] == if MatchesSearch(a, term) then multiset(audiences)[a] else 0
  {
    var p := (a: Audience) => MatchesSearch(a, term);
    Seqs.FilterIsSubsequence(audiences, p);
    Seqs.FilterCounts(audiences, p);
    Seqs.Filter(audiences, p)
  }

  /** An empty search shows every audience. */
  lemma {:induction false} EmptySearchKeepsAll(audiences: seq<Audience>)
    ensures FilterAudiences(audiences, "") == audiences
  {
    forall i | 0 <= i < |audiences|
      ensures MatchesSearch(audiences[i], "")
    {
      Text.ContainsEmpty(Text.ToLower(audiences[i].name));
    }
    Seqs.FilterKeepsAll(audiences, (a: Audience) => MatchesSearch(a, ""));
  }

  /** An audience whose own name is the search term is always listed. */
  lemma NameSearchFinds(audiences: seq<Audience>, a: Audience)
    requires a in audiences
    ensures a in FilterAudiences(audiences, a.name)
  {
    Text.ContainsSelf(Text.ToLower(a.name));
  }

  /** The card text: the manual description, else the description. */
  function CardDescription(a: Audience): (r: Option<string>)
    ensures Truthy(a.manualDescription) ==> r == a.manualDescription
    ensures !Truthy(a.manualDescription) ==> r == a.description
  {
    if Truthy(a.manualDescription) then a.manualDescription else a.description
  }

  /** What the grid area shows. */
  datatype Listing = Listing(count: nat, cards: seq<Audience>, emptyText: Option<string>)

  function ListingFor(audiences: seq<Audience>, term: string): (l: Listing)
    ensures l.cards == FilterAudiences(audiences, term) && l.count == |l.cards|
    ensures l.emptyText.Some? <==> l.cards == []
    ensures l.cards == [] && term != "" ==> l.emptyText == Some("Try adjusting your search terms")
    ensures l.cards == [] && term == "" ==> l.emptyText == Some("Create your first target audience to get started")
  {
    var cards := FilterAudiences(audiences, term);
    var empty :=
      if cards != [] then None
      else if term != "" then Some("Try adjusting your search terms")
      else Some("Create your first target audience to get started");
    Listing(|cards|, cards, empty)
  }

  /** With no search term the empty-state text appears only when there
      are no audiences at all. */
  lemma EmptyStateMeansNoAudiences(audiences: seq<Audience>)
    ensures ListingFor(audiences, "").emptyText.Some? <==> audiences == []
  {
    EmptySearchKeepsAll(audiences);
  }
}

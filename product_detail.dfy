/**
 * The product detail screen (frontend/src/pages/ProductDetailScreen.tsx): the
 * candidates offered as new alternatives in the product editor, and the
 * supermarket badge's colours.
 */
module ProductDetail {
  import opened Wrappers
  import opened JsText
  import opened Types
  import Seqs
  import ColorPicker

  /** At most this many candidates are offered. */
  const MaxCandidates: nat := 5

  /** Not the product itself, not already an alternative, and its name contains the search. */
  predicate IsCandidate(p: Product, product: Product, alternatives: seq<Product>, searchTerm: string)
  {
    p.id != product.id &&
    !(exists k :: 0 <= k < |alternatives| && alternatives[k].id == p.id) &&
    ContainsIgnoringCase(p.name, searchTerm)
  }

  /** `potentialAlternatives`: the first five candidates in catalogue order. */
  function PotentialAlternatives(allProducts: seq<Product>, product: Product, alternatives: seq<Product>,
                                 searchTerm: string): (r: seq<Product>)
    ensures |r| <= MaxCandidates
    ensures forall i :: 0 <= i < |r| ==> r[i] in allProducts && r[i].id != product.id
    ensures forall i, k :: 0 <= i < |r| && 0 <= k < |alternatives| ==> r[i].id != alternatives[k].id
    ensures forall i :: 0 <= i < |r| ==> ContainsIgnoringCase(r[i].name, searchTerm)
    ensures r <= Seqs.Filter(allProducts, (p: Product) => IsCandidate(p, product, alternatives, searchTerm))
    ensures |r| < MaxCandidates ==>
      forall i :: 0 <= i < |allProducts| && IsCandidate(allProducts[i], product, alternatives, searchTerm) ==> allProducts[i] in r
  {
    var candidates := Seqs.Filter(allProducts, (p: Product) => IsCandidate(p, product, alternatives, searchTerm));
    var r := Seqs.Take(candidates, MaxCandidates);
    assert forall i :: 0 <= i < |r| ==> r[i] == candidates[i];
    r
  }

  /** The first candidates come first: the offer is a prefix of all candidates, in catalogue order. */
  lemma CandidatesInCatalogueOrder(allProducts: seq<Product>, product: Product, alternatives: seq<Product>, searchTerm: string)
    ensures Seqs.IsSubsequence(PotentialAlternatives(allProducts, product, alternatives, searchTerm), allProducts)
  {
    var p := (p: Product) => IsCandidate(p, product, alternatives, searchTerm);
    var candidates := Seqs.Filter(allProducts, p);
    var r := PotentialAlternatives(allProducts, product, alternatives, searchTerm);
    Seqs.FilterIsSubsequence(allProducts, p);
    Seqs.PrefixOfSubsequence(r, candidates, allProducts);
  }

  // ---------------------------------------------------------------------------
  // Supermarket badge

  /** `color || '#6366F1'`. */
  function BadgeColor(color: Option<string>): (c: string)
    ensures color.Some? && color.value != "" ==> c == color.value
    ensures (color.None? || color.value == "") ==> c == ColorPicker.DefaultColor
  {
    OrText(color, ColorPicker.DefaultColor)
  }

  /** The badge's text colour is the contrast colour of its background, default or not. */
  lemma BadgeTextColor(color: Option<string>)
    ensures ColorPicker.ContrastTextColor(Some(BadgeColor(color))) == ColorPicker.ContrastTextColor(color)
    ensures ColorPicker.ContrastTextColor(Some(BadgeColor(None))) == ColorPicker.White
  {
    ColorPicker.DefaultGetsWhiteText();
  }
}

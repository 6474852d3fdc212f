/** The beauty recommender: the phase-based product recommendations and the
    price / clean-beauty / cruelty-free filter over the product catalogue. */
module BeautyRecommender {
  import opened CycleContext

  /** A catalogue product. Prices are whole currency units; the rating,
      description, ingredients, category and image are not used in any
      decision and are not modelled. */
  datatype Product = Product(
    id: string,
    name: string,
    price: int,
    tags: seq<string>,
    isCleanBeauty: bool,
    isCrueltyFree: bool)

  /** The filter settings: the slider's inclusive price range and the two
      toggles. */
  datatype Filters = Filters(
    minPrice: int,
    maxPrice: int,
    cleanBeautyOnly: bool,
    crueltyFreeOnly: bool)

  /** The initial filter settings: prices 0 to 100, both toggles off. */
  const DefaultFilters: Filters := Filters(0, 100, false, false)

  /** The product catalogue, in display order. */
  const Catalogue: seq<Product> := [
    Product("1", "Gentle Hydration Cleanser", 24, ["Fragrance-free", "Gentle", "Hydrating", "Soothing"], true, true),
    Product("2", "Calming Recovery Mask", 32, ["Anti-inflammatory", "Soothing", "Weekly use", "Gentle"], true, true),
    Product("3", "Ultra Sensitive Moisturizer", 28, ["Fragrance-free", "Gentle", "Hydrating", "Soothing"], true, true),
    Product("4", "Brightening Vitamin C Serum", 42, ["Brightening", "Antioxidant", "Morning use", "Exfoliating"], true, true),
    Product("5", "Gentle Exfoliating Toner", 28, ["Exfoliating", "Hydrating", "Daily use", "Brightening"], true, true),
    Product("6", "Daily Glow Moisturizer", 36, ["Brightening", "Antioxidant", "Morning use", "Lightweight"], true, true),
    Product("7", "Glowing Hydration Essence", 38, ["Hydrating", "Glowing", "Twice daily", "Plumping"], true, true),
    Product("8", "Invisible Shield SPF 50", 34, ["Broad spectrum", "Oil-free", "Daily protection", "Glowing"], true, true),
    Product("9", "Dewy Finish Setting Spray", 26, ["Hydrating", "Glowing", "Daily use", "Radiant"], true, true),
    Product("10", "Oil Control Treatment", 26, ["Oil-control", "Anti-acne", "Nighttime use", "Purifying"], true, true),
    Product("11", "Pore Clearing Clay Mask", 30, ["Purifying", "Pore-minimizing", "Weekly use", "Oil-control"], true, true),
    Product("12", "Balancing Gel Moisturizer", 32, ["Oil-control", "Balancing", "Lightweight", "Purifying"], true, true)
  ]

  /** `r` is `s` with some elements left out, the rest in their order. */
  predicate IsSubsequence(r: seq<Product>, s: seq<Product>)
    decreases |s|
  {
    if r == [] then true
    else if s == [] then false
    else if r[0] == s[0] then IsSubsequence(r[1..], s[1..])
    else IsSubsequence(r, s[1..])
  }

  /** JavaScript's `Array.prototype.filter`: the elements of `s` that `keep`
      accepts, each as often as it occurs in `s`, in their order in `s`. */
  function Filter(s: seq<Product>, keep: Product -> bool): (r: seq<Product>)
    ensures IsSubsequence(r, s)
    ensures forall i :: 0 <= i < |r| ==> keep(r[i])
    ensures forall x :: multiset(r)[x] == if keep(x) then multiset(s)[x] else 0
  {
    if s == [] then []
    else
      var rest := Filter(s[1..], keep);
      assert s == [s[0]] + s[1..];
      if keep(s[0]) then [s[0]] + rest else rest
  }

  /** The tags that earn a recommendation in each phase. */
  function PhaseTags(phase: CyclePhase): seq<string> {
    match phase
    case Menstruation => ["Gentle", "Hydrating", "Soothing"]
    case Follicular => ["Brightening", "Antioxidant", "Exfoliating"]
    case Ovulation => ["Hydrating", "Antioxidant", "Glowing"]
    case Luteal => ["Oil-control", "Anti-acne", "Purifying"]
  }

  /** The product carries at least one of the phase's tags. */
  predicate SuitsPhase(product: Product, phase: CyclePhase) {
    exists tag :: tag in product.tags && tag in PhaseTags(phase)
  }

  /** The recommended products: the catalogue products, in catalogue order,
      that carry a tag of the current phase. The filter settings play no
      part. */
  function Recommendations(catalogue: seq<Product>, phase: CyclePhase): (r: seq<Product>)
    ensures IsSubsequence(r, catalogue)
    ensures forall i :: 0 <= i < |r| ==> SuitsPhase(r[i], phase)
    ensures forall x :: x in catalogue && SuitsPhase(x, phase) ==> x in r
    ensures forall x :: multiset(r)[x] == if SuitsPhase(x, phase) then multiset(catalogue)[x] else 0
  {
    var r := Filter(catalogue, product => SuitsPhase(product, phase));
    assert forall x :: x in catalogue && SuitsPhase(x, phase) ==> x in multiset(r);
    r
  }

  /** The filter's test for one product: inside the inclusive price range,
      and clean and cruelty-free when those toggles are on. */
  predicate PassesFilters(product: Product, f: Filters) {
    && f.minPrice <= product.price <= f.maxPrice
    && (f.cleanBeautyOnly ==> product.isCleanBeauty)
    && (f.crueltyFreeOnly ==> product.isCrueltyFree)
  }

  /** The filtered products, in catalogue order. */
  function FilteredProducts(catalogue: seq<Product>, f: Filters): (r: seq<Product>)
    ensures IsSubsequence(r, catalogue)
    ensures forall i :: 0 <= i < |r| ==> PassesFilters(r[i], f)
    ensures forall x :: x in catalogue && PassesFilters(x, f) ==> x in r
    ensures forall x :: multiset(r)[x] == if PassesFilters(x, f) then multiset(catalogue)[x] else 0
  {
    var r := Filter(catalogue, product => PassesFilters(product, f));
    assert forall x :: x in catalogue && PassesFilters(x, f) ==> x in multiset(r);
    r
  }

  /** `narrow` is at least as strict as `wide`: its price range lies inside
      `wide`'s and each toggle on in `wide` is on in `narrow`. */
  predicate AtLeastAsStrict(narrow: Filters, wide: Filters) {
    && wide.minPrice <= narrow.minPrice
    && narrow.maxPrice <= wide.maxPrice
    && (wide.cleanBeautyOnly ==> narrow.cleanBeautyOnly)
    && (wide.crueltyFreeOnly ==> narrow.crueltyFreeOnly)
  }

  /** Every product that passes `narrow` passes `wide`. */
  lemma StricterFiltersPassLess(product: Product, narrow: Filters, wide: Filters)
    requires AtLeastAsStrict(narrow, wide)
    ensures PassesFilters(product, narrow) ==> PassesFilters(product, wide)
  {
  }

  /** A stricter filter keeps a subsequence of what a weaker one keeps. */
  lemma {:induction false} FilterIsMonotone(s: seq<Product>, strict: Product -> bool, loose: Product -> bool)
    requires forall x :: strict(x) ==> loose(x)
    ensures IsSubsequence(Filter(s, strict), Filter(s, loose))
  {
    if s != [] {
      FilterIsMonotone(s[1..], strict, loose);
      var a, b := Filter(s[1..], strict), Filter(s[1..], loose);
      if strict(s[0]) {
        assert Filter(s, strict) == [s[0]] + a;
        assert Filter(s, loose) == [s[0]] + b;
      } else if loose(s[0]) {
        assert Filter(s, loose) == [s[0]] + b;
        SubsequenceOfTail(Filter(s, strict), s[0], b);
      }
    }
  }

  /** A subsequence of `t` is a subsequence of `[x] + t`. */
  lemma {:induction false} SubsequenceOfTail(r: seq<Product>, x: Product, t: seq<Product>)
    requires IsSubsequence(r, t)
    ensures IsSubsequence(r, [x] + t)
    decreases |t|, 1
  {
    if r != [] && r[0] == x {
      SubsequenceDropsHead(r, t);
      assert ([x] + t)[1..] == t;
    } else if r != [] {
      assert ([x] + t)[1..] == t;
    }
  }

  /** Leaving out the first element of a subsequence keeps it a
      subsequence. */
  lemma {:induction false} SubsequenceDropsHead(r: seq<Product>, t: seq<Product>)
    requires r != [] && IsSubsequence(r, t)
    ensures IsSubsequence(r[1..], t)
    decreases |t|, 0
  {
    assert t != [];
    if r[0] == t[0] {
      SubsequenceOfTail(r[1..], t[0], t[1..]);
    } else {
      SubsequenceDropsHead(r, t[1..]);
      SubsequenceOfTail(r[1..], t[0], t[1..]);
    }
    assert [t[0]] + t[1..] == t;
  }

  /** Enabling a toggle or narrowing the price range never adds a product:
      the stricter settings show a subsequence of what the looser ones
      show. */
  lemma NarrowingNeverAdds(catalogue: seq<Product>, narrow: Filters, wide: Filters)
    requires AtLeastAsStrict(narrow, wide)
    ensures IsSubsequence(FilteredProducts(catalogue, narrow), FilteredProducts(catalogue, wide))
  {
    FilterIsMonotone(catalogue, product => PassesFilters(product, narrow),
                     product => PassesFilters(product, wide));
  }

  /** A filter that accepts every element returns the sequence unchanged. */
  lemma {:induction false} FilterKeepsAll(s: seq<Product>, keep: Product -> bool)
    requires forall i :: 0 <= i < |s| ==> keep(s[i])
    ensures Filter(s, keep) == s
  {
    if s != [] {
      FilterKeepsAll(s[1..], keep);
      assert s == [s[0]] + s[1..];
    }
  }

  /** With the initial settings the whole catalogue is shown. */
  lemma DefaultFiltersShowCatalogue()
    ensures FilteredProducts(Catalogue, DefaultFilters) == Catalogue
  {
    FilterKeepsAll(Catalogue, product => PassesFilters(product, DefaultFilters));
  }

  /** A product can be recommended in several phases: the first cleanser is
      'Hydrating', a tag of both the menstruation and the ovulation sets. */
  lemma HydratingSuitsTwoPhases()
    ensures Catalogue[0] in Recommendations(Catalogue, Menstruation)
    ensures Catalogue[0] in Recommendations(Catalogue, Ovulation)
  {
    var hydrating := Catalogue[0].tags[2];
    assert hydrating == PhaseTags(Menstruation)[1] && hydrating in PhaseTags(Menstruation);
    assert hydrating == PhaseTags(Ovulation)[0] && hydrating in PhaseTags(Ovulation);
    assert SuitsPhase(Catalogue[0], Menstruation);
    assert SuitsPhase(Catalogue[0], Ovulation);
  }
}

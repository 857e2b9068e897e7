/**
 * The provider catalog on the home page (auth.js) and the customer
 * dashboard (dashboard.js): the fallback list, the search and selector
 * filter, the category dropdown and the dashboard's name search.
 */
module Catalog {
  import opened Wrappers
  import opened Text
  import Seqs

  /**
   * A provider record. A missing text field is "", a missing
   * `serviceDuration` is 0; `rating` is in tenths of a star.
   */
  datatype Provider = Provider(
    id: int,
    name: string,
    category: string,
    service: string,
    rating: nat,
    email: string,
    phone: string,
    image: string,
    description: string,
    price: string,
    calendarSync: bool,
    serviceDuration: nat)

  /** The six providers the home page shows when the backend cannot be reached. */
  const SeedProviders: seq<Provider> := [
    Provider(101, "John Doe", "Electrician", "Home Electrical Repair", 49, "john.electrician@example.com", "+1 555-1122",
             "/img/providers/electrician1.jpg", "Certified electrician with 10+ years experience.", "50/hour", true, 60),
    Provider(102, "Maria Santos", "Plumber", "Pipe & Leak Fixing", 47, "maria.plumbing@example.com", "+1 555-2233",
             "/img/providers/plumber1.jpg", "Professional plumber specializing in leak repairs.", "45/hour", false, 60),
    Provider(103, "Alex Tan", "Carpenter", "Furniture & Wood Repair", 48, "alex.carpentry@example.com", "+1 555-3344",
             "/img/providers/carpenter1.jpg", "Skilled carpenter offering furniture repair.", "60/hour", false, 90),
    Provider(104, "Sarah Miller", "Cleaning", "Home Deep Cleaning", 46, "sarah.cleaning@example.com", "+1 555-4455",
             "/img/providers/cleaner1.jpg", "Expert in deep cleaning with eco-friendly materials.", "30/hour", false, 120),
    Provider(105, "Michael Roberts", "HVAC", "Aircon Maintenance & Repair", 49, "mike.hvac@example.com", "+1 555-5566",
             "/img/providers/hvac1.jpg", "Licensed HVAC specialist offering AC repair.", "70/hour", true, 90),
    Provider(106, "Grace Lee", "Painter", "Interior & Exterior Painting", 45, "grace.painting@example.com", "+1 555-6677",
             "/img/providers/painter1.jpg", "Professional painter with expertise in wall restoration.", "40/hour", false, 60)
  ]

  /**
   * The catalog after `loadProviders`: the backend's list when it answered
   * with one, the fallback list when the request failed (`None`).
   */
  function Loaded(reply: Option<seq<Provider>>): (r: seq<Provider>)
    ensures reply.Some? ==> r == reply.value
    ensures reply.None? ==> |r| == 6 && forall i :: 0 <= i < 6 ==> r[i].id == 101 + i
  {
    match reply
    case None => SeedProviders
    case Some(list) => list
  }

  /** A selector's value, `select.value || 'all'`. */
  function Selected(value: string): string {
    if value == "" then "all" else value
  }

  /**
   * The filter predicate of `renderProviders`: the lower-cased query occurs
   * in the lower-cased name or description, and category and price match
   * their selectors unless those are "all".
   */
  predicate Keeps(p: Provider, query: string, category: string, price: string) {
    (Contains(ToLower(p.name), query) || Contains(ToLower(p.description), query))
    && (category == "all" || p.category == category)
    && (price == "all" || p.price == price)
  }

  /** The providers `renderProviders` shows for the search text and the two selectors. */
  function FilterProviders(providers: seq<Provider>, search: string, category: string, price: string): (r: seq<Provider>)
    ensures Seqs.IsSubsequence(r, providers)
    ensures forall p :: p in r <==> p in providers && Keeps(p, ToLower(search), Selected(category), Selected(price))
  {
    var query := ToLower(search);
    var cat := Selected(category);
    var pr := Selected(price);
    Seqs.Filter(providers, p => Keeps(p, query, cat, pr))
  }

  /** An empty search with both selectors on "all" (or unset) shows the whole catalog. */
  lemma FilterShowsAll(providers: seq<Provider>, category: string, price: string)
    requires Selected(category) == "all" && Selected(price) == "all"
    ensures FilterProviders(providers, "", category, price) == providers
  {
    forall p | p in providers
      ensures Keeps(p, ToLower(""), "all", "all")
    {
      ContainsEmpty(ToLower(p.name));
    }
    Seqs.FilterAll(providers, p => Keeps(p, ToLower(""), "all", "all"));
  }

  /** The search ignores the case of the text typed. */
  lemma FilterIgnoresCase(providers: seq<Provider>, search: string, category: string, price: string)
    ensures FilterProviders(providers, ToLower(search), category, price) == FilterProviders(providers, search, category, price)
  {
    ToLowerIdempotent(search);
  }

  /** Narrowing the category cannot add providers: every result is in the unfiltered "all" result. */
  lemma CategoryNarrows(providers: seq<Provider>, search: string, category: string, price: string)
    ensures forall p :: p in FilterProviders(providers, search, category, price) ==>
      p in FilterProviders(providers, search, "all", price)
  {
  }

  // ------------------------------------------------------------ dropdown

  /** An `<option>` of the category dropdown. */
  datatype CategoryOption = CategoryOption(value: string, text: string)

  const AllCategories := CategoryOption("all", "All Categories")

  /** The providers' categories, in catalog order. */
  function Categories(providers: seq<Provider>): seq<string> {
    seq(|providers|, i requires 0 <= i < |providers| => providers[i].category)
  }

  function OptionsFor(categories: seq<string>): (r: seq<CategoryOption>)
    ensures |r| == |categories|
    ensures forall i :: 0 <= i < |r| ==> r[i] == CategoryOption(categories[i], UpperFirst(categories[i]))
  {
    seq(|categories|, i requires 0 <= i < |categories| => CategoryOption(categories[i], UpperFirst(categories[i])))
  }

  /** `populateCategoryDropdown`: "All Categories", then one option per distinct category. */
  function CategoryOptions(providers: seq<Provider>): (r: seq<CategoryOption>)
    ensures |r| >= 1 && r[0] == AllCategories
  {
    [AllCategories] + OptionsFor(Seqs.Distinct(Categories(providers)))
  }

  /** The options built from a list of categories: each distinct one once, labelled, in first-occurrence order. */
  lemma OptionsForDistinct(cats: seq<string>)
    ensures var r := OptionsFor(Seqs.Distinct(cats));
      && (forall i :: 0 <= i < |r| ==> r[i].text == UpperFirst(r[i].value) && r[i].value in cats)
      && (forall c :: c in cats ==> exists i :: 0 <= i < |r| && r[i].value == c)
      && (forall i, j :: 0 <= i < j < |r| ==> r[i].value != r[j].value)
  {
    var d := Seqs.Distinct(cats);
    var r := OptionsFor(d);
    Seqs.DistinctNoDuplicates(cats);
    forall c | c in cats
      ensures exists i :: 0 <= i < |r| && r[i].value == c
    {
      var m := Seqs.IndexOf(d, c);
      assert r[m].value == c;
    }
  }

  /**
   * After "All Categories", the options are the providers' categories,
   * each exactly once, each labelled with its first letter upper-cased.
   */
  lemma CategoryOptionsSpec(providers: seq<Provider>)
    ensures var r := CategoryOptions(providers);
      && (forall i :: 1 <= i < |r| ==> r[i].text == UpperFirst(r[i].value))
      && (forall i :: 1 <= i < |r| ==> r[i].value in Categories(providers))
      && (forall k :: 0 <= k < |providers| ==> exists i :: 1 <= i < |r| && r[i].value == providers[k].category)
      && (forall i, j :: 1 <= i < j < |r| ==> r[i].value != r[j].value)
  {
    var cats := Categories(providers);
    var o := OptionsFor(Seqs.Distinct(cats));
    var r := CategoryOptions(providers);
    OptionsForDistinct(cats);
    assert r == [AllCategories] + o;
    forall k | 0 <= k < |providers|
      ensures exists i :: 1 <= i < |r| && r[i].value == providers[k].category
    {
      assert cats[k] in cats;
      var i :| 0 <= i < |o| && o[i].value == cats[k];
      assert r[i + 1] == o[i];
    }
  }

  lemma OptionsForOrder(cats: seq<string>, i: nat, j: nat)
    requires i < j < |Seqs.Distinct(cats)|
    ensures var o := OptionsFor(Seqs.Distinct(cats));
      o[i].value in cats && o[j].value in cats &&
      Seqs.IndexOf(cats, o[i].value) < Seqs.IndexOf(cats, o[j].value)
  {
    Seqs.DistinctOrder(cats, i, j);
  }

  /** Options come in the order their categories first appear in the catalog. */
  lemma CategoryOptionsOrder(providers: seq<Provider>, i: nat, j: nat)
    requires 1 <= i < j < |CategoryOptions(providers)|
    ensures var cats, r := Categories(providers), CategoryOptions(providers);
      r[i].value in cats && r[j].value in cats && Seqs.IndexOf(cats, r[i].value) < Seqs.IndexOf(cats, r[j].value)
  {
    CategoryOptionsAt(providers, i);
    CategoryOptionsAt(providers, j);
    OptionsForOrder(Categories(providers), i - 1, j - 1);
  }

  lemma CategoryOptionsAt(providers: seq<Provider>, i: nat)
    requires 1 <= i < |CategoryOptions(providers)|
    ensures CategoryOptions(providers)[i] == OptionsFor(Seqs.Distinct(Categories(providers)))[i - 1]
  {
  }

  // ------------------------------------------------------- dashboard search

  /** dashboard.js: the providers whose lower-cased name contains the lower-cased input. */
  function NameSearch(providers: seq<Provider>, input: string): (r: seq<Provider>)
    ensures Seqs.IsSubsequence(r, providers)
    ensures forall p :: p in r <==> p in providers && Contains(ToLower(p.name), ToLower(input))
  {
    var query := ToLower(input);
    Seqs.Filter(providers, (p: Provider) => Contains(ToLower(p.name), query))
  }

  /** An empty input keeps the whole list. */
  lemma NameSearchEmpty(providers: seq<Provider>)
    ensures NameSearch(providers, "") == providers
  {
    forall p | p in providers
      ensures Contains(ToLower(p.name), ToLower(""))
    {
      ContainsEmpty(ToLower(p.name));
    }
    Seqs.FilterAll(providers, (p: Provider) => Contains(ToLower(p.name), ToLower("")));
  }
}

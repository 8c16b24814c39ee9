/** The provider directory: its category list and its search filter over the
    fixed list of providers. */
module ProviderList {
  import opened Text
  import opened Types

  const ALL_CATEGORIES: string := "Todos"

  const MOCK_PROVIDERS: seq<Provider> := [
    Provider("1", "Carlos Gomez", "Albañilería y Pintura", 4.8, "Palermo, CABA", "https://picsum.photos/60/60?random=1", true),
    Provider("2", "Estudio Arquitectura BA", "Arquitectura", 5.0, "Recoleta, CABA", "https://picsum.photos/60/60?random=2", true),
    Provider("3", "ElectroSol", "Electricidad", 4.5, "Córdoba Capital", "https://picsum.photos/60/60?random=3", false),
    Provider("4", "Muebles & Diseño", "Interiorismo", 4.9, "San Isidro, GBA", "https://picsum.photos/60/60?random=4", false),
    Provider("5", "Plomería Total", "Plomería", 4.2, "Rosario, SF", "https://picsum.photos/60/60?random=5", false),
    Provider("6", "Pisos Brillantes", "Pulido de Pisos", 4.7, "Belgrano, CABA", "https://picsum.photos/60/60?random=6", false),
    Provider("7", "Gasistas Matriculados", "Gasista", 4.6, "La Plata, PBA", "https://picsum.photos/60/60?random=7", false)
  ]

  // ---------------------------------------------------------------------
  // Sequence vocabulary
  // ---------------------------------------------------------------------

  predicate NoDuplicates<T(==)>(s: seq<T>) {
    forall i, j :: 0 <= i < j < |s| ==> s[i] != s[j]
  }

  /** The index of the first occurrence of `x` in `s`. */
  function FirstIndex<T(==)>(s: seq<T>, x: T): (k: nat)
    requires x in s
    ensures k < |s| && s[k] == x
    ensures forall j :: 0 <= j < k ==> s[j] != x
  {
    if s[0] == x then 0 else 1 + FirstIndex(s[1..], x)
  }

  /** `a` is `b` with some elements left out, the rest kept in order. */
  predicate IsSubsequence<T(==)>(a: seq<T>, b: seq<T>)
    decreases |b|
  {
    a == [] ||
    (b != [] && ((a[0] == b[0] && IsSubsequence(a[1..], b[1..])) || IsSubsequence(a, b[1..])))
  }

  // ---------------------------------------------------------------------
  // Categories
  // ---------------------------------------------------------------------

  function Professions(providers: seq<Provider>): (r: seq<string>)
    ensures |r| == |providers|
    ensures forall i :: 0 <= i < |providers| ==> r[i] == providers[i].profession
  {
    seq(|providers|, i requires 0 <= i < |providers| => providers[i].profession)
  }

  /** `Array.from(new Set(xs))`: each element once, in the order of its
      first occurrence. Adding to a JavaScript `Set` keeps insertion order
      and ignores an element already present. */
  function Dedup(xs: seq<string>): (r: seq<string>)
    ensures forall x :: x in r <==> x in xs
    ensures NoDuplicates(r)
    ensures forall i, j :: 0 <= i < j < |r| ==> FirstIndex(xs, r[i]) < FirstIndex(xs, r[j])
  {
    if xs == [] then []
    else
      var init := xs[..|xs| - 1];
      var last := xs[|xs| - 1];
      var r := Dedup(init);
      assert xs == init + [last];
      FirstIndexOfExtension(init, last);
      if last in r then r else r + [last]
  }

  /** Appending an element moves no first occurrence already in the sequence,
      and a new element first occurs at the end. */
  lemma {:induction false} FirstIndexOfExtension<T>(s: seq<T>, x: T)
    ensures forall y :: y in s ==> FirstIndex(s + [x], y) == FirstIndex(s, y)
    ensures x !in s ==> FirstIndex(s + [x], x) == |s|
  {
    forall y | y in s
      ensures FirstIndex(s + [x], y) == FirstIndex(s, y)
    {
      var k := FirstIndex(s, y);
      assert (s + [x])[k] == y;
      assert forall j :: 0 <= j < k ==> (s + [x])[j] != y;
      FirstIndexIsUnique(s + [x], y, k);
    }
    if x !in s {
      FirstIndexIsUnique(s + [x], x, |s|);
    }
  }

  /** The first occurrence is the index where `x` occurs with no earlier
      occurrence. */
  lemma {:induction false} FirstIndexIsUnique<T>(s: seq<T>, x: T, k: nat)
    requires k < |s| && s[k] == x
    requires forall j :: 0 <= j < k ==> s[j] != x
    ensures FirstIndex(s, x) == k
  {
    if k > 0 {
      assert s[1..][k - 1] == x;
      FirstIndexIsUnique(s[1..], x, k - 1);
    }
  }

  /** The options of the category drop-down: 'Todos' first, then each
      profession of the providers once, in order of first appearance. */
  function Categories(providers: seq<Provider>): (r: seq<string>)
    ensures |r| >= 1 && r[0] == ALL_CATEGORIES
    ensures forall p :: p in providers ==> p.profession in r[1..]
    ensures forall c :: c in r[1..] ==> exists p :: p in providers && p.profession == c
    ensures NoDuplicates(r[1..])
    ensures forall i, j :: 1 <= i < j < |r| ==>
      r[i] in Professions(providers) && r[j] in Professions(providers) &&
      FirstIndex(Professions(providers), r[i]) < FirstIndex(Professions(providers), r[j])
  {
    var professions := Professions(providers);
    var unique := Dedup(professions);
    assert forall p :: p in providers ==> p.profession in professions;
    forall c | c in unique
      ensures exists p :: p in providers && p.profession == c
    {
      var i :| 0 <= i < |professions| && professions[i] == c;
      assert providers[i] in providers;
    }
    assert ([ALL_CATEGORIES] + unique)[1..] == unique;
    [ALL_CATEGORIES] + unique
  }

  // ---------------------------------------------------------------------
  // Filter
  // ---------------------------------------------------------------------

  /** The search matches the provider's name or location, both sides
      lower-cased. */
  predicate MatchesSearch(p: Provider, searchTerm: string) {
    Includes(Lower(p.name), Lower(searchTerm)) || Includes(Lower(p.location), Lower(searchTerm))
  }

  predicate MatchesCategory(p: Provider, selectedCategory: string) {
    selectedCategory == ALL_CATEGORIES || p.profession == selectedCategory
  }

  predicate Keep(p: Provider, searchTerm: string, selectedCategory: string) {
    MatchesSearch(p, searchTerm) && MatchesCategory(p, selectedCategory)
  }

  /** `providers.filter(...)` with the search and category conditions. */
  function Filter(providers: seq<Provider>, searchTerm: string, selectedCategory: string): (r: seq<Provider>)
    ensures forall p :: p in r <==> p in providers && Keep(p, searchTerm, selectedCategory)
    ensures IsSubsequence(r, providers)
  {
    if providers == [] then []
    else
      var rest := Filter(providers[1..], searchTerm, selectedCategory);
      if Keep(providers[0], searchTerm, selectedCategory) then
        assert ([providers[0]] + rest)[1..] == rest;
        [providers[0]] + rest
      else
        rest
  }

  /** The list the directory shows. The `renovationItems` the component
      receives are never read. */
  function FilteredProviders(renovationItems: seq<RenovationItem>, searchTerm: string, selectedCategory: string)
    : (r: seq<Provider>)
    ensures IsSubsequence(r, MOCK_PROVIDERS)
    ensures selectedCategory != ALL_CATEGORIES ==> forall p :: p in r ==> p.profession == selectedCategory
  {
    Filter(MOCK_PROVIDERS, searchTerm, selectedCategory)
  }

  /** The result does not depend on the renovation items. */
  lemma FilterIgnoresItems(items: seq<RenovationItem>, items': seq<RenovationItem>, searchTerm: string, selectedCategory: string)
    ensures FilteredProviders(items, searchTerm, selectedCategory) == FilteredProviders(items', searchTerm, selectedCategory)
  {
  }

  /** An empty search with every category keeps the whole list. */
  lemma {:induction false} EmptySearchKeepsAll(providers: seq<Provider>)
    ensures Filter(providers, "", ALL_CATEGORIES) == providers
  {
    if providers != [] {
      IncludesEmpty(Lower(providers[0].name));
      EmptySearchKeepsAll(providers[1..]);
    }
  }

  /** The search is case-insensitive: a term and its lower-case form select
      the same providers. */
  lemma {:induction false} SearchIgnoresCase(providers: seq<Provider>, searchTerm: string, selectedCategory: string)
    ensures Filter(providers, Lower(searchTerm), selectedCategory) == Filter(providers, searchTerm, selectedCategory)
  {
    LowerIdempotent(searchTerm);
    if providers != [] {
      SearchIgnoresCase(providers[1..], searchTerm, selectedCategory);
    }
  }

  /** A category narrows the result for the same search: what it shows is
      a subsequence of what 'Todos' shows. */
  lemma {:induction false} CategoryNarrowsAll(providers: seq<Provider>, searchTerm: string, selectedCategory: string)
    ensures IsSubsequence(Filter(providers, searchTerm, selectedCategory), Filter(providers, searchTerm, ALL_CATEGORIES))
  {
    if providers != [] {
      CategoryNarrowsAll(providers[1..], searchTerm, selectedCategory);
      var a := Filter(providers, searchTerm, selectedCategory);
      var a' := Filter(providers[1..], searchTerm, selectedCategory);
      var b' := Filter(providers[1..], searchTerm, ALL_CATEGORIES);
      if Keep(providers[0], searchTerm, ALL_CATEGORIES) {
        var b := [providers[0]] + b';
        assert b[1..] == b';
        if Keep(providers[0], searchTerm, selectedCategory) {
          assert a == [providers[0]] + a' && a[1..] == a';
        }
      }
    }
  }

  const MOCK_PROFESSIONS: seq<string> := ["Albañilería y Pintura", "Arquitectura", "Electricidad",
                                          "Interiorismo", "Plomería", "Pulido de Pisos", "Gasista"]

  lemma MockProfessions()
    ensures Professions(MOCK_PROVIDERS) == MOCK_PROFESSIONS
  {
    forall i | 0 <= i < |MOCK_PROFESSIONS|
      ensures Professions(MOCK_PROVIDERS)[i] == MOCK_PROFESSIONS[i]
    {
    }
  }

  lemma MockProfessionsDistinct()
    ensures NoDuplicates(MOCK_PROFESSIONS)
  {
    forall i, j | 0 <= i < j < |MOCK_PROFESSIONS|
      ensures MOCK_PROFESSIONS[i] != MOCK_PROFESSIONS[j]
    {
      assert MOCK_PROFESSIONS[i][0] != MOCK_PROFESSIONS[j][0] || |MOCK_PROFESSIONS[i]| != |MOCK_PROFESSIONS[j]|;
    }
  }

  /** The drop-down of the directory: 'Todos' and the seven professions,
      which are all different, in the order of the list. */
  lemma MockCategories()
    ensures Categories(MOCK_PROVIDERS) == [ALL_CATEGORIES] + MOCK_PROFESSIONS
  {
    MockProfessions();
    MockProfessionsDistinct();
    DedupOfDistinct(MOCK_PROFESSIONS);
  }

  /** A sequence without repetitions is its own de-duplication. */
  lemma {:induction false} DedupOfDistinct(xs: seq<string>)
    requires NoDuplicates(xs)
    ensures Dedup(xs) == xs
  {
    if xs != [] {
      var init := xs[..|xs| - 1];
      DedupOfDistinct(init);
      assert xs[|xs| - 1] !in init;
    }
  }
}

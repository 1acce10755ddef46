/** The per-category counters on the home page's category cards (components/PropertyTypes.tsx). */
module PropertyTypes {
  import opened Types
  import opened Seqs
  import opened Catalog

  function CategoryIs(name: string): Property -> bool
  {
    (p: Property) => p.category == name
  }

  /** `getCount(name)`: how many listings name this category, whatever their status or featured flag. */
  function GetCount(ps: seq<Property>, name: string): (n: nat)
    ensures n <= |ps|
    ensures n == 0 <==> forall i :: 0 <= i < |ps| ==> ps[i].category != name
  {
    var r := Filter(CategoryIs(name), ps);
    assert r != [] ==> r[0].category == name && r[0] in ps;
    |r|
  }

  /** The number each card shows, one per category, in category order. */
  function CardCounts(cs: seq<Category>, ps: seq<Property>): (r: seq<nat>)
    ensures |r| == |cs|
    ensures forall i :: 0 <= i < |cs| ==> r[i] == GetCount(ps, cs[i].name)
  {
    seq(|cs|, i requires 0 <= i < |cs| => GetCount(ps, cs[i].name))
  }

  /** A new listing adds one to its own category's count and nothing to any other. */
  lemma CountAfterAdd(ps: seq<Property>, p: Property, name: string)
    ensures GetCount(AddProperty(ps, p), name) == GetCount(ps, name) + (if p.category == name then 1 else 0)
  {
    assert AddProperty(ps, p)[1..] == ps;
  }

  /** Selling, renting or re-listing does not change any count. */
  lemma CountIgnoresStatus(ps: seq<Property>, id: string, st: Status, name: string)
    ensures GetCount(UpdateStatus(ps, id, st), name) == GetCount(ps, name)
  {
    var u := UpdateStatus(ps, id, st);
    forall i | 0 <= i < |ps| ensures CategoryIs(name)(u[i]) == CategoryIs(name)(ps[i]) {
      assert u[i].(status := ps[i].status) == ps[i];
    }
    FilterLengthPointwise(CategoryIs(name), u, ps);
  }

  /** Featuring or un-featuring does not change any count. */
  lemma CountIgnoresFeatured(ps: seq<Property>, id: string, name: string)
    ensures GetCount(ToggleFeatured(ps, id), name) == GetCount(ps, name)
  {
    var u := ToggleFeatured(ps, id);
    forall i | 0 <= i < |ps| ensures CategoryIs(name)(u[i]) == CategoryIs(name)(ps[i]) {
      assert u[i].(featured := ps[i].featured) == ps[i];
    }
    FilterLengthPointwise(CategoryIs(name), u, ps);
  }

  /** A listing whose category is not the name of any card (a deleted category, say) moves no card's number. */
  lemma DanglingListingOnNoCard(cs: seq<Category>, ps: seq<Property>, p: Property)
    requires forall i :: 0 <= i < |cs| ==> cs[i].name != p.category
    ensures CardCounts(cs, AddProperty(ps, p)) == CardCounts(cs, ps)
  {
    forall i | 0 <= i < |cs| ensures GetCount(AddProperty(ps, p), cs[i].name) == GetCount(ps, cs[i].name) {
      CountAfterAdd(ps, p, cs[i].name);
    }
  }

  /** A freshly added category that no listing names shows 0 on its card, and the other cards are unchanged. */
  lemma NewCategoryCountsZero(cs: seq<Category>, ps: seq<Property>, c: Category)
    requires forall i :: 0 <= i < |ps| ==> ps[i].category != c.name
    ensures CardCounts(AddCategory(cs, c), ps) == CardCounts(cs, ps) + [0]
  {
    var l, r := CardCounts(AddCategory(cs, c), ps), CardCounts(cs, ps) + [0];
    forall i | 0 <= i < |l| ensures l[i] == r[i] {
      if i < |cs| {
        assert AddCategory(cs, c)[i] == cs[i];
      }
    }
  }
}

/** The pure part of the catalogue store in App.tsx: what each admin command does to the
    listings and categories sequences, the hero-image fallback, the two public views and the
    carousel's index arithmetic. The class `App.AppStore` applies these to its fields. */
module Catalog {
  import opened Types
  import opened Seqs

  /** Banner shown when no hero image has been chosen. */
  const DEFAULT_HERO_IMAGE: string :=
    "https://images.unsplash.com/photo-1600585154340-be6161a56a0c?auto=format&fit=crop&q=100&w=1600"

  /** Categories installed when storage holds none. */
  const SEED_CATEGORIES: seq<Category> := [
    Category("1", "Casas", "https://images.unsplash.com/photo-1518780664697-55e3ad937233?auto=format&fit=crop&q=80&w=400"),
    Category("2", "Apartamentos", "https://images.unsplash.com/photo-1545324418-cc1a3fa10c00?auto=format&fit=crop&q=80&w=400"),
    Category("3", "Escritórios", "https://images.unsplash.com/photo-1497366754035-f200968a6e72?auto=format&fit=crop&q=80&w=400")
  ]

  // ---------------------------------------------------------------- initial state

  /** Categories at start-up: the stored list when there is one (even an empty one), else the seeds. */
  function LoadCategories(saved: Option<seq<Category>>): (r: seq<Category>)
    ensures saved.None? ==> r == SEED_CATEGORIES && |r| == 3
    ensures saved.Some? ==> r == saved.value
  {
    if saved.Some? then saved.value else SEED_CATEGORIES
  }

  /** Listings at start-up: the stored list when there is one, else none. */
  function LoadProperties(saved: Option<seq<Property>>): (r: seq<Property>)
    ensures saved.None? ==> r == []
    ensures saved.Some? ==> r == saved.value
  {
    if saved.Some? then saved.value else []
  }

  // ---------------------------------------------------------------- listings

  /** Newest first: the new listing goes in front of the old ones. */
  function AddProperty(ps: seq<Property>, p: Property): (r: seq<Property>)
    ensures |r| == |ps| + 1
    ensures r[0] == p && r[1..] == ps
  {
    [p] + ps
  }

  /** Keeps the listings whose id differs from `id`. */
  function IdIsNot(id: string): Property -> bool
  {
    (p: Property) => p.id != id
  }

  function RemoveProperty(ps: seq<Property>, id: string): (r: seq<Property>)
    ensures forall i :: 0 <= i < |r| ==> r[i].id != id && r[i] in ps
    ensures forall i :: 0 <= i < |ps| && ps[i].id != id ==> ps[i] in r
    ensures IsSubsequence(r, ps)
  {
    FilterIsSubsequence(IdIsNot(id), ps);
    Filter(IdIsNot(id), ps)
  }

  /** Every other listing survives as many times as it was there, and the listing with `id` not at all. */
  lemma RemovePropertyExact(ps: seq<Property>, id: string, p: Property)
    ensures multiset(RemoveProperty(ps, id))[p] == if p.id == id then 0 else multiset(ps)[p]
  {
    FilterCount(IdIsNot(id), ps, p);
  }

  /** Removing an id nobody has is a no-op. */
  lemma RemoveAbsentId(ps: seq<Property>, id: string)
    requires forall i :: 0 <= i < |ps| ==> ps[i].id != id
    ensures RemoveProperty(ps, id) == ps
  {
    FilterKeepsAll(IdIsNot(id), ps);
  }

  /** Removing twice is removing once. */
  lemma RemoveIdempotent(ps: seq<Property>, id: string)
    ensures RemoveProperty(RemoveProperty(ps, id), id) == RemoveProperty(ps, id)
  {
    FilterIdempotent(IdIsNot(id), ps);
  }

  /** Adding a listing with a fresh id and then removing that id gives back the old list. */
  lemma RemoveUndoesAdd(ps: seq<Property>, p: Property)
    requires forall i :: 0 <= i < |ps| ==> ps[i].id != p.id
    ensures RemoveProperty(AddProperty(ps, p), p.id) == ps
  {
    assert AddProperty(ps, p)[1..] == ps;
    RemoveAbsentId(ps, p.id);
  }

  /** Sets the status of every listing with `id`; nothing else changes. */
  function UpdateStatus(ps: seq<Property>, id: string, st: Status): (r: seq<Property>)
    ensures |r| == |ps|
    ensures forall i :: 0 <= i < |ps| ==> r[i].(status := ps[i].status) == ps[i]
    ensures forall i :: 0 <= i < |ps| ==> r[i].status == (if ps[i].id == id then st else ps[i].status)
  {
    seq(|ps|, i requires 0 <= i < |ps| => if ps[i].id == id then ps[i].(status := st) else ps[i])
  }

  /** The last status written wins. */
  lemma UpdateStatusLastWins(ps: seq<Property>, id: string, a: Status, b: Status)
    ensures UpdateStatus(UpdateStatus(ps, id, a), id, b) == UpdateStatus(ps, id, b)
  {
    var l, r := UpdateStatus(UpdateStatus(ps, id, a), id, b), UpdateStatus(ps, id, b);
    forall i | 0 <= i < |ps| ensures l[i] == r[i] {
      assert UpdateStatus(ps, id, a)[i].id == ps[i].id;
    }
  }

  /** Flips `featured` on every listing with `id`; nothing else changes. */
  function ToggleFeatured(ps: seq<Property>, id: string): (r: seq<Property>)
    ensures |r| == |ps|
    ensures forall i :: 0 <= i < |ps| ==> r[i].(featured := ps[i].featured) == ps[i]
    ensures forall i :: 0 <= i < |ps| ==> r[i].featured == (if ps[i].id == id then !ps[i].featured else ps[i].featured)
  {
    seq(|ps|, i requires 0 <= i < |ps| => if ps[i].id == id then ps[i].(featured := !ps[i].featured) else ps[i])
  }

  /** Toggling twice restores the listings. */
  lemma ToggleTwice(ps: seq<Property>, id: string)
    ensures ToggleFeatured(ToggleFeatured(ps, id), id) == ps
  {
    var once := ToggleFeatured(ps, id);
    var twice := ToggleFeatured(once, id);
    forall i | 0 <= i < |ps| ensures twice[i] == ps[i] {
      assert once[i].id == ps[i].id;
    }
  }

  // ---------------------------------------------------------------- categories

  /** New categories go after the existing ones. */
  function AddCategory(cs: seq<Category>, c: Category): (r: seq<Category>)
    ensures |r| == |cs| + 1
    ensures r[..|cs|] == cs && r[|cs|] == c
  {
    cs + [c]
  }

  function CategoryIdIsNot(id: string): Category -> bool
  {
    (c: Category) => c.id != id
  }

  function RemoveCategory(cs: seq<Category>, id: string): (r: seq<Category>)
    ensures forall i :: 0 <= i < |r| ==> r[i].id != id && r[i] in cs
    ensures forall i :: 0 <= i < |cs| && cs[i].id != id ==> cs[i] in r
    ensures IsSubsequence(r, cs)
  {
    FilterIsSubsequence(CategoryIdIsNot(id), cs);
    Filter(CategoryIdIsNot(id), cs)
  }

  /** Every category with another id survives as many times as it was there, the one with `id` not at all. */
  lemma RemoveCategoryExact(cs: seq<Category>, id: string, c: Category)
    ensures multiset(RemoveCategory(cs, id))[c] == if c.id == id then 0 else multiset(cs)[c]
  {
    FilterCount(CategoryIdIsNot(id), cs, c);
  }

  // ---------------------------------------------------------------- hero image

  /** `newUrl || DEFAULT_HERO_IMAGE`: the empty string (the only falsy string) selects the default. */
  function HeroOrDefault(url: string): (r: string)
    ensures r != ""
    ensures url != "" ==> r == url
    ensures url == "" ==> r == DEFAULT_HERO_IMAGE
  {
    if url != "" then url else DEFAULT_HERO_IMAGE
  }

  // ---------------------------------------------------------------- views

  function IsHomeListing(p: Property): bool
  {
    p.featured && p.status == Available
  }

  function IsCatalogueListing(p: Property): bool
  {
    p.status == Available
  }

  /** The home page's featured block: featured listings that are still available, in store order. */
  function HomeView(ps: seq<Property>): (r: seq<Property>)
    ensures forall i :: 0 <= i < |r| ==> r[i].featured && r[i].status == Available && r[i] in ps
    ensures forall i :: 0 <= i < |ps| && ps[i].featured && ps[i].status == Available ==> ps[i] in r
    ensures IsSubsequence(r, ps)
  {
    FilterIsSubsequence(IsHomeListing, ps);
    Filter(IsHomeListing, ps)
  }

  /** The catalogue page: every available listing, in store order. */
  function CatalogView(ps: seq<Property>): (r: seq<Property>)
    ensures forall i :: 0 <= i < |r| ==> r[i].status == Available && r[i] in ps
    ensures forall i :: 0 <= i < |ps| && ps[i].status == Available ==> ps[i] in r
    ensures IsSubsequence(r, ps)
  {
    FilterIsSubsequence(IsCatalogueListing, ps);
    Filter(IsCatalogueListing, ps)
  }

  /** Each view keeps every qualifying listing exactly as often as it occurs, and nothing else. */
  lemma ViewsExact(ps: seq<Property>, p: Property)
    ensures multiset(HomeView(ps))[p] == if p.featured && p.status == Available then multiset(ps)[p] else 0
    ensures multiset(CatalogView(ps))[p] == if p.status == Available then multiset(ps)[p] else 0
  {
    FilterCount(IsHomeListing, ps, p);
    FilterCount(IsCatalogueListing, ps, p);
  }

  /** What the home page shows is an ordered part of what the catalogue page shows. */
  lemma HomeWithinCatalog(ps: seq<Property>)
    ensures IsSubsequence(HomeView(ps), CatalogView(ps))
  {
    FilterMonotone(IsHomeListing, IsCatalogueListing, ps);
  }

  /** A newly added featured, available listing heads the home view. */
  lemma HomeViewAfterAdd(ps: seq<Property>, p: Property)
    requires p.featured && p.status == Available
    ensures HomeView(AddProperty(ps, p)) == [p] + HomeView(ps)
  {
    assert AddProperty(ps, p)[1..] == ps;
  }

  /** Marking a listing sold or rented takes it off both public views. */
  lemma NotAvailableLeavesViews(ps: seq<Property>, id: string, st: Status)
    requires st != Available
    ensures forall i :: 0 <= i < |CatalogView(UpdateStatus(ps, id, st))| ==> CatalogView(UpdateStatus(ps, id, st))[i].id != id
    ensures forall i :: 0 <= i < |HomeView(UpdateStatus(ps, id, st))| ==> HomeView(UpdateStatus(ps, id, st))[i].id != id
  {
    var u := UpdateStatus(ps, id, st);
    forall i | 0 <= i < |u| && u[i].id == id ensures u[i].status != Available {
      assert u[i].(status := ps[i].status) == ps[i];
    }
    var c, h := CatalogView(u), HomeView(u);
    forall i | 0 <= i < |c| ensures c[i].id != id {
      var j :| 0 <= j < |u| && u[j] == c[i];
    }
    forall i | 0 <= i < |h| ensures h[i].id != id {
      var j :| 0 <= j < |u| && u[j] == h[i];
    }
  }

  // ---------------------------------------------------------------- carousel

  /** The "next photo" arrow, `(i + 1) % n`. Both operands are non-negative, so the
      JavaScript remainder and Dafny's agree. */
  function NextImageIndex(i: nat, n: nat): (r: nat)
    requires i < n
    ensures r < n
    ensures r == if i == n - 1 then 0 else i + 1
  {
    (i + 1) % n
  }

  /** The "previous photo" arrow, `(i - 1 + n) % n`. */
  function PrevImageIndex(i: nat, n: nat): (r: nat)
    requires i < n
    ensures r < n
    ensures r == if i == 0 then n - 1 else i - 1
  {
    (i - 1 + n) % n
  }

  /** The two arrows undo each other. */
  lemma ArrowsInverse(i: nat, n: nat)
    requires i < n
    ensures PrevImageIndex(NextImageIndex(i, n), n) == i
    ensures NextImageIndex(PrevImageIndex(i, n), n) == i
  {
  }
}

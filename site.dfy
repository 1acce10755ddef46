/** How App.tsx wires the admin panel to the store: the panel's `onAddProperty`, `onAddCategory`
    and `onCancel` callbacks are the store's handlers. */
module Site {
  import opened Types
  import Catalog
  import opened App
  import opened AdminForms
  import opened PropertyTypes

  /** Submitting the listing form: with photos, the built listing is prepended and the panel closes
      to the home page; without photos nothing changes. */
  method PublishListing(store: AppStore, panel: AdminPanel, freshId: string) returns (added: bool)
    requires store.Valid() && panel.Valid()
    modifies store
    ensures store.Valid()
    ensures added <==> panel.form.images != []
    ensures !added ==> store.properties == old(store.properties) && store.currentPage == old(store.currentPage)
    ensures added ==> |store.properties| == |old(store.properties)| + 1 && store.properties[1..] == old(store.properties)
    ensures added ==> store.properties[0].id == freshId && store.properties[0].status == Available
                      && store.properties[0].featured && store.properties[0].image == panel.form.images[0]
                      && store.properties[0].images == panel.form.images
                      && store.properties[0].category == panel.form.category
                      && store.currentPage == Home
    ensures store.categories == old(store.categories) && store.heroImage == old(store.heroImage)
  {
    var r := panel.SaveProperty(freshId);
    added := r.Some?;
    if added {
      store.AddProperty(r.value);
      store.NavigateTo(Home);
    }
  }

  /** Submitting the category form: with a photo, the category is appended; the listings never change. */
  method PublishCategory(store: AppStore, panel: AdminPanel, freshId: string) returns (added: bool)
    requires store.Valid()
    modifies store, panel`catForm
    ensures store.Valid()
    ensures added <==> old(panel.catForm.image) != ""
    ensures added ==> store.categories == old(store.categories) + [Category(freshId, old(panel.catForm.name), old(panel.catForm.image))]
    ensures !added ==> store.categories == old(store.categories)
    ensures store.properties == old(store.properties)
  {
    var r := panel.SaveCategory(freshId);
    added := r.Some?;
    if added {
      store.AddCategory(r.value);
    }
  }

  /** A fresh installation: the seed categories, no listings, "Casas" counts 0; after publishing one
      listing with a photo from the default form, "Casas" counts 1 and the home page shows exactly it. */
  method FirstListing(photo: string, freshId: string)
    returns (before: nat, after: nat, home: seq<Property>)
    ensures before == 0 && after == 1
    ensures |home| == 1 && home[0].id == freshId && home[0].category == "Casas" && home[0].images == [photo]
  {
    var store := new AppStore(Storage(None, None, None, None));
    before := GetCount(store.properties, "Casas");
    var panel := new AdminPanel(store.categories);
    assert panel.form.category == "Casas";
    panel.AddImages([photo]);
    assert panel.form.images == [photo];
    var added := PublishListing(store, panel, freshId);
    CountAfterAdd([], store.properties[0], "Casas");
    after := GetCount(store.properties, "Casas");
    home := Catalog.HomeView(store.properties);
    Catalog.HomeViewAfterAdd([], store.properties[0]);
    assert store.properties == [store.properties[0]];
  }
}

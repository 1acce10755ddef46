/** The application state of App.tsx: the catalogue, the hero image, the session flag and the
    current page, with the browser storage it reads at start-up and writes back after each change. */
module App {
  import opened Types
  import opened Catalog

  /** The pages App.tsx can show. */
  datatype Page = Home | Properties | Contact | Details | Admin

  /** The pages `navigateTo` accepts (not the details page, which only `handleViewDetails` opens). */
  type NavTarget = p: Page | !p.Details? witness Home

  /** Browser storage as seen by App.tsx, key by key: durable 'mr_properties_v3',
      'mr_categories_v3', 'mr_hero_image_v3' and session-scoped 'mr_session_login'. */
  datatype Storage = Storage(
    properties: Option<seq<Property>>,
    categories: Option<seq<Category>>,
    hero: Option<string>,
    sessionLogin: Option<string>)

  class AppStore {
    var currentPage: Page
    var selected: Option<Property>
    var isLoggedIn: bool
    var showLoginModal: bool
    var heroImage: string
    var activeImageIndex: nat
    var categories: seq<Category>
    var properties: seq<Property>
    var storage: Storage

    /** Storage mirrors the collections, the banner is never empty, the session key mirrors
        the login flag, and the carousel index points into the selected listing's photos. */
    ghost predicate Valid()
      reads this
    {
      && storage.properties == Some(properties)
      && storage.categories == Some(categories)
      && heroImage != ""
      && (storage.hero.Some? && storage.hero.value != "" ==> heroImage == storage.hero.value)
      && (isLoggedIn <==> storage.sessionLogin == Some("true"))
      && (currentPage == Details ==> selected.Some?)
      && (selected.Some? && |selected.value.images| > 0 ==> activeImageIndex < |selected.value.images|)
    }

    /** Mounting the app: load both collections (seeding the categories), adopt a stored non-empty
        banner and a stored session flag, then write both collections back. */
    constructor (saved: Storage)
      ensures Valid()
      ensures properties == LoadProperties(saved.properties)
      ensures categories == LoadCategories(saved.categories)
      ensures heroImage == (if saved.hero.Some? && saved.hero.value != "" then saved.hero.value else DEFAULT_HERO_IMAGE)
      ensures isLoggedIn == (saved.sessionLogin == Some("true"))
      ensures currentPage == Home && selected == None && !showLoginModal && activeImageIndex == 0
      ensures storage == saved.(properties := Some(properties), categories := Some(categories))
    {
      currentPage := Home;
      selected := None;
      showLoginModal := false;
      activeImageIndex := 0;
      var cs, ps := LoadCategories(saved.categories), LoadProperties(saved.properties);
      categories, properties := cs, ps;
      heroImage := if saved.hero.Some? && saved.hero.value != "" then saved.hero.value else DEFAULT_HERO_IMAGE;
      isLoggedIn := saved.sessionLogin == Some("true");
      storage := saved.(properties := Some(ps), categories := Some(cs));
    }

    /** `handleUpdateHeroImage`: the banner and its stored copy both become the URL, or the default for "". */
    method UpdateHeroImage(url: string)
      requires Valid()
      modifies this
      ensures Valid()
      ensures heroImage == HeroOrDefault(url) && storage == old(storage).(hero := Some(heroImage))
      ensures heroImage != "" && (url == "" ==> heroImage == DEFAULT_HERO_IMAGE)
      ensures properties == old(properties) && categories == old(categories)
      ensures currentPage == old(currentPage) && isLoggedIn == old(isLoggedIn) && showLoginModal == old(showLoginModal)
      ensures selected == old(selected) && activeImageIndex == old(activeImageIndex)
    {
      heroImage := HeroOrDefault(url);
      storage := storage.(hero := Some(heroImage));
    }

    /** `navigateTo`: contact opens an external link and stays put; admin while logged out opens the
        login dialog and stays put; anything else becomes the current page. */
    method NavigateTo(page: NavTarget)
      requires Valid()
      modifies this
      ensures Valid()
      ensures page == Contact ==> currentPage == old(currentPage) && showLoginModal == old(showLoginModal)
      ensures page == Admin && !old(isLoggedIn) ==> currentPage == old(currentPage) && showLoginModal
      ensures page != Contact && !(page == Admin && !old(isLoggedIn)) ==>
                currentPage == page && showLoginModal == old(showLoginModal)
      ensures currentPage == Admin ==> isLoggedIn || old(currentPage) == Admin
      ensures properties == old(properties) && categories == old(categories) && heroImage == old(heroImage)
      ensures isLoggedIn == old(isLoggedIn) && storage == old(storage)
      ensures selected == old(selected) && activeImageIndex == old(activeImageIndex)
    {
      if page == Contact {
        return;
      }
      if page == Admin && !isLoggedIn {
        showLoginModal := true;
        return;
      }
      currentPage := page;
    }

    /** `handleViewDetails`: show one listing, carousel at its first photo. */
    method ViewDetails(p: Property)
      requires Valid()
      modifies this
      ensures Valid()
      ensures selected == Some(p) && activeImageIndex == 0 && currentPage == Details
      ensures properties == old(properties) && categories == old(categories) && heroImage == old(heroImage)
      ensures isLoggedIn == old(isLoggedIn) && showLoginModal == old(showLoginModal) && storage == old(storage)
    {
      selected := Some(p);
      activeImageIndex := 0;
      currentPage := Details;
    }

    /** The photo the details page shows: the carousel's current photo, or the thumbnail when there are none. */
    function DisplayedImage(): (r: string)
      reads this
      requires Valid() && selected.Some?
      ensures r in selected.value.images || (selected.value.images == [] && r == selected.value.image)
    {
      if |selected.value.images| > 0 then selected.value.images[activeImageIndex] else selected.value.image
    }

    /** The right arrow, offered on the details page when the listing has more than one photo. */
    method NextImage()
      requires Valid() && currentPage == Details && selected.Some? && |selected.value.images| > 1
      modifies this`activeImageIndex
      ensures Valid()
      ensures activeImageIndex == NextImageIndex(old(activeImageIndex), |selected.value.images|)
    {
      activeImageIndex := NextImageIndex(activeImageIndex, |selected.value.images|);
    }

    /** The left arrow. */
    method PrevImage()
      requires Valid() && currentPage == Details && selected.Some? && |selected.value.images| > 1
      modifies this`activeImageIndex
      ensures Valid()
      ensures activeImageIndex == PrevImageIndex(old(activeImageIndex), |selected.value.images|)
    {
      activeImageIndex := PrevImageIndex(activeImageIndex, |selected.value.images|);
    }

    /** A click on thumbnail `idx`. */
    method SelectImage(idx: nat)
      requires Valid() && currentPage == Details && selected.Some? && idx < |selected.value.images|
      requires |selected.value.images| > 1
      modifies this`activeImageIndex
      ensures Valid() && activeImageIndex == idx
    {
      activeImageIndex := idx;
    }

    /** `handleAddProperty`, written back to storage. */
    method AddProperty(p: Property)
      requires Valid()
      modifies this
      ensures Valid()
      ensures properties == Catalog.AddProperty(old(properties), p)
      ensures storage == old(storage).(properties := Some(properties))
      ensures categories == old(categories) && heroImage == old(heroImage) && isLoggedIn == old(isLoggedIn)
      ensures currentPage == old(currentPage) && showLoginModal == old(showLoginModal)
      ensures selected == old(selected) && activeImageIndex == old(activeImageIndex)
    {
      properties := Catalog.AddProperty(properties, p);
      storage := storage.(properties := Some(properties));
    }

    /** `handleRemoveProperty`, written back to storage. */
    method RemoveProperty(id: string)
      requires Valid()
      modifies this
      ensures Valid()
      ensures properties == Catalog.RemoveProperty(old(properties), id)
      ensures storage == old(storage).(properties := Some(properties))
      ensures categories == old(categories) && heroImage == old(heroImage) && isLoggedIn == old(isLoggedIn)
      ensures currentPage == old(currentPage) && showLoginModal == old(showLoginModal)
      ensures selected == old(selected) && activeImageIndex == old(activeImageIndex)
    {
      properties := Catalog.RemoveProperty(properties, id);
      storage := storage.(properties := Some(properties));
    }

    /** `handleUpdateStatus`, written back to storage. */
    method UpdateStatus(id: string, st: Status)
      requires Valid()
      modifies this
      ensures Valid()
      ensures properties == Catalog.UpdateStatus(old(properties), id, st)
      ensures storage == old(storage).(properties := Some(properties))
      ensures categories == old(categories) && heroImage == old(heroImage) && isLoggedIn == old(isLoggedIn)
      ensures currentPage == old(currentPage) && showLoginModal == old(showLoginModal)
      ensures selected == old(selected) && activeImageIndex == old(activeImageIndex)
    {
      properties := Catalog.UpdateStatus(properties, id, st);
      storage := storage.(properties := Some(properties));
    }

    /** `handleToggleFeatured`, written back to storage. */
    method ToggleFeatured(id: string)
      requires Valid()
      modifies this
      ensures Valid()
      ensures properties == Catalog.ToggleFeatured(old(properties), id)
      ensures storage == old(storage).(properties := Some(properties))
      ensures categories == old(categories) && heroImage == old(heroImage) && isLoggedIn == old(isLoggedIn)
      ensures currentPage == old(currentPage) && showLoginModal == old(showLoginModal)
      ensures selected == old(selected) && activeImageIndex == old(activeImageIndex)
    {
      properties := Catalog.ToggleFeatured(properties, id);
      storage := storage.(properties := Some(properties));
    }

    /** `handleAddCategory`, written back to storage; the listings are untouched. */
    method AddCategory(c: Category)
      requires Valid()
      modifies this
      ensures Valid()
      ensures categories == Catalog.AddCategory(old(categories), c)
      ensures storage == old(storage).(categories := Some(categories))
      ensures properties == old(properties) && heroImage == old(heroImage) && isLoggedIn == old(isLoggedIn)
      ensures currentPage == old(currentPage) && showLoginModal == old(showLoginModal)
      ensures selected == old(selected) && activeImageIndex == old(activeImageIndex)
    {
      categories := Catalog.AddCategory(categories, c);
      storage := storage.(categories := Some(categories));
    }

    /** `handleRemoveCategory`, written back to storage; listings naming it are kept as they are. */
    method RemoveCategory(id: string)
      requires Valid()
      modifies this
      ensures Valid()
      ensures categories == Catalog.RemoveCategory(old(categories), id)
      ensures storage == old(storage).(categories := Some(categories))
      ensures properties == old(properties) && heroImage == old(heroImage) && isLoggedIn == old(isLoggedIn)
      ensures currentPage == old(currentPage) && showLoginModal == old(showLoginModal)
      ensures selected == old(selected) && activeImageIndex == old(activeImageIndex)
    {
      categories := Catalog.RemoveCategory(categories, id);
      storage := storage.(categories := Some(categories));
    }

    /** The navbar's login button and the dialog's close action. */
    method SetLoginModal(show: bool)
      requires Valid()
      modifies this`showLoginModal
      ensures Valid() && showLoginModal == show
    {
      showLoginModal := show;
    }

    /** `handleLoginSuccess`: logged in, session key set, dialog closed, admin page shown. */
    method LoginSuccess()
      requires Valid()
      modifies this
      ensures Valid()
      ensures isLoggedIn && currentPage == Admin && !showLoginModal
      ensures storage == old(storage).(sessionLogin := Some("true"))
      ensures properties == old(properties) && categories == old(categories) && heroImage == old(heroImage)
      ensures selected == old(selected) && activeImageIndex == old(activeImageIndex)
    {
      isLoggedIn := true;
      storage := storage.(sessionLogin := Some("true"));
      showLoginModal := false;
      currentPage := Admin;
    }

    /** `handleLogout`: logged out, session key removed, home page shown. */
    method Logout()
      requires Valid()
      modifies this
      ensures Valid()
      ensures !isLoggedIn && currentPage == Home
      ensures storage == old(storage).(sessionLogin := None)
      ensures properties == old(properties) && categories == old(categories) && heroImage == old(heroImage)
      ensures showLoginModal == old(showLoginModal)
      ensures selected == old(selected) && activeImageIndex == old(activeImageIndex)
    {
      isLoggedIn := false;
      storage := storage.(sessionLogin := None);
      currentPage := Home;
    }
  }
}

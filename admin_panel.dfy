/** The admin panel's forms (components/AdminPanel.tsx): the new-listing form with its photo
    slots, and the new-category form. Saving returns the record the panel hands to the store. */
module AdminForms {
  import opened Types

  /** At most this many photos per listing. */
  const MAX_IMAGES: nat := 5

  /** Category offered when the store has none. */
  const FALLBACK_CATEGORY: string := "Casas"

  /** The new-listing form; `images` are photo references in the order they were read. */
  datatype PropertyForm = PropertyForm(
    title: string,
    price: string,
    location: string,
    beds: int,
    baths: int,
    sqft: int,
    images: seq<string>,
    kind: ListingType,
    category: string,
    description: string,
    featured: bool)

  datatype CategoryForm = CategoryForm(name: string, image: string)

  /** `categories[0]?.name || 'Casas'`: the first category's name unless there is none or it is empty. */
  function DefaultCategory(cs: seq<Category>): (r: string)
    ensures |cs| > 0 && cs[0].name != "" ==> r == cs[0].name
    ensures (|cs| == 0 || cs[0].name == "") ==> r == FALLBACK_CATEGORY
    ensures r != ""
  {
    if |cs| > 0 && cs[0].name != "" then cs[0].name else FALLBACK_CATEGORY
  }

  /** The form as the panel opens it. */
  function InitialForm(cs: seq<Category>): (f: PropertyForm)
    ensures f.title == "" && f.price == "" && f.location == "" && f.description == ""
    ensures f.beds == 1 && f.baths == 1 && f.sqft == 50
    ensures f.images == [] && f.kind == Sale && f.featured
    ensures f.category == DefaultCategory(cs)
  {
    PropertyForm("", "", "", 1, 1, 50, [], Sale, DefaultCategory(cs), "", true)
  }

  /** `Array.prototype.slice(0, end)`: a negative `end` counts back from the length. */
  function SliceTo(s: seq<string>, end: int): (r: seq<string>)
    ensures |r| <= |s| && r == s[..|r|]
    ensures 0 <= end ==> |r| == if end < |s| then end else |s|
    ensures end < 0 ==> |r| == if |s| + end < 0 then 0 else |s| + end
  {
    var e := if end < 0 then (if |s| + end < 0 then 0 else |s| + end)
             else if end < |s| then end else |s|;
    s[..e]
  }

  /** The photos of one file selection that are read: as many as there are free slots. */
  function FilesToProcess(count: nat, files: seq<string>): (r: seq<string>)
    ensures |r| <= |files| && r == files[..|r|]
    ensures count <= MAX_IMAGES ==> count + |r| <= MAX_IMAGES
    ensures count <= MAX_IMAGES && count + |files| <= MAX_IMAGES ==> r == files
    ensures count <= MAX_IMAGES ==> |r| == if count + |files| <= MAX_IMAGES then |files| else MAX_IMAGES - count
  {
    SliceTo(files, MAX_IMAGES - count)
  }

  /** `images.filter((_, i) => i !== index)`. */
  function RemoveAt(images: seq<string>, index: int): (r: seq<string>)
    ensures 0 <= index < |images| ==> r == images[..index] + images[index + 1..]
    ensures !(0 <= index < |images|) ==> r == images
    decreases |images|
  {
    if images == [] then []
    else if index == 0 then images[1..]
    else [images[0]] + RemoveAt(images[1..], index - 1)
  }

  class AdminPanel {
    var form: PropertyForm
    var catForm: CategoryForm

    /** The photo cap holds, and the form has no control that clears `featured`. */
    ghost predicate Valid()
      reads this
    {
      |form.images| <= MAX_IMAGES && form.featured
    }

    /** Mounting the panel with the store's current categories. */
    constructor (categories: seq<Category>)
      ensures Valid()
      ensures form == InitialForm(categories) && catForm == CategoryForm("", "")
    {
      form := InitialForm(categories);
      catForm := CategoryForm("", "");
    }

    /** The text, number and select inputs of the listing form (each `onChange` sets one field). */
    method EditFields(title: string, price: string, location: string, beds: int, baths: int, sqft: int,
                      kind: ListingType, category: string, description: string)
      requires Valid()
      modifies this`form
      ensures Valid()
      ensures form == PropertyForm(title, price, location, beds, baths, sqft, old(form.images), kind,
                                   category, description, old(form.featured))
    {
      form := form.(title := title, price := price, location := location, beds := beds, baths := baths,
                    sqft := sqft, kind := kind, category := category, description := description);
    }

    /** `handleImagesChange`: read at most the free slots' worth of the selected files and append
        each one's reference in order. */
    method AddImages(files: seq<string>)
      requires Valid()
      modifies this`form
      ensures Valid()
      ensures form == old(form).(images := old(form.images) + FilesToProcess(|old(form.images)|, files))
      ensures |old(form.images)| + |files| <= MAX_IMAGES ==> form.images == old(form.images) + files
    {
      var toProcess := FilesToProcess(|form.images|, files);
      var k := 0;
      while k < |toProcess|
        invariant 0 <= k <= |toProcess|
        invariant form == old(form).(images := old(form.images) + toProcess[..k])
      {
        form := form.(images := form.images + [toProcess[k]]);
        k := k + 1;
      }
      assert toProcess[..k] == toProcess;
    }

    /** `removeImage(index)`: drop exactly that photo. */
    method RemoveImage(index: int)
      requires Valid()
      modifies this`form
      ensures Valid()
      ensures form == old(form).(images := RemoveAt(old(form.images), index))
      ensures 0 <= index < |old(form.images)| ==> |form.images| == |old(form.images)| - 1
    {
      form := form.(images := RemoveAt(form.images, index));
    }

    /** `handleSaveProperty`: refuse a listing without photos; otherwise build it from the form with
        the fresh id, status available and the first photo as thumbnail. The form is left as it was. */
    method SaveProperty(freshId: string) returns (r: Option<Property>)
      ensures r.None? <==> form.images == []
      ensures r.Some? ==> r.value.id == freshId && r.value.status == Available
      ensures r.Some? ==> r.value.image == form.images[0] && r.value.images == form.images
      ensures r.Some? ==> r.value.title == form.title && r.value.price == form.price
                          && r.value.location == form.location && r.value.description == form.description
      ensures r.Some? ==> r.value.beds == form.beds && r.value.baths == form.baths && r.value.sqft == form.sqft
      ensures r.Some? ==> r.value.kind == form.kind && r.value.category == form.category
                          && r.value.featured == form.featured
    {
      if |form.images| == 0 {
        return None;
      }
      var f := form;
      r := Some(Property(freshId, f.title, f.price, f.location, f.beds, f.baths, f.sqft, f.images[0], f.images,
                         f.kind, Available, f.featured, f.category, f.description));
    }

    /** The category name input. */
    method SetCategoryName(name: string)
      modifies this`catForm
      ensures catForm == old(catForm).(name := name)
    {
      catForm := catForm.(name := name);
    }

    /** `handleCatImageChange`, once the chosen file has been read. */
    method SetCategoryImage(image: string)
      modifies this`catForm
      ensures catForm == old(catForm).(image := image)
    {
      catForm := catForm.(image := image);
    }

    /** `handleSaveCategory`: refuse a category without a photo (form kept); otherwise return it with
        the fresh id and clear the form. */
    method SaveCategory(freshId: string) returns (r: Option<Category>)
      modifies this`catForm
      ensures r.None? <==> old(catForm).image == ""
      ensures r.None? ==> catForm == old(catForm)
      ensures r.Some? ==> r.value == Category(freshId, old(catForm).name, old(catForm).image)
                          && catForm == CategoryForm("", "")
    {
      if catForm.image == "" {
        return None;
      }
      r := Some(Category(freshId, catForm.name, catForm.image));
      catForm := CategoryForm("", "");
    }
  }
}

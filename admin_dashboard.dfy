/** The admin product form (frontend/Admin/Frontpage/AdminProductDashboard.jsx):
    the multi-select toggle for categories and product types, the upload guard,
    the thumbnail reset when new images are chosen, and the edit form filled
    from an existing product. The create and edit forms are the two state fields
    the setters replace. */
module AdminDashboard {
  import opened Wrappers

  /** A numeric form value: the text of an input, or a number taken from a product. */
  datatype NumberField = Text(s: string) | Number(n: real)

  /** JavaScript truthiness of a numeric form value (NaN is not modelled). */
  predicate Truthy(f: NumberField) {
    match f
    case Text(s) => s != ""
    case Number(n) => n != 0.0
  }

  /** A chosen file, by name. */
  type FileRef = string

  datatype ProductForm = ProductForm(
    brand: string,
    name: string,
    price: NumberField,
    discountPercentage: NumberField,
    category: seq<string>,
    productType: seq<string>,
    images: seq<FileRef>,
    thumbnailIndex: int)

  /** The initial (and post-upload) state of both forms. */
  function EmptyForm(): ProductForm {
    ProductForm("", "", Text(""), Number(0.0), [], [], [], 0)
  }

  // ------------------------------------------------------------------ toggle

  /** `list.filter(v => v !== value)`. */
  function Without(s: seq<string>, v: string): (r: seq<string>)
    ensures v !in r
    ensures forall x :: x != v ==> multiset(r)[x] == multiset(s)[x]
    ensures v !in s ==> r == s
    decreases |s|
  {
    if s == [] then []
    else
      assert s == [s[0]] + s[1..];
      (if s[0] == v then [] else [s[0]]) + Without(s[1..], v)
  }

  /** Filtering distributes over concatenation, so the survivors keep their order. */
  lemma {:induction false} WithoutConcat(a: seq<string>, b: seq<string>, v: string)
    ensures Without(a + b, v) == Without(a, v) + Without(b, v)
    decreases |a|
  {
    if a == [] {
      assert a + b == b;
    } else {
      assert (a + b)[0] == a[0] && (a + b)[1..] == a[1..] + b;
      WithoutConcat(a[1..], b, v);
    }
  }

  /** `toggleSelection`: a present value leaves with all its occurrences, an absent
      one is appended. */
  function Toggle(s: seq<string>, v: string): (r: seq<string>)
    ensures v in s ==> v !in r && forall x :: x != v ==> multiset(r)[x] == multiset(s)[x]
    ensures v !in s ==> r == s + [v]
    ensures v in r <==> v !in s
  {
    if v in s then Without(s, v) else s + [v]
  }

  /** Toggling an absent value twice restores the list. */
  lemma ToggleTwiceRestores(s: seq<string>, v: string)
    requires v !in s
    ensures Toggle(Toggle(s, v), v) == s
  {
    WithoutConcat(s, [v], v);
    assert Without([v], v) == [];
    assert s + [] == s;
  }

  /** Toggling a present value keeps every other entry in its place relative to the rest. */
  lemma ToggleKeepsOrder(a: seq<string>, b: seq<string>, v: string)
    requires v in a + b
    ensures Toggle(a + b, v) == Without(a, v) + Without(b, v)
  {
    WithoutConcat(a, b, v);
  }

  // ------------------------------------------------------------------ form updates

  /** The list-valued keys `toggleSelection` works on. */
  datatype ListKey = CategoryKey | ProductTypeKey

  function Toggled(f: ProductForm, key: ListKey, v: string): (g: ProductForm)
    ensures key == CategoryKey ==> g == f.(category := Toggle(f.category, v))
    ensures key == ProductTypeKey ==> g == f.(productType := Toggle(f.productType, v))
  {
    match key
    case CategoryKey => f.(category := Toggle(f.category, v))
    case ProductTypeKey => f.(productType := Toggle(f.productType, v))
  }

  /** Choosing images replaces the list and resets the thumbnail to the first image. */
  function WithImages(f: ProductForm, files: seq<FileRef>): (g: ProductForm)
    ensures g.images == files && g.thumbnailIndex == 0
    ensures g.(images := f.images, thumbnailIndex := f.thumbnailIndex) == f
  {
    f.(images := files, thumbnailIndex := 0)
  }

  /** The text inputs `handleChange` writes by name. */
  datatype TextInput = BrandInput | NameInput | PriceInput | DiscountInput

  function WithText(f: ProductForm, input: TextInput, value: string): (g: ProductForm)
    ensures g.images == f.images && g.thumbnailIndex == f.thumbnailIndex
    ensures g.category == f.category && g.productType == f.productType
    // the named input takes the value and no other field changes
    ensures input == BrandInput ==> g.brand == value && g.(brand := f.brand) == f
    ensures input == NameInput ==> g.name == value && g.(name := f.name) == f
    ensures input == PriceInput ==> g.price == Text(value) && g.(price := f.price) == f
    ensures input == DiscountInput ==> g.discountPercentage == Text(value) && g.(discountPercentage := f.discountPercentage) == f
  {
    match input
    case BrandInput => f.(brand := value)
    case NameInput => f.(name := value)
    case PriceInput => f.(price := Text(value))
    case DiscountInput => f.(discountPercentage := Text(value))
  }

  /** `handleUpload`'s guard. */
  predicate UploadReady(f: ProductForm) {
    f.brand != "" && f.name != "" && Truthy(f.price)
    && f.category != [] && f.productType != [] && f.images != []
  }

  const FillAllMessage := "Please fill all fields and upload at least one image."
  const AddedMessage := "\U{2705} Product added successfully!"
  const FailedMessage := "\U{274C} Failed to add product."

  /** An existing product's category or product type: an array, or a single value. */
  datatype ListOrValue = List(items: seq<string>) | Single(value: string)

  /** The product fields `handleEditClick` reads. */
  datatype ProductRecord = ProductRecord(
    id: string,
    brand: string,
    name: string,
    price: real,
    discountPercentage: Option<real>,
    category: ListOrValue,
    productType: ListOrValue,
    thumbnailIndex: Option<int>)

  function AsList(v: ListOrValue): (r: seq<string>)
    ensures v.List? ==> r == v.items
    ensures v.Single? ==> r == [v.value]
  {
    match v
    case List(items) => items
    case Single(x) => [x]
  }

  /** The edit form for a product: lists wrapped, falsy discount and thumbnail
      defaulted to 0, no new images. */
  function EditFormOf(p: ProductRecord): (f: ProductForm)
    ensures f.brand == p.brand && f.name == p.name && f.price == Number(p.price)
    ensures f.category == AsList(p.category) && f.productType == AsList(p.productType)
    ensures f.images == []
    ensures p.discountPercentage.None? ==> f.discountPercentage == Number(0.0)
    ensures p.discountPercentage.Some? ==> f.discountPercentage == Number(p.discountPercentage.value)
    ensures p.thumbnailIndex.None? ==> f.thumbnailIndex == 0
    ensures p.thumbnailIndex.Some? ==> f.thumbnailIndex == p.thumbnailIndex.value
  {
    ProductForm(p.brand, p.name, Number(p.price), Number(p.discountPercentage.GetOr(0.0)),
                AsList(p.category), AsList(p.productType), [], p.thumbnailIndex.GetOr(0))
  }

  // ------------------------------------------------------------------ the component state

  class Dashboard {
    var form: ProductForm
    var editForm: ProductForm
    var message: string
    var editingProductId: Option<string>

    constructor ()
      ensures form == EmptyForm() && editForm == EmptyForm()
      ensures message == "" && editingProductId.None?
    {
      form := EmptyForm();
      editForm := EmptyForm();
      message := "";
      editingProductId := None;
    }

    /** `handleChange` / `handleEditChange` on the images input. */
    method ChooseImages(files: seq<FileRef>, isEdit: bool)
      modifies this
      ensures isEdit ==> editForm == WithImages(old(editForm), files) && form == old(form)
      ensures !isEdit ==> form == WithImages(old(form), files) && editForm == old(editForm)
      ensures message == old(message) && editingProductId == old(editingProductId)
    {
      if isEdit {
        editForm := WithImages(editForm, files);
      } else {
        form := WithImages(form, files);
      }
    }

    /** `handleChange` / `handleEditChange` on a text input. */
    method Type(input: TextInput, value: string, isEdit: bool)
      modifies this
      ensures isEdit ==> editForm == WithText(old(editForm), input, value) && form == old(form)
      ensures !isEdit ==> form == WithText(old(form), input, value) && editForm == old(editForm)
      ensures message == old(message) && editingProductId == old(editingProductId)
    {
      if isEdit {
        editForm := WithText(editForm, input, value);
      } else {
        form := WithText(form, input, value);
      }
    }

    method ToggleSelection(key: ListKey, v: string, isEdit: bool)
      modifies this
      ensures isEdit ==> editForm == Toggled(old(editForm), key, v) && form == old(form)
      ensures !isEdit ==> form == Toggled(old(form), key, v) && editForm == old(editForm)
      ensures message == old(message) && editingProductId == old(editingProductId)
    {
      if isEdit {
        editForm := Toggled(editForm, key, v);
      } else {
        form := Toggled(form, key, v);
      }
    }

    /** `handleUpload`; `posted` is whether the POST succeeded. Returns whether the
        form was sent. */
    method Upload(posted: bool) returns (sent: bool)
      modifies this
      ensures sent == UploadReady(old(form))
      ensures !sent ==> message == FillAllMessage && form == old(form)
      ensures sent && posted ==> message == AddedMessage && form == EmptyForm()
      ensures sent && !posted ==> message == FailedMessage && form == old(form)
      ensures editForm == old(editForm) && editingProductId == old(editingProductId)
    {
      if !UploadReady(form) {
        message := FillAllMessage;
        return false;
      }
      sent := true;
      if posted {
        message := AddedMessage;
        form := EmptyForm();
      } else {
        message := FailedMessage;
      }
    }

    /** `handleEditClick`. */
    method EditClick(p: ProductRecord)
      modifies this
      ensures editingProductId == Some(p.id) && editForm == EditFormOf(p)
      ensures form == old(form) && message == old(message)
    {
      editingProductId := Some(p.id);
      editForm := EditFormOf(p);
    }
  }
}

/** The filter sidebar of the category page (frontend/Catagory/CategoryPage.jsx):
    a two-handle price slider that never lets the minimum pass the maximum, and
    single-select category and brand checkboxes, turned into the query of the
    catalogue listing. */
module CategoryPage {
  import opened Wrappers

  /** The slider's range, as the range inputs declare it. */
  const SliderMin: int := 0
  const SliderMax: int := 10000

  /** Clicking a checkbox: the selected one clears the selection, any other selects itself. */
  function Click(selected: string, clicked: string): (r: string)
    ensures selected == clicked ==> r == ""
    ensures selected != clicked ==> r == clicked
    // only the clicked box can be checked afterwards
    ensures r != "" ==> r == clicked
  {
    if selected == clicked then "" else clicked
  }

  /** A second click on the same box undoes the first when nothing, or that box, was selected. */
  lemma ClickTwice(selected: string, clicked: string)
    requires clicked != ""
    ensures Click(Click(selected, clicked), clicked) == selected <==> (selected == "" || selected == clicked)
  {
  }

  /** The min handle's new value: accepted only when it does not pass the max. */
  function MovedMin(min: int, max: int, val: int): (r: int)
    ensures r == val || r == min
    ensures val <= max ==> r == val
    ensures val > max ==> r == min
  {
    if val <= max then val else min
  }

  /** The max handle's new value: accepted only when it does not fall below the min. */
  function MovedMax(min: int, max: int, val: int): (r: int)
    ensures r == val || r == max
    ensures val >= min ==> r == val
    ensures val < min ==> r == max
  {
    if val >= min then val else max
  }

  /** The order of the handles survives every slider event. */
  lemma HandlesStayOrdered(min: int, max: int, val: int)
    requires min <= max
    ensures MovedMin(min, max, val) <= max
    ensures min <= MovedMax(min, max, val)
  {
  }

  /** The query parameters of the products request; `None` is an omitted parameter. */
  datatype ProductsParams = ProductsParams(
    category: Option<string>,
    brand: Option<string>,
    sort: string,
    minPrice: int,
    maxPrice: int)

  /** `value || undefined`. */
  function OrOmitted(value: string): (r: Option<string>)
    ensures r.None? <==> value == ""
    ensures r.Some? ==> r.value == value
  {
    if value == "" then None else Some(value)
  }

  class Filters {
    var selectedCategory: string
    var selectedBrand: string
    var sort: string
    var minPrice: int
    var maxPrice: int

    ghost predicate Valid()
      reads this
    {
      SliderMin <= minPrice <= maxPrice <= SliderMax
    }

    constructor ()
      ensures Valid()
      ensures selectedCategory == "" && selectedBrand == "" && sort == "latest"
      ensures minPrice == SliderMin && maxPrice == SliderMax
    {
      selectedCategory := "";
      selectedBrand := "";
      sort := "latest";
      minPrice := SliderMin;
      maxPrice := SliderMax;
    }

    /** The min handle's `onChange`; the range input reports values within its range. */
    method SlideMin(val: int)
      requires Valid() && SliderMin <= val <= SliderMax
      modifies this
      ensures Valid()
      ensures minPrice == MovedMin(old(minPrice), old(maxPrice), val)
      ensures maxPrice == old(maxPrice) && selectedCategory == old(selectedCategory)
      ensures selectedBrand == old(selectedBrand) && sort == old(sort)
    {
      if val <= maxPrice {
        minPrice := val;
      }
    }

    /** The max handle's `onChange`. */
    method SlideMax(val: int)
      requires Valid() && SliderMin <= val <= SliderMax
      modifies this
      ensures Valid()
      ensures maxPrice == MovedMax(old(minPrice), old(maxPrice), val)
      ensures minPrice == old(minPrice) && selectedCategory == old(selectedCategory)
      ensures selectedBrand == old(selectedBrand) && sort == old(sort)
    {
      if val >= minPrice {
        maxPrice := val;
      }
    }

    method ClickCategory(cat: string)
      modifies this
      ensures selectedCategory == Click(old(selectedCategory), cat)
      ensures selectedBrand == old(selectedBrand) && sort == old(sort)
      ensures minPrice == old(minPrice) && maxPrice == old(maxPrice)
    {
      selectedCategory := if selectedCategory == cat then "" else cat;
    }

    method ClickBrand(b: string)
      modifies this
      ensures selectedBrand == Click(old(selectedBrand), b)
      ensures selectedCategory == old(selectedCategory) && sort == old(sort)
      ensures minPrice == old(minPrice) && maxPrice == old(maxPrice)
    {
      selectedBrand := if selectedBrand == b then "" else b;
    }

    /** The parameters the products request is sent with. */
    function Params(): (p: ProductsParams)
      reads this
      ensures p.category.None? <==> selectedCategory == ""
      ensures p.brand.None? <==> selectedBrand == ""
      ensures p.category.Some? ==> p.category.value == selectedCategory
      ensures p.brand.Some? ==> p.brand.value == selectedBrand
      ensures Valid() ==> SliderMin <= p.minPrice <= p.maxPrice <= SliderMax
      // the sort and both bounds are sent as they stand
      ensures p.sort == sort && p.minPrice == minPrice && p.maxPrice == maxPrice
    {
      ProductsParams(OrOmitted(selectedCategory), OrOmitted(selectedBrand), sort, minPrice, maxPrice)
    }
  }
}

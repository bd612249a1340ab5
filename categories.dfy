/** The seven categories a user gets on first load (constants/categories.ts), with the
    colours of constants/theme.ts. */
module Categories {

  /** `Omit<Category, 'id'>`: a category before the store has given it an id */
  datatype CategoryTemplate = CategoryTemplate(name: string, color: string, icon: string)

  const DefaultCategories: seq<CategoryTemplate> := [
    CategoryTemplate("Food", "#FC642D", "restaurant"),
    CategoryTemplate("Transport", "#008489", "car"),
    CategoryTemplate("Shopping", "#BD1E59", "shopping-bag"),
    CategoryTemplate("Entertainment", "#9065B0", "film"),
    CategoryTemplate("Bills", "#E0B423", "receipt"),
    CategoryTemplate("Health", "#00A699", "medical"),
    CategoryTemplate("Other", "#767676", "ellipsis-horizontal")
  ]

  /** The name the model is told to fall back to, and the last default. */
  const FallbackName := "Other"

  function Names(ts: seq<CategoryTemplate>): (r: seq<string>)
    ensures |r| == |ts| && forall i :: 0 <= i < |ts| ==> r[i] == ts[i].name
  {
    seq(|ts|, i requires 0 <= i < |ts| => ts[i].name)
  }

  predicate Distinct(names: seq<string>) {
    forall i, j :: 0 <= i < j < |names| ==> names[i] != names[j]
  }

  lemma DefaultCategoriesShape()
    ensures |DefaultCategories| == 7
    ensures Names(DefaultCategories)
      == ["Food", "Transport", "Shopping", "Entertainment", "Bills", "Health", "Other"]
    ensures Distinct(Names(DefaultCategories))
    ensures FallbackName in Names(DefaultCategories)
  {
    var names := Names(DefaultCategories);
    assert names[6] == FallbackName;
  }
}

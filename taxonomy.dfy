/** The static category and time-filter tables of `src/data/mockEvents.js`. */
module Taxonomy {

  /** One entry of the category selector (`caption` is its `label`; the display `order` is left out). */
  datatype Category = Category(id: string, caption: string, icon: string)

  /** The id that switches a filter off. */
  const All: string := "all"

  const Categories: seq<Category> := [
    Category("all", "All Events", "\U{2728}"),
    Category("party", "Party", "\U{1F389}"),
    Category("music", "Music", "\U{1F3B5}"),
    Category("festival", "Festival", "\U{1F3AA}"),
    Category("food", "Food", "\U{1F35C}"),
    Category("artsy", "Artsy", "\U{1F3A8}"),
    Category("comedy", "Comedy", "\U{1F602}"),
    Category("expo", "Expo", "\U{1F3DB}\U{FE0F}"),
    Category("sports", "Sports", "\U{26BD}")
  ]

  const Today: string := "today"
  const Weekend: string := "weekend"

  /** The ids the event form offers: every category except "all", in table order. */
  function SelectableCategoryIds(cs: seq<Category>): (ids: seq<string>)
    ensures forall id :: id in ids <==> id != All && exists c :: c in cs && c.id == id
    ensures |ids| <= |cs|
  {
    if cs == [] then []
    else if cs[0].id != All then [cs[0].id] + SelectableCategoryIds(cs[1..])
    else SelectableCategoryIds(cs[1..])
  }
}

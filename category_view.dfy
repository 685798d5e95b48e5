/**
 * The category page: the heading made from the route's category parameter, the subtitle,
 * and the grid filtered by that parameter.
 */
module CategoryView {
  import opened Wrappers
  import opened Text
  import opened ProductData
  import ClothingGrid

  /** `formatCategoryName(name)`: "" for a missing or empty name, else the first character upper-cased. */
  function FormatCategoryName(name: Option<string>): (r: string)
    ensures name.None? || name.value == "" ==> r == ""
    ensures name.Some? && name.value != "" ==>
              |r| == |name.value| && r[0] == UpperChar(name.value[0])
              && forall i :: 1 <= i < |r| ==> r[i] == name.value[i]
  {
    if name.None? || name.value == "" then "" else [UpperChar(name.value[0])] + name.value[1..]
  }

  /** The subtitle's `category?.toLowerCase()`. */
  function Subtitle(category: Option<string>): Option<string> {
    if category.None? then None else Some(ToLower(category.value))
  }

  /** Formatting an already formatted name changes nothing. */
  lemma FormatIdempotent(name: Option<string>)
    ensures FormatCategoryName(Some(FormatCategoryName(name))) == FormatCategoryName(name)
  {
    var r := FormatCategoryName(name);
    if r != "" {
      var rr := FormatCategoryName(Some(r));
      UpperCharIdempotent(r[0]);
      assert rr == r;
    }
  }

  /** A name that already starts with a capital, or with no letter at all, is shown as it is. */
  lemma FormatKeepsCapitalised(name: string)
    requires name != [] && !('a' <= name[0] <= 'z')
    ensures FormatCategoryName(Some(name)) == name
  {
    assert FormatCategoryName(Some(name)) == [name[0]] + name[1..];
  }

  /** The heading and the subtitle name the same category, up to letter case. */
  lemma HeadingAgreesWithSubtitle(category: string)
    ensures Subtitle(Some(category)) == Some(ToLower(FormatCategoryName(Some(category))))
  {
    var h := FormatCategoryName(Some(category));
    if category != "" {
      assert LowerChar(UpperChar(category[0])) == LowerChar(category[0]);
      assert ToLower(h) == ToLower(category);
    }
  }

  /** The grid shows the same items whether asked for the route parameter or for the heading. */
  lemma GridAgreesWithHeading(items: seq<Product>, category: string)
    requires category != ""
    ensures ClothingGrid.DisplayIn(items, Some(FormatCategoryName(Some(category))))
            == ClothingGrid.DisplayIn(items, Some(category))
  {
    HeadingAgreesWithSubtitle(category);
    ClothingGrid.CategoryCaseIgnored(items, FormatCategoryName(Some(category)), category);
  }
}

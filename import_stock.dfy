/**
 * The `import_stock` management command
 * (inventory/management/commands/import_stock.py): each stock name is
 * stripped and title-cased, then given a category by the command's own
 * `extract_category`, which keeps the import script's keyword tests.
 */
module ImportStock {
  import opened Text
  import Classifier

  function ExtractCategory(stockName: string): (category: string)
    ensures category == Classifier.ExtractCategory(stockName)
  {
    CategoryOf(Strip(Lower(stockName)))
  }

  /** The keyword tests, the same as the import script's. */
  function CategoryOf(name: string): (category: string)
    ensures category == Classifier.CategoryOf(name)
  {
    if Contains(name, "kid") then
      if Contains(name, "shoe") then "Kid's Shoes"
      else if Contains(name, "sandal") then "Kid's Sandal"
      else if Contains(name, "jean") then "Kid's Jeans"
      else if Contains(name, "shirt") then "Kid's Shirt"
      else if Contains(name, "bag") then "Kid's Bags"
      else if Contains(name, "crocks") || Contains(name, "flip") then "Kid's Footwear"
      else "Kid's Wear"
    else if Contains(name, "men") then
      if Contains(name, "shoe") then "Men's Shoes"
      else if Contains(name, "jean") then "Men's Jeans"
      else if Contains(name, "shirt") then "Men's Shirts"
      else if Contains(name, "pant") || Contains(name, "trouser") then "Men's Trousers"
      else if Contains(name, "cargo") then "Men's Cargo"
      else if Contains(name, "lower") then "Men's Lower"
      else "Men's Wear"
    else if Contains(name, "shoe") then "Shoes"
    else if Contains(name, "lofer") then "Lofer Shoes"
    else if Contains(name, "hitway") || Contains(name, "abros") then "Sports Shoes"
    else "Miscellaneous"
  }

  /** The name the command stores and classifies: the cell text stripped, then title-cased. */
  function NormalizeName(cell: string): string {
    Title(Strip(cell))
  }

  /** The category of a row of the spreadsheet, as the command assigns it. */
  function RowCategory(cell: string): string {
    ExtractCategory(NormalizeName(cell))
  }

  /** Title-casing before classifying does not change the category: the classifier lower-cases first. */
  lemma TitleKeepsCategory(stockName: string)
    ensures ExtractCategory(Title(stockName)) == ExtractCategory(stockName)
  {
    LowerOfTitle(stockName, false);
  }

  /**
   * The command files every spreadsheet row under the category the import
   * script gives it (the script classifies the stripped cell text as it is).
   */
  lemma RowCategoryMatchesScript(cell: string)
    ensures RowCategory(cell) == Classifier.ExtractCategory(Strip(cell))
  {
    TitleKeepsCategory(Strip(cell));
  }
}

/**
 * `extract_category` of the stock import script (test.py): a stock name is
 * lower-cased and stripped, then sorted into a category by keyword tests,
 * the "kid" test first, the "men" test second.
 */
module Classifier {
  import opened Text

  const KidLabels: set<string> :=
    {"Kid's Shoes", "Kid's Sandal", "Kid's Jeans", "Kid's Shirt", "Kid's Bags", "Kid's Footwear", "Kid's Wear"}
  const MenLabels: set<string> :=
    {"Men's Shoes", "Men's Jeans", "Men's Shirts", "Men's Trousers", "Men's Cargo", "Men's Lower", "Men's Wear"}
  const OtherLabels: set<string> := {"Shoes", "Lofer Shoes", "Sports Shoes", "Miscellaneous"}

  /** Every category the classifier can produce. */
  const Labels: set<string> := KidLabels + MenLabels + OtherLabels

  /** The text the keyword tests look at. */
  function Key(stockName: string): string {
    Strip(Lower(stockName))
  }

  function ExtractCategory(stockName: string): (category: string)
    ensures category in Labels
  {
    CategoryOf(Key(stockName))
  }

  /** The keyword tests on the lower-cased, stripped name. */
  function CategoryOf(name: string): (category: string)
    ensures category in Labels
  {
    if Contains(name, "kid") then
      if Contains(name, "shoe") then "Kid's Shoes"
      else if Contains(name, "sandal") then "Kid's Sandal"
      else if Contains(name, "jean") then "Kid's Jeans"
      else if Contains(name, "shirt") then "Kid's Shirt"
      else if Contains(name, "bag") then "Kid's Bags"
      else if Contains(name, "crocks") || Contains(name, "flip") then "Kid's Footwear"
      else "Kid's Wear"
    else if Contains(name, "men") then
      if Contains(name, "shoe") then "Men's Shoes"
      else if Contains(name, "jean") then "Men's Jeans"
      else if Contains(name, "shirt") then "Men's Shirts"
      else if Contains(name, "pant") || Contains(name, "trouser") then "Men's Trousers"
      else if Contains(name, "cargo") then "Men's Cargo"
      else if Contains(name, "lower") then "Men's Lower"
      else "Men's Wear"
    else if Contains(name, "shoe") then "Shoes"
    else if Contains(name, "lofer") then "Lofer Shoes"
    else if Contains(name, "hitway") || Contains(name, "abros") then "Sports Shoes"
    else "Miscellaneous"
  }

  // An independent reading: three decision lists, the first matching rule winning.

  /** A rule: any of its keywords in the name gives its category. */
  datatype Rule = Rule(keywords: seq<string>, category: string)

  /** Some keyword of `keywords` occurs in `name`. */
  predicate AnyIn(name: string, keywords: seq<string>) {
    |keywords| > 0 && (Contains(name, keywords[0]) || AnyIn(name, keywords[1..]))
  }

  lemma {:induction false} AnyInExists(name: string, keywords: seq<string>)
    ensures AnyIn(name, keywords) <==> exists k :: 0 <= k < |keywords| && Contains(name, keywords[k])
  {
    if |keywords| > 0 {
      AnyInExists(name, keywords[1..]);
      if exists k :: 0 <= k < |keywords| && Contains(name, keywords[k]) {
        var k :| 0 <= k < |keywords| && Contains(name, keywords[k]);
        if k > 0 {
          assert keywords[1..][k - 1] == keywords[k];
        }
      }
      if AnyIn(name, keywords[1..]) {
        var k :| 0 <= k < |keywords[1..]| && Contains(name, keywords[1..][k]);
        assert keywords[k + 1] == keywords[1..][k];
      }
    }
  }

  /**
   * The category of the first rule from index `i` on that matches, or the
   * fallback when none does.
   */
  function FirstMatch(rules: seq<Rule>, i: nat, name: string, fallback: string): string
    decreases |rules| - i
  {
    if i >= |rules| then fallback
    else if AnyIn(name, rules[i].keywords) then rules[i].category
    else FirstMatch(rules, i + 1, name, fallback)
  }

  /** With no rule matching from index `i` on, the category is the fallback. */
  lemma {:induction false} NoMatchFallsBack(rules: seq<Rule>, i: nat, name: string, fallback: string)
    requires forall k :: i <= k < |rules| ==> !AnyIn(name, rules[k].keywords)
    ensures FirstMatch(rules, i, name, fallback) == fallback
    decreases |rules| - i
  {
    if i < |rules| {
      NoMatchFallsBack(rules, i + 1, name, fallback);
    }
  }

  /** The first rule from index `i` on that matches gives the category. */
  lemma {:induction false} FirstMatchWins(rules: seq<Rule>, i: nat, k: nat, name: string, fallback: string)
    requires i <= k < |rules| && AnyIn(name, rules[k].keywords)
    requires forall j :: i <= j < k ==> !AnyIn(name, rules[j].keywords)
    ensures FirstMatch(rules, i, name, fallback) == rules[k].category
    decreases k - i
  {
    if i < k {
      FirstMatchWins(rules, i + 1, k, name, fallback);
    }
  }

  const KidRules: seq<Rule> := [
    Rule(["shoe"], "Kid's Shoes"), Rule(["sandal"], "Kid's Sandal"), Rule(["jean"], "Kid's Jeans"),
    Rule(["shirt"], "Kid's Shirt"), Rule(["bag"], "Kid's Bags"), Rule(["crocks", "flip"], "Kid's Footwear")]
  const MenRules: seq<Rule> := [
    Rule(["shoe"], "Men's Shoes"), Rule(["jean"], "Men's Jeans"), Rule(["shirt"], "Men's Shirts"),
    Rule(["pant", "trouser"], "Men's Trousers"), Rule(["cargo"], "Men's Cargo"), Rule(["lower"], "Men's Lower")]
  const OtherRules: seq<Rule> := [
    Rule(["shoe"], "Shoes"), Rule(["lofer"], "Lofer Shoes"), Rule(["hitway", "abros"], "Sports Shoes")]

  /** The classification as the three decision lists give it. */
  function ByRules(name: string): string {
    if Contains(name, "kid") then FirstMatch(KidRules, 0, name, "Kid's Wear")
    else if Contains(name, "men") then FirstMatch(MenRules, 0, name, "Men's Wear")
    else FirstMatch(OtherRules, 0, name, "Miscellaneous")
  }

  lemma AnyInOne(name: string, w: string)
    ensures AnyIn(name, [w]) <==> Contains(name, w)
  {
    assert [w][1..] == [];
  }

  lemma AnyInTwo(name: string, w1: string, w2: string)
    ensures AnyIn(name, [w1, w2]) <==> Contains(name, w1) || Contains(name, w2)
  {
    assert [w1, w2][1..] == [w2];
    AnyInOne(name, w2);
  }

  /** The if/elif chain is the three decision lists, in order. */
  lemma CategoryFollowsRules(name: string)
    ensures CategoryOf(name) == ByRules(name)
  {
    KidChain(name);
    MenChain(name);
    OtherChain(name);
  }

  lemma KidChain(name: string)
    ensures FirstMatch(KidRules, 0, name, "Kid's Wear") ==
      if Contains(name, "shoe") then "Kid's Shoes"
      else if Contains(name, "sandal") then "Kid's Sandal"
      else if Contains(name, "jean") then "Kid's Jeans"
      else if Contains(name, "shirt") then "Kid's Shirt"
      else if Contains(name, "bag") then "Kid's Bags"
      else if Contains(name, "crocks") || Contains(name, "flip") then "Kid's Footwear"
      else "Kid's Wear"
  {
    var rs, w := KidRules, "Kid's Wear";
    AnyInOne(name, "shoe");
    AnyInOne(name, "sandal");
    AnyInOne(name, "jean");
    AnyInOne(name, "shirt");
    AnyInOne(name, "bag");
    AnyInTwo(name, "crocks", "flip");
    assert FirstMatch(rs, 5, name, w) == if AnyIn(name, rs[5].keywords) then rs[5].category else FirstMatch(rs, 6, name, w);
    assert FirstMatch(rs, 4, name, w) == if AnyIn(name, rs[4].keywords) then rs[4].category else FirstMatch(rs, 5, name, w);
    assert FirstMatch(rs, 3, name, w) == if AnyIn(name, rs[3].keywords) then rs[3].category else FirstMatch(rs, 4, name, w);
    assert FirstMatch(rs, 2, name, w) == if AnyIn(name, rs[2].keywords) then rs[2].category else FirstMatch(rs, 3, name, w);
    assert FirstMatch(rs, 1, name, w) == if AnyIn(name, rs[1].keywords) then rs[1].category else FirstMatch(rs, 2, name, w);
  }

  lemma MenChain(name: string)
    ensures FirstMatch(MenRules, 0, name, "Men's Wear") ==
      if Contains(name, "shoe") then "Men's Shoes"
      else if Contains(name, "jean") then "Men's Jeans"
      else if Contains(name, "shirt") then "Men's Shirts"
      else if Contains(name, "pant") || Contains(name, "trouser") then "Men's Trousers"
      else if Contains(name, "cargo") then "Men's Cargo"
      else if Contains(name, "lower") then "Men's Lower"
      else "Men's Wear"
  {
    var rs, w := MenRules, "Men's Wear";
    AnyInOne(name, "shoe");
    AnyInOne(name, "jean");
    AnyInOne(name, "shirt");
    AnyInTwo(name, "pant", "trouser");
    AnyInOne(name, "cargo");
    AnyInOne(name, "lower");
    assert FirstMatch(rs, 5, name, w) == if AnyIn(name, rs[5].keywords) then rs[5].category else FirstMatch(rs, 6, name, w);
    assert FirstMatch(rs, 4, name, w) == if AnyIn(name, rs[4].keywords) then rs[4].category else FirstMatch(rs, 5, name, w);
    assert FirstMatch(rs, 3, name, w) == if AnyIn(name, rs[3].keywords) then rs[3].category else FirstMatch(rs, 4, name, w);
    assert FirstMatch(rs, 2, name, w) == if AnyIn(name, rs[2].keywords) then rs[2].category else FirstMatch(rs, 3, name, w);
    assert FirstMatch(rs, 1, name, w) == if AnyIn(name, rs[1].keywords) then rs[1].category else FirstMatch(rs, 2, name, w);
  }

  lemma OtherChain(name: string)
    ensures FirstMatch(OtherRules, 0, name, "Miscellaneous") ==
      if Contains(name, "shoe") then "Shoes"
      else if Contains(name, "lofer") then "Lofer Shoes"
      else if Contains(name, "hitway") || Contains(name, "abros") then "Sports Shoes"
      else "Miscellaneous"
  {
    var rs, w := OtherRules, "Miscellaneous";
    AnyInOne(name, "shoe");
    AnyInOne(name, "lofer");
    AnyInTwo(name, "hitway", "abros");
    assert FirstMatch(rs, 2, name, w) == if AnyIn(name, rs[2].keywords) then rs[2].category else FirstMatch(rs, 3, name, w);
    assert FirstMatch(rs, 1, name, w) == if AnyIn(name, rs[1].keywords) then rs[1].category else FirstMatch(rs, 2, name, w);
  }

  // Properties.

  /** The category depends only on the lower-cased name: the classifier ignores case. */
  lemma CaseInsensitive(a: string, b: string)
    requires Lower(a) == Lower(b)
    ensures ExtractCategory(a) == ExtractCategory(b)
  {
  }

  lemma UpperCaseSameCategory(stockName: string)
    ensures ExtractCategory(Upper(stockName)) == ExtractCategory(stockName)
  {
    LowerOfUpper(stockName);
  }

  // The keyword tests, on the lower-cased, stripped name.

  /** Any name containing "kid", whatever else it contains, gets a "Kid's" category. */
  lemma KidWins(name: string)
    requires Contains(name, "kid")
    ensures CategoryOf(name) in KidLabels
  {
  }

  /** A name with "men" and no "kid" gets a "Men's" category. */
  lemma MenWithoutKid(name: string)
    requires !Contains(name, "kid") && Contains(name, "men")
    ensures CategoryOf(name) in MenLabels
  {
  }

  /** With none of the keywords, the category is the fallback. */
  lemma NoKeywordIsMiscellaneous(name: string)
    requires !Contains(name, "kid") && !Contains(name, "men") && !Contains(name, "shoe")
    requires !Contains(name, "lofer") && !Contains(name, "hitway") && !Contains(name, "abros")
    ensures CategoryOf(name) == "Miscellaneous"
  {
  }

  /** A name containing "women" also contains "men". */
  lemma WomenContainsMen(name: string)
    requires Contains(name, "women")
    ensures Contains(name, "men")
  {
    var i :| 0 <= i <= |name| - 5 && OccursAt(name, "women", i);
    assert name[i + 2..i + 5] == name[i..i + 5][2..5] == "men";
    assert OccursAt(name, "men", i + 2);
  }

  /** So, with no "kid" in it, a women's article is filed under a men's category. */
  lemma WomenFiledAsMen(name: string)
    requires !Contains(name, "kid") && Contains(name, "women")
    ensures CategoryOf(name) in MenLabels
  {
    WomenContainsMen(name);
    MenWithoutKid(name);
  }
}

/**
 * The FAQ page: questions grouped in categories, shown as an accordion that
 * keeps one expanded index per category (-1 when all are collapsed).
 */
module Faq {
  /** The category tabs, in page order. */
  const FaqCategoryIds: seq<string> := ["general", "process", "services", "financial", "technical"]

  /** How many questions each category holds. */
  function QuestionCount(category: string): nat {
    if category == "general" then 7
    else if category in FaqCategoryIds then 3
    else 0
  }

  /** The initial `expandedItems`: the first question of every category expanded. */
  const InitialExpanded: map<string, int> :=
    map["general" := 0, "process" := 0, "services" := 0, "financial" := 0, "technical" := 0]

  /**
   * `toggleItem`: pressing the expanded question of a category collapses it,
   * pressing any other opens it; the other categories keep their entries.
   */
  function Toggle(expanded: map<string, int>, category: string, index: int): (r: map<string, int>)
    ensures r.Keys == expanded.Keys + {category}
    ensures forall c :: c in expanded && c != category ==> r[c] == expanded[c]
  {
    expanded[category := if category in expanded && expanded[category] == index then -1 else index]
  }

  /** Whether question `index` of `category` is expanded. */
  predicate IsExpanded(expanded: map<string, int>, category: string, index: int) {
    category in expanded && expanded[category] == index
  }

  /** Pressing the expanded question collapses the category; pressing another expands exactly that one. */
  lemma ToggleEffect(expanded: map<string, int>, category: string, index: nat)
    ensures IsExpanded(expanded, category, index) ==>
      forall i: nat :: !IsExpanded(Toggle(expanded, category, index), category, i)
    ensures !IsExpanded(expanded, category, index) ==>
      forall i: nat :: IsExpanded(Toggle(expanded, category, index), category, i) <==> i == index
  {
  }

  /** A toggle changes only the pressed category's entry. */
  lemma ToggleKeepsOthers(expanded: map<string, int>, category: string, index: int, other: string, i: int)
    requires other != category
    ensures IsExpanded(Toggle(expanded, category, index), other, i) <==> IsExpanded(expanded, other, i)
  {
  }

  /** Pressing the expanded question twice gives back the state before. */
  lemma ToggleTwice(expanded: map<string, int>, category: string, index: int)
    requires IsExpanded(expanded, category, index)
    ensures Toggle(Toggle(expanded, category, index), category, index) == expanded
  {
    var once := Toggle(expanded, category, index);
    assert once[category] == -1;
    assert index != -1 ==> Toggle(once, category, index)[category] == index;
  }

  /** On the page, every category starts with its first question expanded and the keys never change. */
  lemma InitialState(category: string)
    requires category in FaqCategoryIds
    ensures IsExpanded(InitialExpanded, category, 0) && QuestionCount(category) > 0
    ensures Toggle(InitialExpanded, category, 0).Keys == InitialExpanded.Keys
  {
  }

  /** The page's state: the selected tab and the expanded question of every category. */
  class FaqPage {
    var activeCategory: string
    var expandedItems: map<string, int>

    /** Every tab has an entry, and no other key is ever added. */
    ghost predicate Valid()
      reads this
    {
      expandedItems.Keys == set c | c in FaqCategoryIds
    }

    constructor ()
      ensures Valid()
      ensures activeCategory == "general" && expandedItems == InitialExpanded
    {
      activeCategory := "general";
      expandedItems := InitialExpanded;
    }

    /** A category tab: the accordion state of every category is kept. */
    method SetActiveCategory(category: string)
      modifies this
      ensures activeCategory == category && expandedItems == old(expandedItems)
    {
      activeCategory := category;
    }

    /** A question's header: `toggleItem(activeCategory, index)`. */
    method ToggleItem(index: int)
      requires Valid() && activeCategory in FaqCategoryIds
      modifies this
      ensures Valid()
      ensures expandedItems == Toggle(old(expandedItems), activeCategory, index)
      ensures activeCategory == old(activeCategory)
    {
      var now := if expandedItems[activeCategory] == index then -1 else index;
      expandedItems := expandedItems[activeCategory := now];
    }
  }
}

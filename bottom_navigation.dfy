/** `YoutubeBottomNavigation`: five fixed entries, of which only Home is selected. */
module BottomNavigation {

  datatype NavItem = NavItem(text: string, selected: bool)

  /** The entries in display order, with their `selected` flags. */
  const Items: seq<NavItem> := [
    NavItem("Home", true),
    NavItem("Explore", false),
    NavItem("Create", false),
    NavItem("Subscriptions", false),
    NavItem("Library", false)
  ]

  /** The positions of a bar's selected entries. */
  function SelectedIndices(items: seq<NavItem>): set<int>
  {
    set i | 0 <= i < |items| && items[i].selected
  }

  /** How many entries of a bar are marked selected. */
  function SelectedCount(items: seq<NavItem>): (r: nat)
    ensures r == |SelectedIndices(items)|
    ensures r <= |items|
    ensures r == 0 <==> forall i :: 0 <= i < |items| ==> !items[i].selected
  {
    if items == [] then 0
    else
      var front := items[..|items| - 1];
      var last := |items| - 1;
      assert SelectedIndices(items)
          == SelectedIndices(front) + (if items[last].selected then {last} else {});
      assert last !in SelectedIndices(front);
      SelectedCount(front) + (if items[last].selected then 1 else 0)
  }

  /** Exactly one entry is selected precisely when there is one selected position and no other. */
  lemma ExactlyOneSelected(items: seq<NavItem>, k: int)
    requires 0 <= k < |items| && items[k].selected
    ensures SelectedCount(items) == 1 <==> forall i :: 0 <= i < |items| && items[i].selected ==> i == k
  {
    var chosen := SelectedIndices(items);
    assert k in chosen;
    if forall i :: 0 <= i < |items| && items[i].selected ==> i == k {
      assert forall x :: x in chosen <==> x == k;
      assert chosen == {k};
    }
    if SelectedCount(items) == 1 {
      var others := chosen - {k};
      assert |others| == 0;
      forall i | 0 <= i < |items| && items[i].selected ensures i == k {
        assert i in chosen;
        assert i !in others;
      }
    }
  }

  /** The bar has exactly the five texts, and exactly one entry, Home, is selected. */
  lemma OnlyHomeSelected()
    ensures |Items| == 5
    ensures Items[0].text == "Home" && Items[1].text == "Explore" && Items[2].text == "Create"
         && Items[3].text == "Subscriptions" && Items[4].text == "Library"
    ensures SelectedCount(Items) == 1
    ensures forall i :: 0 <= i < |Items| ==> (Items[i].selected <==> i == 0)
  {
    ExactlyOneSelected(Items, 0);
  }
}

/**
 * The static menu catalog and the grouping of menu items into the fixed
 * sequence of categories shown by the menu page (shared/menu.ts).
 */
module Menu {
  import opened Common

  /** A catalog entry; prices are whole rupees. */
  datatype MenuItem = MenuItem(id: string, name: string, price: int, category: string, description: Option<string>)

  /** One bucket of the grouped menu. */
  datatype MenuCategory = MenuCategory(name: string, items: seq<MenuItem>)

  /** The order in which category buckets are listed. */
  const CategoryOrder: seq<string> := [
    "Soups", "Salads", "Starters", "Breads", "Gravy/Curry", "Chinese", "Rice Special", "Malnad Special"
  ]

  /** The "Soups" entries of the catalog, in catalog order. */
  const SoupsSection: seq<MenuItem> := [
    MenuItem("soup_01", "Baby Corn Soup", 100, "Soups", None),
    MenuItem("soup_02", "Hot & Sour Soup", 120, "Soups", None),
    MenuItem("soup_03", "Tomato Soup", 100, "Soups", None),
    MenuItem("soup_04", "Veg Cheese Soup", 120, "Soups", None),
    MenuItem("soup_05", "Burnt Garlic Soup", 100, "Soups", None),
    MenuItem("soup_06", "Broccoli Soup", 120, "Soups", None)
  ]

  /** The "Salads" entries of the catalog, in catalog order. */
  const SaladsSection: seq<MenuItem> := [
    MenuItem("salad_01", "Kachumber Salad", 40, "Salads", None),
    MenuItem("salad_02", "Green Salad", 40, "Salads", None),
    MenuItem("salad_03", "Italian Pasta Salad", 80, "Salads", None),
    MenuItem("salad_04", "Veg Russian Salad", 50, "Salads", None),
    MenuItem("salad_05", "Nut Salad", 50, "Salads", None),
    MenuItem("salad_06", "ColeSlaw Salad", 50, "Salads", None)
  ]

  /** The "Starters" entries of the catalog, in catalog order. */
  const StartersSection: seq<MenuItem> := [
    MenuItem("starter_01", "Gobi Manchurian", 140, "Starters", None),
    MenuItem("starter_02", "Paneer/Aloo/Gobi - Pepper Dry", 150, "Starters", None),
    MenuItem("starter_03", "Paneer/Aloo/Gobi - Chilly", 140, "Starters", None),
    MenuItem("starter_04", "Golden Fried Baby Corn", 180, "Starters", None),
    MenuItem("starter_05", "Mushroom Dry/Chilly", 180, "Starters", None),
    MenuItem("starter_06", "Veg Chilly/Veg Dry", 120, "Starters", None),
    MenuItem("starter_07", "Baby Corn/Paneer Schezwaan", 140, "Starters", None)
  ]

  /** The "Breads" entries of the catalog, in catalog order. */
  const BreadsSection: seq<MenuItem> := [
    MenuItem("bread_01", "Aloo Stuffed Parata (Per Plate)", 120, "Breads", None),
    MenuItem("bread_02", "Mirch/Pudina/Methi Parata (Per Plate)", 120, "Breads", None),
    MenuItem("bread_03", "Paneer Stuffed Parata (Per Plate)", 150, "Breads", None),
    MenuItem("bread_04", "Roti (Per Piece)", 30, "Breads", None),
    MenuItem("bread_05", "Chapathi (Per Piece)", 30, "Breads", None),
    MenuItem("bread_06", "Normal Parata (Per Piece)", 40, "Breads", None),
    MenuItem("bread_07", "White Maida Chapathi (Per Piece)", 40, "Breads", None)
  ]

  /** The "Gravy/Curry" entries of the catalog, in catalog order. */
  const CurrySection: seq<MenuItem> := [
    MenuItem("curry_01", "Paneer Tikka Masala", 255, "Gravy/Curry", None),
    MenuItem("curry_02", "Dal Makhani", 155, "Gravy/Curry", None),
    MenuItem("curry_03", "Shahi Paneer", 215, "Gravy/Curry", None),
    MenuItem("curry_04", "Dal Tadka", 145, "Gravy/Curry", None),
    MenuItem("curry_05", "Palak Paneer", 215, "Gravy/Curry", None),
    MenuItem("curry_06", "Mixed Veg", 145, "Gravy/Curry", None),
    MenuItem("curry_07", "Shahi Paneer/Paneer Kadai", 215, "Gravy/Curry", None),
    MenuItem("curry_08", "Matar Mushroom", 215, "Gravy/Curry", None),
    MenuItem("curry_09", "Veg Kolhapuri", 155, "Gravy/Curry", None)
  ]

  /** The "Chinese" entries of the catalog, in catalog order. */
  const ChineseSection: seq<MenuItem> := [
    MenuItem("chinese_01", "Schezwaan Fried Rice/Noodles", 199, "Chinese", None),
    MenuItem("chinese_02", "Masala Noodles / Pasta", 180, "Chinese", None),
    MenuItem("chinese_03", "White Sause Pasta/ Noodles", 215, "Chinese", None),
    MenuItem("chinese_04", "Fried Rice", 180, "Chinese", None),
    MenuItem("chinese_05", "Garlic Fried Rice", 180, "Chinese", None),
    MenuItem("chinese_06", "Shanghai Fried Rice", 199, "Chinese", None),
    MenuItem("chinese_07", "Chinese Chopsuey", 215, "Chinese", None)
  ]

  /** The "Rice Special" entries of the catalog, in catalog order. */
  const RiceSection: seq<MenuItem> := [
    MenuItem("rice_01", "Hyderabadi Biryani", 215, "Rice Special", None),
    MenuItem("rice_02", "Veg Biryani", 215, "Rice Special", None),
    MenuItem("rice_03", "Dal Kichidi", 180, "Rice Special", None),
    MenuItem("rice_04", "Ghee Rice / Jeera Rice", 180, "Rice Special", None),
    MenuItem("rice_05", "Mushroom Biryani", 215, "Rice Special", None),
    MenuItem("rice_06", "Lemon Rice / Puliogere", 120, "Rice Special", None),
    MenuItem("rice_07", "Soya Chunks Biryani", 215, "Rice Special", None),
    MenuItem("rice_08", "Paneer Biryani", 215, "Rice Special", None)
  ]

  /** The "Malnad Special" entries of the catalog, in catalog order. */
  const MalnadSection: seq<MenuItem> := [
    MenuItem("malnad_01", "South Indian Meal (MIN. Order 4)", 210, "Malnad Special", None),
    MenuItem("malnad_02", "Rice Thalipattu", 100, "Malnad Special", None),
    MenuItem("malnad_03", "Rava Dosa", 120, "Malnad Special", None),
    MenuItem("malnad_04", "Pathrode", 120, "Malnad Special", None),
    MenuItem("malnad_05", "Poha", 80, "Malnad Special", None),
    MenuItem("malnad_06", "Neer Dosa", 120, "Malnad Special", None),
    MenuItem("malnad_07", "Dosa (Varieties Available)", 80, "Malnad Special", None)
  ]

  /** The catalog served for the "RestoVersion" menu: the eight sections in this order. */
  const RestoVersionMenu: seq<MenuItem> :=
    SoupsSection + SaladsSection + StartersSection + BreadsSection
    + CurrySection + ChineseSection + RiceSection + MalnadSection

  // ---------------------------------------------------------------------
  // Grouping
  // ---------------------------------------------------------------------

  /** The items of `items` whose category is `c`, in input order: what the bucket for `c` collects. */
  function InCategory(items: seq<MenuItem>, c: string): (r: seq<MenuItem>)
    ensures |r| <= |items|
    ensures forall x | x in r :: x in items && x.category == c
  {
    if items == [] then []
    else
      var last := items[|items| - 1];
      InCategory(items[..|items| - 1], c) + (if last.category == c then [last] else [])
  }

  /** An item lands in the bucket of its own category. */
  lemma {:induction false} InCategoryMember(items: seq<MenuItem>, x: MenuItem)
    requires x in items
    ensures x in InCategory(items, x.category)
  {
    var n := |items| - 1;
    if items[n] != x {
      assert x in items[..n];
      InCategoryMember(items[..n], x);
    }
  }

  /**
   * The grouped menu over the categories of `order`: one bucket per category
   * of `order` that received at least one item, in the order of `order`.
   */
  function GroupsFor(items: seq<MenuItem>, order: seq<string>): seq<MenuCategory>
  {
    if order == [] then []
    else
      var c := order[|order| - 1];
      var bucket := InCategory(items, c);
      GroupsFor(items, order[..|order| - 1]) + (if |bucket| > 0 then [MenuCategory(c, bucket)] else [])
  }

  function Names(groups: seq<MenuCategory>): (r: seq<string>)
    ensures |r| == |groups| && forall i | 0 <= i < |groups| :: r[i] == groups[i].name
  {
    seq(|groups|, i requires 0 <= i < |groups| => groups[i].name)
  }

  /** Total number of items over all buckets. */
  function TotalSize(groups: seq<MenuCategory>): nat
  {
    if groups == [] then 0 else TotalSize(groups[..|groups| - 1]) + |groups[|groups| - 1].items|
  }

  /** The categories of `order` that received at least one item, in the order of `order`. */
  function PresentCategories(items: seq<MenuItem>, order: seq<string>): seq<string>
  {
    if order == [] then []
    else
      var c := order[|order| - 1];
      PresentCategories(items, order[..|order| - 1]) + (if InCategory(items, c) != [] then [c] else [])
  }

  /**
   * The buckets of the grouped menu: each holds exactly the items of its
   * category, in input order, and is never empty; their names are the
   * categories that received an item, so there are at most `|order|` buckets.
   */
  lemma {:induction false} GroupsForBuckets(items: seq<MenuItem>, order: seq<string>)
    ensures var groups := GroupsFor(items, order);
      && |groups| <= |order|
      && Names(groups) == PresentCategories(items, order)
      && forall i | 0 <= i < |groups| :: groups[i].items == InCategory(items, groups[i].name) && groups[i].items != []
  {
    if order != [] {
      var n := |order| - 1;
      GroupsForBuckets(items, order[..n]);
      var rest := GroupsFor(items, order[..n]);
      if InCategory(items, order[n]) != [] {
        var groups := GroupsFor(items, order);
        assert Names(groups) == Names(rest) + [order[n]];
      } else {
        assert rest + [] == rest;
      }
    }
  }

  /**
   * A category gets a bucket iff it is listed and received an item; the
   * bucket names keep the order of `order` (a subsequence of it).
   */
  lemma {:induction false} PresentCategoriesMembers(items: seq<MenuItem>, order: seq<string>)
    ensures forall c :: c in PresentCategories(items, order) <==> c in order && InCategory(items, c) != []
    ensures IsSubsequence(PresentCategories(items, order), order)
  {
    if order != [] {
      var n := |order| - 1;
      var c := order[n];
      var rest := PresentCategories(items, order[..n]);
      PresentCategoriesMembers(items, order[..n]);
      assert order == order[..n] + [c];
      if InCategory(items, c) != [] {
        var p := rest + [c];
        assert p[..|p| - 1] == rest;
      } else {
        assert rest + [] == rest;
        SubsequenceExtend(rest, order[..n], c);
      }
    }
  }

  /** Listed categories are distinct, so bucket names are distinct. */
  lemma {:induction false} PresentCategoriesDistinct(items: seq<MenuItem>, order: seq<string>)
    requires Distinct(order)
    ensures Distinct(PresentCategories(items, order))
  {
    if order != [] {
      var n := |order| - 1;
      PresentCategoriesDistinct(items, order[..n]);
      PresentCategoriesMembers(items, order[..n]);
      assert order[n] !in order[..n];
    }
  }

  /** An item whose category is not listed appears in no bucket. */
  lemma UnlistedCategoryDropped(items: seq<MenuItem>, order: seq<string>, x: MenuItem)
    requires x.category !in order
    ensures forall g | g in GroupsFor(items, order) :: x !in g.items
  {
    var groups := GroupsFor(items, order);
    GroupsForBuckets(items, order);
    PresentCategoriesMembers(items, order);
    forall g | g in groups ensures x !in g.items {
      var i :| 0 <= i < |groups| && groups[i] == g;
      assert g.name in Names(groups);
    }
  }

  /** Number of positions of `order` holding `c`. */
  function Occurrences(order: seq<string>, c: string): nat
  {
    if order == [] then 0 else Occurrences(order[..|order| - 1], c) + (if order[|order| - 1] == c then 1 else 0)
  }

  lemma {:induction false} OccursOnce(order: seq<string>, c: string)
    requires Distinct(order)
    ensures Occurrences(order, c) == if c in order then 1 else 0
  {
    if order != [] {
      var n := |order| - 1;
      OccursOnce(order[..n], c);
      assert order == order[..n] + [order[n]];
    }
  }

  /** Sum over the categories of `order` of the size of their buckets (empty ones included). */
  function BucketSizes(items: seq<MenuItem>, order: seq<string>): nat
  {
    if order == [] then 0 else BucketSizes(items, order[..|order| - 1]) + |InCategory(items, order[|order| - 1])|
  }

  lemma {:induction false} TotalSizeIsBucketSizes(items: seq<MenuItem>, order: seq<string>)
    ensures TotalSize(GroupsFor(items, order)) == BucketSizes(items, order)
  {
    if order != [] {
      var n := |order| - 1;
      TotalSizeIsBucketSizes(items, order[..n]);
      var rest := GroupsFor(items, order[..n]);
      if InCategory(items, order[n]) != [] {
        var gs := rest + [MenuCategory(order[n], InCategory(items, order[n]))];
        assert gs[..|gs| - 1] == rest;
      } else {
        assert rest + [] == rest;
      }
    }
  }

  /** Appending one item grows exactly the buckets of its category, once per listing. */
  lemma {:induction false} BucketSizesAppend(items: seq<MenuItem>, x: MenuItem, order: seq<string>)
    ensures BucketSizes(items + [x], order) == BucketSizes(items, order) + Occurrences(order, x.category)
  {
    if order != [] {
      var n := |order| - 1;
      BucketSizesAppend(items, x, order[..n]);
      assert (items + [x])[..|items|] == items;
    }
  }

  /** When every item's category is listed once, the buckets together hold every item. */
  lemma {:induction false} BucketSizesCoverAll(items: seq<MenuItem>, order: seq<string>)
    requires Distinct(order)
    requires forall i | 0 <= i < |items| :: items[i].category in order
    ensures BucketSizes(items, order) == |items|
  {
    if items == [] {
      EmptyBuckets(order);
    } else {
      var n := |items| - 1;
      BucketSizesCoverAll(items[..n], order);
      BucketSizesAppend(items[..n], items[n], order);
      OccursOnce(order, items[n].category);
      assert items[..n] + [items[n]] == items;
    }
  }

  lemma {:induction false} EmptyBuckets(order: seq<string>)
    ensures BucketSizes([], order) == 0
  {
    if order != [] {
      EmptyBuckets(order[..|order| - 1]);
    }
  }

  /**
   * The grouping loses no item when every category is a listed one: the
   * bucket sizes add up to the number of input items.
   */
  lemma GroupingLosesNothing(items: seq<MenuItem>, order: seq<string>)
    requires Distinct(order)
    requires forall i | 0 <= i < |items| :: items[i].category in order
    ensures TotalSize(GroupsFor(items, order)) == |items|
  {
    TotalSizeIsBucketSizes(items, order);
    BucketSizesCoverAll(items, order);
  }

  lemma CategoryOrderDistinct()
    ensures Distinct(CategoryOrder)
  {
  }

  /**
   * `groupMenuByCategory`: the dictionary-filling loop, then one bucket per
   * listed category with the empty ones dropped.
   */
  method GroupMenuByCategory(items: seq<MenuItem>) returns (groups: seq<MenuCategory>)
    ensures groups == GroupsFor(items, CategoryOrder)
    ensures |groups| <= |CategoryOrder|
    ensures forall i | 0 <= i < |groups| ::
              groups[i].name in CategoryOrder && groups[i].items == InCategory(items, groups[i].name) && groups[i].items != []
  {
    var grouped := FillGrouped(items);
    groups := Buckets(grouped, CategoryOrder);
    BucketsAreGroups(grouped, items, CategoryOrder);
    GroupsForListed(items, CategoryOrder);
  }

  /** The `forEach` loop: a dictionary from each category seen to its items, in input order. */
  method FillGrouped(items: seq<MenuItem>) returns (grouped: map<string, seq<MenuItem>>)
    ensures forall c | c in grouped :: grouped[c] == InCategory(items, c) && grouped[c] != []
    ensures forall c | c !in grouped :: InCategory(items, c) == []
  {
    grouped := map[];
    for i := 0 to |items|
      invariant forall c | c in grouped :: grouped[c] == InCategory(items[..i], c) && grouped[c] != []
      invariant forall c | c !in grouped :: InCategory(items[..i], c) == []
    {
      var item := items[i];
      var bucket := if item.category in grouped then grouped[item.category] else [];
      InCategoryStep(items, i);
      grouped := grouped[item.category := bucket + [item]];
    }
    assert items[..|items|] == items;
  }

  /** One more item extends exactly its own category's bucket. */
  lemma InCategoryStep(items: seq<MenuItem>, i: nat)
    requires i < |items|
    ensures forall c :: InCategory(items[..i + 1], c)
                        == InCategory(items[..i], c) + (if items[i].category == c then [items[i]] else [])
  {
    assert items[..i + 1][..i] == items[..i];
  }

  /** Every bucket is named by a category of `order` and holds exactly that category's items. */
  lemma GroupsForListed(items: seq<MenuItem>, order: seq<string>)
    ensures var groups := GroupsFor(items, order);
      && |groups| <= |order|
      && forall i | 0 <= i < |groups| ::
           groups[i].name in order && groups[i].items == InCategory(items, groups[i].name) && groups[i].items != []
  {
    var groups := GroupsFor(items, order);
    GroupsForBuckets(items, order);
    PresentCategoriesMembers(items, order);
    forall i | 0 <= i < |groups| ensures groups[i].name in order {
      assert groups[i].name in Names(groups);
    }
  }

  /** The second half: one bucket per listed category, `[]` for a missing one, empty buckets dropped. */
  function Buckets(grouped: map<string, seq<MenuItem>>, order: seq<string>): seq<MenuCategory>
  {
    if order == [] then []
    else
      var c := order[|order| - 1];
      var bucket := if c in grouped then grouped[c] else [];
      Buckets(grouped, order[..|order| - 1]) + (if |bucket| > 0 then [MenuCategory(c, bucket)] else [])
  }

  lemma {:induction false} BucketsAreGroups(grouped: map<string, seq<MenuItem>>, items: seq<MenuItem>, order: seq<string>)
    requires forall c | c in grouped :: grouped[c] == InCategory(items, c)
    requires forall c | c !in grouped :: InCategory(items, c) == []
    ensures Buckets(grouped, order) == GroupsFor(items, order)
  {
    if order != [] {
      BucketsAreGroups(grouped, items, order[..|order| - 1]);
    }
  }

  // ---------------------------------------------------------------------
  // Facts about the catalog
  // ---------------------------------------------------------------------

  predicate IdsDistinct(s: seq<MenuItem>)
  {
    forall i, j | 0 <= i < j < |s| :: s[i].id != s[j].id
  }

  /** Every entry has a positive price and one of the listed categories. */
  predicate WellListed(s: seq<MenuItem>)
  {
    forall i | 0 <= i < |s| :: s[i].price > 0 && s[i].category in CategoryOrder
  }

  /** The first two characters of an id: the section prefix ("so" for "soup_01"). */
  function Tag(id: string): string
    requires |id| >= 2
  {
    [id[0], id[1]]
  }

  /** Every id is at least two characters long and its prefix is one of `tags`. */
  predicate TaggedWith(s: seq<MenuItem>, tags: set<string>)
  {
    forall i | 0 <= i < |s| :: |s[i].id| >= 2 && Tag(s[i].id) in tags
  }

  lemma {:induction false} CombineSections(a: seq<MenuItem>, ta: set<string>, b: seq<MenuItem>, tb: set<string>)
    requires IdsDistinct(a) && WellListed(a) && TaggedWith(a, ta)
    requires IdsDistinct(b) && WellListed(b) && TaggedWith(b, tb)
    requires ta !! tb
    ensures IdsDistinct(a + b) && WellListed(a + b) && TaggedWith(a + b, ta + tb)
  {
    var s := a + b;
    forall i, j | 0 <= i < j < |s| ensures s[i].id != s[j].id {
      if i < |a| && j >= |a| {
        assert Tag(s[i].id) in ta && Tag(s[j].id) in tb;
      }
    }
  }

  /** What is checked of one entry of the section tagged `tag`. */
  predicate EntryOk(x: MenuItem, tag: string)
  {
    x.price > 0 && x.category in CategoryOrder && |x.id| >= 2 && |tag| == 2 && x.id[0] == tag[0] && x.id[1] == tag[1]
  }

  /** Ids of one section end in pairwise different digits. */
  predicate LastCharsDistinct(s: seq<MenuItem>)
  {
    forall i, j | 0 <= i < j < |s| :: |s[i].id| >= 1 && |s[j].id| >= 1 && s[i].id[|s[i].id| - 1] != s[j].id[|s[j].id| - 1]
  }

  lemma SectionOk(s: seq<MenuItem>, tag: string)
    requires forall i | 0 <= i < |s| :: EntryOk(s[i], tag)
    requires LastCharsDistinct(s)
    ensures IdsDistinct(s) && WellListed(s) && TaggedWith(s, {tag})
  {
    forall i | 0 <= i < |s| ensures Tag(s[i].id) == tag {
      assert EntryOk(s[i], tag);
    }
  }

  lemma SoupsOk() ensures IdsDistinct(SoupsSection) && WellListed(SoupsSection) && TaggedWith(SoupsSection, {"so"})
  {
    assert LastCharsDistinct(SoupsSection);
    assert forall i | 0 <= i < |SoupsSection| :: EntryOk(SoupsSection[i], "so");
    SectionOk(SoupsSection, "so");
  }

  lemma SaladsOk() ensures IdsDistinct(SaladsSection) && WellListed(SaladsSection) && TaggedWith(SaladsSection, {"sa"})
  {
    assert LastCharsDistinct(SaladsSection);
    assert forall i | 0 <= i < |SaladsSection| :: EntryOk(SaladsSection[i], "sa");
    SectionOk(SaladsSection, "sa");
  }

  lemma StartersOk() ensures IdsDistinct(StartersSection) && WellListed(StartersSection) && TaggedWith(StartersSection, {"st"})
  {
    assert LastCharsDistinct(StartersSection);
    assert forall i | 0 <= i < |StartersSection| :: EntryOk(StartersSection[i], "st");
    SectionOk(StartersSection, "st");
  }

  lemma BreadsOk() ensures IdsDistinct(BreadsSection) && WellListed(BreadsSection) && TaggedWith(BreadsSection, {"br"})
  {
    assert LastCharsDistinct(BreadsSection);
    assert forall i | 0 <= i < |BreadsSection| :: EntryOk(BreadsSection[i], "br");
    SectionOk(BreadsSection, "br");
  }

  lemma CurryOk() ensures IdsDistinct(CurrySection) && WellListed(CurrySection) && TaggedWith(CurrySection, {"cu"})
  {
    assert LastCharsDistinct(CurrySection);
    assert forall i | 0 <= i < |CurrySection| :: EntryOk(CurrySection[i], "cu");
    SectionOk(CurrySection, "cu");
  }

  lemma ChineseOk() ensures IdsDistinct(ChineseSection) && WellListed(ChineseSection) && TaggedWith(ChineseSection, {"ch"})
  {
    assert LastCharsDistinct(ChineseSection);
    assert forall i | 0 <= i < |ChineseSection| :: EntryOk(ChineseSection[i], "ch");
    SectionOk(ChineseSection, "ch");
  }

  lemma RiceOk() ensures IdsDistinct(RiceSection) && WellListed(RiceSection) && TaggedWith(RiceSection, {"ri"})
  {
    assert LastCharsDistinct(RiceSection);
    assert forall i | 0 <= i < |RiceSection| :: EntryOk(RiceSection[i], "ri");
    SectionOk(RiceSection, "ri");
  }

  lemma MalnadOk() ensures IdsDistinct(MalnadSection) && WellListed(MalnadSection) && TaggedWith(MalnadSection, {"ma"})
  {
    assert LastCharsDistinct(MalnadSection);
    assert forall i | 0 <= i < |MalnadSection| :: EntryOk(MalnadSection[i], "ma");
    SectionOk(MalnadSection, "ma");
  }

  /**
   * The catalog is well formed: ids are pairwise distinct, every price is
   * positive and every category is one of the eight listed categories.
   */
  lemma CatalogWellFormed()
    ensures IdsDistinct(RestoVersionMenu) && WellListed(RestoVersionMenu)
  {
    SoupsOk(); SaladsOk(); StartersOk(); BreadsOk();
    CurryOk(); ChineseOk(); RiceOk(); MalnadOk();
    var s1 := SoupsSection + SaladsSection;
    CombineSections(SoupsSection, {"so"}, SaladsSection, {"sa"});
    var s2 := s1 + StartersSection;
    CombineSections(s1, {"so", "sa"}, StartersSection, {"st"});
    var s3 := s2 + BreadsSection;
    CombineSections(s2, {"so", "sa", "st"}, BreadsSection, {"br"});
    var s4 := s3 + CurrySection;
    CombineSections(s3, {"so", "sa", "st", "br"}, CurrySection, {"cu"});
    var s5 := s4 + ChineseSection;
    CombineSections(s4, {"so", "sa", "st", "br", "cu"}, ChineseSection, {"ch"});
    var s6 := s5 + RiceSection;
    CombineSections(s5, {"so", "sa", "st", "br", "cu", "ch"}, RiceSection, {"ri"});
    CombineSections(s6, {"so", "sa", "st", "br", "cu", "ch", "ri"}, MalnadSection, {"ma"});
  }

  /** Grouping the full catalog loses no item: the eight buckets hold all 57 entries. */
  lemma CatalogGroupingComplete()
    ensures |RestoVersionMenu| == 57
    ensures TotalSize(GroupsFor(RestoVersionMenu, CategoryOrder)) == |RestoVersionMenu|
  {
    CatalogWellFormed();
    CategoryOrderDistinct();
    GroupingLosesNothing(RestoVersionMenu, CategoryOrder);
  }
}

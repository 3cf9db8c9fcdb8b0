/**
 * The resources page: the list shown for the selected category filter, and the
 * category buttons, one per distinct category in order of first appearance.
 */
module ResourcesPage {
  import opened Wrappers
  import opened Wellness
  import opened ResourceData

  /**
   * `filteredResources`: the whole table when no category is selected, otherwise the
   * table's resources of that category, in table order.
   */
  function FilteredResources(selected: Option<Category>): (r: seq<Resource>)
    ensures selected.None? ==> r == Table
    ensures selected.Some? ==> forall x :: x in r <==> x in Table && x.category == selected.value
    ensures IsSubsequence(r, Table)
  {
    match selected
    case None =>
      IsSubsequenceOfItself(Table);
      Table
    case Some(c) =>
      FilterIsSubsequence(Table, {c});
      FilterByCategory(Table, {c})
  }

  lemma {:induction false} IsSubsequenceOfItself<T>(s: seq<T>)
    ensures IsSubsequence(s, s)
  {
    if s != [] {
      IsSubsequenceOfItself(s[1..]);
    }
  }

  /** `resources.map(r => r.category)`. */
  function CategoriesOf(rs: seq<Resource>): (cs: seq<Category>)
    ensures |cs| == |rs|
    ensures forall i :: 0 <= i < |rs| ==> cs[i] == rs[i].category
  {
    if rs == [] then [] else [rs[0].category] + CategoriesOf(rs[1..])
  }

  ghost predicate NoDuplicates(s: seq<Category>) {
    forall i, j :: 0 <= i < j < |s| ==> s[i] != s[j]
  }

  /**
   * `Array.from(new Set(s))`: each value once, in the order a Set records its first
   * insertion.
   */
  function Distinct(s: seq<Category>): (r: seq<Category>)
    ensures forall x :: x in r <==> x in s
    ensures NoDuplicates(r)
  {
    if s == [] then []
    else
      var seen := Distinct(s[..|s| - 1]);
      var x := s[|s| - 1];
      assert s == s[..|s| - 1] + [x];
      if x in seen then seen else seen + [x]
  }

  /** The position of the first occurrence of `x` in `s`. */
  function IndexOf(s: seq<Category>, x: Category): (i: nat)
    requires x in s
    ensures i < |s| && s[i] == x
    ensures forall k :: 0 <= k < i ==> s[k] != x
  {
    if s[0] == x then 0 else 1 + IndexOf(s[1..], x)
  }

  /** Appending to a list does not move the first occurrence of a value already in it. */
  lemma IndexOfAppend(s: seq<Category>, y: Category, x: Category)
    requires x in s
    ensures IndexOf(s + [y], x) == IndexOf(s, x)
  {
    var i, j := IndexOf(s + [y], x), IndexOf(s, x);
    assert (s + [y])[j] == x;
    assert i <= j;
    assert s[i] == x;
  }

  /** The distinct values are listed in the order of their first occurrence. */
  lemma {:induction false} DistinctFirstSeenOrder(s: seq<Category>)
    ensures forall i, j :: 0 <= i < j < |Distinct(s)| ==>
              IndexOf(s, Distinct(s)[i]) < IndexOf(s, Distinct(s)[j])
  {
    if s != [] {
      var p := s[..|s| - 1];
      var x := s[|s| - 1];
      assert s == p + [x];
      var seen := Distinct(p);
      DistinctFirstSeenOrder(p);
      var r := Distinct(s);
      forall i, j | 0 <= i < j < |r| ensures IndexOf(s, r[i]) < IndexOf(s, r[j]) {
        IndexOfAppend(p, x, r[i]);
        if j < |seen| {
          IndexOfAppend(p, x, r[j]);
        } else {
          assert r[j] == x && x !in p;
          assert IndexOf(s, x) == |p|;
        }
      }
    }
  }

  /** `categories`: the distinct categories of the table, in first-seen order. */
  function Categories(): (r: seq<Category>)
    ensures NoDuplicates(r)
    ensures forall c :: c in r <==> c in CategoriesOf(Table)
  {
    Distinct(CategoriesOf(Table))
  }

  /**
   * The category buttons: no category twice, exactly the categories some resource
   * has, in the order each first appears in the table.
   */
  lemma CategoriesProperties()
    ensures NoDuplicates(Categories())
    ensures forall c :: c in Categories() <==> exists i :: 0 <= i < |Table| && Table[i].category == c
    ensures forall i, j :: 0 <= i < j < |Categories()| ==>
              IndexOf(CategoriesOf(Table), Categories()[i]) < IndexOf(CategoriesOf(Table), Categories()[j])
  {
    DistinctCategories(Table);
  }

  /** The same three facts for the categories of any list of resources. */
  lemma DistinctCategories(rs: seq<Resource>)
    ensures NoDuplicates(Distinct(CategoriesOf(rs)))
    ensures forall c :: c in Distinct(CategoriesOf(rs)) <==> exists i :: 0 <= i < |rs| && rs[i].category == c
    ensures forall i, j :: 0 <= i < j < |Distinct(CategoriesOf(rs))| ==>
              IndexOf(CategoriesOf(rs), Distinct(CategoriesOf(rs))[i])
              < IndexOf(CategoriesOf(rs), Distinct(CategoriesOf(rs))[j])
  {
    var cs := CategoriesOf(rs);
    DistinctFirstSeenOrder(cs);
    forall c ensures c in cs <==> exists i :: 0 <= i < |rs| && rs[i].category == c {
      if c in cs {
        var i :| 0 <= i < |cs| && cs[i] == c;
        assert rs[i].category == c;
      }
    }
  }

  /** Pressing any category button shows at least one resource. */
  lemma CategoryButtonShowsResources(c: Category)
    requires c in Categories()
    ensures FilteredResources(Some(c)) != []
  {
    CategoryHasResources(Table, c);
  }

  /** A category taken from a list of resources filters that list to something. */
  lemma CategoryHasResources(rs: seq<Resource>, c: Category)
    requires c in Distinct(CategoriesOf(rs))
    ensures FilterByCategory(rs, {c}) != []
  {
    var cs := CategoriesOf(rs);
    var i :| 0 <= i < |cs| && cs[i] == c;
    assert rs[i] in FilterByCategory(rs, {c});
  }
}

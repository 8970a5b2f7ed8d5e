/** The category menu of the site header (fontend/src/layout/Header/index.tsx):
    fetchCategories builds a table of categories keyed by id, then hangs each
    category under its parent or puts it at the top level, and the menu lists
    the children of the top-level categories. JavaScript objects are shared
    by reference, so a category's children are kept in the table and the
    lists hold ids. */
module HeaderCategories {
  import opened Common

  /** A category as the server sends it; slug and parent may be missing. */
  datatype RawCategory = RawCategory(categoryId: string, name: string, slug: Option<string>,
                                     parentCategoryId: Option<string>)

  /** A node of categoriesMap; children are category ids. */
  datatype Node = Node(id: string, name: string, slug: string, parentCategoryId: Option<string>,
                       children: seq<string>)

  // ---------------------------------------------------------------------
  // The slug

  /** The characters JavaScript's \s matches. */
  predicate IsJsWhiteSpace(c: char)
  {
    var n := c as int;
    || (0x09 <= n <= 0x0D) || n == 0x20 || n == 0xA0 || n == 0x1680 || (0x2000 <= n <= 0x200A)
    || n == 0x2028 || n == 0x2029 || n == 0x202F || n == 0x205F || n == 0x3000 || n == 0xFEFF
  }

  /** The string without its leading white space. */
  function DropSpaces(s: string): (r: string)
    ensures |r| <= |s|
    ensures r == [] || !IsJsWhiteSpace(r[0])
  {
    if s != [] && IsJsWhiteSpace(s[0]) then DropSpaces(s[1..]) else s
  }

  /** replace(/\s+/g, '-'): every run of white space becomes one dash. */
  function DashRuns(s: string): (r: string)
    ensures |r| <= |s|
    decreases |s|
  {
    if s == [] then []
    else if IsJsWhiteSpace(s[0]) then "-" + DashRuns(DropSpaces(s[1..]))
    else [s[0]] + DashRuns(s[1..])
  }

  /** The dashed string has no white space left, and a string without white
      space is unchanged. */
  lemma {:induction false} DashRunsProperties(s: string)
    ensures forall k :: 0 <= k < |DashRuns(s)| ==> !IsJsWhiteSpace(DashRuns(s)[k])
    ensures (forall k :: 0 <= k < |s| ==> !IsJsWhiteSpace(s[k])) ==> DashRuns(s) == s
    decreases |s|
  {
    if s != [] {
      if IsJsWhiteSpace(s[0]) {
        DashRunsProperties(DropSpaces(s[1..]));
      } else {
        DashRunsProperties(s[1..]);
        var r := DashRuns(s[1..]);
        assert DashRuns(s) == [s[0]] + r;
        assert forall k :: 1 <= k < |DashRuns(s)| ==> DashRuns(s)[k] == r[k - 1];
      }
    }
  }

  /** The default slug of a name: lower case, white-space runs as dashes. */
  function DefaultSlug(name: string): string
  {
    DashRuns(Lower(name))
  }

  /** `cat.slug || name.toLowerCase().replace(/\s+/g, '-')`. */
  function Slug(cat: RawCategory): (slug: string)
    ensures cat.slug.Some? && cat.slug.value != "" ==> slug == cat.slug.value
    ensures cat.slug.None? || cat.slug.value == "" ==> slug == DefaultSlug(cat.name)
  {
    if cat.slug.Some? && cat.slug.value != "" then cat.slug.value else DefaultSlug(cat.name)
  }

  /** "A b" gets the slug "a-b". */
  lemma SlugExample()
    ensures DefaultSlug("A b") == "a-b"
  {
    assert Lower("A b") == "a b" by {
      assert Lower("b") == "b";
      assert Lower(" b") == " b";
    }
    assert DashRuns(" b") == "-b" by {
      assert DropSpaces("b") == "b";
      assert DashRuns("b") == "b";
    }
  }

  // ---------------------------------------------------------------------
  // The table and the placement of each category

  /** The node the first loop stores for a category. */
  function NodeOf(cat: RawCategory): Node
  {
    Node(cat.categoryId, cat.name, Slug(cat), cat.parentCategoryId, [])
  }

  /** The key order of categoriesMap: each id where it first appears. */
  function KeyOrder(data: seq<RawCategory>): (order: seq<string>)
    ensures forall id :: id in order <==> exists k :: 0 <= k < |data| && data[k].categoryId == id
  {
    if data == [] then []
    else
      var init := KeyOrder(data[..|data| - 1]);
      assert forall k :: 0 <= k < |data| - 1 ==> data[..|data| - 1][k] == data[k];
      if data[|data| - 1].categoryId in init then init else init + [data[|data| - 1].categoryId]
  }

  /** categoriesMap after the first loop: a later entry with the same id
      replaces an earlier one. */
  function Table(data: seq<RawCategory>): (table: map<string, Node>)
    ensures forall id :: id in table <==> id in KeyOrder(data)
  {
    if data == [] then map[]
    else Table(data[..|data| - 1])[data[|data| - 1].categoryId := NodeOf(data[|data| - 1])]
  }

  /** No id twice. */
  predicate Distinct(ids: seq<string>)
  {
    forall i, j :: 0 <= i < j < |ids| ==> ids[i] != ids[j]
  }

  /** The key order lists every key once. */
  lemma {:induction false} KeyOrderDistinct(data: seq<RawCategory>)
    ensures Distinct(KeyOrder(data))
  {
    if data != [] {
      KeyOrderDistinct(data[..|data| - 1]);
    }
  }

  /** Each key's node is built from the last category with that id. */
  lemma {:induction false} TableLast(data: seq<RawCategory>, k: nat)
    requires k < |data|
    requires forall m :: k < m < |data| ==> data[m].categoryId != data[k].categoryId
    ensures data[k].categoryId in Table(data) && Table(data)[data[k].categoryId] == NodeOf(data[k])
  {
    if k < |data| - 1 {
      var init := data[..|data| - 1];
      assert forall m :: k < m < |init| ==> init[m] == data[m];
      TableLast(init, k);
    }
  }

  /** `cat.parentCategoryId && categoriesMap[cat.parentCategoryId]`: the
      category names a parent that is in the table. */
  predicate Attached(table: map<string, Node>, id: string)
  {
    id in table && table[id].parentCategoryId.Some? && table[id].parentCategoryId.value != "" &&
    table[id].parentCategoryId.value in table
  }

  /** The category hangs under p. */
  predicate ChildOf(table: map<string, Node>, id: string, p: string)
  {
    Attached(table, id) && table[id].parentCategoryId.value == p
  }

  function RootTest(table: map<string, Node>): string -> bool
  {
    id => !Attached(table, id)
  }

  function ChildTest(table: map<string, Node>, p: string): string -> bool
  {
    id => ChildOf(table, id, p)
  }

  /** The ids of `order` that pass a test, in order. */
  function KeepIds(order: seq<string>, keep: string -> bool): (r: seq<string>)
    ensures |r| <= |order|
  {
    if order == [] then []
    else KeepIds(order[..|order| - 1], keep) + (if keep(order[|order| - 1]) then [order[|order| - 1]] else [])
  }

  /** Kept ids are exactly the ids that pass, and none is kept twice. */
  lemma {:induction false} KeepIdsMembers(order: seq<string>, keep: string -> bool)
    ensures forall id :: id in KeepIds(order, keep) <==> id in order && keep(id)
    ensures Distinct(order) ==> Distinct(KeepIds(order, keep))
  {
    if order != [] {
      var init := order[..|order| - 1];
      KeepIdsMembers(init, keep);
      assert order == init + [order[|order| - 1]];
      assert forall i :: 0 <= i < |init| ==> init[i] == order[i];
    }
  }

  /** The top-level list the second loop builds. */
  function Roots(order: seq<string>, table: map<string, Node>): seq<string>
  {
    KeepIds(order, RootTest(table))
  }

  /** The children list the second loop builds for p. */
  function Children(order: seq<string>, table: map<string, Node>, p: string): seq<string>
  {
    KeepIds(order, ChildTest(table, p))
  }

  /** One more id of the key order adds it to the top level or to the
      children of its parent, and to no other list. */
  lemma PlaceStep(order: seq<string>, table: map<string, Node>, k: nat)
    requires k < |order|
    ensures Roots(order[..k + 1], table) ==
      Roots(order[..k], table) + (if Attached(table, order[k]) then [] else [order[k]])
    ensures forall p :: (Children(order[..k + 1], table, p) ==
      Children(order[..k], table, p) + (if ChildOf(table, order[k], p) then [order[k]] else []))
  {
    assert order[..k + 1][..k] == order[..k];
  }

  /** The first loop: categoriesMap filled from the data. */
  method FillTable(data: seq<RawCategory>) returns (order: seq<string>, categoriesMap: map<string, Node>)
    ensures order == KeyOrder(data) && categoriesMap == Table(data)
  {
    order := [];
    categoriesMap := map[];
    for i := 0 to |data|
      invariant order == KeyOrder(data[..i])
      invariant categoriesMap == Table(data[..i])
    {
      assert data[..i + 1][..i] == data[..i];
      var cat := data[i];
      if cat.categoryId !in order {
        order := order + [cat.categoryId];
      }
      categoriesMap := categoriesMap[cat.categoryId := NodeOf(cat)];
    }
    assert data[..|data|] == data;
  }

  /** The second loop: over the values in key order, each category is pushed
      to its parent's children or to the top-level list. */
  method PlaceCategories(order: seq<string>, table: map<string, Node>)
    returns (tree: seq<string>, categoriesMap: map<string, Node>)
    requires forall id :: id in table ==> table[id].children == []
    ensures tree == Roots(order, table)
    ensures categoriesMap.Keys == table.Keys
    ensures forall id :: id in categoriesMap ==> categoriesMap[id] == table[id].(children := Children(order, table, id))
  {
    categoriesMap := table;
    tree := [];
    for k := 0 to |order|
      invariant categoriesMap.Keys == table.Keys
      invariant forall id :: id in categoriesMap ==>
        categoriesMap[id] == table[id].(children := Children(order[..k], table, id))
      invariant tree == Roots(order[..k], table)
    {
      PlaceStep(order, table, k);
      var id := order[k];
      if id in categoriesMap {
        var cat := categoriesMap[id];
        if cat.parentCategoryId.Some? && cat.parentCategoryId.value != "" && cat.parentCategoryId.value in categoriesMap {
          var p := cat.parentCategoryId.value;
          categoriesMap := categoriesMap[p := categoriesMap[p].(children := categoriesMap[p].children + [id])];
        } else {
          tree := tree + [id];
        }
      } else {
        tree := tree + [id];
      }
    }
    assert order[..|order|] == order;
  }

  /** The table's nodes start without children. */
  lemma {:induction false} TableChildless(data: seq<RawCategory>)
    ensures forall id :: id in Table(data) ==> Table(data)[id].children == []
  {
    if data != [] {
      TableChildless(data[..|data| - 1]);
    }
  }

  /** fetchCategories: the two loops. */
  method BuildCategoryTree(data: seq<RawCategory>) returns (tree: seq<string>, categoriesMap: map<string, Node>)
    ensures tree == Roots(KeyOrder(data), Table(data))
    ensures categoriesMap.Keys == Table(data).Keys
    ensures forall id :: id in categoriesMap ==>
      categoriesMap[id] == Table(data)[id].(children := Children(KeyOrder(data), Table(data), id))
  {
    var order, table := FillTable(data);
    TableChildless(data);
    tree, categoriesMap := PlaceCategories(order, table);
  }

  /** Every category is placed exactly once: at the top level when it names
      no parent in the table, otherwise in its parent's children and in no
      other list; and no list holds an id twice. */
  lemma PlacedOnce(data: seq<RawCategory>, id: string, p: string, q: string)
    requires id in Table(data)
    ensures var order, table := KeyOrder(data), Table(data);
      && (id in Roots(order, table) <==> !Attached(table, id))
      && (id in Children(order, table, p) <==> ChildOf(table, id, p))
      && (id in Children(order, table, p) ==> id !in Roots(order, table) && table[id].parentCategoryId == Some(p))
      && (id in Children(order, table, p) && id in Children(order, table, q) ==> p == q)
      && (!Attached(table, id) || id in Children(order, table, table[id].parentCategoryId.value))
      && Distinct(Roots(order, table)) && Distinct(Children(order, table, p))
  {
    var order, table := KeyOrder(data), Table(data);
    KeyOrderDistinct(data);
    KeepIdsMembers(order, RootTest(table));
    KeepIdsMembers(order, ChildTest(table, p));
    KeepIdsMembers(order, ChildTest(table, q));
    if Attached(table, id) {
      KeepIdsMembers(order, ChildTest(table, table[id].parentCategoryId.value));
    }
  }

  /** The header menu: the children of every top-level category, in order. */
  function Menu(tree: seq<string>, categoriesMap: map<string, Node>): seq<string>
  {
    if tree == [] then []
    else
      Menu(tree[..|tree| - 1], categoriesMap)
      + (if tree[|tree| - 1] in categoriesMap then categoriesMap[tree[|tree| - 1]].children else [])
  }

  /** An id is in a menu exactly when it is a child of some listed category. */
  lemma {:induction false} MenuMembers(tree: seq<string>, categoriesMap: map<string, Node>, c: string)
    ensures c in Menu(tree, categoriesMap) <==>
      exists r :: r in tree && r in categoriesMap && c in categoriesMap[r].children
  {
    if tree != [] {
      var init := tree[..|tree| - 1];
      MenuMembers(init, categoriesMap, c);
      assert tree == init + [tree[|tree| - 1]];
    }
  }

  /** The menu built from the data lists exactly the categories whose parent
      is in the table and is itself at the top level. */
  lemma MenuIsChildrenOfRoots(data: seq<RawCategory>, tree: seq<string>, categoriesMap: map<string, Node>,
                              c: string)
    requires tree == Roots(KeyOrder(data), Table(data))
    requires categoriesMap.Keys == Table(data).Keys
    requires forall id :: id in categoriesMap ==>
      categoriesMap[id] == Table(data)[id].(children := Children(KeyOrder(data), Table(data), id))
    ensures c in Menu(tree, categoriesMap) <==>
      Attached(Table(data), c) && !Attached(Table(data), Table(data)[c].parentCategoryId.value)
  {
    var order, table := KeyOrder(data), Table(data);
    MenuMembers(tree, categoriesMap, c);
    KeepIdsMembers(order, RootTest(table));
    if c in Menu(tree, categoriesMap) {
      var r :| r in tree && r in categoriesMap && c in categoriesMap[r].children;
      KeepIdsMembers(order, ChildTest(table, r));
    }
    if Attached(table, c) && !Attached(table, table[c].parentCategoryId.value) {
      var r := table[c].parentCategoryId.value;
      KeepIdsMembers(order, ChildTest(table, r));
      assert r in tree && r in categoriesMap && c in categoriesMap[r].children;
    }
  }

  /** A category that names itself as its parent hangs under itself and is
      therefore missing from the top level and from the menu. */
  lemma SelfParentHidden()
    ensures var data := [RawCategory("a", "A", Some("a"), Some("a"))];
      Roots(KeyOrder(data), Table(data)) == [] && Children(KeyOrder(data), Table(data), "a") == ["a"]
  {
    var data := [RawCategory("a", "A", Some("a"), Some("a"))];
    assert data[..0] == [];
    assert KeyOrder(data) == ["a"];
    assert Table(data) == map["a" := NodeOf(data[0])];
    assert ["a"][..0] == [];
  }
}

/** The category menu (frontend/src/components/CategoryMenu.js). It keeps no
    state of its own: it reconciles the URL's category token with the fetched
    categories when they change, dispatches the store's `changeCategory` on a
    click, and marks the active menu item. The selected category it reads is
    the store's copy, not the top-level view's. */
module CategoryMenu {
  import opened Board

  /** The `categories` prop. React compares it by reference: `ref` names the
      array object, and a fetch hands over a new one even when the contents
      are equal. */
  datatype CategoryList = CategoryList(ref: nat, items: seq<Category>)

  /** `categories.find(c => c.path === token)`. */
  function CategoryWithPath(categories: seq<Category>, token: string): (r: Option<Category>)
    ensures r.Some? ==> r.value in categories && r.value.path == token
    ensures r.None? <==> forall c :: c in categories ==> c.path != token
    ensures forall i :: 0 <= i < |categories| && categories[i].path == token && (forall j :: 0 <= j < i ==> categories[j].path != token) ==>
              r == Some(categories[i])
  {
    Find(categories, (c: Category) => c.path == token)
  }

  /** `validCategoryFound`: the token is the sentinel 'all' or exactly the
      path of some category (no partial, case-insensitive or name match). */
  function IsValidToken(categories: seq<Category>, token: string): (valid: bool)
    ensures valid <==> token == "all" || exists c :: c in categories && c.path == token
  {
    token == "all" || CategoryWithPath(categories, token).Some?
  }

  /** `componentDidUpdate(prevProps)`: when the categories were replaced and
      the store's selection differs from the URL's token, select the token if
      it is valid and navigate to `/` otherwise; in every other case do nothing. */
  function ComponentDidUpdate(prevCategories: CategoryList, categories: CategoryList,
                              selectedCategory: string, matchedCategory: string): (fx: seq<Effect>)
    ensures prevCategories.ref == categories.ref ==> fx == []
    ensures selectedCategory == matchedCategory ==> fx == []
    ensures prevCategories.ref != categories.ref && selectedCategory != matchedCategory ==>
              if IsValidToken(categories.items, matchedCategory)
              then fx == [Dispatch(ChangeCategory(matchedCategory))]
              else fx == [Navigate("/")]
  {
    if prevCategories.ref != categories.ref && selectedCategory != matchedCategory then
      if matchedCategory == "all" || CategoryWithPath(categories.items, matchedCategory).Some?
      then [Dispatch(ChangeCategory(matchedCategory))]
      else [Navigate("/")]
    else []
  }

  /** The reconciliation never dispatches a token that is not valid, and the
      only place it ever navigates to is `/`. */
  lemma ReconcileDispatchesOnlyValidTokens(prevCategories: CategoryList, categories: CategoryList,
                                           selectedCategory: string, matchedCategory: string)
    ensures forall e :: e in ComponentDidUpdate(prevCategories, categories, selectedCategory, matchedCategory) ==>
              (e.Dispatch? && e.action == ChangeCategory(matchedCategory) && IsValidToken(categories.items, matchedCategory))
              || e == Navigate("/")
  {
  }

  /** 'all' is valid for every category collection, the empty one included. */
  lemma AllIsAlwaysValid(categories: seq<Category>)
    ensures IsValidToken(categories, "all")
    ensures IsValidToken([], "all")
  {
  }

  /** Against a category, only its exact path is a valid token (besides
      'all'): a prefix or an extension of the path, or the category's name
      when it differs from the path, is not. */
  lemma NoPartialMatch(c: Category, token: string)
    ensures IsValidToken([c], c.path)
    ensures token != "all" && token != c.path ==> !IsValidToken([c], token)
  {
  }

  /** Replacing the categories by an equal copy still runs the check: the test
      is on the reference, not on the contents. */
  lemma EqualContentsStillReconcile(items: seq<Category>)
    ensures ComponentDidUpdate(CategoryList(0, items), CategoryList(1, items), "all", "reactjs") != []
  {
  }

  // ---------------------------------------------------------------------------
  // The menu.
  // ---------------------------------------------------------------------------

  /** One `Menu.Item`: its `name`, its link target and whether it is active. */
  datatype MenuItem = MenuItem(name: string, to: string, active: bool)

  /** The render: an 'all' item linking to `/`, then one item per category
      linking to `/` + path; an item is active iff its name is the selection. */
  function Menu(categories: seq<Category>, selectedCategory: string): (items: seq<MenuItem>)
    ensures |items| == |categories| + 1
    ensures items[0].name == "all" && items[0].to == "/"
    ensures forall i :: 0 <= i < |categories| ==>
              items[i + 1].name == categories[i].path && items[i + 1].to == "/" + categories[i].path
    ensures forall i :: 0 <= i < |items| ==> (items[i].active <==> items[i].name == selectedCategory)
  {
    [MenuItem("all", "/", selectedCategory == "all")]
      + seq(|categories|, i requires 0 <= i < |categories| =>
              MenuItem(categories[i].path, "/" + categories[i].path, selectedCategory == categories[i].path))
  }

  /** `handleItemClick`: dispatch the store's `changeCategory` with the item's name. */
  function HandleItemClick(item: MenuItem): (e: Effect)
  {
    Dispatch(ChangeCategory(item.name))
  }

  /** Category paths are pairwise distinct and none is the sentinel 'all'. */
  predicate DistinctPaths(categories: seq<Category>)
  {
    (forall i, j :: 0 <= i < j < |categories| ==> categories[i].path != categories[j].path)
    && (forall i :: 0 <= i < |categories| ==> categories[i].path != "all")
  }

  /** With distinct paths, at most one menu item is active. */
  lemma AtMostOneActive(categories: seq<Category>, selectedCategory: string)
    requires DistinctPaths(categories)
    ensures forall i, j :: 0 <= i < j < |Menu(categories, selectedCategory)| ==>
              !(Menu(categories, selectedCategory)[i].active && Menu(categories, selectedCategory)[j].active)
  {
  }

  /** Some menu item is active exactly when the selection is a valid token. */
  lemma ActiveItemIffValidSelection(categories: seq<Category>, selectedCategory: string)
    ensures (exists i :: 0 <= i < |Menu(categories, selectedCategory)| && Menu(categories, selectedCategory)[i].active)
            <==> IsValidToken(categories, selectedCategory)
  {
    var items := Menu(categories, selectedCategory);
    if IsValidToken(categories, selectedCategory) {
      if selectedCategory == "all" {
        assert items[0].active;
      } else {
        var c :| c in categories && c.path == selectedCategory;
        var k :| 0 <= k < |categories| && categories[k] == c;
        assert items[k + 1].active;
      }
    } else {
      forall i | 0 <= i < |items| ensures !items[i].active {
        if i > 0 {
          assert categories[i - 1] in categories;
        }
      }
    }
  }

  /** Clicking any item of the menu dispatches a valid token. */
  lemma ClickDispatchesValidToken(categories: seq<Category>, selectedCategory: string, i: nat)
    requires i < |Menu(categories, selectedCategory)|
    ensures HandleItemClick(Menu(categories, selectedCategory)[i]).action.category
              == if i == 0 then "all" else categories[i - 1].path
    ensures IsValidToken(categories, HandleItemClick(Menu(categories, selectedCategory)[i]).action.category)
  {
  }
}

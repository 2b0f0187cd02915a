/** How the top-level view's routing and the category menu's reconciliation
    fit together: the token the router derives from the URL is what the menu
    validates, and a redirect lands on a path whose token is always valid. */
module Navigation {
  import opened Board
  import App
  import CategoryMenu

  /** The reconciliation for the token the router derives from `path`, once
      the categories have been replaced and the store's selection differs. */
  function ReconcileAt(path: seq<string>, prevCategories: CategoryMenu.CategoryList,
                       categories: CategoryMenu.CategoryList, selectedCategory: string): (fx: seq<Effect>)
  {
    CategoryMenu.ComponentDidUpdate(prevCategories, categories, selectedCategory, App.RouteToken(path))
  }

  /** After the redirect to `/` the reconciliation never redirects again, for
      every category collection, empty or not. */
  lemma RedirectTargetIsStable(prevCategories: CategoryMenu.CategoryList,
                               categories: CategoryMenu.CategoryList, selectedCategory: string)
    ensures Navigate("/") !in ReconcileAt([], prevCategories, categories, selectedCategory)
  {
  }

  /** A one-segment URL redirects exactly when its segment is neither 'all'
      nor the path of a category (given that the check runs). */
  lemma SegmentRedirectsIffUnknown(segment: string, prevCategories: CategoryMenu.CategoryList,
                                   categories: CategoryMenu.CategoryList, selectedCategory: string)
    requires segment != "" && prevCategories.ref != categories.ref && selectedCategory != segment
    ensures ReconcileAt([segment], prevCategories, categories, selectedCategory) == [Navigate("/")]
            <==> segment != "all" && forall c :: c in categories.items ==> c.path != segment
    ensures ReconcileAt([segment], prevCategories, categories, selectedCategory) == [Dispatch(ChangeCategory(segment))]
            <==> segment == "all" || exists c :: c in categories.items && c.path == segment
  {
  }

  /** With the 'reactjs' category loaded, the URL `/nonexistent` is sent back to `/`. */
  lemma UnknownCategoryRedirects()
    ensures ReconcileAt(["nonexistent"], CategoryMenu.CategoryList(0, []),
                        CategoryMenu.CategoryList(1, [Category("Reactjs", "reactjs")]), "all")
            == [Navigate("/")]
  {
  }

  /** With the same categories, `/reactjs` selects 'reactjs'. */
  lemma KnownCategoryIsSelected()
    ensures ReconcileAt(["reactjs"], CategoryMenu.CategoryList(0, []),
                        CategoryMenu.CategoryList(1, [Category("Reactjs", "reactjs")]), "all")
            == [Dispatch(ChangeCategory("reactjs"))]
  {
  }
}

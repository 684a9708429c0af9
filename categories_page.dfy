/** The categories page: the search over categories and the page state the
    form handlers and the add, edit and delete submits update. Requests are
    not sent: their outcomes are inputs. */
module CategoriesPage {
  import opened Wrappers
  import opened Strings
  import opened Lists

  datatype Category = Category(id: int, name: string, description: Option<string>)

  /** The body of both `POST /categories` and `PATCH /categories/<id>`. */
  datatype CategoryBody = CategoryBody(name: string, description: string)

  /** The search test: the search occurs in the name, ignoring letter case
      (the description is not searched). */
  predicate CategoryMatches(search: string, c: Category)
    ensures search == "" ==> CategoryMatches(search, c)
    ensures Includes(c.name, search) ==> CategoryMatches(search, c)
  {
    MentionsEmpty(c.name);
    ContainedIsMentioned(c.name, search);
    Mentions(c.name, search)
  }

  /** `filteredCategories`. */
  function FilteredCategories(categories: seq<Category>, search: string): (r: seq<Category>)
    ensures |r| <= |categories|
  {
    Filter(categories, c => CategoryMatches(search, c))
  }

  /** A category is listed exactly when it is loaded and its name matches. */
  lemma FilteredCategoriesMembership(categories: seq<Category>, search: string, c: Category)
    ensures c in FilteredCategories(categories, search) <==> c in categories && Mentions(c.name, search)
  {
    FilterMembership(categories, c => CategoryMatches(search, c), c);
  }

  /** The listed categories keep the order in which they were loaded. */
  lemma FilteredCategoriesKeepOrder(a: seq<Category>, b: seq<Category>, search: string)
    ensures FilteredCategories(a + b, search) == FilteredCategories(a, search) + FilteredCategories(b, search)
  {
    FilterAppend(a, b, c => CategoryMatches(search, c));
  }

  /** An empty search lists every category. */
  lemma EmptySearchListsAllCategories(categories: seq<Category>)
    ensures FilteredCategories(categories, "") == categories
  {
    forall i | 0 <= i < |categories| ensures CategoryMatches("", categories[i]) {
      MentionsEmpty(categories[i].name);
    }
    FilterKeepsAll(categories, c => CategoryMatches("", c));
  }

  /** The search ignores letter case. */
  lemma CategorySearchIgnoresCase(categories: seq<Category>, search: string)
    ensures FilteredCategories(categories, ToLower(search)) == FilteredCategories(categories, search)
  {
    forall c ensures CategoryMatches(ToLower(search), c) == CategoryMatches(search, c) {
      MentionsIgnoresCase(c.name, search);
    }
    FilterSameKeep(categories, c => CategoryMatches(ToLower(search), c), c => CategoryMatches(search, c));
  }

  const AddFailedAlert: string := "Failed to add category"
  const EditFailedAlert: string := "Failed to update category"
  const DeleteFailedAlert: string := "Failed to delete category (Ensure it has no products)"

  /** A snapshot of every state variable of the page. */
  datatype PageView = PageView(
    categories: seq<Category>,
    loading: bool,
    search: string,
    isAddOpen: bool,
    isEditOpen: bool,
    isDeleteOpen: bool,
    currentCategory: Option<Category>,
    name: string,
    description: string,
    formLoading: bool)

  class CategoriesPageState {
    var categories: seq<Category>
    var loading: bool
    var search: string
    var isAddOpen: bool
    var isEditOpen: bool
    var isDeleteOpen: bool
    var currentCategory: Option<Category>
    var name: string
    var description: string
    var formLoading: bool

    function View(): PageView
      reads this
    {
      PageView(categories, loading, search, isAddOpen, isEditOpen, isDeleteOpen, currentCategory,
        name, description, formLoading)
    }

    /** The page mounts empty and loading. */
    constructor ()
      ensures View() == PageView([], true, "", false, false, false, None, "", "", false)
    {
      categories := [];
      loading := true;
      search := "";
      isAddOpen := false;
      isEditOpen := false;
      isDeleteOpen := false;
      currentCategory := None;
      name := "";
      description := "";
      formLoading := false;
    }

    /** `fetchData`, given the reply of `GET /categories` (None: the request failed). */
    method FetchData(reply: Option<seq<Category>>)
      modifies this
      ensures reply.Some? ==> View() == old(View()).(categories := reply.value, loading := false)
      ensures reply.None? ==> View() == old(View()).(loading := false)
    {
      loading := true;
      if reply.Some? {
        categories := reply.value;
      }
      loading := false;
    }

    /** The name input. */
    method SetName(v: string)
      modifies this
      ensures View() == old(View()).(name := v)
    {
      name := v;
    }

    /** The description input. */
    method SetDescription(v: string)
      modifies this
      ensures View() == old(View()).(description := v)
    {
      description := v;
    }

    /** `resetForm`: both fields cleared. */
    method ResetForm()
      modifies this
      ensures View() == old(View()).(name := "", description := "")
    {
      name := "";
      description := "";
    }

    /** The "Add Category" button clears only the name: a description left
        from an earlier edit is still in the add form. */
    method OpenAdd()
      modifies this
      ensures View() == old(View()).(name := "", isAddOpen := true)
      ensures description == old(description)
    {
      name := "";
      isAddOpen := true;
    }

    /** `handleAddSubmit`: posts `{name, description}`; on success the dialog
        closes and both fields are cleared. */
    method HandleAddSubmit(created: bool) returns (sent: CategoryBody, alert: Option<string>)
      modifies this
      ensures sent == CategoryBody(old(name), old(description))
      ensures created ==> alert.None?
      ensures created ==> View() == old(View()).(isAddOpen := false, name := "", description := "", formLoading := false)
      ensures !created ==> alert == Some(AddFailedAlert) && View() == old(View()).(formLoading := false)
    {
      formLoading := true;
      sent := CategoryBody(name, description);
      if created {
        isAddOpen := false;
        ResetForm();
        alert := None;
      } else {
        alert := Some(AddFailedAlert);
      }
      formLoading := false;
    }

    /** `handleEditClick(category)`: the category becomes current and the
        form takes its name and description (a missing one as ""). */
    method HandleEditClick(c: Category)
      modifies this
      ensures View() == old(View()).(currentCategory := Some(c), name := c.name,
        description := c.description.GetOr(""), isEditOpen := true)
    {
      currentCategory := Some(c);
      name := c.name;
      description := c.description.GetOr("");
      isEditOpen := true;
    }

    /** `handleEditSubmit`: without a current category nothing happens;
        otherwise `{name, description}` is patched. The form is not reset. */
    method HandleEditSubmit(saved: bool) returns (sent: Option<(int, CategoryBody)>, alert: Option<string>)
      modifies this
      ensures old(currentCategory).None? ==> sent.None? && alert.None? && View() == old(View())
      ensures old(currentCategory).Some? ==>
        sent == Some((old(currentCategory).value.id, CategoryBody(old(name), old(description))))
      ensures old(currentCategory).Some? && saved ==>
        alert.None? && View() == old(View()).(isEditOpen := false, formLoading := false)
      ensures old(currentCategory).Some? && !saved ==>
        alert == Some(EditFailedAlert) && View() == old(View()).(formLoading := false)
    {
      if currentCategory.None? {
        return None, None;
      }
      formLoading := true;
      sent := Some((currentCategory.value.id, CategoryBody(name, description)));
      if saved {
        isEditOpen := false;
        alert := None;
      } else {
        alert := Some(EditFailedAlert);
      }
      formLoading := false;
    }

    /** `handleDeleteClick(category)`. */
    method HandleDeleteClick(c: Category)
      modifies this
      ensures View() == old(View()).(currentCategory := Some(c), isDeleteOpen := true)
    {
      currentCategory := Some(c);
      isDeleteOpen := true;
    }

    /** `handleDeleteSubmit`: without a current category nothing happens;
        otherwise `DELETE /categories/<id>` is sent. */
    method HandleDeleteSubmit(deleted: bool) returns (sent: Option<int>, alert: Option<string>)
      modifies this
      ensures old(currentCategory).None? ==> sent.None? && alert.None? && View() == old(View())
      ensures old(currentCategory).Some? ==> sent == Some(old(currentCategory).value.id)
      ensures old(currentCategory).Some? && deleted ==>
        alert.None? && View() == old(View()).(isDeleteOpen := false, formLoading := false)
      ensures old(currentCategory).Some? && !deleted ==>
        alert == Some(DeleteFailedAlert) && View() == old(View()).(formLoading := false)
    {
      if currentCategory.None? {
        return None, None;
      }
      formLoading := true;
      sent := Some(currentCategory.value.id);
      if deleted {
        isDeleteOpen := false;
        alert := None;
      } else {
        alert := Some(DeleteFailedAlert);
      }
      formLoading := false;
    }
  }

  /** Opening the add dialog right after editing a category posts that
      category's description with the new name: the add button does not
      clear the description. */
  method AddAfterEdit(c: Category, newName: string) returns (sent: CategoryBody)
    ensures sent == CategoryBody(newName, c.description.GetOr(""))
  {
    var page := new CategoriesPageState();
    page.HandleEditClick(c);
    page.OpenAdd();
    page.SetName(newName);
    var alert;
    sent, alert := page.HandleAddSubmit(true);
  }
}

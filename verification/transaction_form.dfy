/** The add/edit transaction form: its fields, the categories it offers for
    the selected flow, the flow toggle, and the choice between creating and
    updating on submit. */
module TransactionForm {
  import opened Wrappers
  import opened FinanceModels
  import Seqs

  const SaveErrorMessage: string := "Ошибка при сохранении. Проверьте правильность введенных данных."
  const DashboardRoute: string := "/dashboard"

  /** The form's state. Inputs hold text; `category` holds the selected
      category id as text, or "" when none is selected. */
  datatype FormData = FormData(flow: Flow, amount: string, category: string, date: string, description: string)

  /** The starting form: an expense with nothing filled in but the date,
      which is today's (the clock is a parameter). */
  function InitialForm(today: string): (f: FormData)
    ensures f.flow == Expense && f.date == today
    ensures f.amount == "" && f.category == "" && f.description == ""
  {
    FormData(Expense, "", "", today, "")
  }

  function OfCategoryFlow(flow: Flow): Category -> bool {
    (c: Category) => c.flow == flow
  }

  /** `filteredCategories`: the loaded categories of the form's flow. */
  function FilteredCategories(categories: seq<Category>, flow: Flow): (r: seq<Category>)
    ensures forall i :: 0 <= i < |r| ==> r[i] in categories && r[i].flow == flow
    ensures forall i :: 0 <= i < |categories| && categories[i].flow == flow ==> categories[i] in r
  {
    Seqs.Filter(categories, OfCategoryFlow(flow))
  }

  /** The offered categories keep their loaded order: offering from a list
      split in two is offering from each part in turn. */
  lemma FilteredCategoriesKeepOrder(a: seq<Category>, b: seq<Category>, flow: Flow)
    ensures FilteredCategories(a + b, flow) == FilteredCategories(a, flow) + FilteredCategories(b, flow)
  {
    Seqs.FilterAppend(a, b, OfCategoryFlow(flow));
  }

  /** Each loaded category is offered under exactly one of the two toggles. */
  lemma {:induction false} TogglesPartitionCategories(categories: seq<Category>)
    ensures |FilteredCategories(categories, Income)| + |FilteredCategories(categories, Expense)| == |categories|
  {
    if |categories| > 0 {
      var head := [categories[0]];
      assert categories == head + categories[1..];
      FilteredCategoriesKeepOrder(head, categories[1..], Income);
      FilteredCategoriesKeepOrder(head, categories[1..], Expense);
      assert head[1..] == [];
      TogglesPartitionCategories(categories[1..]);
    }
  }

  /** The "income" and "expense" toggle buttons: the flow is set and the
      selected category is dropped, everything typed so far stays. */
  function ToggleFlow(f: FormData, flow: Flow): (r: FormData)
    ensures r.flow == flow && r.category == ""
    ensures r.amount == f.amount && r.date == f.date && r.description == f.description
  {
    f.(flow := flow, category := "")
  }

  /** Only the last toggle matters. */
  lemma ToggleLastWins(f: FormData, a: Flow, b: Flow)
    ensures ToggleFlow(ToggleFlow(f, a), b) == ToggleFlow(f, b)
  {
  }

  /** The inputs that report changes by name. */
  datatype Field = AmountInput | CategoryInput | DateInput | DescriptionInput

  function Get(f: FormData, field: Field): string {
    match field
    case AmountInput => f.amount
    case CategoryInput => f.category
    case DateInput => f.date
    case DescriptionInput => f.description
  }

  /** `handleChange`: only the named input changes, and the flow stays. */
  function Change(f: FormData, field: Field, value: string): (r: FormData)
    ensures Get(r, field) == value && r.flow == f.flow
    ensures forall g: Field :: g != field ==> Get(r, g) == Get(f, g)
  {
    match field
    case AmountInput => f.(amount := value)
    case CategoryInput => f.(category := value)
    case DateInput => f.(date := value)
    case DescriptionInput => f.(description := value)
  }

  /** `isEditMode = !!id`: JavaScript truthiness of the route id, so an
      absent id and an empty one both mean creating. */
  function EditMode(id: Option<string>): (edit: bool)
    ensures edit ==> id.Some? && |id.value| > 0
    ensures id.None? || id == Some("") ==> !edit
    ensures id.Some? && |id.value| > 0 ==> edit
  {
    id.Some? && id.value != ""
  }

  datatype SaveRequest = SaveRequest(verb: string, path: string, body: FormData)

  /** The request the submit sends. */
  function SubmitRequest(id: Option<string>, f: FormData): (r: SaveRequest)
    ensures r.body == f
    ensures EditMode(id) <==> r.verb == "PUT"
    ensures EditMode(id) ==> r.path == "transactions/" + id.value + "/"
    ensures !EditMode(id) ==> r.verb == "POST" && r.path == "transactions/"
  {
    if EditMode(id) then SaveRequest("PUT", "transactions/" + id.value + "/", f)
    else SaveRequest("POST", "transactions/", f)
  }

  /** An update never goes to the creation path, and updates of different
      ids go to different paths. */
  lemma EditPathsDistinct(a: string, b: string, f: FormData)
    requires a != "" && b != ""
    ensures SubmitRequest(Some(a), f).path != SubmitRequest(None, f).path
    ensures a != b ==> SubmitRequest(Some(a), f).path != SubmitRequest(Some(b), f).path
  {
    var pa := SubmitRequest(Some(a), f).path;
    assert |pa| == |"transactions/"| + |a| + 1;
    if a != b {
      var pb := SubmitRequest(Some(b), f).path;
      var prefix := "transactions/";
      if |a| == |b| {
        var k :| 0 <= k < |a| && a[k] != b[k];
        assert pa[|prefix| + k] == a[k];
        assert pb[|prefix| + k] == b[k];
      } else {
        assert |pa| != |pb|;
      }
    }
  }

  /** The form after a submit: the request sent, the error shown, the loading
      flag and the navigation made. */
  datatype Submitted = Submitted(request: SaveRequest, error: Option<string>, loading: bool, navigation: Option<string>)

  /** `handleSubmit`, with whether the request failed as a parameter. On
      success the page leaves for the dashboard and loading is never reset;
      on failure the error is shown and loading is reset. */
  function Submit(id: Option<string>, f: FormData, failed: bool): (r: Submitted)
    ensures r.request == SubmitRequest(id, f)
    ensures failed ==> r.error == Some(SaveErrorMessage) && !r.loading && r.navigation.None?
    ensures !failed ==> r.error.None? && r.loading && r.navigation == Some(DashboardRoute)
  {
    var request := SubmitRequest(id, f);
    if failed then Submitted(request, Some(SaveErrorMessage), false, None)
    else Submitted(request, None, true, Some(DashboardRoute))
  }
}

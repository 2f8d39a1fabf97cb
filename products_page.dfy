/** The admin product catalogue page (src/app/admin/products/page.js) as a
    state machine: the component's five state variables, the handlers that
    change them, the form-to-payload coercion and the product-to-form
    mapping. Network replies and the answer to the confirmation dialog are
    inputs of the handlers; the requests sent and the alert shown are
    outputs. */
module ProductsPage {
  import opened Js

  /** A catalogue entry as the list endpoint returns it. Amounts are in
      cents; the optional fields may be missing from a stored product. */
  datatype Product = Product(
    id: string,
    name: string,
    sub: string,
    price: int,
    costPrice: Option<int>,
    stockQuantity: Option<int>,
    lowStockThreshold: Option<int>)

  /** The text of each input of the add/edit form. */
  datatype FormData = FormData(
    name: string,
    sub: string,
    price: string,
    costPrice: string,
    stockQuantity: string,
    lowStockThreshold: string)

  /** The JSON body of a save request. A price that does not parse is NaN,
      which JSON serialises as null: None here. */
  datatype Payload = Payload(
    name: string,
    sub: string,
    price: Option<real>,
    costPrice: real,
    stockQuantity: int,
    lowStockThreshold: int)

  datatype Verb = GET | POST | PATCH | DELETE

  datatype Request = Request(verb: Verb, url: string, body: Option<Payload>)

  /** The inputs of the form, one per field of FormData. */
  datatype Field = Name | Sub | Price | CostPrice | StockQuantity | LowStockThreshold

  /** The outcome of a save request: `success` true, `success` false with
      an optional `error` text, or a thrown fetch/JSON error. */
  datatype SaveReply = Saved | Refused(error: Option<string>) | SaveThrew

  datatype DeleteReply = Deleted | NotDeleted | DeleteThrew

  datatype ListReply = Listed(items: seq<Product>) | NotListed | ListThrew

  /** The form as "Add Product" and every reset leave it. */
  const BlankForm := FormData("", "Lyophilized", "", "", "", "5")

  const ProductsUrl := "/api/products"

  function ProductUrl(id: string): string {
    ProductsUrl + "/" + id
  }

  const ListRequest := Request(GET, ProductsUrl, None)

  // ------------------------------------------------------------ coercions

  /** The body `handleSubmit` sends: text fields as typed, the numbers
      parsed, with `|| 0` and `|| 5` fallbacks. */
  function ToPayload(f: FormData): (p: Payload)
    ensures p.name == f.name && p.sub == f.sub
    ensures p.price == ParseFloat(f.price)
    ensures p.costPrice == match ParseFloat(f.costPrice) case Some(x) => x case None => 0.0
    ensures p.stockQuantity == match ParseInt(f.stockQuantity) case Some(n) => n case None => 0
    ensures p.lowStockThreshold != 0
    ensures ParseInt(f.lowStockThreshold).Some? && ParseInt(f.lowStockThreshold).value != 0 ==>
      p.lowStockThreshold == ParseInt(f.lowStockThreshold).value
    ensures ParseInt(f.lowStockThreshold).None? || ParseInt(f.lowStockThreshold).value == 0 ==>
      p.lowStockThreshold == 5
  {
    Payload(
      f.name,
      f.sub,
      ParseFloat(f.price),
      RealOr(ParseFloat(f.costPrice), 0.0),
      IntOr(ParseInt(f.stockQuantity), 0),
      IntOr(ParseInt(f.lowStockThreshold), 5))
  }

  /** The form `handleEdit` fills in from a product: every number shown as
      its `toString`, a missing or zero cost or stock as "0" and a missing
      or zero threshold as "5". */
  function FormFor(p: Product): (f: FormData)
    ensures f.name == p.name && f.sub == p.sub
    ensures p.costPrice.None? || p.costPrice == Some(0) ==> f.costPrice == "0"
    ensures p.stockQuantity.None? || p.stockQuantity == Some(0) ==> f.stockQuantity == "0"
    ensures p.lowStockThreshold.None? || p.lowStockThreshold == Some(0) ==> f.lowStockThreshold == "5"
  {
    SmallNumberStrings();
    FormData(
      p.name,
      p.sub,
      CentsToString(p.price),
      CentsToString(IntOr(p.costPrice, 0)),
      IntToString(IntOr(p.stockQuantity, 0)),
      IntToString(IntOr(p.lowStockThreshold, 5)))
  }

  /** Each numeric field of the edit form reads back as the number it shows. */
  lemma FormForReadsBack(p: Product)
    ensures ParseFloat(FormFor(p).price) == Some(p.price as real / 100.0)
    ensures ParseFloat(FormFor(p).costPrice) == Some(IntOr(p.costPrice, 0) as real / 100.0)
    ensures ParseInt(FormFor(p).stockQuantity) == Some(IntOr(p.stockQuantity, 0))
    ensures ParseInt(FormFor(p).lowStockThreshold) == Some(IntOr(p.lowStockThreshold, 5))
  {
    PriceReadsBack(p);
    CostPriceReadsBack(p);
    StockReadsBack(p);
    ThresholdReadsBack(p);
  }

  // One field at a time: the four round trips are cheap apart and costly together.

  lemma PriceReadsBack(p: Product)
    ensures ParseFloat(FormFor(p).price) == Some(p.price as real / 100.0)
  {
    ParseFloatCentsRoundTrip(p.price);
  }

  lemma CostPriceReadsBack(p: Product)
    ensures ParseFloat(FormFor(p).costPrice) == Some(IntOr(p.costPrice, 0) as real / 100.0)
  {
    ParseFloatOfCentsOr(p.costPrice);
  }

  lemma StockReadsBack(p: Product)
    ensures ParseInt(FormFor(p).stockQuantity) == Some(IntOr(p.stockQuantity, 0))
  {
    ParseIntRoundTrip(IntOr(p.stockQuantity, 0));
  }

  lemma ThresholdReadsBack(p: Product)
    ensures ParseInt(FormFor(p).lowStockThreshold) == Some(IntOr(p.lowStockThreshold, 5))
  {
    ParseIntRoundTrip(IntOr(p.lowStockThreshold, 5));
  }

  /** Opening a product for editing and saving it unchanged sends back its
      own values: the price exactly, the optional numbers with their
      fallbacks applied. */
  lemma EditThenSavePayload(p: Product)
    ensures ToPayload(FormFor(p)) == Payload(
      p.name, p.sub, Some(p.price as real / 100.0), IntOr(p.costPrice, 0) as real / 100.0,
      IntOr(p.stockQuantity, 0), IntOr(p.lowStockThreshold, 5))
  {
    FormForReadsBack(p);
  }

  /** The request `handleSubmit` sends: PATCH to the edited product's URL
      while editing, POST to the collection otherwise. */
  function SaveRequest(editing: Option<Product>, f: FormData): (r: Request)
    ensures r.verb == PATCH <==> editing.Some?
    ensures r.verb == POST <==> editing.None?
    ensures editing.Some? ==> r.url == ProductUrl(editing.value.id)
    ensures editing.None? ==> r.url == ProductsUrl
    ensures r.body == Some(ToPayload(f))
  {
    match editing
    case Some(p) => Request(PATCH, ProductUrl(p.id), Some(ToPayload(f)))
    case None => Request(POST, ProductsUrl, Some(ToPayload(f)))
  }

  /** The browser submits the form only when the inputs marked `required`
      (name, sub, price) are filled in. */
  predicate RequiredFilled(f: FormData) {
    f.name != "" && f.sub != "" && f.price != ""
  }

  /** "Add Product" opens a form the browser will not submit: the name and price are empty. */
  lemma BlankFormNotFilled()
    ensures !RequiredFilled(BlankForm)
    ensures BlankForm.sub != ""
  {
  }

  /** The edit form of a product with a name and a type can be submitted
      as it opens: the printed price is never empty. */
  lemma EditFormFilled(p: Product)
    requires p.name != "" && p.sub != ""
    ensures RequiredFilled(FormFor(p))
  {
    CentsToStringSign(p.price);
  }

  /** Typing into an optional input never changes whether the form can be
      submitted; typing into a required one decides it for that input. */
  lemma RequiredFilledAfterTyping(f: FormData, field: Field, value: string)
    ensures field != Name && field != Sub && field != Price ==>
      RequiredFilled(WithField(f, field, value)) == RequiredFilled(f)
    ensures field == Name ==>
      (RequiredFilled(WithField(f, field, value)) <==> value != "" && f.sub != "" && f.price != "")
    ensures field == Sub ==>
      (RequiredFilled(WithField(f, field, value)) <==> f.name != "" && value != "" && f.price != "")
    ensures field == Price ==>
      (RequiredFilled(WithField(f, field, value)) <==> f.name != "" && f.sub != "" && value != "")
  {
    WithFieldOthers(f, field, value);
  }

  /** `products.filter(p => p._id !== id)`. */
  function WithoutId(ps: seq<Product>, id: string): (r: seq<Product>)
    ensures |r| <= |ps|
    ensures forall i :: 0 <= i < |r| ==> r[i].id != id
    ensures forall p :: p in r <==> p in ps && p.id != id
  {
    if ps == [] then []
    else if ps[0].id != id then [ps[0]] + WithoutId(ps[1..], id)
    else WithoutId(ps[1..], id)
  }

  /** The filter keeps the order of what it keeps. */
  lemma {:induction false} WithoutIdAppend(a: seq<Product>, b: seq<Product>, id: string)
    ensures WithoutId(a + b, id) == WithoutId(a, id) + WithoutId(b, id)
  {
    if a == [] {
      assert a + b == b;
    } else {
      var tail := a[1..];
      assert (a + b)[0] == a[0];
      assert (a + b)[1..] == tail + b;
      WithoutIdAppend(tail, b, id);
      if a[0].id != id {
        assert WithoutId(a + b, id) == [a[0]] + WithoutId(tail + b, id);
        assert WithoutId(a, id) == [a[0]] + WithoutId(tail, id);
        AppendAssoc([a[0]], WithoutId(tail, id), WithoutId(b, id));
      } else {
        assert WithoutId(a + b, id) == WithoutId(tail + b, id);
        assert WithoutId(a, id) == WithoutId(tail, id);
      }
    }
  }

  /** A list that holds no product with the id is left as it is. */
  lemma {:induction false} WithoutAbsentId(ps: seq<Product>, id: string)
    requires forall i :: 0 <= i < |ps| ==> ps[i].id != id
    ensures WithoutId(ps, id) == ps
  {
    if ps != [] {
      assert forall i :: 1 <= i < |ps| ==> ps[1..][i - 1] == ps[i];
      WithoutAbsentId(ps[1..], id);
      assert ps == [ps[0]] + ps[1..];
    }
  }

  /** Deleting twice removes no more than deleting once. */
  lemma WithoutIdIdempotent(ps: seq<Product>, id: string)
    ensures WithoutId(WithoutId(ps, id), id) == WithoutId(ps, id)
  {
    WithoutAbsentId(WithoutId(ps, id), id);
  }

  /** The text after "Error: " in the alert: `data.error`, or "undefined"
      when the reply carries none. */
  function ErrorText(e: Option<string>): (r: string)
    ensures e.Some? ==> r == e.value
    ensures e.None? ==> r == "undefined"
  {
    match e
    case Some(t) => t
    case None => "undefined"
  }

  // ------------------------------------------------------------ state machine

  /** The component's state variables. */
  datatype PageState = PageState(
    products: seq<Product>,
    loading: bool,
    showForm: bool,
    editingProduct: Option<Product>,
    formData: FormData)

  /** What a handler does besides changing the state: the new state, the
      requests it sends in order, and the alert it shows. */
  datatype Step = Step(state: PageState, sent: seq<Request>, alert: Option<string>)

  /** The state right after mounting: the list request of the mount effect
      is pending. */
  const Mounted := PageState([], true, false, None, BlankForm)

  /** A closed form is blank and edits nothing. */
  predicate Settled(s: PageState) {
    !s.showForm ==> s.editingProduct == None && s.formData == BlankForm
  }

  lemma MountedSettled()
    ensures Settled(Mounted) && Mounted.loading && Mounted.products == []
  {
  }

  /** The "Add Product" button. */
  function AfterOpenAdd(s: PageState): (t: PageState)
    ensures t.showForm && t.editingProduct == None && t.formData == BlankForm
    ensures t.products == s.products && t.loading == s.loading
  {
    s.(editingProduct := None, formData := BlankForm, showForm := true)
  }

  /** `resetForm`: the overlay, the close button, Cancel, and a successful save. */
  function AfterReset(s: PageState): (t: PageState)
    ensures !t.showForm && t.editingProduct == None && t.formData == BlankForm
    ensures t.products == s.products && t.loading == s.loading
    ensures Settled(t)
  {
    s.(showForm := false, editingProduct := None, formData := BlankForm)
  }

  lemma ResetIdempotent(s: PageState)
    ensures AfterReset(AfterReset(s)) == AfterReset(s)
  {
  }

  /** Opening for add and resetting differ only in whether the form is shown. */
  lemma OpenAddIsShownReset(s: PageState)
    ensures AfterOpenAdd(s) == AfterReset(s).(showForm := true)
  {
  }

  /** `handleEdit(p)`. */
  function AfterEdit(s: PageState, p: Product): (t: PageState)
    ensures t.showForm && t.editingProduct == Some(p) && t.formData == FormFor(p)
    ensures t.products == s.products && t.loading == s.loading
  {
    s.(editingProduct := Some(p), formData := FormFor(p), showForm := true)
  }

  /** What one input of the form shows. */
  function FieldValue(f: FormData, field: Field): string {
    match field
    case Name => f.name
    case Sub => f.sub
    case Price => f.price
    case CostPrice => f.costPrice
    case StockQuantity => f.stockQuantity
    case LowStockThreshold => f.lowStockThreshold
  }

  /** Typing into one input of the form (`{ ...formData, [field]: value }`):
      that input shows the typed text, every other input keeps its own. */
  function WithField(f: FormData, field: Field, value: string): (r: FormData)
    ensures FieldValue(r, field) == value
    ensures forall g :: g != field ==> FieldValue(r, g) == FieldValue(f, g)
  {
    match field
    case Name => f.(name := value)
    case Sub => f.(sub := value)
    case Price => f.(price := value)
    case CostPrice => f.(costPrice := value)
    case StockQuantity => f.(stockQuantity := value)
    case LowStockThreshold => f.(lowStockThreshold := value)
  }

  /** The other inputs of the form, named one by one. */
  lemma WithFieldOthers(f: FormData, field: Field, value: string)
    ensures var r := WithField(f, field, value);
      (field != Name ==> r.name == f.name) && (field != Sub ==> r.sub == f.sub) &&
      (field != Price ==> r.price == f.price) && (field == Name ==> r.name == value) &&
      (field == Sub ==> r.sub == value) && (field == Price ==> r.price == value)
  {
    var r := WithField(f, field, value);
    assert FieldValue(r, Name) == r.name && FieldValue(f, Name) == f.name;
    assert FieldValue(r, Sub) == r.sub && FieldValue(f, Sub) == f.sub;
    assert FieldValue(r, Price) == r.price && FieldValue(f, Price) == f.price;
  }

  function AfterInput(s: PageState, field: Field, value: string): (t: PageState)
    ensures t.formData == WithField(s.formData, field, value)
    ensures t == s.(formData := t.formData)
  {
    s.(formData := WithField(s.formData, field, value))
  }

  /** The first half of `fetchProducts`: loading is set and the list is requested. */
  function AfterFetch(s: PageState): (t: PageState)
    ensures t.loading && t == s.(loading := true)
  {
    s.(loading := true)
  }

  /** The second half of `fetchProducts`: the list is replaced only on a
      successful reply, and loading ends whatever the outcome. */
  function AfterList(s: PageState, reply: ListReply): (t: PageState)
    ensures !t.loading
    ensures reply.Listed? ==> t.products == reply.items
    ensures !reply.Listed? ==> t.products == s.products
    ensures t.showForm == s.showForm && t.editingProduct == s.editingProduct && t.formData == s.formData
  {
    match reply
    case Listed(items) => s.(products := items, loading := false)
    case _ => s.(loading := false)
  }

  /** `handleSubmit`, from the submit event through the save reply. */
  function AfterSubmit(s: PageState, reply: SaveReply): (r: Step)
    ensures !RequiredFilled(s.formData) ==> r == Step(s, [], None)
    ensures RequiredFilled(s.formData) ==>
      |r.sent| >= 1 && r.sent[0] == SaveRequest(s.editingProduct, s.formData)
    ensures s.editingProduct.Some? ==> forall i :: 0 <= i < |r.sent| ==> r.sent[i].verb != POST
    ensures RequiredFilled(s.formData) && reply.Saved? ==>
      r.state == AfterFetch(AfterReset(s)) && r.sent[1..] == [ListRequest] && r.alert == None
    ensures RequiredFilled(s.formData) && reply.Refused? ==>
      r.state == s && |r.sent| == 1 && r.alert == Some("Error: " + ErrorText(reply.error))
    ensures RequiredFilled(s.formData) && reply.SaveThrew? ==>
      r.state == s && |r.sent| == 1 && r.alert == Some("Failed to save product")
    ensures r.state.products == s.products
    ensures Settled(s) ==> Settled(r.state)
  {
    if !RequiredFilled(s.formData) then Step(s, [], None)
    else
      var save := SaveRequest(s.editingProduct, s.formData);
      match reply
      case Saved => Step(AfterFetch(AfterReset(s)), [save, ListRequest], None)
      case Refused(e) => Step(s, [save], Some("Error: " + ErrorText(e)))
      case SaveThrew => Step(s, [save], Some("Failed to save product"))
  }

  /** `handleDelete(id)`, from the confirmation dialog through the reply. */
  function AfterDelete(s: PageState, id: string, confirmed: bool, reply: DeleteReply): (r: Step)
    ensures !confirmed ==> r == Step(s, [], None)
    ensures confirmed ==> r.sent == [Request(DELETE, ProductUrl(id), None)]
    ensures confirmed && reply.Deleted? ==> r.state.products == WithoutId(s.products, id) && r.alert == None
    ensures confirmed && reply.NotDeleted? ==> r.state == s && r.alert == None
    ensures confirmed && reply.DeleteThrew? ==> r.state == s && r.alert == Some("Failed to delete product")
    ensures r.state == s.(products := r.state.products)
  {
    if !confirmed then Step(s, [], None)
    else
      var del := Request(DELETE, ProductUrl(id), None);
      match reply
      case Deleted => Step(s.(products := WithoutId(s.products, id)), [del], None)
      case NotDeleted => Step(s, [del], None)
      case DeleteThrew => Step(s, [del], Some("Failed to delete product"))
  }

  /** A successful delete of the one product with the id leaves every
      other product, in its order. */
  lemma DeleteKeepsOthers(s: PageState, id: string, before: seq<Product>, target: Product, after: seq<Product>)
    requires target.id == id
    requires forall i :: 0 <= i < |before| ==> before[i].id != id
    requires forall i :: 0 <= i < |after| ==> after[i].id != id
    requires s.products == before + [target] + after
    ensures AfterDelete(s, id, true, Deleted).state.products == before + after
  {
    WithoutIdAppend(before + [target], after, id);
    WithoutIdAppend(before, [target], id);
    WithoutAbsentId(before, id);
    WithoutAbsentId(after, id);
    assert [target][1..] == [];
    assert WithoutId([target], id) == [];
    calc {
      WithoutId(s.products, id);
      WithoutId(before + [target], id) + WithoutId(after, id);
      (WithoutId(before, id) + WithoutId([target], id)) + WithoutId(after, id);
      (before + []) + after;
      { assert before + [] == before; }
      before + after;
    }
  }

  /** Every handler keeps a closed form blank. */
  lemma SettledPreserved(s: PageState, p: Product, field: Field, value: string,
                         save: SaveReply, id: string, confirmed: bool,
                         del: DeleteReply, list: ListReply)
    requires Settled(s)
    ensures Settled(AfterOpenAdd(s)) && Settled(AfterReset(s)) && Settled(AfterEdit(s, p))
    ensures s.showForm ==> Settled(AfterInput(s, field, value))
    ensures Settled(AfterFetch(s)) && Settled(AfterList(s, list))
    ensures Settled(AfterSubmit(s, save).state) && Settled(AfterDelete(s, id, confirmed, del).state)
  {
  }

  // ------------------------------------------------------------ the component

  /** The mounted component. Each handler sets the fields in the order the
      source calls the setters. */
  class ProductsController {
    var products: seq<Product>
    var loading: bool
    var showForm: bool
    var editingProduct: Option<Product>
    var formData: FormData

    function State(): PageState
      reads this
    {
      PageState(products, loading, showForm, editingProduct, formData)
    }

    predicate Valid()
      reads this
    {
      Settled(State())
    }

    /** The initial values of the `useState` calls. */
    constructor ()
      ensures Valid() && State() == Mounted
    {
      products := [];
      loading := true;
      showForm := false;
      editingProduct := None;
      formData := BlankForm;
    }

    method OpenAdd()
      requires Valid()
      modifies this
      ensures Valid() && State() == AfterOpenAdd(old(State()))
    {
      editingProduct := None;
      formData := BlankForm;
      showForm := true;
    }

    method ResetForm()
      requires Valid()
      modifies this
      ensures Valid() && State() == AfterReset(old(State()))
    {
      showForm := false;
      editingProduct := None;
      formData := BlankForm;
    }

    method Edit(p: Product)
      requires Valid()
      modifies this
      ensures Valid() && State() == AfterEdit(old(State()), p)
    {
      editingProduct := Some(p);
      formData := FormFor(p);
      showForm := true;
    }

    /** An input's change handler; the inputs exist only while the form is shown. */
    method Input(field: Field, value: string)
      requires Valid() && showForm
      modifies this
      ensures Valid() && State() == AfterInput(old(State()), field, value)
    {
      formData := WithField(formData, field, value);
    }

    method FetchProducts() returns (req: Request)
      requires Valid()
      modifies this
      ensures Valid() && State() == AfterFetch(old(State())) && req == ListRequest
    {
      loading := true;
      req := ListRequest;
    }

    method ReceiveProducts(reply: ListReply)
      requires Valid()
      modifies this
      ensures Valid() && State() == AfterList(old(State()), reply)
    {
      if reply.Listed? {
        products := reply.items;
      }
      loading := false;
    }

    /** The form's submit handler; the form exists only while it is shown. */
    method Submit(reply: SaveReply) returns (sent: seq<Request>, alert: Option<string>)
      requires Valid() && showForm
      modifies this
      ensures Valid()
      ensures Step(State(), sent, alert) == AfterSubmit(old(State()), reply)
    {
      if !RequiredFilled(formData) {
        return [], None;
      }
      var save := SaveRequest(editingProduct, formData);
      ghost var before := State();
      sent, alert := [save], None;
      match reply {
        case Saved =>
          ResetForm();
          var list := FetchProducts();
          sent := sent + [list];
          assert State() == AfterFetch(AfterReset(before));
        case Refused(e) =>
          alert := Some("Error: " + ErrorText(e));
        case SaveThrew =>
          alert := Some("Failed to save product");
      }
    }

    method Delete(id: string, confirmed: bool, reply: DeleteReply) returns (sent: seq<Request>, alert: Option<string>)
      requires Valid()
      modifies this
      ensures Valid()
      ensures Step(State(), sent, alert) == AfterDelete(old(State()), id, confirmed, reply)
    {
      if !confirmed {
        return [], None;
      }
      sent, alert := [Request(DELETE, ProductUrl(id), None)], None;
      match reply {
        case Deleted =>
          products := WithoutId(products, id);
        case NotDeleted =>
        case DeleteThrew =>
          alert := Some("Failed to delete product");
      }
    }
  }
}

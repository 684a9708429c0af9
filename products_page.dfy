/** The products page: how product images are addressed, which products the
    search shows, the low-stock markers, and the page state that the form
    handlers and the add, edit and delete submits update. Requests are not
    sent: their outcomes are inputs. */
module ProductsPage {
  import opened Wrappers
  import opened Js
  import opened Strings
  import opened Lists
  import opened Urls
  import opened Browser
  import opened ProductService

  /** `process.env.NEXT_PUBLIC_API_URL || 'http://192.168.1.3:3000'`: the base
      the page rewrites image URLs against (a different default from the API
      client's). */
  const DefaultImageBase: string := "http://192.168.1.3:3000"

  function ImageBase(env: Option<string>): (r: string)
    ensures Truthy(env) ==> r == env.value
    ensures !Truthy(env) ==> r == DefaultImageBase
  {
    if Truthy(env) then env.value else DefaultImageBase
  }

  lemma DefaultImageBasePieces()
    ensures WellFormedProtocol("http:") && WellFormedAuthority("192.168.1.3", "3000")
  {
    assert "http:"[..4] == "http";
    assert "3000"[..3] == "300" && "300"[..2] == "30" && "30"[..1] == "3" && "3"[..0] == "";
  }

  lemma DefaultImageBaseSpelled()
    ensures DefaultImageBase == "http:" + ("//" + ("192.168.1.3" + PortPart("3000")))
  {
  }

  /** The default base reads as host 192.168.1.3, port 3000, path "/". */
  lemma DefaultImageBaseParses()
    ensures Parse(DefaultImageBase) == Some(Url("http:", "192.168.1.3", "3000", "/", ""))
  {
    DefaultImageBasePieces();
    DefaultImageBaseSpelled();
    ParseOrigin("http:", "192.168.1.3", "3000");
  }

  /** The `try` block for an absolute URL: a parsable URL whose path starts
      with `/uploads` takes protocol, hostname and port from the base (when
      the base parses); anything else comes back as it was. */
  function Rehost(url: string, base: string): (r: string)
    ensures Parse(url).None? ==> r == url
  {
    match Parse(url)
    case None => url
    case Some(u) =>
      if !StartsWith(u.pathname, "/uploads") then url
      else
        match Parse(base)
        case None => url
        case Some(b) => Serialize(WithOrigin(u, b))
  }

  /** `getValidImageUrl(url)`, with the environment's API URL as a parameter. */
  function GetValidImageUrl(url: Option<string>, env: Option<string>): (r: string)
    ensures !Truthy(url) ==> r == ""
    ensures Truthy(url) && (StartsWith(url.value, "data:") || StartsWith(url.value, "blob:")) ==> r == url.value
    ensures (Truthy(url) && !StartsWith(url.value, "data:") && !StartsWith(url.value, "blob:") &&
      StartsWith(url.value, "/")) ==> r == ImageBase(env) + url.value
    ensures (Truthy(url) && !StartsWith(url.value, "data:") && !StartsWith(url.value, "blob:") &&
      !StartsWith(url.value, "/") && !StartsWith(url.value, "http")) ==> r == url.value
  {
    if !Truthy(url) then ""
    else
      var u := url.value;
      if StartsWith(u, "data:") || StartsWith(u, "blob:") then u
      else if StartsWith(u, "/") then ImageBase(env) + u
      else if StartsWith(u, "http") then Rehost(u, ImageBase(env))
      else u
  }

  /** A written URL with an http protocol goes to the rewrite. */
  lemma SerializedHttpUrl(u: Url, env: Option<string>)
    requires StartsWith(u.protocol, "http")
    ensures GetValidImageUrl(Some(Serialize(u)), env) == Rehost(Serialize(u), ImageBase(env))
  {
    var s := Serialize(u);
    StartsWithTransitive(s, u.protocol, "http");
    HttpIsNotSpecial(s);
  }

  lemma HttpIsNotSpecial(s: string)
    requires StartsWith(s, "http")
    ensures !StartsWith(s, "data:") && !StartsWith(s, "blob:") && !StartsWith(s, "/")
  {
    assert s[0] == "http"[0];
  }

  lemma {:induction false} StartsWithTransitive(s: string, p: string, q: string)
    requires StartsWith(s, p) && StartsWith(p, q)
    ensures StartsWith(s, q)
  {
    assert s[..|q|] == s[..|p|][..|q|];
  }

  lemma HttpProtocolStartsWithHttp(p: string)
    requires p in HttpProtocols
    ensures StartsWith(p, "http")
  {
    assert p[..4] == "http";
  }

  /** The rewrite of a written `/uploads` URL, in the terms of this model's
      `URL`: its origin is replaced by the base's. */
  lemma RehostSerialized(u: Url, base: string, b: Url)
    requires WellFormed(u) && StartsWith(u.pathname, "/uploads")
    requires Parse(base) == Some(b)
    ensures Rehost(Serialize(u), base) == Serialize(WithOrigin(u, b))
  {
    ParseSerialize(u);
  }

  /** An `/uploads` URL of the backend, under whatever host it was stored,
      comes back with the base's protocol, hostname and port and its own path,
      query and fragment. Both are http(s) URLs written as `new URL` writes
      them, so that it neither resolves, re-encodes nor refuses any part. */
  lemma UploadsRehosted(u: Url, env: Option<string>, b: Url)
    requires WellFormed(u) && u.protocol in HttpProtocols && PlainHost(u.hostname) && CanonicalPath(u)
    requires StartsWith(u.pathname, "/uploads")
    requires Parse(ImageBase(env)) == Some(b) && CanonicalOrigin(b)
    ensures GetValidImageUrl(Some(Serialize(u)), env) == Serialize(WithOrigin(u, b))
  {
    HttpProtocolStartsWithHttp(u.protocol);
    SerializedHttpUrl(u, env);
    RehostSerialized(u, ImageBase(env), b);
  }

  /** Other absolute URLs (another path, or a base that does not parse) are
      left alone. The host holds no character that would make `new URL` read
      part of it as the path, and the path is one it keeps as written. */
  lemma OtherAbsoluteUrlsKept(u: Url, env: Option<string>)
    requires WellFormed(u) && StartsWith(u.protocol, "http") && HostChars(u.hostname) && CanonicalPath(u)
    requires !StartsWith(u.pathname, "/uploads") || Parse(ImageBase(env)).None?
    ensures GetValidImageUrl(Some(Serialize(u)), env) == Serialize(u)
  {
    SerializedHttpUrl(u, env);
    ParseSerialize(u);
  }

  /** Rewriting is idempotent on rewritten URLs: a URL already on the base
      host is left as it is. */
  lemma RehostIdempotent(u: Url, env: Option<string>, b: Url)
    requires WellFormed(u) && StartsWith(u.protocol, "http") && StartsWith(u.pathname, "/uploads")
    requires Parse(ImageBase(env)) == Some(b) && StartsWith(b.protocol, "http")
    ensures var once := GetValidImageUrl(Some(Serialize(u)), env);
      GetValidImageUrl(Some(once), env) == once
  {
    SerializedHttpUrl(u, env);
    RehostSerialized(u, ImageBase(env), b);
    var w := WithOrigin(u, b);
    SerializedHttpUrl(w, env);
    RehostSerialized(w, ImageBase(env), b);
    assert WithOrigin(w, b) == w;
  }

  /** The default base is written as `new URL` writes it. */
  lemma DefaultImageBaseCanonical()
    ensures CanonicalOrigin(Url("http:", "192.168.1.3", "3000", "/", ""))
  {
    assert NatToString(19) == "19";
    assert NatToString(16) == "16";
    assert Quad(192, 168, 1, 3) == "192.168.1.3";
  }

  /** The default base's origin on a URL's path, written out. */
  lemma DefaultOriginSerialized(u: Url)
    ensures Serialize(u.(protocol := "http:", hostname := "192.168.1.3", port := "3000")) == DefaultImageBase + u.pathname + u.tail
  {
    DefaultImageBaseSpelled();
    var origin := "192.168.1.3" + PortPart("3000");
    var rest := u.pathname + u.tail;
    assert "http:" + ("//" + (origin + rest)) == ("http:" + ("//" + origin)) + rest;
    assert DefaultImageBase + u.pathname + u.tail == DefaultImageBase + rest;
  }

  /** With no API URL configured, an upload stored under any host is served
      from http://192.168.1.3:3000 with its own path, query and fragment. */
  lemma DefaultBaseRehost(u: Url, env: Option<string>)
    requires !Truthy(env)
    requires WellFormed(u) && u.protocol in HttpProtocols && PlainHost(u.hostname) && CanonicalPath(u)
    requires StartsWith(u.pathname, "/uploads")
    ensures GetValidImageUrl(Some(Serialize(u)), env) == DefaultImageBase + u.pathname + u.tail
  {
    DefaultImageBaseParses();
    var b := Url("http:", "192.168.1.3", "3000", "/", "");
    DefaultImageBaseCanonical();
    UploadsRehosted(u, env, b);
    DefaultOriginSerialized(u);
  }

  // ---------------------------------------------------------------- products

  datatype Price = Amount(amount: int) | PriceText(text: string)

  datatype CategoryRef = CategoryRef(id: int, name: string)

  datatype Product = Product(
    id: int,
    name: string,
    description: Option<string>,
    price: Price,
    stock: int,
    categoryId: int,
    imageUrl: Option<string>,
    category: Option<CategoryRef>)

  datatype Category = Category(id: int, name: string)

  /** The search test: the search occurs in the name, or in the name of the
      product's category when it has one, ignoring letter case. */
  predicate ProductMatches(search: string, p: Product)
    ensures search == "" ==> ProductMatches(search, p)
    ensures Includes(p.name, search) ==> ProductMatches(search, p)
  {
    MentionsEmpty(p.name);
    ContainedIsMentioned(p.name, search);
    Mentions(p.name, search) || (p.category.Some? && Mentions(p.category.value.name, search))
  }

  /** `filteredProducts`. */
  function FilteredProducts(products: seq<Product>, search: string): (r: seq<Product>)
    ensures |r| <= |products|
  {
    Filter(products, p => ProductMatches(search, p))
  }

  /** A product is listed exactly when it is loaded and matches the search. */
  lemma FilteredProductsMembership(products: seq<Product>, search: string, p: Product)
    ensures p in FilteredProducts(products, search) <==> p in products && ProductMatches(search, p)
  {
    FilterMembership(products, p => ProductMatches(search, p), p);
  }

  /** The listed products keep the order in which they were loaded. */
  lemma FilteredProductsKeepOrder(a: seq<Product>, b: seq<Product>, search: string)
    ensures FilteredProducts(a + b, search) == FilteredProducts(a, search) + FilteredProducts(b, search)
  {
    FilterAppend(a, b, p => ProductMatches(search, p));
  }

  /** An empty search lists every product. */
  lemma EmptySearchListsAllProducts(products: seq<Product>)
    ensures FilteredProducts(products, "") == products
  {
    forall i | 0 <= i < |products| ensures ProductMatches("", products[i]) {
      MentionsEmpty(products[i].name);
    }
    FilterKeepsAll(products, p => ProductMatches("", p));
  }

  /** The search ignores letter case: a lower-cased search lists the same products. */
  lemma ProductSearchIgnoresCase(products: seq<Product>, search: string)
    ensures FilteredProducts(products, ToLower(search)) == FilteredProducts(products, search)
  {
    forall p ensures ProductMatches(ToLower(search), p) == ProductMatches(search, p) {
      MentionsIgnoresCase(p.name, search);
      if p.category.Some? { MentionsIgnoresCase(p.category.value.name, search); }
    }
    FilterSameKeep(products, p => ProductMatches(ToLower(search), p), p => ProductMatches(search, p));
  }

  /** A product whose name contains the search, in any letter case, is listed. */
  lemma NameContainingSearchIsListed(products: seq<Product>, search: string, p: Product)
    requires p in products && Includes(p.name, search)
    ensures p in FilteredProducts(products, search)
  {
    ContainedIsMentioned(p.name, search);
    FilteredProductsMembership(products, search, p);
  }

  const LowStockThreshold: int := 10

  datatype Tone = Warning | Healthy

  /** The corner badge: "Stok Menipis" below ten in stock. */
  function CornerBadge(p: Product): (r: Option<string>)
    ensures r.Some? <==> p.stock < 10
    ensures r.Some? ==> r.value == "Stok Menipis"
  {
    if p.stock < LowStockThreshold then Some("Stok Menipis") else None
  }

  /** The colour of the stock chip under the name. */
  function StockChipTone(p: Product): (r: Tone)
    ensures r == Warning <==> CornerBadge(p).Some?
  {
    if p.stock < LowStockThreshold then Warning else Healthy
  }

  /** Both markers show low stock, and they agree: exactly below ten. */
  lemma LowStockMarkersAgree(p: Product)
    ensures CornerBadge(p).Some? <==> p.stock < 10
    ensures StockChipTone(p) == Warning <==> p.stock < 10
  {
  }

  // -------------------------------------------------------------------- form

  /** The form's six text fields. */
  datatype ProductForm = ProductForm(
    name: string, description: string, price: string, stock: string, categoryId: string, image: string)

  datatype FormField = NameField | DescriptionField | PriceField | StockField | CategoryIdField | ImageField

  const EmptyForm: ProductForm := ProductForm("", "", "", "", "", "")

  function GetField(f: ProductForm, k: FormField): string {
    match k
    case NameField => f.name
    case DescriptionField => f.description
    case PriceField => f.price
    case StockField => f.stock
    case CategoryIdField => f.categoryId
    case ImageField => f.image
  }

  /** `{ ...prev, [name]: value }`: the named field takes the value, every
      other field keeps its own. */
  function SetField(f: ProductForm, k: FormField, v: string): (r: ProductForm)
    ensures GetField(r, k) == v
    ensures forall j :: j != k ==> GetField(r, j) == GetField(f, j)
  {
    match k
    case NameField => f.(name := v)
    case DescriptionField => f.(description := v)
    case PriceField => f.(price := v)
    case StockField => f.(stock := v)
    case CategoryIdField => f.(categoryId := v)
    case ImageField => f.(image := v)
  }

  /** `String(product.price)`; a numeric price reads back as itself. */
  function PriceString(p: Price): (r: string)
    ensures p.Amount? ==> ParseInt(r) == Some(p.amount)
    ensures p.PriceText? ==> r == p.text
  {
    match p
    case Amount(n) => ParseIntToString(n); IntToString(n)
    case PriceText(t) => t
  }

  /** The form `handleEditClick` fills in: text as it is, numbers as strings,
      and "" for a missing description or image. */
  function EditForm(p: Product): (f: ProductForm)
    ensures f.name == p.name
    ensures f.description == p.description.GetOr("")
    ensures f.image != "" <==> Truthy(p.imageUrl)
    ensures ParseInt(f.stock) == Some(p.stock) && ParseInt(f.categoryId) == Some(p.categoryId)
  {
    ParseIntToString(p.stock);
    ParseIntToString(p.categoryId);
    ProductForm(p.name, p.description.GetOr(""), PriceString(p.price), IntToString(p.stock),
      IntToString(p.categoryId), if Truthy(p.imageUrl) then p.imageUrl.value else "")
  }

  /** Submitting the edit form untouched sends the product's own values back:
      the numbers survive the round trip through their strings, and a missing
      description or image comes back as "". */
  lemma EditFormRoundTrip(p: Product)
    ensures var f := EditForm(p);
      f.name == p.name &&
      (p.description.Some? ==> f.description == p.description.value) &&
      (p.description.None? ==> f.description == "") &&
      (p.price.Amount? ==> ParseInt(f.price) == Some(p.price.amount)) &&
      ParseInt(f.stock) == Some(p.stock) &&
      ParseInt(f.categoryId) == Some(p.categoryId) &&
      (Truthy(p.imageUrl) ==> f.image == p.imageUrl.value) &&
      (!Truthy(p.imageUrl) ==> f.image == "")
  {
    if p.price.Amount? { ParseIntToString(p.price.amount); }
    ParseIntToString(p.stock);
    ParseIntToString(p.categoryId);
  }

  // ------------------------------------------------------------- page state

  /** How a save request ended: saved, or rejected with the text of the
      server's reply (`message`, else the reply as JSON; None: no reply). */
  datatype SaveOutcome = Saved | Rejected(detail: Option<string>)

  const AddFailedAlert: string := "Gagal menambah produk"
  const EditFailedAlert: string := "Gagal memperbarui produk"
  const DeleteFailedAlert: string := "Gagal menghapus produk"

  /** The alert after a failed edit. */
  function EditAlert(detail: Option<string>): (r: string)
    ensures StartsWith(r, EditFailedAlert)
  {
    var r := if detail.Some? then EditFailedAlert + ": " + detail.value else EditFailedAlert;
    assert r[..|EditFailedAlert|] == EditFailedAlert;
    r
  }

  /** The argument `handleAddSubmit` passes to `createProduct`: the form's
      text fields, the parsed numbers, status AVAILABLE and the chosen file. */
  function AddData(form: ProductForm, file: Option<FileRef>, price: int, stock: int): ProductFormData {
    ProductFormData(form.name, Some(form.description), price, stock, form.categoryId, Some(Available), file, None)
  }

  /** A snapshot of every state variable of the page. */
  datatype PageView = PageView(
    products: seq<Product>,
    categories: seq<Category>,
    loading: bool,
    search: string,
    isAddOpen: bool,
    isEditOpen: bool,
    isDeleteOpen: bool,
    currentProduct: Option<Product>,
    formData: ProductForm,
    selectedFile: Option<FileRef>,
    imagePreview: string,
    formLoading: bool)

  class ProductsPageState {
    var products: seq<Product>
    var categories: seq<Category>
    var loading: bool
    var search: string
    var isAddOpen: bool
    var isEditOpen: bool
    var isDeleteOpen: bool
    var currentProduct: Option<Product>
    var formData: ProductForm
    var selectedFile: Option<FileRef>
    var imagePreview: string
    var formLoading: bool

    function View(): PageView
      reads this
    {
      PageView(products, categories, loading, search, isAddOpen, isEditOpen, isDeleteOpen,
        currentProduct, formData, selectedFile, imagePreview, formLoading)
    }

    /** `filteredProducts` for the current search. */
    function Shown(): (r: seq<Product>)
      reads this
      ensures forall p :: p in r <==> p in products && ProductMatches(search, p)
    {
      var r := FilteredProducts(products, search);
      assert forall p :: p in r <==> p in products && ProductMatches(search, p) by {
        forall p ensures p in r <==> p in products && ProductMatches(search, p) {
          FilteredProductsMembership(products, search, p);
        }
      }
      r
    }

    /** The page mounts empty, loading, with every dialog closed. */
    constructor ()
      ensures View() == PageView([], [], true, "", false, false, false, None, EmptyForm, None, "", false)
    {
      products := [];
      categories := [];
      loading := true;
      search := "";
      isAddOpen := false;
      isEditOpen := false;
      isDeleteOpen := false;
      currentProduct := None;
      formData := EmptyForm;
      selectedFile := None;
      imagePreview := "";
      formLoading := false;
    }

    /** `fetchData`, given the replies of `GET /menu` and `GET /categories`
        (None: either request failed, and the lists stay as they were). */
    method FetchData(reply: Option<(seq<Product>, seq<Category>)>)
      modifies this
      ensures reply.Some? ==> View() == old(View()).(products := reply.value.0, categories := reply.value.1, loading := false)
      ensures reply.None? ==> View() == old(View()).(loading := false)
    {
      loading := true;
      if reply.Some? {
        products := reply.value.0;
        categories := reply.value.1;
      }
      loading := false;
    }

    /** `handleInputChange`: one field of the form changes, nothing else does. */
    method HandleInputChange(k: FormField, v: string)
      modifies this
      ensures GetField(formData, k) == v
      ensures forall j :: j != k ==> GetField(formData, j) == GetField(old(formData), j)
      ensures View() == old(View()).(formData := formData)
    {
      formData := SetField(formData, k, v);
    }

    /** `resetForm`: all six fields, the chosen file and the preview are cleared. */
    method ResetForm()
      modifies this
      ensures View() == old(View()).(formData := EmptyForm, selectedFile := None, imagePreview := "")
    {
      formData := EmptyForm;
      selectedFile := None;
      imagePreview := "";
    }

    /** The "Tambah Produk Baru" button: a cleared form in the add dialog. */
    method OpenAdd()
      modifies this
      ensures View() == old(View()).(formData := EmptyForm, selectedFile := None, imagePreview := "", isAddOpen := true)
    {
      ResetForm();
      isAddOpen := true;
    }

    /** `handleFileChange`, with the data URL the preview reader produces: a
        chosen file replaces the selection; cancelling the picker changes nothing. */
    method HandleFileChange(file: Option<FileRef>, preview: string)
      modifies this
      ensures file.Some? ==> View() == old(View()).(selectedFile := file, imagePreview := preview)
      ensures file.None? ==> View() == old(View())
    {
      if file.Some? {
        selectedFile := file;
        imagePreview := preview;
      }
    }

    /** `handleEditClick(product)`: the product becomes current and the edit
        dialog opens on its values. */
    method HandleEditClick(p: Product)
      modifies this
      ensures View() == old(View()).(currentProduct := Some(p), formData := EditForm(p), isEditOpen := true)
    {
      currentProduct := Some(p);
      formData := EditForm(p);
      isEditOpen := true;
    }

    /** `handleDeleteClick(product)`. */
    method HandleDeleteClick(p: Product)
      modifies this
      ensures View() == old(View()).(currentProduct := Some(p), isDeleteOpen := true)
    {
      currentProduct := Some(p);
      isDeleteOpen := true;
    }

    /** `handleAddSubmit`, with the parsed price and stock, how the upload
        request ended and how the create request ended. A rejected upload
        posts nothing; otherwise the payload posted is the one `createProduct`
        builds from the form with status AVAILABLE. On success the dialog
        closes and the form is reset, on any failure the add alert is raised
        and the form stays as it was. */
    method HandleAddSubmit(price: int, stock: int, upload: UploadOutcome, outcome: SaveOutcome)
      returns (sent: Option<Payload>, alert: Option<string>)
      modifies this
      ensures sent.Some? <==>
        !(old(selectedFile).Some? && upload.UploadRejected?) &&
        CreatePayload(AddData(old(formData), old(selectedFile), price, stock), ReplyOf(upload)).Ok?
      ensures sent.Some? ==> sent.value == CreatePayload(AddData(old(formData), old(selectedFile), price, stock), ReplyOf(upload)).value
      ensures sent.Some? && outcome.Saved? ==> alert.None?
      ensures sent.Some? && outcome.Saved? ==> View() == old(View()).(isAddOpen := false, formData := EmptyForm,
        selectedFile := None, imagePreview := "", formLoading := false)
      ensures !(sent.Some? && outcome.Saved?) ==> alert == Some(AddFailedAlert)
      ensures !(sent.Some? && outcome.Saved?) ==> View() == old(View()).(formLoading := false)
    {
      formLoading := true;
      var payload := AddPayload(price, stock, upload);
      if payload.Err? {
        sent, alert := None, Some(AddFailedAlert);
        formLoading := false;
      } else {
        sent := Some(payload.value);
        alert := FinishAdd(outcome.Saved?);
      }
    }

    /** What `createProduct` posts for the add form, given the parsed price
        and stock and how the upload went: nothing when the upload of a chosen
        file was rejected, otherwise the payload built from `AddData`. */
    method AddPayload(price: int, stock: int, upload: UploadOutcome) returns (r: Result<Payload>)
      ensures r.Ok? <==>
        !(selectedFile.Some? && upload.UploadRejected?) &&
        CreatePayload(AddData(formData, selectedFile, price, stock), ReplyOf(upload)).Ok?
      ensures r.Ok? ==> r.value == CreatePayload(AddData(formData, selectedFile, price, stock), ReplyOf(upload)).value
    {
      if selectedFile.Some? && upload.UploadRejected? {
        r := Err("upload rejected");
      } else {
        r := CreatePayload(AddData(formData, selectedFile, price, stock), ReplyOf(upload));
      }
    }

    /** How `handleAddSubmit` ends once the product was posted: on success
        the dialog closes and the form is reset, on failure the add alert is
        raised; either way the form stops loading. */
    method FinishAdd(saved: bool) returns (alert: Option<string>)
      modifies this
      ensures saved ==> alert.None? && View() == old(View()).(isAddOpen := false, formData := EmptyForm,
        selectedFile := None, imagePreview := "", formLoading := false)
      ensures !saved ==> alert == Some(AddFailedAlert) && View() == old(View()).(formLoading := false)
    {
      if saved {
        isAddOpen := false;
        ResetForm();
        alert := None;
      } else {
        alert := Some(AddFailedAlert);
      }
      formLoading := false;
    }

    /** `handleEditSubmit`: without a current product nothing happens.
        Otherwise the patch holds the form's text fields, the parsed numbers,
        the chosen file and the form's image URL; on success the dialog closes
        (the form is not reset). When the upload or the patch is rejected the
        alert carries the server's error reply, when there is one; an upload
        reply without a URL raises the plain alert. */
    method HandleEditSubmit(price: int, stock: int, upload: UploadOutcome, outcome: SaveOutcome)
      returns (sent: Option<(int, Payload)>, alert: Option<string>)
      modifies this
      ensures old(currentProduct).None? ==> sent.None? && alert.None? && View() == old(View())
      ensures old(currentProduct).Some? ==>
        (sent.Some? <==> old(selectedFile).None? || (upload.UploadReplied? && UploadImage(upload.body).Ok?))
      ensures sent.Some? ==> old(currentProduct).Some? && sent.value.0 == old(currentProduct).value.id
      ensures sent.Some? ==> Rule(sent.value.1, Price, true, Number(price)) && Rule(sent.value.1, Stock, true, Number(stock))
      ensures sent.Some? ==> Rule(sent.value.1, Description, true, Text(old(formData).description))
      ensures sent.Some? ==> Rule(sent.value.1, Name, old(formData).name != "", Text(old(formData).name))
      ensures sent.Some? ==> Rule(sent.value.1, CategoryId, old(formData).categoryId != "", Text(old(formData).categoryId))
      ensures sent.Some? ==> StatusKey !in sent.value.1
      ensures sent.Some? && old(selectedFile).None? ==>
        Rule(sent.value.1, ImageUrl, old(formData).image != "", Text(old(formData).image))
      ensures sent.Some? && old(selectedFile).Some? ==>
        upload.UploadReplied? && Rule(sent.value.1, ImageUrl, true, Text(UploadImage(upload.body).value))
      ensures old(currentProduct).Some? && old(selectedFile).Some? && upload.UploadRejected? ==>
        alert == Some(EditAlert(upload.detail)) && View() == old(View()).(formLoading := false)
      ensures old(currentProduct).Some? && sent.None? && upload.UploadReplied? ==>
        alert == Some(EditFailedAlert) && View() == old(View()).(formLoading := false)
      ensures sent.Some? && outcome.Saved? ==> alert.None? && View() == old(View()).(isEditOpen := false, formLoading := false)
      ensures sent.Some? && outcome.Rejected? ==>
        alert == Some(EditAlert(outcome.detail)) && View() == old(View()).(formLoading := false)
    {
      if currentProduct.None? {
        return None, None;
      }
      formLoading := true;
      var payload := EditPayload(price, stock, upload);
      if payload.Err? {
        var detail := if upload.UploadRejected? then upload.detail else None;
        sent, alert := None, Some(EditAlert(detail));
        formLoading := false;
      } else {
        sent := Some((currentProduct.value.id, payload.value));
        alert := FinishEdit(outcome);
      }
    }

    /** The payload `updateProduct` sends for the edit form, given the
        parsed price and stock and how the upload went: the form's
        description, the numbers, and its name and category when not empty;
        the uploaded URL when a file is chosen (failing when the upload is
        rejected or its reply has none), else the form's image URL when not
        empty; never a status. */
    method EditPayload(price: int, stock: int, upload: UploadOutcome) returns (r: Result<Payload>)
      ensures r.Err? <==> selectedFile.Some? && (upload.UploadRejected? || UploadImage(upload.body).Err?)
      ensures r.Ok? ==> Rule(r.value, Price, true, Number(price)) && Rule(r.value, Stock, true, Number(stock))
      ensures r.Ok? ==> Rule(r.value, Description, true, Text(formData.description))
      ensures r.Ok? ==> Rule(r.value, Name, formData.name != "", Text(formData.name))
      ensures r.Ok? ==> Rule(r.value, CategoryId, formData.categoryId != "", Text(formData.categoryId))
      ensures r.Ok? ==> StatusKey !in r.value
      ensures r.Ok? && selectedFile.None? ==> Rule(r.value, ImageUrl, formData.image != "", Text(formData.image))
      ensures r.Ok? && selectedFile.Some? ==>
        upload.UploadReplied? && Rule(r.value, ImageUrl, true, Text(UploadImage(upload.body).value))
    {
      if selectedFile.Some? && upload.UploadRejected? {
        return Err("upload rejected");
      }
      var patch := ProductPatch(Some(formData.name), Some(formData.description), Some(price), Some(stock),
        Some(formData.categoryId), None, selectedFile, Some(formData.image));
      r := UpdatePayload(patch, ReplyOf(upload));
    }

    /** How `handleEditSubmit` ends once the patch was sent: on success the
        dialog closes, on failure the alert carries the server's reply when
        there is one; either way the form stops loading. */
    method FinishEdit(outcome: SaveOutcome) returns (alert: Option<string>)
      modifies this
      ensures outcome.Saved? ==> alert.None? && View() == old(View()).(isEditOpen := false, formLoading := false)
      ensures outcome.Rejected? ==> alert == Some(EditAlert(outcome.detail)) && View() == old(View()).(formLoading := false)
    {
      match outcome {
        case Saved =>
          isEditOpen := false;
          alert := None;
        case Rejected(detail) =>
          alert := Some(EditAlert(detail));
      }
      formLoading := false;
    }

    /** `handleDeleteSubmit`: without a current product nothing happens;
        otherwise `DELETE /menu/<id>` is sent, and on success the dialog closes. */
    method HandleDeleteSubmit(deleted: bool) returns (sent: Option<int>, alert: Option<string>)
      modifies this
      ensures old(currentProduct).None? ==> sent.None? && alert.None? && View() == old(View())
      ensures old(currentProduct).Some? ==> sent == Some(old(currentProduct).value.id)
      ensures old(currentProduct).Some? && deleted ==>
        alert.None? && View() == old(View()).(isDeleteOpen := false, formLoading := false)
      ensures old(currentProduct).Some? && !deleted ==>
        alert == Some(DeleteFailedAlert) && View() == old(View()).(formLoading := false)
    {
      if currentProduct.None? {
        return None, None;
      }
      formLoading := true;
      sent := Some(currentProduct.value.id);
      if deleted {
        isDeleteOpen := false;
        alert := None;
      } else {
        alert := Some(DeleteFailedAlert);
      }
      formLoading := false;
    }
  }
}

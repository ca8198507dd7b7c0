/**
 * AdminComponent (src/app/components/admin/admin.component.ts): the seller
 * console. It lists the seller's own products and drives the create/edit form,
 * deletion and logout; every request is a send step plus reply handlers.
 */
module Admin {
  import opened Wrappers
  import opened Models
  import opened Http
  import opened Auth
  import opened Messages
  import opened ProductService
  import Text

  const IncompleteFormMessage := "Por favor, preencha todos os campos corretamente."
  const LoadFailedMessage := "Erro ao carregar seus produtos."
  const SaveFailedMessage := "Erro ao salvar produto."
  const DeleteFailedMessage := "Erro ao excluir produto."
  const CreatedMessage := "Produto criado com sucesso!"
  const UpdatedMessage := "Produto atualizado com sucesso!"
  const DeletedMessage := "Produto excluído com sucesso!"
  const LoginRoute := "/login"
  const HomeRoute := "/"

  /** The blank product form. */
  const EmptyForm := CreateProductRequest("", "", 0.0, None)

  /** The client-side guard: a name, a description and a positive price. */
  predicate Submittable(form: CreateProductRequest)
  {
    form.name != "" && form.description != "" && form.price > 0.0
  }

  /** The form opened on an existing product: its fields, never its image. */
  function FormFor(p: Product): (form: CreateProductRequest)
  {
    CreateProductRequest(p.name, p.description, p.price, None)
  }

  /** The request a valid submit issues: an update of the product being edited, else a create. */
  function SaveCall(editing: Option<Product>, form: CreateProductRequest): (call: Call)
  {
    if editing.Some? then UpdateCall(editing.value.id, form) else CreateCall(form)
  }

  /**
   * A save is an update, addressed to the edited product's id, exactly when a
   * product is being edited; otherwise it is a create.
   */
  lemma SaveCallChoosesOperation(editing: Option<Product>, form: CreateProductRequest)
    ensures SaveCall(editing, form).verb == Post
    ensures SaveCall(editing, form).url == ProductsUrl <==> editing.None?
    ensures editing.Some? ==> SaveCall(editing, form).url == ProductUrl(editing.value.id)
    ensures SaveCall(editing, form).body == Multipart(UpdateFields(form)) <==> editing.Some?
    ensures SaveCall(editing, form).body == Multipart(CreateFields(form)) <==> editing.None?
  {
    assert |UpdateFields(form)| == |CreateFields(form)| + 1;
    if editing.Some? {
      UpdateUrlIsNotCreateUrl(editing.value.id);
    }
  }

  /** Editing a product and saving it unchanged updates that product's URL and uploads no image. */
  lemma EditedProductSave(p: Product, q: Product)
    ensures SaveCall(Some(p), FormFor(p)).url == SaveCall(Some(q), FormFor(q)).url ==> p.id == q.id
    ensures "image" !in Names(UpdateFields(FormFor(p)))
  {
    ProductUrlInjective(p.id, q.id);
    ImageFieldOnlyWithImage(FormFor(p));
  }

  /** Everything the console shows or has done, as one value. */
  datatype ConsoleView = ConsoleView(
    currentUser: Option<User>,
    products: seq<Product>,
    loading: bool,
    showProductForm: bool,
    editingProduct: Option<Product>,
    productForm: CreateProductRequest,
    errorMessage: string,
    successMessage: string,
    selectedFile: Option<File>,
    subscribed: bool,
    sent: seq<Call>,
    navigations: seq<string>)

  class AdminComponent {
    var currentUser: Option<User>
    var products: seq<Product>
    var loading: bool
    var showProductForm: bool
    var editingProduct: Option<Product>
    var productForm: CreateProductRequest
    var errorMessage: string
    var successMessage: string
    var selectedFile: Option<File>
    /** Whether the console listens to the session's current user. */
    var subscribed: bool
    /** The product requests issued, oldest first. */
    var sent: seq<Call>
    /** Router navigations, oldest first. */
    var navigations: seq<string>
    const auth: AuthService

    function View(): (view: ConsoleView)
      reads this
    {
      ConsoleView(currentUser, products, loading, showProductForm, editingProduct, productForm,
                  errorMessage, successMessage, selectedFile, subscribed, sent, navigations)
    }

    constructor (auth: AuthService)
      ensures this.auth == auth
      ensures View() == ConsoleView(None, [], true, false, None, EmptyForm, "", "", None, false, [], [])
    {
      this.auth := auth;
      currentUser := None;
      products := [];
      loading := true;
      showProductForm := false;
      editingProduct := None;
      productForm := EmptyForm;
      errorMessage := "";
      successMessage := "";
      selectedFile := None;
      subscribed := false;
      sent := [];
      navigations := [];
    }

    /**
     * Activation. Without a token: to the login page, no request. With one:
     * subscribe (the current user is replayed at once, so a user not yet
     * restored sends the console to the login page too) and load the list.
     */
    method NgOnInit()
      modifies this
      ensures !HasToken(auth.storage) ==>
        View() == old(View()).(navigations := old(navigations) + [LoginRoute])
      ensures HasToken(auth.storage) ==>
        View() == old(View()).(
          subscribed := true,
          currentUser := auth.currentUser,
          navigations := old(navigations) + (if auth.currentUser.None? then [LoginRoute] else []),
          loading := true,
          sent := old(sent) + [GetMyProducts()])
    {
      var loggedIn := auth.IsLoggedIn();
      if !loggedIn {
        navigations := navigations + [LoginRoute];
        return;
      }
      subscribed := true;
      var user := auth.GetCurrentUserValue();
      OnCurrentUser(user);
      LoadMyProducts();
    }

    /** The subscription callback: record the user, leave for the login page when there is none. */
    method OnCurrentUser(user: Option<User>)
      modifies this
      ensures View() == old(View()).(
        currentUser := user,
        navigations := old(navigations) + (if user.None? then [LoginRoute] else []))
    {
      currentUser := user;
      if user.None? {
        navigations := navigations + [LoginRoute];
      }
    }

    method LoadMyProducts()
      modifies this
      ensures View() == old(View()).(loading := true, sent := old(sent) + [GetMyProducts()])
    {
      loading := true;
      sent := sent + [GetMyProducts()];
    }

    /** The list is replaced only by a "success" reply: the list itself, or the single product. */
    method OnMyProductsReply(r: ProductResponse)
      modifies this
      ensures r.status == SuccessStatus && r.data.Many? ==>
        View() == old(View()).(loading := false, products := r.data.products)
      ensures r.status == SuccessStatus && r.data.One? ==>
        View() == old(View()).(loading := false, products := [r.data.product])
      ensures r.status != SuccessStatus ==> View() == old(View()).(loading := false)
    {
      loading := false;
      if r.status == SuccessStatus {
        products := ProductList(r.data);
      }
    }

    method OnMyProductsError()
      modifies this
      ensures View() == old(View()).(loading := false, errorMessage := LoadFailedMessage)
    {
      loading := false;
      errorMessage := LoadFailedMessage;
    }

    method ShowAddProduct()
      modifies this
      ensures View() == old(View()).(
        showProductForm := true, editingProduct := None, productForm := EmptyForm,
        selectedFile := None, errorMessage := "", successMessage := "")
    {
      showProductForm := true;
      editingProduct := None;
      ResetForm();
    }

    /** Open the form on a product: its name, description and price, but no image. */
    method EditProduct(p: Product)
      modifies this
      ensures View() == old(View()).(showProductForm := true, editingProduct := Some(p), productForm := FormFor(p))
      ensures productForm.name == p.name && productForm.description == p.description
      ensures productForm.price == p.price && productForm.image == None
    {
      showProductForm := true;
      editingProduct := Some(p);
      productForm := CreateProductRequest(p.name, p.description, p.price, None);
    }

    /** Blank form, no chosen file, no messages; the form stays open or closed as it was. */
    method ResetForm()
      modifies this
      ensures View() == old(View()).(
        productForm := EmptyForm, selectedFile := None, errorMessage := "", successMessage := "")
    {
      productForm := CreateProductRequest("", "", 0.0, None);
      selectedFile := None;
      errorMessage := "";
      successMessage := "";
    }

    method CancelForm()
      modifies this
      ensures View() == old(View()).(
        showProductForm := false, editingProduct := None, productForm := EmptyForm,
        selectedFile := None, errorMessage := "", successMessage := "")
    {
      showProductForm := false;
      editingProduct := None;
      ResetForm();
    }

    /**
     * Submit: an incomplete form only sets the complaint; a complete one raises
     * the loading flag, clears the error and sends one create or update.
     */
    method OnSubmitProduct()
      modifies this
      ensures !Submittable(old(productForm)) ==> View() == old(View()).(errorMessage := IncompleteFormMessage)
      ensures Submittable(old(productForm)) ==>
        View() == old(View()).(
          loading := true, errorMessage := "",
          sent := old(sent) + [SaveCall(old(editingProduct), old(productForm))])
    {
      if productForm.name == "" || productForm.description == "" || productForm.price <= 0.0 {
        errorMessage := IncompleteFormMessage;
        return;
      }
      loading := true;
      errorMessage := "";
      var call;
      if editingProduct.Some? {
        call := UpdateProduct(editingProduct.value.id, productForm);
      } else {
        call := CreateProduct(productForm);
      }
      sent := sent + [call];
    }

    /**
     * A save reply. On "success" the confirmation is set and then wiped by the
     * form reset, the form closes, the product being edited stays recorded and
     * the list reloads (so loading is raised again).
     */
    method OnSaveReply(r: ProductResponse)
      modifies this
      ensures r.status != SuccessStatus ==> View() == old(View()).(loading := false)
      ensures r.status == SuccessStatus ==>
        View() == old(View()).(
          loading := true, showProductForm := false, productForm := EmptyForm, selectedFile := None,
          errorMessage := "", successMessage := "", sent := old(sent) + [GetMyProducts()])
    {
      loading := false;
      if r.status == SuccessStatus {
        successMessage := if editingProduct.Some? then UpdatedMessage else CreatedMessage;
        showProductForm := false;
        ResetForm();
        LoadMyProducts();
      }
    }

    method OnSaveError(err: ErrorBody)
      modifies this
      ensures View() == old(View()).(loading := false, errorMessage := ErrorMessage(err, SaveFailedMessage))
    {
      loading := false;
      errorMessage :=
        if err.message.Some? && err.message.value != "" then err.message.value else SaveFailedMessage;
      if err.errors.Some? {
        errorMessage := Text.Join(Flatten(err.errors.value), Separator);
      }
    }

    /** Delete only after the user confirmed; declining sends nothing. */
    method DeleteProduct(p: Product, confirmed: bool)
      modifies this
      ensures confirmed ==> View() == old(View()).(sent := old(sent) + [ProductService.DeleteProduct(p.id)])
      ensures !confirmed ==> View() == old(View())
    {
      if confirmed {
        sent := sent + [ProductService.DeleteProduct(p.id)];
      }
    }

    /** A "success" reply confirms and reloads; the list itself is only replaced by that reload. */
    method OnDeleteReply(r: ProductResponse)
      modifies this
      ensures r.status == SuccessStatus ==>
        View() == old(View()).(successMessage := DeletedMessage, loading := true, sent := old(sent) + [GetMyProducts()])
      ensures r.status != SuccessStatus ==> View() == old(View())
    {
      if r.status == SuccessStatus {
        successMessage := DeletedMessage;
        LoadMyProducts();
      }
    }

    method OnDeleteError()
      modifies this
      ensures View() == old(View()).(errorMessage := DeleteFailedMessage)
    {
      errorMessage := DeleteFailedMessage;
    }

    method Logout()
      modifies auth
      ensures auth.sent == old(auth.sent) + [LogoutCall()] && auth.State() == old(auth.State())
      ensures View() == old(View())
    {
      auth.Logout();
    }

    /**
     * A logout reply: the service's tap removes the token and publishes no user,
     * which a subscribed console answers by going to the login page; then the
     * console goes home.
     */
    method OnLogoutReply()
      modifies this, auth
      ensures auth.State() == AfterLogoutReply(old(auth.State())) && auth.sent == old(auth.sent)
      ensures old(subscribed) ==>
        View() == old(View()).(currentUser := None, navigations := old(navigations) + [LoginRoute, HomeRoute])
      ensures !old(subscribed) ==> View() == old(View()).(navigations := old(navigations) + [HomeRoute])
    {
      auth.OnLogoutReply();
      if subscribed {
        OnCurrentUser(None);
      }
      navigations := navigations + [HomeRoute];
    }

    /** A failed logout still drops the token (and only the token), then goes home. */
    method OnLogoutError()
      modifies this, auth
      ensures auth.storage == WithoutToken(old(auth.storage))
      ensures auth.currentUser == old(auth.currentUser) && auth.sent == old(auth.sent)
      ensures View() == old(View()).(navigations := old(navigations) + [HomeRoute])
    {
      auth.RemoveToken();
      navigations := navigations + [HomeRoute];
    }
  }
}

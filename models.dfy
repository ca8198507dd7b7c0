/**
 * The record types the client exchanges with the backend
 * (src/app/models/user.ts and src/app/models/product.ts). They carry no logic
 * apart from the normalisation of a product envelope's `data` member.
 */
module Models {
  import opened Wrappers

  /** A registered account, as the backend returns it. */
  datatype User = User(
    id: Option<int>,
    name: string,
    email: string,
    emailVerifiedAt: Option<string>,
    createdAt: Option<string>,
    updatedAt: Option<string>)

  /** The owner summary the backend may embed in a product. */
  datatype Owner = Owner(id: int, name: string, email: string)

  /** A product listing; `price` is the JavaScript number, taken as a real. */
  datatype Product = Product(
    id: Option<int>,
    name: string,
    description: string,
    price: real,
    image: Option<string>,
    userId: Option<int>,
    createdAt: Option<string>,
    updatedAt: Option<string>,
    user: Option<Owner>)

  /** `data: Product | Product[]` of a product envelope. */
  datatype ProductData = One(product: Product) | Many(products: seq<Product>)

  /** The envelope every product endpoint answers with. */
  datatype ProductResponse = ProductResponse(status: string, data: ProductData, message: Option<string>)

  /** The reply of login, register and refresh. */
  datatype AuthResponse = AuthResponse(
    status: string,
    accessToken: string,
    tokenType: string,
    expiresIn: int,
    user: User)

  /** The reply of the "who am I" endpoint, read through `status` and `user` only. */
  datatype MeResponse = MeResponse(status: string, user: User)

  datatype LoginRequest = LoginRequest(email: string, password: string)

  datatype RegisterRequest = RegisterRequest(
    name: string,
    email: string,
    password: string,
    passwordConfirmation: string)

  /** A file chosen for upload; its content is opaque to the client. */
  datatype File = File(name: string, bytes: seq<bv8>)

  /** The product form: what create and update send. */
  datatype CreateProductRequest = CreateProductRequest(
    name: string,
    description: string,
    price: real,
    image: Option<File>)

  /** One entry of a backend validation `errors` object: a field and its messages, in object order. */
  datatype FieldErrors = FieldErrors(field: string, messages: seq<string>)

  /**
   * The structured body of a failed request. A transport failure without a body
   * is the body with neither member.
   */
  datatype ErrorBody = ErrorBody(message: Option<string>, errors: Option<seq<FieldErrors>>)

  const SuccessStatus := "success"

  /** The list a view shows for an envelope's `data`: the list itself, or a singleton. */
  function ProductList(data: ProductData): (list: seq<Product>)
  {
    match data
    case One(p) => [p]
    case Many(ps) => ps
  }
}

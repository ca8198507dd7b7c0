/**
 * ProductService (src/app/services/product.service.ts): the six product
 * requests. Create and update build their multipart body by appending to a
 * FormData one field at a time.
 */
module ProductService {
  import opened Wrappers
  import opened Models
  import opened Http
  import opened Text

  const ProductsUrl := ApiUrl + "/products"
  const MyProductsUrl := ApiUrl + "/my-products"

  /** The field that asks the backend to treat a POST as a PUT. */
  const MethodOverride := Field("_method", Text("PUT"))

  /**
   * `${id}` inside a URL template. The console passes `product.id!`; for a
   * product without an id that renders as "undefined".
   */
  function IdText(id: Option<int>): (text: string)
  {
    match id
    case None => "undefined"
    case Some(n) => IntText(n)
  }

  function ProductUrl(id: Option<int>): (url: string)
  {
    ApiUrl + "/products/" + IdText(id)
  }

  function GetAllProducts(): (call: Call)
  {
    Call(Get, ProductsUrl, NoBody)
  }

  function GetProduct(id: int): (call: Call)
  {
    Call(Get, ProductUrl(Some(id)), NoBody)
  }

  /** The owner is not a parameter: the backend derives it from the bearer token. */
  function GetMyProducts(): (call: Call)
  {
    Call(Get, MyProductsUrl, NoBody)
  }

  function DeleteProduct(id: Option<int>): (call: Call)
  {
    Call(Delete, ProductUrl(id), NoBody)
  }

  /** The trailing image field: present only when a file was chosen. */
  function ImageFields(image: Option<File>): (fields: seq<Field>)
  {
    match image
    case None => []
    case Some(f) => [Field("image", Upload(f))]
  }

  function ScalarFields(data: CreateProductRequest): (fields: seq<Field>)
  {
    [Field("name", Text(data.name)),
     Field("description", Text(data.description)),
     Field("price", Number(data.price))]
  }

  /** The fields `createProduct` sends, in order. */
  function CreateFields(data: CreateProductRequest): (fields: seq<Field>)
  {
    ScalarFields(data) + ImageFields(data.image)
  }

  /** The fields `updateProduct` sends, in order. */
  function UpdateFields(data: CreateProductRequest): (fields: seq<Field>)
  {
    ScalarFields(data) + [MethodOverride] + ImageFields(data.image)
  }

  function CreateCall(data: CreateProductRequest): (call: Call)
  {
    Call(Post, ProductsUrl, Multipart(CreateFields(data)))
  }

  function UpdateCall(id: Option<int>, data: CreateProductRequest): (call: Call)
  {
    Call(Post, ProductUrl(id), Multipart(UpdateFields(data)))
  }

  function Names(fields: seq<Field>): (names: seq<string>)
  {
    seq(|fields|, i requires 0 <= i < |fields| => fields[i].name)
  }

  /** A multipart body under construction. */
  class FormData {
    var entries: seq<Field>

    constructor ()
      ensures entries == []
    {
      entries := [];
    }

    method Append(name: string, value: FieldValue)
      modifies this
      ensures entries == old(entries) + [Field(name, value)]
    {
      entries := entries + [Field(name, value)];
    }
  }

  method CreateProduct(data: CreateProductRequest) returns (call: Call)
    ensures call.verb == Post && call.url == ProductsUrl
    ensures call.body == Multipart(CreateFields(data))
  {
    var form := new FormData();
    form.Append("name", Text(data.name));
    form.Append("description", Text(data.description));
    form.Append("price", Number(data.price));
    if data.image.Some? {
      form.Append("image", Upload(data.image.value));
    }
    call := Call(Post, ProductsUrl, Multipart(form.entries));
  }

  method UpdateProduct(id: Option<int>, data: CreateProductRequest) returns (call: Call)
    ensures call.verb == Post && call.url == ProductUrl(id)
    ensures call.body == Multipart(UpdateFields(data))
  {
    var form := new FormData();
    form.Append("name", Text(data.name));
    form.Append("description", Text(data.description));
    form.Append("price", Number(data.price));
    form.Append("_method", Text("PUT"));
    if data.image.Some? {
      form.Append("image", Upload(data.image.value));
    }
    call := Call(Post, ProductUrl(id), Multipart(form.entries));
  }

  /** Field order of a create: name, description, price, then image only if a file was chosen. */
  lemma CreateFieldOrder(data: CreateProductRequest)
    ensures Names(CreateFields(data))
      == ["name", "description", "price"] + (if data.image.Some? then ["image"] else [])
    ensures CreateFields(data)[0].value == Text(data.name)
    ensures CreateFields(data)[1].value == Text(data.description)
    ensures CreateFields(data)[2].value == Number(data.price)
    ensures data.image.Some? ==> CreateFields(data)[3].value == Upload(data.image.value)
  {
  }

  /** An update sends the create fields with the PUT override inserted before the optional image. */
  lemma UpdateIsCreateWithOverride(data: CreateProductRequest)
    ensures UpdateFields(data) == CreateFields(data)[..3] + [MethodOverride] + CreateFields(data)[3..]
  {
    assert CreateFields(data)[..3] == ScalarFields(data);
    assert CreateFields(data)[3..] == ImageFields(data.image);
  }

  /** Without a chosen file neither body mentions an image, and with one each body carries it once. */
  lemma ImageFieldOnlyWithImage(data: CreateProductRequest)
    ensures "image" in Names(CreateFields(data)) <==> data.image.Some?
    ensures "image" in Names(UpdateFields(data)) <==> data.image.Some?
  {
    if data.image.Some? {
      assert Names(CreateFields(data))[3] == "image";
      assert Names(UpdateFields(data))[4] == "image";
    } else {
      assert Names(CreateFields(data)) == ["name", "description", "price"];
      assert Names(UpdateFields(data)) == ["name", "description", "price", "_method"];
    }
  }

  /** Two products get the same URL only if they have the same id. */
  lemma ProductUrlInjective(a: Option<int>, b: Option<int>)
    ensures ProductUrl(a) == ProductUrl(b) ==> a == b
  {
    if a.Some? {
      IntTextInjective(a.value, a.value);
    }
    if b.Some? {
      IntTextInjective(b.value, b.value);
    }
    if a.Some? && b.Some? {
      IntTextInjective(a.value, b.value);
    }
    var k := |ApiUrl + "/products/"|;
    assert ProductUrl(a)[k..] == IdText(a);
    assert ProductUrl(b)[k..] == IdText(b);
  }

  /**
   * The endpoint table, relative to the API origin: GET /products, GET
   * /products/{id}, GET /my-products, POST /products, POST /products/{id},
   * DELETE /products/{id}.
   */
  lemma Endpoints(id: int, anyId: Option<int>, data: CreateProductRequest)
    ensures GetAllProducts().verb == Get && GetAllProducts().url == ApiUrl + "/products"
    ensures GetProduct(id).verb == Get && GetProduct(id).url == ApiUrl + "/products/" + IntText(id)
    ensures GetMyProducts().verb == Get && GetMyProducts().url == ApiUrl + "/my-products"
    ensures CreateCall(data).verb == Post && CreateCall(data).url == ApiUrl + "/products"
    ensures UpdateCall(anyId, data).verb == Post
      && UpdateCall(anyId, data).url == ApiUrl + "/products/" + IdText(anyId)
    ensures DeleteProduct(anyId).verb == Delete
      && DeleteProduct(anyId).url == ApiUrl + "/products/" + IdText(anyId)
  {
  }

  /** The update URL always differs from the create URL, so the two are never confused. */
  lemma UpdateUrlIsNotCreateUrl(id: Option<int>)
    ensures ProductUrl(id) != ProductsUrl
  {
    assert |ProductUrl(id)| > |ProductsUrl|;
  }
}

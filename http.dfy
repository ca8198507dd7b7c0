/**
 * Outbound requests as values. Sending is modelled by appending a `Call` to the
 * sender's log; the reply arrives later through an explicit handler.
 */
module Http {
  import opened Models

  /** The backend origin both services are configured with. */
  const ApiUrl := "http://127.0.0.1:8000/api"

  datatype HttpMethod = Get | Post | Delete

  /**
   * The value of one multipart field. `price.toString()` is kept abstract: the
   * field carries the number it renders.
   */
  datatype FieldValue = Text(text: string) | Number(amount: real) | Upload(file: File)

  datatype Field = Field(name: string, value: FieldValue)

  datatype Body =
    | NoBody
    | EmptyObject
    | Credentials(login: LoginRequest)
    | Registration(account: RegisterRequest)
    | Multipart(fields: seq<Field>)

  datatype Call = Call(verb: HttpMethod, url: string, body: Body)
}

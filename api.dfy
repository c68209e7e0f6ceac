/**
 * The HTTP interface between the pages and the backend: the bodies the pages
 * send, the pet records `/matches` returns, the requests themselves and what
 * a page's `fetch` can come back with.
 */
module Api {

  /** The body of POST /pets: `PetCreate` on the server, the `form` state of the shelter page. */
  datatype PetForm = PetForm(name: string, species: string, description: string, traitsDescription: string)

  const EmptyForm := PetForm("", "", "", "")

  /** One ranked candidate as `/matches` returns it. */
  datatype Pet = Pet(id: string, name: string, species: string, description: string, similarity: real)

  datatype Body =
    | NoBody
    | PetIdBody(petId: string)
    | PetFormBody(form: PetForm)

  /** A request a page sends, with the bearer token it puts in the Authorization header. */
  datatype Request = Request(verb: string, path: string, bearer: string, body: Body)

  /**
   * How a page's `fetch` settles: a 2xx response with its decoded body, a
   * non-2xx response with its status and body text, or an Error thrown by
   * `fetch` itself or by `res.json()`, with its message.
   */
  datatype HttpOutcome<T> =
    | Ok(body: T)
    | HttpError(status: nat, text: string)
    | Thrown(message: string)
}

/** `Resource`: the state of a data operation in the view-model layer. */
module Resources {
  import opened Wrappers

  /** Exactly three variants. `Error` carries its message and, optionally, data. */
  datatype Resource<T> = Loading | Success(payload: T) | Error(mensaje: string, datos: Option<T>)

  /** `Resource.Error(message)`: the data argument left at its default. */
  function ErrorOf<T>(mensaje: string): (r: Resource<T>)
    ensures r.Error? && Message(r) == Some(mensaje) && Data(r).None?
  {
    Error(mensaje, None)
  }

  /** The `data` property. */
  function Data<T>(r: Resource<T>): (d: Option<T>)
    ensures r.Loading? ==> d.None?
    ensures r.Success? ==> d == Some(r.payload)
    ensures d.Some? ==> !r.Loading?
  {
    match r
    case Loading => None
    case Success(x) => Some(x)
    case Error(_, x) => x
  }

  /** The `message` property: present exactly on an error. */
  function Message<T>(r: Resource<T>): (m: Option<string>)
    ensures m.Some? <==> r.Error?
    ensures r.Error? ==> m.value == r.mensaje
  {
    match r
    case Error(msg, _) => Some(msg)
    case _ => None
  }

  /** The two properties determine the variant: no message and no data is
      Loading, data without a message is Success, a message is Error. */
  lemma PropertiesDetermineVariant<T>(r: Resource<T>)
    ensures Message(r).None? && Data(r).None? <==> r.Loading?
    ensures Message(r).None? && Data(r).Some? <==> r.Success?
    ensures Message(r).Some? <==> r.Error?
  {
  }
}

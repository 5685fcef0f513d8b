/** The two things the core takes from its UI library: opaque renderable content and the
    context hook that fails outside its provider. */
module React {
  import opened Wrappers

  /** Renderable content (an icon, the children of a button); opaque to the model. */
  datatype Node = Node(markup: string)

  /** The context lookup behind `useAlert` and `useAuth`: the provider's value when the caller
      is nested inside the provider, otherwise the error with `message` that the hook throws. */
  function UseContext<T>(context: Option<T>, message: string): (r: Result<T, string>)
    ensures r.Ok? <==> context.Some?
    ensures r.Ok? ==> r.value == context.value
    ensures r.Err? ==> r.error == message
  {
    match context
    case Some(c) => Ok(c)
    case None => Err(message)
  }
}

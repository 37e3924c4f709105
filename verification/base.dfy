/** Shared vocabulary of the model: optional values, JavaScript string
    truthiness, socket identifiers, and the two builds of the server.

    Encoding used throughout: a JavaScript string that may be `null`,
    `undefined` or `""` is modelled as a Dafny `string` in which `""` stands
    for all three, because every reader in the server only tests such a value
    for truthiness. */
module Base {

  datatype Option<+T> = None | Some(value: T)

  /** Socket ids are assigned by the transport layer and are never empty. */
  type SocketId = s: string | s != "" witness "s"

  /** JavaScript `s || fallback` on a possibly-missing string. */
  function Or(s: string, fallback: string): string
  {
    if s != "" then s else fallback
  }

  /** JavaScript destructuring default `{ x = d } = opts`: the default applies
      only when the option is `undefined`, modelled as `None`. */
  function Default(o: Option<string>, d: string): string
  {
    match o
    case Some(s) => s
    case None => d
  }

  /** The same behaviour is written twice: the single-file server and the
      modular split into controllers, services and socket handlers. */
  datatype Variant = Monolith | Modular

  /** Outcome of a provider call whose result is not used: it resolves or it
      throws an error carrying a (possibly empty) message. */
  datatype Attempt = Done | Throws(message: string)
}

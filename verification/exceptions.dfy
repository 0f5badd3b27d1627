/** The Python exceptions the watcher's core can raise, and the text `str(e)`
    gives for each. */
module Exceptions {
  import opened JsonValues

  datatype Error =
    | ConnectionError(reason: string)        // raised by the HTTP call itself
    | JSONDecodeError(reason: string)        // raised by `response.json()`
    | ValueError(msg: string)                // raised explicitly by the core
    | AttributeError(typeName: string, attr: string)
    | KeyError(key: Json)
    | TypeError(typeName: string)            // subscripting a non-container
    | IndexError(seqKind: string)            // subscripting an empty str or list
    | UnboundLocalError(variable: string)

  /** `str(e)`: the text an f-string shows for the exception. */
  function Describe(e: Error): string
  {
    match e
    case ConnectionError(reason) => reason
    case JSONDecodeError(reason) => reason
    case ValueError(msg) => msg
    case AttributeError(t, attr) => "'" + t + "' object has no attribute '" + attr + "'"
    case KeyError(key) => if key.JStr? then "'" + key.s + "'" else Show(key)
    case TypeError(t) => "'" + t + "' object is not subscriptable"
    case IndexError(kind) => kind + " index out of range"
    case UnboundLocalError(v) => "local variable '" + v + "' referenced before assignment"
  }
}

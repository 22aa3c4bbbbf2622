/** The parts of the page both front-end scripts touch: the text-valued form
    controls (shared, so that a transcript written by the voice handler is what
    the session controller later collects) and the shape of a backend reply. */
module Page {

  datatype Option<+T> = None | Some(value: T)

  /** JavaScript truthiness of a nullable string: null and "" are falsy. */
  predicate Truthy(o: Option<string>)
  {
    o.Some? && o.value != ""
  }

  /** The values of the four text controls #inputText, #userName,
      #userAddress and #wardNumber. */
  datatype Fields = Fields(inputText: string, userName: string, userAddress: string, wardNumber: string)

  const EmptyFields := Fields("", "", "", "")

  /** The form controls as one mutable object; both handlers hold a reference
      to the same instance. */
  class Form {
    var inputText: string
    var userName: string
    var userAddress: string
    var wardNumber: string

    /** The values the page's markup starts the controls with. */
    constructor (initial: Fields)
      ensures Values() == initial
    {
      inputText := initial.inputText;
      userName := initial.userName;
      userAddress := initial.userAddress;
      wardNumber := initial.wardNumber;
    }

    /** Empties all four controls. */
    method Clear()
      modifies this
      ensures Values() == EmptyFields
    {
      inputText := "";
      userName := "";
      userAddress := "";
      wardNumber := "";
    }

    function Values(): Fields
      reads this
    {
      Fields(inputText, userName, userAddress, wardNumber)
    }
  }

  /** The parsed JSON body of a backend reply, as its string-valued fields. */
  type Json = map<string, string>

  /** What `await fetch(...)` followed by `await response.json()` produces:
      a response with its `ok` flag and body, or an exception with its message
      (network failure, unparsable body). */
  datatype Reply = Received(ok: bool, data: Json) | Threw(message: string)
  {
    predicate Succeeded()
    {
      Received? && ok
    }
  }

  /** `data.error || fallback`: the server's message unless it is absent or empty. */
  function ErrorOr(data: Json, fallback: string): string
  {
    if "error" in data && data["error"] != "" then data["error"] else fallback
  }

  /** The `error.message` a failed call reaches its `catch` with: the message
      of `new Error(data.error || fallback)` for a non-ok response, the
      exception's own message otherwise. */
  function FailureMessage(r: Reply, fallback: string): (m: string)
    requires !r.Succeeded()
    ensures r.Received? && "error" in r.data && r.data["error"] != "" ==> m == r.data["error"]
    ensures r.Received? && !("error" in r.data && r.data["error"] != "") ==> m == fallback
    ensures r.Threw? ==> m == r.message
  {
    match r
    case Received(_, data) => ErrorOr(data, fallback)
    case Threw(message) => message
  }
}

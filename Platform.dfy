// What the screens see of the world outside them: the result of each backend call, the
// requests they send, the toast notices they show, the one persisted storage key and the
// current route. Nothing here talks to a network; a call's result is an input.

module Platform {

  datatype Option<T> = None | Some(value: T)

  /** The one key whose assignment on an object made by `{}` creates no property: it reaches
    * the inherited `__proto__` accessor, whose setter ignores a string value (Annex B.2.2.1.2
    * of the ECMAScript specification). */
  const ProtoKey: string := "__proto__"

  /** `obj[k] = v` with a string `v` on an object made by `{}`. */
  function Assign(obj: map<string, string>, k: string, v: string): map<string, string>
  {
    if k == ProtoKey then obj else obj[k := v]
  }

  /** How one awaited backend call ended, for calls whose caller inspects the response:
    * `Success` is a response whose `success` flag is set (or whose data is truthy, for the
    * calls that only test truthiness), `Failure` a response that reports failure (or has
    * falsy data) with its message, `Exception` a rejected promise with the error's message. */
  datatype Outcome<T> = Success(value: T) | Failure(message: string) | Exception(message: string)
  {
    /** The awaited call resolved, whatever the response says. */
    predicate Returned() { !Exception? }
  }

  /** How one awaited backend call ended, for calls whose caller never inspects the response. */
  datatype Call<T> = Returned(value: T) | Threw(message: string)

  /** A file picked in a file input. */
  datatype ImageFile = ImageFile(name: string)

  /** One backend request, with the payload that matters to the screens. */
  datatype Request =
    | Login(email: string, password: string)
    | AllProducts
    | AllCarts
    | AllComments
    | AllReplies
    | AdminDashboard
    | AllNotifications
    | GetProduct(productId: string)
    | AddProduct(fields: seq<(string, string)>, specifications: map<string, string>, image: ImageFile)
    | UpdateProduct(fields: seq<(string, string)>, specifications: map<string, string>, newImage: Option<ImageFile>)
    | DeleteProduct(productId: string)
    | ChangeAvailability(productId: string)
    | ChangeBestseller(productId: string)
    | DeleteCart(cartId: string)
    | ChangeCartStatus(cartId: string, status: string)
    | PostReply(commentId: string, text: string)
    | UpdateReply(replyId: string, text: string)
    | RemoveReply(replyId: string)
    | CreateNotification(userId: string, text: string)
    | DeleteNotification(notificationId: string)

  /** A toast: `EngineError` is an error toast whose text is the message of a TypeError
    * raised by the JavaScript engine when a handler reads a property of null or undefined. */
  datatype Notice = Info(text: string) | Error(text: string) | EngineError

  /** The browser: the `aToken` entry of localStorage, the router's location, the toasts
    * shown so far and the requests sent so far, oldest first. */
  class Browser {
    var stored: Option<string>
    var location: string
    var toasts: seq<Notice>
    var sent: seq<Request>

    constructor (stored: Option<string>, location: string)
      ensures this.stored == stored && this.location == location
      ensures toasts == [] && sent == []
    {
      this.stored := stored;
      this.location := location;
      toasts := [];
      sent := [];
    }

    method Send(r: Request)
      modifies this
      ensures sent == old(sent) + [r]
      ensures stored == old(stored) && location == old(location) && toasts == old(toasts)
    {
      sent := sent + [r];
    }

    method Toast(n: Notice)
      modifies this
      ensures toasts == old(toasts) + [n]
      ensures stored == old(stored) && location == old(location) && sent == old(sent)
    {
      toasts := toasts + [n];
    }

    /** `localStorage.setItem('aToken', v)` for `Some(v)`, `removeItem('aToken')` for `None`. */
    method Persist(value: Option<string>)
      modifies this
      ensures stored == value
      ensures location == old(location) && toasts == old(toasts) && sent == old(sent)
    {
      stored := value;
    }

    method Navigate(path: string)
      modifies this
      ensures location == path
      ensures stored == old(stored) && toasts == old(toasts) && sent == old(sent)
    {
      location := path;
    }
  }
}

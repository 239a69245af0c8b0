// The shared admin context: the state cells every screen reads and the operations that
// call the backend and update those cells from the response. Each operation takes the
// result of its backend call as a parameter and records the request and its toasts in
// the browser.

module AdminContext {
  import opened Platform
  import opened Sequences
  import opened Text
  import Session

  datatype Product = Product(
    id: string, name: string, category: string, brand: string, description: string,
    available: bool, bestseller: bool)

  datatype Cart = Cart(id: string, userId: string, itemName: string, totalItems: nat, status: string)

  datatype Comment = Comment(id: string, userId: string, productName: string, text: string)

  datatype Reply = Reply(id: string, commentId: string, text: string)

  datatype DashData = DashData(qproducts: nat, qcarts: nat, qcomments: nat, users: seq<string>)

  /** What `replyComment` settles with: the (truthy) response, null, or a rethrown error. */
  datatype ReplyResult = Response | Null | Rethrown(message: string)

  /** The value of every state cell of the context; `dashData` is `false` until loaded. */
  datatype Cells = Cells(
    aToken: string, products: seq<Product>, dashData: Option<DashData>, carts: seq<Cart>,
    comments: seq<Comment>, replies: seq<Reply>, search: string, filterProducts: seq<Product>)

  /** `carts.filter(cart => cart._id !== cartId)`. */
  function WithoutCart(carts: seq<Cart>, cartId: string): (r: seq<Cart>)
    ensures forall c :: c in r <==> c in carts && c.id != cartId
  {
    Filter(carts, (c: Cart) => c.id != cartId)
  }

  /** The remaining carts occur as often as before, and none has the removed id. */
  lemma WithoutCartCounts(carts: seq<Cart>, cartId: string)
    ensures forall c :: multiset(WithoutCart(carts, cartId))[c] == if c.id != cartId then multiset(carts)[c] else 0
  {
    FilterMultiplicity(carts, (c: Cart) => c.id != cartId);
  }

  /** Removing a cart keeps the remaining carts in their order. */
  lemma WithoutCartKeepsOrder(carts: seq<Cart>, cartId: string)
    ensures IsSubsequence(WithoutCart(carts, cartId), carts)
  {
    FilterIsSubsequence(carts, (c: Cart) => c.id != cartId);
  }

  /** The text of the notification sent to a comment's author after a reply. */
  function ReplyNotificationText(productName: string, replyText: string): string
  {
    "The admin replied your comment in " + productName + " page: " + replyText + "."
  }

  /** The reply notification names the product and quotes the reply, between a fixed
    * opening and a closing full stop. */
  lemma ReplyNotificationMentions(productName: string, replyText: string)
    ensures Contains(ReplyNotificationText(productName, replyText), productName)
    ensures Contains(ReplyNotificationText(productName, replyText), replyText)
    ensures var t := ReplyNotificationText(productName, replyText);
      |t| > 34 && t[..34] == "The admin replied your comment in " && t[|t| - 1] == '.'
  {
    var t := ReplyNotificationText(productName, replyText);
    ContainsPart("The admin replied your comment in ", productName, " page: " + replyText + ".");
    assert t == "The admin replied your comment in " + productName + (" page: " + replyText + ".");
    ContainsPart("The admin replied your comment in " + productName + " page: ", replyText, ".");
  }

  /** For a given product, the notification text determines the reply that was sent. */
  lemma {:induction false} ReplyNotificationInjective(productName: string, a: string, b: string)
    requires ReplyNotificationText(productName, a) == ReplyNotificationText(productName, b)
    ensures a == b
  {
    var head := "The admin replied your comment in " + productName + " page: ";
    var ta := ReplyNotificationText(productName, a);
    var tb := ReplyNotificationText(productName, b);
    assert ta == head + a + ".";
    assert tb == head + b + ".";
    assert |a| == |b|;
    assert a == ta[|head|..|head| + |a|];
    assert b == tb[|head|..|head| + |b|];
  }

  /** The state cells after `removeCart`: the carts are filtered whenever the request
    * resolves, and nothing changes when it is rejected. */
  function AfterRemoveCart(cells: Cells, cartId: string, o: Outcome<()>): Cells
  {
    if o.Returned() then cells.(carts := WithoutCart(cells.carts, cartId)) else cells
  }

  /** The toasts `removeCart` shows for each outcome. */
  function RemoveCartNotices(o: Outcome<()>): seq<Notice>
  {
    match o
    case Success(_) => []
    case Failure(_) => [Error("No data")]
    case Exception(m) => [Error(m)]
  }

  /** The toast `changeCartStatus` shows for each outcome. */
  function CartStatusNotice(o: Outcome<string>): Notice
  {
    match o
    case Success(m) => Info(m)
    case Failure(m) => Error(if m == "" then "Failed to change status" else m)
    case Exception(_) => Error("Server Error")
  }

  /** The toasts `notifyChangeStatusCart` shows: only a rejection is reported. */
  function NotifyNotices(o: Call<()>): seq<Notice>
  {
    if o.Threw? then [Error(o.message)] else []
  }

  /** The toasts `getAllReplies` shows: null data reads `replies` of null, and that
    * TypeError is caught and toasted after "No data". */
  function AllRepliesNotices(o: Outcome<seq<Reply>>): seq<Notice>
  {
    match o
    case Success(_) => []
    case Failure(_) => [Error("No data"), EngineError]
    case Exception(m) => [Error(m)]
  }

  /** The toasts `createReplyNotification` shows: only a rejection is reported. */
  function ReplyNotifyNotices(o: Call<()>): seq<Notice>
  {
    if o.Threw? then [Error("Error sending notification")] else []
  }

  class AdminStore {
    const browser: Browser
    var aToken: string
    var products: seq<Product>
    var dashData: Option<DashData>
    var carts: seq<Cart>
    var comments: seq<Comment>
    var replies: seq<Reply>
    var search: string
    var filterProducts: seq<Product>

    function State(): Cells
      reads this
    {
      Cells(aToken, products, dashData, carts, comments, replies, search, filterProducts)
    }

    /** The requests sent and the toasts shown by one operation, and nothing else of the
      * browser changed. */
    twostate predicate Effects(sent: seq<Request>, toasts: seq<Notice>)
      reads browser
    {
      && browser.sent == old(browser.sent) + sent
      && browser.toasts == old(browser.toasts) + toasts
      && browser.stored == old(browser.stored)
      && browser.location == old(browser.location)
    }

    /** The provider mounts: the token is read back from storage, every list is empty
      * and the dashboard data is `false`. */
    constructor (browser: Browser)
      ensures this.browser == browser
      ensures State() == Cells(Session.InitialToken(browser.stored), [], None, [], [], [], "", [])
    {
      this.browser := browser;
      aToken := Session.InitialToken(browser.stored);
      products, dashData, carts, comments, replies := [], None, [], [], [];
      search, filterProducts := "", [];
    }

    /** Replaces the products only when the response reports success. */
    method GetProducts(o: Outcome<seq<Product>>)
      modifies this, browser
      ensures State() == if o.Success? then old(State()).(products := o.value) else old(State())
      ensures Effects([AllProducts], if o.Success? then [] else [Error(o.message)])
    {
      browser.Send(AllProducts);
      match o
      case Success(ps) => products := ps;
      case Failure(m) => browser.Toast(Error(m));
      case Exception(m) => browser.Toast(Error(m));
    }

    /** Replaces the carts when the response data is truthy; falsy data is ignored silently. */
    method GetCarts(o: Outcome<seq<Cart>>)
      modifies this, browser
      ensures State() == if o.Success? then old(State()).(carts := o.value) else old(State())
      ensures Effects([AllCarts], if o.Exception? then [Error(o.message)] else [])
    {
      browser.Send(AllCarts);
      match o
      case Success(cs) => carts := cs;
      case Failure(_) =>
      case Exception(m) => browser.Toast(Error(m));
    }

    /** Replaces the comments when the data is truthy. With null data the handler reads
      * `data.message` of null, which throws and is caught. */
    method GetComments(o: Outcome<seq<Comment>>)
      modifies this, browser
      ensures State() == if o.Success? then old(State()).(comments := o.value) else old(State())
      ensures Effects([AllComments],
        match o case Success(_) => [] case Failure(_) => [EngineError] case Exception(m) => [Error(m)])
    {
      browser.Send(AllComments);
      match o
      case Success(cs) => comments := cs;
      case Failure(_) => browser.Toast(EngineError);
      case Exception(m) => browser.Toast(Error(m));
    }

    /** Changes no state cell; only the toast depends on the response. */
    method ChangeAvailability(productId: string, o: Outcome<string>)
      modifies browser
      ensures Effects([Request.ChangeAvailability(productId)],
        [if o.Success? then Info(o.value) else Error(o.message)])
    {
      browser.Send(Request.ChangeAvailability(productId));
      match o
      case Success(m) => browser.Toast(Info(m));
      case Failure(m) => browser.Toast(Error(m));
      case Exception(m) => browser.Toast(Error(m));
    }

    /** Drops exactly the carts with the given id whenever the request resolves, even
      * when its data is falsy; a rejected request leaves the carts alone. */
    method RemoveCart(cartId: string, o: Outcome<()>)
      modifies this, browser
      ensures State() == AfterRemoveCart(old(State()), cartId, o)
      ensures Effects([DeleteCart(cartId)], RemoveCartNotices(o))
    {
      browser.Send(DeleteCart(cartId));
      match o
      case Success(_) => carts := WithoutCart(carts, cartId);
      case Failure(_) =>
        browser.Toast(Error("No data"));
        carts := WithoutCart(carts, cartId);
      case Exception(m) => browser.Toast(Error(m));
    }

    /** Changes no state cell: the caller patches its own list whatever happens. */
    method DeleteProduct(productId: string, o: Call<()>)
      modifies browser
      ensures Effects([Request.DeleteProduct(productId)],
        [if o.Returned? then Info("Delete successfully !") else Error(o.message)])
    {
      browser.Send(Request.DeleteProduct(productId));
      match o
      case Returned(_) => browser.Toast(Info("Delete successfully !"));
      case Threw(m) => browser.Toast(Error(m));
    }

    /** Changes no state cell; only the toast depends on the response. */
    method ChangeBestsellerStatus(productId: string, o: Outcome<()>)
      modifies browser
      ensures Effects([ChangeBestseller(productId)],
        [match o
         case Success(_) => Info("Change bestseller status successfully")
         case Failure(_) => Error("Can't find data")
         case Exception(m) => Error(m)])
    {
      browser.Send(ChangeBestseller(productId));
      match o
      case Success(_) => browser.Toast(Info("Change bestseller status successfully"));
      case Failure(_) => browser.Toast(Error("Can't find data"));
      case Exception(m) => browser.Toast(Error(m));
    }

    /** Sets the dashboard data only when the response reports success. */
    method GetDashData(o: Outcome<DashData>)
      modifies this, browser
      ensures State() == if o.Success? then old(State()).(dashData := Some(o.value)) else old(State())
      ensures Effects([AdminDashboard], if o.Success? then [] else [Error(o.message)])
    {
      browser.Send(AdminDashboard);
      match o
      case Success(d) => dashData := Some(d);
      case Failure(m) => browser.Toast(Error(m));
      case Exception(m) => browser.Toast(Error(m));
    }

    /** Replaces the replies with truthy data. With null data it toasts "No data" and then
      * reads `data.replies` of null, which throws and is caught. */
    method GetAllReplies(o: Outcome<seq<Reply>>)
      modifies this, browser
      ensures State() == if o.Success? then old(State()).(replies := o.value) else old(State())
      ensures Effects([AllReplies], AllRepliesNotices(o))
    {
      browser.Send(AllReplies);
      match o
      case Success(rs) => replies := rs;
      case Failure(_) =>
        browser.Toast(Error("No data"));
        browser.Toast(EngineError);
      case Exception(m) => browser.Toast(Error(m));
    }

    /** Settles with the response when it is truthy, with null when it is falsy, and
      * rethrows a rejection after toasting it. */
    method ReplyComment(commentId: string, text: string, o: Outcome<()>) returns (r: ReplyResult)
      modifies browser
      ensures r == match o case Success(_) => Response case Failure(_) => Null case Exception(m) => Rethrown(m)
      ensures Effects([PostReply(commentId, text)],
        [match o
         case Success(_) => Info("Reply successfully")
         case Failure(_) => Error("Can't reply")
         case Exception(m) => Error(m)])
    {
      browser.Send(PostReply(commentId, text));
      match o
      case Success(_) =>
        browser.Toast(Info("Reply successfully"));
        r := Response;
      case Failure(_) =>
        browser.Toast(Error("Can't reply"));
        r := Null;
      case Exception(m) =>
        browser.Toast(Error(m));
        r := Rethrown(m);
    }

    /** Never returns a value and never throws; only the toast depends on the response. */
    method EditReply(replyId: string, text: string, o: Outcome<()>)
      modifies browser
      ensures Effects([UpdateReply(replyId, text)],
        [match o
         case Success(_) => Info("Edit successfully")
         case Failure(_) => Error("Can't find data")
         case Exception(m) => Error(m)])
    {
      browser.Send(UpdateReply(replyId, text));
      match o
      case Success(_) => browser.Toast(Info("Edit successfully"));
      case Failure(_) => browser.Toast(Error("Can't find data"));
      case Exception(m) => browser.Toast(Error(m));
    }

    /** Never returns a value and never throws; only the toast depends on the response. */
    method DeleteReply(replyId: string, o: Outcome<()>)
      modifies browser
      ensures Effects([RemoveReply(replyId)],
        [match o
         case Success(_) => Info("Reply removed successfully")
         case Failure(_) => Error("Can't find data")
         case Exception(m) => Error(m)])
    {
      browser.Send(RemoveReply(replyId));
      match o
      case Success(_) => browser.Toast(Info("Reply removed successfully"));
      case Failure(_) => browser.Toast(Error("Can't find data"));
      case Exception(m) => browser.Toast(Error(m));
    }

    /** True exactly when the response's success flag is set; false on a reported failure
      * and on a rejected request. */
    method ChangeCartStatus(cartId: string, status: string, o: Outcome<string>) returns (ok: bool)
      modifies browser
      ensures ok <==> o.Success?
      ensures Effects([Request.ChangeCartStatus(cartId, status)], [CartStatusNotice(o)])
    {
      browser.Send(Request.ChangeCartStatus(cartId, status));
      match o
      case Success(m) =>
        browser.Toast(Info(m));
        ok := true;
      case Failure(m) =>
        browser.Toast(Error(if m == "" then "Failed to change status" else m));
        ok := false;
      case Exception(_) =>
        browser.Toast(Error("Server Error"));
        ok := false;
    }

    /** Sends one notification to the cart's owner; a rejection is only toasted. */
    method NotifyChangeStatusCart(userId: string, text: string, o: Call<()>)
      modifies browser
      ensures Effects([CreateNotification(userId, text)], NotifyNotices(o))
    {
      browser.Send(CreateNotification(userId, text));
      if o.Threw? {
        browser.Toast(Error(o.message));
      }
    }

    /** Sends one notification to the comment's author; a rejection is only toasted. */
    method CreateReplyNotification(userId: string, replyText: string, productName: string, o: Call<()>)
      modifies browser
      ensures Effects([CreateNotification(userId, ReplyNotificationText(productName, replyText))],
        ReplyNotifyNotices(o))
    {
      browser.Send(CreateNotification(userId, ReplyNotificationText(productName, replyText)));
      if o.Threw? {
        browser.Toast(Error("Error sending notification"));
      }
    }
  }
}

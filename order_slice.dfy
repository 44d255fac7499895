/**
 * The order store of the storefront: the user's orders, the order being
 * viewed, and the four request flags. Every pending case and every
 * rejected case does the same thing, so each of those is one method here.
 */
module OrderSlice {
  import opened Wrappers

  /** A line of an order, as the API stores it. */
  datatype OrderItem = OrderItem(name: string, qty: int, image: string, price: int, product: string)

  /** An order as the API sends it; the fields the store never reads are left out. */
  datatype Order = Order(
    id: string, orderItems: seq<OrderItem>, itemsPrice: int, taxPrice: int,
    shippingPrice: int, totalPrice: int, isPaid: bool, isDelivered: bool)

  class OrderState {
    var orders: seq<Order>
    var order: Option<Order>
    var isError: bool
    var isSuccess: bool
    var isLoading: bool
    var message: string

    /** The initial state: no orders, no order, all flags clear. */
    constructor ()
      ensures orders == [] && order == None
      ensures !isError && !isSuccess && !isLoading && message == ""
    {
      orders := [];
      order := None;
      isError := false;
      isSuccess := false;
      isLoading := false;
      message := "";
    }

    /** `reset`: the four status fields are cleared; `order` and `orders` are kept. */
    method Reset()
      modifies this
      ensures !isLoading && !isSuccess && !isError && message == ""
      ensures orders == old(orders) && order == old(order)
    {
      isLoading := false;
      isSuccess := false;
      isError := false;
      message := "";
    }

    /** Every `pending` case: only `isLoading` is set. */
    method Pending()
      modifies this
      ensures isLoading
      ensures isError == old(isError) && isSuccess == old(isSuccess) && message == old(message)
      ensures orders == old(orders) && order == old(order)
    {
      isLoading := true;
    }

    /** Every `rejected` case: the error flag and the message are set; the data stays. */
    method Rejected(payload: string)
      modifies this
      ensures !isLoading && isError && message == payload
      ensures isSuccess == old(isSuccess)
      ensures orders == old(orders) && order == old(order)
    {
      isLoading := false;
      isError := true;
      message := payload;
    }

    /** `createOrder`, `getOrderById` and `updateOrderToPaid` fulfilled: the payload becomes `order`. */
    method OrderFulfilled(payload: Order)
      modifies this
      ensures !isLoading && isSuccess && order == Some(payload)
      ensures orders == old(orders)
      ensures isError == old(isError) && message == old(message)
    {
      isLoading := false;
      isSuccess := true;
      order := Some(payload);
    }

    /** `getUserOrders.fulfilled`: the payload becomes `orders`; `order` stays. */
    method GetUserOrdersFulfilled(payload: seq<Order>)
      modifies this
      ensures !isLoading && isSuccess && orders == payload
      ensures order == old(order)
      ensures isError == old(isError) && message == old(message)
    {
      isLoading := false;
      isSuccess := true;
      orders := payload;
    }

    /** `createRazorpayOrder` and `verifyRazorpayPayment` fulfilled: the payload
        is dropped and only the flags change. */
    method GatewayStepFulfilled()
      modifies this
      ensures !isLoading && isSuccess
      ensures orders == old(orders) && order == old(order)
      ensures isError == old(isError) && message == old(message)
    {
      isLoading := false;
      isSuccess := true;
    }
  }
}

/** The records the storefront passes around: cart entries, products, orders and their parts.
    Money amounts (prices, totals) are whole numbers. */
module Types {
  import opened Wrappers

  /** The lifecycle states of an order. */
  datatype OrderStatus = Pending | Paid | Preparing | Shipped | Delivered | Cancelled | Refunded

  /** The members of the `OrderStatus` union type of the database schema. */
  const StatusNames: set<string> :=
    {"Pending", "Paid", "Preparing", "Shipped", "Delivered", "Cancelled", "Refunded"}

  /** The string the database and the page components use for a status: one of the union's
      members. */
  function StatusName(s: OrderStatus): (name: string)
    ensures name in StatusNames
  {
    match s
    case Pending => "Pending"
    case Paid => "Paid"
    case Preparing => "Preparing"
    case Shipped => "Shipped"
    case Delivered => "Delivered"
    case Cancelled => "Cancelled"
    case Refunded => "Refunded"
  }

  /** Reads a status back from its name; any other string names no status. */
  function ParseStatus(name: string): (r: Option<OrderStatus>)
    ensures r.Some? ==> StatusName(r.value) == name
  {
    if name == "Pending" then Some(Pending)
    else if name == "Paid" then Some(Paid)
    else if name == "Preparing" then Some(Preparing)
    else if name == "Shipped" then Some(Shipped)
    else if name == "Delivered" then Some(Delivered)
    else if name == "Cancelled" then Some(Cancelled)
    else if name == "Refunded" then Some(Refunded)
    else None
  }

  /** Every member of the union names a status, so the datatype covers the union. */
  lemma StatusNamesCovered(name: string)
    requires name in StatusNames
    ensures ParseStatus(name).Some? && StatusName(ParseStatus(name).value) == name
  {
  }

  /** Every status name reads back as that status, so two statuses never share a name. */
  lemma StatusNameRoundTrip(s: OrderStatus)
    ensures ParseStatus(StatusName(s)) == Some(s)
  {
  }

  /** A cart line: a product snapshot and how many of it. */
  datatype CartItem = CartItem(
    product_id: string,
    title: string,
    price: int,
    unit: string,
    quantity: int,
    image_url: Option<string>)

  /** Where an order is shipped to; `address_line_2` is the one optional field. */
  datatype ShippingAddress = ShippingAddress(
    full_name: string,
    phone: string,
    address_line_1: string,
    address_line_2: Option<string>,
    city: string,
    state: string,
    postal_code: string,
    country: string)

  /** A line of a stored order; the quantity is called `qty` here. */
  datatype OrderItem = OrderItem(
    product_id: string,
    title: string,
    qty: int,
    price: int,
    unit: string,
    image_url: Option<string>)

  /** A catalogue product (its free-form metadata and creation time are not modelled). */
  datatype Product = Product(
    id: string,
    title: string,
    slug: string,
    description: Option<string>,
    category_id: string,
    price: int,
    unit: string,
    inventory: int,
    is_active: bool,
    images: seq<string>)

  /** A row of the orders table. `updated_at` is the column the payment webhook writes. */
  datatype Order = Order(
    id: string,
    user_id: string,
    items: seq<OrderItem>,
    subtotal: int,
    shipping: int,
    tax: int,
    total: int,
    status: OrderStatus,
    phonepe_payment_id: Option<string>,
    phonepe_payment_status: Option<string>,
    shipping_address: ShippingAddress,
    created_at: string,
    updated_at: Option<string>)
}

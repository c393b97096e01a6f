/** The persisted entities of ShopStream.Core/Entities, as values.
    Navigation properties are left out; relations are carried by ids. */
module Entities {
  import opened Common

  /** A catalogue product (the Products table). */
  datatype Product = Product(
    id: Guid,
    name: string,
    sku: string,
    description: string,
    price: Cents,
    stockQuantity: int,
    categoryId: Guid,
    isActive: bool,
    createdAt: Time,
    updatedAt: Option<Time>)

  /** One line of a cart: a product, how many, and the unit price recorded
      when the line was last added to. */
  datatype CartItem = CartItem(
    id: Guid,
    cartId: Guid,
    productId: Guid,
    quantity: int,
    unitPrice: Cents,
    createdAt: Time)

  datatype Cart = Cart(
    id: Guid,
    userId: Guid,
    items: seq<CartItem>,
    createdAt: Time,
    updatedAt: Option<Time>)

  datatype OrderStatus =
    Pending | PaymentReceived | Processing | Shipped | Delivered | Cancelled | Refunded

  datatype OrderItem = OrderItem(
    id: Guid,
    orderId: Guid,
    productId: Guid,
    quantity: int,
    unitPrice: Cents,
    createdAt: Time)

  datatype Order = Order(
    id: Guid,
    orderNumber: string,
    userId: Guid,
    totalAmount: Cents,
    status: OrderStatus,
    shippingAddressId: Option<Guid>,
    createdAt: Time,
    updatedAt: Option<Time>,
    items: seq<OrderItem>)

  datatype PaymentStatus = Pending | Processing | Completed | Failed | Refunded

  datatype Payment = Payment(
    id: Guid,
    orderId: Guid,
    provider: string,
    status: PaymentStatus,
    transactionId: Option<string>,
    amount: Cents,
    paymentIntentId: Option<string>,
    createdAt: Time)

  datatype UserRole = Customer | Seller | Admin

  /** UserRole.ToString() */
  function RoleName(role: UserRole): string
  {
    match role
    case Customer => "Customer"
    case Seller => "Seller"
    case Admin => "Admin"
  }

  datatype User = User(
    id: Guid,
    email: string,
    passwordHash: string,
    firstName: string,
    lastName: string,
    role: UserRole,
    isEmailConfirmed: bool,
    passwordResetToken: Option<string>,
    passwordResetTokenExpiry: Option<Time>,
    createdAt: Time,
    updatedAt: Option<Time>)

  /** Quantity times unit price: the total of one cart or order line. */
  function LineTotal(quantity: int, unitPrice: Cents): Cents
  {
    quantity * unitPrice
  }
}

/**
 * The relational schema: enumerations, one record type per table, the column
 * defaults, the length limits of the varchar columns and the range of the
 * `integer` columns (Postgres int4).
 */
module Schema {
  import opened Wrappers
  import opened Text

  /** Postgres `integer` is a signed 32-bit column; a value outside is rejected. */
  const Int32Min: int := -0x8000_0000
  const Int32Max: int := 0x7FFF_FFFF

  predicate InInt32(n: int) { Int32Min <= n <= Int32Max }

  /** varchar limits. */
  const EmailLength: nat := 256
  const PhoneLength: nat := 20
  const OtpLength: nat := 10
  const ProductNameLength: nat := 256

  datatype Role = Admin | Customer {
    function Label(): string {
      match this
      case Admin => "admin"
      case Customer => "customer"
    }
  }

  const DefaultRole: Role := Customer

  /** Times are milliseconds since the epoch. */
  datatype User = User(
    id: int,
    fullName: string,
    email: string,
    password: string,
    role: Role,
    isEmailVerified: bool,
    emailVerificationToken: Option<string>,
    phone: Option<string>,
    isPhoneVerified: bool,
    phoneOtp: Option<string>,
    phoneOtpExpires: Option<int>)

  /** The row created by an INSERT that names only these columns: the rest take their defaults. */
  function NewUser(id: int, fullName: string, email: string, password: string, token: Option<string>): (u: User)
    ensures u.role == DefaultRole && !u.isEmailVerified && !u.isPhoneVerified
    ensures u.phone == None && u.phoneOtp == None && u.phoneOtpExpires == None
  {
    User(id, fullName, email, password, DefaultRole, false, token, None, false, None, None)
  }

  datatype Category = Category(id: int, name: string)

  datatype Product = Product(
    id: int,
    name: string,
    description: Option<string>,
    price: int,
    images: seq<string>,
    stockQuantity: int,
    categoryId: int)

  datatype Cart = Cart(id: int, userId: int)

  datatype CartItem = CartItem(id: int, cartId: int, productId: int, quantity: int)

  /** The default of `cart_items.quantity`; every insert in the handlers names the column. */
  const DefaultQuantity: int := 1

  datatype OrderStatus = Pending | Paid | Shipped | Delivered | Cancelled {
    function Label(): string {
      match this
      case Pending => "Pending"
      case Paid => "Paid"
      case Shipped => "Shipped"
      case Delivered => "Delivered"
      case Cancelled => "Cancelled"
    }
  }

  const DefaultOrderStatus: OrderStatus := OrderStatus.Pending

  datatype Order = Order(id: int, userId: int, totalAmount: int, status: OrderStatus, createdAt: int)

  datatype OrderItem = OrderItem(id: int, orderId: int, productId: int, quantity: int, price: int)

  datatype PaymentStatus = Pending | Success | Failed {
    function Label(): string {
      match this
      case Pending => "PENDING"
      case Success => "SUCCESS"
      case Failed => "FAILED"
    }
  }

  datatype Provider = MockRazorpay {
    function Label(): string { "mock_razorpay" }
  }

  datatype Payment = Payment(
    id: int,
    orderId: int,
    amount: int,
    provider: Option<Provider>,
    status: PaymentStatus,
    transactionId: Option<string>,
    createdAt: int)
}

/** The entities of the admin panel, as declared in the application's type file. */
module Types {
  import opened Wrappers

  datatype Role = SuperAdmin | Admin | Editor {
    function Code(): string {
      match this
      case SuperAdmin => "super_admin"
      case Admin => "admin"
      case Editor => "editor"
    }
  }

  datatype AccountStatus = Active | Inactive {
    function Code(): string {
      match this
      case Active => "active"
      case Inactive => "inactive"
    }
  }

  datatype AdminUser = AdminUser(
    id: string, username: string, email: string, role: Role, status: AccountStatus,
    createdAt: string, lastLogin: string)

  datatype LoginStatus = Success | Failed {
    function Code(): string {
      match this
      case Success => "success"
      case Failed => "failed"
    }
  }

  datatype LoginLog = LoginLog(
    id: string, userId: string, username: string, ip: string, status: LoginStatus, timestamp: string)

  datatype FragranceFamily = Floral | Woody | Oriental | Fresh | Citrus | Fruity | Spicy | Gourmand | Aquatic {
    function Code(): string {
      match this
      case Floral => "floral"
      case Woody => "woody"
      case Oriental => "oriental"
      case Fresh => "fresh"
      case Citrus => "citrus"
      case Fruity => "fruity"
      case Spicy => "spicy"
      case Gourmand => "gourmand"
      case Aquatic => "aquatic"
    }
  }

  datatype Concentration = Edp | Edt | Edc | Parfum | BodyMist {
    function Code(): string {
      match this
      case Edp => "edp"
      case Edt => "edt"
      case Edc => "edc"
      case Parfum => "parfum"
      case BodyMist => "body_mist"
    }
  }

  datatype Gender = Male | Female | Unisex | Kids {
    function Code(): string {
      match this
      case Male => "male"
      case Female => "female"
      case Unisex => "unisex"
      case Kids => "kids"
    }
  }

  /**
   * The three scent-note tiers. A tier is None when the object lacks it: editing one tier of a
   * product that had no notes object yields an object holding only that tier.
   */
  datatype ScentNotes = ScentNotes(top: Option<seq<string>>, middle: Option<seq<string>>, base: Option<seq<string>>)

  /** Money, rates and quantities are whole numbers in this model. */
  datatype Product = Product(
    id: string, name: string, description: string, shortDescription: string,
    price: int, discountedPrice: Option<int>, currency: string, vatRate: int, stock: int,
    sku: string, barcode: Option<string>, categoryId: string, categoryName: string,
    images: seq<string>, isFeatured: bool, isActive: bool,
    metaTitle: Option<string>, metaDescription: Option<string>, slug: string,
    scentNotes: Option<ScentNotes>, fragranceFamily: Option<FragranceFamily>,
    concentration: Option<Concentration>, gender: Option<Gender>, volume: Option<int>,
    batchCode: Option<string>, productionDate: Option<string>, expirationDate: Option<string>,
    createdAt: string, updatedAt: string)

  /** `Partial<Product>`: None is an undefined field. */
  datatype ProductPartial = ProductPartial(
    name: Option<string>, description: Option<string>, shortDescription: Option<string>,
    price: Option<int>, discountedPrice: Option<int>, currency: Option<string>,
    vatRate: Option<int>, stock: Option<int>, sku: Option<string>, barcode: Option<string>,
    categoryId: Option<string>, images: Option<seq<string>>,
    isFeatured: Option<bool>, isActive: Option<bool>,
    metaTitle: Option<string>, metaDescription: Option<string>, slug: Option<string>,
    scentNotes: Option<ScentNotes>, fragranceFamily: Option<FragranceFamily>,
    concentration: Option<Concentration>, gender: Option<Gender>, volume: Option<int>,
    batchCode: Option<string>, productionDate: Option<string>, expirationDate: Option<string>)

  /** The partial with no field defined. */
  const NoProductFields := ProductPartial(
    None, None, None, None, None, None, None, None, None, None, None, None, None, None,
    None, None, None, None, None, None, None, None, None, None, None)

  datatype Category = Category(
    id: string, name: string, description: Option<string>, image: Option<string>,
    parentId: Option<string>, order: int, isActive: bool,
    metaTitle: Option<string>, metaDescription: Option<string>, slug: string, productCount: int)

  /** The fields of `Partial<Category>` that the panel sends. */
  datatype CategoryPartial = CategoryPartial(
    name: Option<string>, description: Option<string>, order: Option<int>, isActive: Option<bool>,
    slug: Option<string>, metaTitle: Option<string>, metaDescription: Option<string>)

  datatype OrderStatus = Pending | PaymentConfirmed | Preparing | Shipped | Delivered | Cancelled | Refunded {
    function Code(): string {
      match this
      case Pending => "pending"
      case PaymentConfirmed => "payment_confirmed"
      case Preparing => "preparing"
      case Shipped => "shipped"
      case Delivered => "delivered"
      case Cancelled => "cancelled"
      case Refunded => "refunded"
    }
  }

  datatype PaymentStatus = PaymentPending | Paid | PaymentFailed | PaymentRefunded {
    function Code(): string {
      match this
      case PaymentPending => "pending"
      case Paid => "paid"
      case PaymentFailed => "failed"
      case PaymentRefunded => "refunded"
    }
  }

  /** The order status whose code is `t`, if any. */
  function ParseOrderStatus(t: string): (r: Option<OrderStatus>)
    ensures r.Some? ==> r.value.Code() == t
    ensures r.None? ==> forall s: OrderStatus :: s.Code() != t
  {
    match t
    case "pending" => Some(Pending)
    case "payment_confirmed" => Some(PaymentConfirmed)
    case "preparing" => Some(Preparing)
    case "shipped" => Some(Shipped)
    case "delivered" => Some(Delivered)
    case "cancelled" => Some(Cancelled)
    case "refunded" => Some(Refunded)
    case _ => None
  }

  /** The payment status whose code is `t`, if any. */
  function ParsePaymentStatus(t: string): (r: Option<PaymentStatus>)
    ensures r.Some? ==> r.value.Code() == t
    ensures r.None? ==> forall s: PaymentStatus :: s.Code() != t
  {
    match t
    case "pending" => Some(PaymentPending)
    case "paid" => Some(Paid)
    case "failed" => Some(PaymentFailed)
    case "refunded" => Some(PaymentRefunded)
    case _ => None
  }

  /** `productImage` and `variant` are None where the item mapping does not set them. */
  datatype OrderItem = OrderItem(
    id: string, productId: string, productName: string, productImage: Option<string>,
    quantity: int, unitPrice: int, totalPrice: int, variant: Option<string>)

  datatype Address = Address(
    fullName: string, phone: string, address: string, city: string, district: string,
    postalCode: string, country: string)

  datatype OrderHistory = OrderHistory(
    id: string, action: string, status: OrderStatus, note: Option<string>, createdBy: string, createdAt: string)

  /** An address is None where the order mapper substitutes the empty object `{}`. */
  datatype Order = Order(
    id: string, orderNumber: string, customerId: string, customerName: string,
    customerEmail: string, customerPhone: string,
    shippingAddress: Option<Address>, billingAddress: Option<Address>, items: seq<OrderItem>,
    subtotal: int, vatAmount: int, shippingCost: int, total: int,
    status: OrderStatus, paymentStatus: PaymentStatus, paymentMethod: string,
    paymentDate: Option<string>, orderDate: string,
    shippingCompany: Option<string>, trackingNumber: Option<string>, trackingUrl: Option<string>,
    notes: Option<string>, history: seq<OrderHistory>)

  datatype Customer = Customer(
    id: string, firstName: string, lastName: string, email: string, phone: string,
    status: AccountStatus, addresses: seq<Address>, orderCount: int, totalSpent: int,
    notes: Option<string>, createdAt: string, lastOrderDate: Option<string>)

  /** The fields of `Partial<Customer>` that the customer service writes. */
  datatype CustomerPartial = CustomerPartial(
    firstName: Option<string>, lastName: Option<string>, email: Option<string>,
    phone: Option<string>, status: Option<AccountStatus>)

  datatype Banner = Banner(
    id: string, title: string, subtitle: Option<string>, image: string, link: Option<string>,
    order: int, isActive: bool, createdAt: string)

  datatype ShowcaseKind = FeaturedProducts | Campaign | TextBlock {
    function Code(): string {
      match this
      case FeaturedProducts => "featured_products"
      case Campaign => "campaign"
      case TextBlock => "text_block"
    }
  }

  datatype Showcase = Showcase(
    id: string, kind: ShowcaseKind, title: string, content: Option<string>,
    productIds: Option<seq<string>>, isActive: bool, order: int)

  datatype ReviewStatus = ReviewPending | Approved | Rejected | Spam {
    function Code(): string {
      match this
      case ReviewPending => "pending"
      case Approved => "approved"
      case Rejected => "rejected"
      case Spam => "spam"
    }
  }

  datatype Review = Review(
    id: string, productId: string, productName: string, customerId: string, customerName: string,
    rating: int, comment: string, status: ReviewStatus, createdAt: string)

  datatype LegalKind =
    PrivacyPolicy | Kvkk | CookiePolicy | DistanceSales | PreliminaryInfo | TermsOfUse | ReturnPolicy
  {
    function Code(): string {
      match this
      case PrivacyPolicy => "privacy_policy"
      case Kvkk => "kvkk"
      case CookiePolicy => "cookie_policy"
      case DistanceSales => "distance_sales"
      case PreliminaryInfo => "preliminary_info"
      case TermsOfUse => "terms_of_use"
      case ReturnPolicy => "return_policy"
    }
  }

  datatype LegalText = LegalText(
    id: string, kind: LegalKind, title: string, content: string, isActive: bool, updatedAt: string)

  datatype DashboardStats = DashboardStats(
    totalOrders: int, pendingOrders: int, shippedOrders: int, completedOrders: int,
    cancelledOrders: int, totalRevenue: int, todayRevenue: int, weekRevenue: int, monthRevenue: int)

  datatype AlertKind = AlertError | AlertWarning | AlertInfo {
    function Code(): string {
      match this
      case AlertError => "error"
      case AlertWarning => "warning"
      case AlertInfo => "info"
    }
  }

  datatype SystemAlert = SystemAlert(id: string, kind: AlertKind, message: string, createdAt: string)

  /** The label and style class of a status badge. */
  datatype Badge = Badge(text: string, style: string)

  /**
   * The property names every object literal inherits from `Object.prototype`. Looking one of
   * them up in a literal map finds the inherited member, which is truthy, so an `||` fallback
   * after the lookup is not taken.
   */
  predicate InheritedKey(s: string) {
    s in {"constructor", "__proto__", "toString", "toLocaleString", "valueOf", "hasOwnProperty",
      "isPrototypeOf", "propertyIsEnumerable", "__defineGetter__", "__defineSetter__",
      "__lookupGetter__", "__lookupSetter__"}
  }

  /**
   * The badge rendered from an inherited member: it has no `label`, so no text is shown, and
   * its missing `class` is interpolated as the text 'undefined'.
   */
  const InheritedBadge := Badge("", "undefined")
}

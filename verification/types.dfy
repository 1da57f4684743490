/** The shop's records, mirroring `src/types.ts`.
    JavaScript numbers are modelled as `int`; an optional field (`x?: T`) is an `Option<T>`. */
module Types {

  datatype Option<+T> = None | Some(value: T)

  /** A catalog product's publication state. */
  datatype ProductStatus = Active | Inactive | Draft

  /** One selectable choice of a variation ("Small", "Red", ...). */
  datatype VariationOption = VariationOption(
    id: string,
    labelText: string,              // `label` (a reserved word in Dafny)
    description: Option<string>,
    priceAdjustment: Option<int>,  // added to the base price; absent counts as 0 in pricing
    image: Option<string>)         // image shown while this option is selected

  /** A customisable attribute ("Size", "Shape", ...) and its ordered options. */
  datatype Variation = Variation(id: string, name: string, options: seq<VariationOption>)

  /** A catalog product. `shape` is the raw string the catalog carries
      ('RECTANGLE', 'Heart', 'Custom', ...): it is compared case-insensitively.
      Both spellings of the price fields occur in the data: `pdfPrice` and
      `customShapeCost` on typed records, `base_price` and `custom_shape_cost`
      on rows read from the backend. */
  datatype Product = Product(
    id: string,
    code: string,
    name: string,
    category: string,
    description: string,
    pdfPrice: Option<int>,
    basePrice: Option<int>,            // `base_price`
    shape: string,
    customShapeName: Option<string>,
    customShapeCost: Option<int>,
    customShapeCostRaw: Option<int>,   // `custom_shape_cost`
    image: string,
    size: Option<string>,
    discount: Option<int>,             // a percentage
    allowsExtraHeads: bool,
    variations: Option<seq<Variation>>,
    stock: Option<int>,
    sku: Option<string>,
    status: Option<ProductStatus>)

  /** One key of a `Record<string, VariationOption>`: variation id to chosen option. */
  datatype Entry = Entry(key: string, option: VariationOption)

  /** A JavaScript object `Record<string, VariationOption>`: its entries in
      the order their keys were created. `Records.Entries` gives the order
      in which `Object.values` and `Object.entries` visit them. */
  type Selection = seq<Entry>

  /** A cart row: the product it was made from (the TypeScript type spreads
      the product's fields into the row) plus the customisation and the prices
      frozen when the row was added. */
  datatype CartItem = CartItem(
    product: Product,
    cartId: string,
    customName: string,
    customImage: Option<string>,
    calculatedPrice: int,
    originalPrice: int,
    quantity: int,
    extraHeads: Option<int>,
    selectedVariations: Option<Selection>)

  datatype AdminRole =
    SuperAdmin | ProductManager | OrderManager | InventoryOperator
    | FinanceManager | CustomerSupport | SupportAgent

  datatype User = User(email: string, isAdmin: bool, role: Option<AdminRole>)

  datatype CustomerStatus = Active | Blocked

  datatype Customer = Customer(
    id: string,
    name: string,
    email: string,
    phone: string,
    totalOrders: int,
    totalSpent: int,
    status: CustomerStatus,
    joinDate: string,
    address: Option<string>)

  datatype OrderStatus =
    Pending | Processing | Packed | Shipped | Delivered | Cancelled | Returned | Refunded

  datatype PaymentStatus = Paid | Unpaid | Refunded

  datatype Order = Order(
    id: string,
    customerId: string,
    customerName: string,
    date: string,
    total: int,
    status: OrderStatus,
    paymentMethod: string,
    paymentStatus: PaymentStatus,
    itemsCount: int,
    trackingNumber: Option<string>,
    courier: Option<string>,
    returnReason: Option<string>,
    shippingAddress: Option<string>)
}

/**
 * The domain model the access layer exchanges with the inventory service.
 * String unions become enumerations; each enumeration carries the exact
 * wire literal it stands for and a parser that recognises only those literals.
 * Monetary amounts are JavaScript numbers, carried as `real` with no arithmetic.
 */
module Types {
  import opened Wrappers

  // ----- Users -----

  datatype Role = ADMIN | USER

  function RoleName(r: Role): string {
    match r
    case ADMIN => "ADMIN"
    case USER => "USER"
  }

  /** A role on the wire is exactly one of the two literals. */
  function ParseRole(s: string): (r: Option<Role>)
    ensures r.Some? ==> RoleName(r.value) == s
    ensures r.None? ==> forall v :: RoleName(v) != s
  {
    if s == "ADMIN" then Some(ADMIN)
    else if s == "USER" then Some(USER)
    else None
  }

  datatype User = User(
    id: int,
    username: string,
    email: string,
    firstName: string,
    lastName: string,
    role: Role,
    createdAt: string,
    updatedAt: string)

  datatype LoginCredentials = LoginCredentials(username: string, password: string)

  // ----- Products -----

  datatype Product = Product(
    id: int,
    name: string,
    description: string,
    sku: string,
    category: string,
    price: real,
    stockQuantity: int,
    minStockLevel: int,
    supplier: string,
    createdAt: string,
    updatedAt: string)

  /** A product as the client submits it: no id and no timestamps. */
  datatype CreateProductDTO = CreateProductDTO(
    name: string,
    description: string,
    sku: string,
    category: string,
    price: real,
    stockQuantity: int,
    minStockLevel: int,
    supplier: string)

  /** The caller-supplied part of a product. */
  function ProductDraft(p: Product): CreateProductDTO {
    CreateProductDTO(p.name, p.description, p.sku, p.category, p.price,
                     p.stockQuantity, p.minStockLevel, p.supplier)
  }

  /** A product as the server stores it: the DTO plus the fields the server assigns. */
  function Persisted(dto: CreateProductDTO, id: int, createdAt: string, updatedAt: string): Product {
    Product(id, dto.name, dto.description, dto.sku, dto.category, dto.price,
            dto.stockQuantity, dto.minStockLevel, dto.supplier, createdAt, updatedAt)
  }

  /** The DTO is exactly Product without id, createdAt and updatedAt: nothing else is lost ... */
  lemma ProductSplitsIntoDraft(p: Product)
    ensures Persisted(ProductDraft(p), p.id, p.createdAt, p.updatedAt) == p
  {
  }

  /** ... and nothing is added. */
  lemma DraftOfPersisted(dto: CreateProductDTO, id: int, createdAt: string, updatedAt: string)
    ensures ProductDraft(Persisted(dto, id, createdAt, updatedAt)) == dto
  {
  }

  /** The fields of CreateProductDTO, as named in a partial update. */
  datatype ProductField =
    | NameField | DescriptionField | SkuField | CategoryField
    | PriceField | StockQuantityField | MinStockLevelField | SupplierField

  /** `Partial<CreateProductDTO>`: every field of the DTO, each one optional. */
  datatype ProductPatch = ProductPatch(
    name: Option<string>,
    description: Option<string>,
    sku: Option<string>,
    category: Option<string>,
    price: Option<real>,
    stockQuantity: Option<int>,
    minStockLevel: Option<int>,
    supplier: Option<string>)

  const AllProductFields: set<ProductField> := {
    NameField, DescriptionField, SkuField, CategoryField,
    PriceField, StockQuantityField, MinStockLevelField, SupplierField}

  /** Whether an update body gives field `f` a value. */
  predicate Carries(p: ProductPatch, f: ProductField) {
    match f
    case NameField => p.name.Some?
    case DescriptionField => p.description.Some?
    case SkuField => p.sku.Some?
    case CategoryField => p.category.Some?
    case PriceField => p.price.Some?
    case StockQuantityField => p.stockQuantity.Some?
    case MinStockLevelField => p.minStockLevel.Some?
    case SupplierField => p.supplier.Some?
  }

  /** The fields an update body carries. */
  function PatchFields(p: ProductPatch): set<ProductField> {
    set f <- AllProductFields | Carries(p, f)
  }

  /** Every field an update body carries has the value a full DTO gives it. */
  predicate AgreesWith(p: ProductPatch, dto: CreateProductDTO) {
    && (p.name.Some? ==> p.name.value == dto.name)
    && (p.description.Some? ==> p.description.value == dto.description)
    && (p.sku.Some? ==> p.sku.value == dto.sku)
    && (p.category.Some? ==> p.category.value == dto.category)
    && (p.price.Some? ==> p.price.value == dto.price)
    && (p.stockQuantity.Some? ==> p.stockQuantity.value == dto.stockQuantity)
    && (p.minStockLevel.Some? ==> p.minStockLevel.value == dto.minStockLevel)
    && (p.supplier.Some? ==> p.supplier.value == dto.supplier)
  }

  /** The update body that sends the chosen fields of a DTO and nothing else. */
  function Restrict(dto: CreateProductDTO, fields: set<ProductField>): (p: ProductPatch)
    ensures AgreesWith(p, dto)
  {
    ProductPatch(
      if NameField in fields then Some(dto.name) else None,
      if DescriptionField in fields then Some(dto.description) else None,
      if SkuField in fields then Some(dto.sku) else None,
      if CategoryField in fields then Some(dto.category) else None,
      if PriceField in fields then Some(dto.price) else None,
      if StockQuantityField in fields then Some(dto.stockQuantity) else None,
      if MinStockLevelField in fields then Some(dto.minStockLevel) else None,
      if SupplierField in fields then Some(dto.supplier) else None)
  }

  /** A restricted body carries exactly the chosen fields. */
  lemma FieldsOfRestrict(dto: CreateProductDTO, fields: set<ProductField>)
    ensures PatchFields(Restrict(dto, fields)) == fields
  {
    var p := Restrict(dto, fields);
    forall f ensures f in PatchFields(p) <==> f in fields {
      match f
      case NameField =>
      case DescriptionField =>
      case SkuField =>
      case CategoryField =>
      case PriceField =>
      case StockQuantityField =>
      case MinStockLevelField =>
      case SupplierField =>
    }
  }

  /** Completes an update body with the fields of `base` it leaves out. */
  function Completed(p: ProductPatch, base: CreateProductDTO): CreateProductDTO {
    CreateProductDTO(
      p.name.GetOr(base.name), p.description.GetOr(base.description),
      p.sku.GetOr(base.sku), p.category.GetOr(base.category),
      p.price.GetOr(base.price), p.stockQuantity.GetOr(base.stockQuantity),
      p.minStockLevel.GetOr(base.minStockLevel), p.supplier.GetOr(base.supplier))
  }

  /** An update body is any subset of the DTO's fields: every patch is some DTO restricted to its own fields. */
  lemma PatchIsRestriction(p: ProductPatch)
    ensures exists dto :: Restrict(dto, PatchFields(p)) == p
  {
    var base := CreateProductDTO("", "", "", "", 0.0, 0, 0, "");
    var dto := Completed(p, base);
    var q := Restrict(dto, PatchFields(p));
    assert q.name == p.name && q.description == p.description && q.sku == p.sku;
    assert q.category == p.category && q.price == p.price;
    assert q.stockQuantity == p.stockQuantity && q.minStockLevel == p.minStockLevel;
    assert q.supplier == p.supplier;
  }

  // ----- Orders -----

  datatype OrderStatus = PENDING | PROCESSING | SHIPPED | DELIVERED | CANCELLED

  function OrderStatusName(s: OrderStatus): string {
    match s
    case PENDING => "PENDING"
    case PROCESSING => "PROCESSING"
    case SHIPPED => "SHIPPED"
    case DELIVERED => "DELIVERED"
    case CANCELLED => "CANCELLED"
  }

  /** An order status on the wire is exactly one of the five literals. */
  function ParseOrderStatus(s: string): (r: Option<OrderStatus>)
    ensures r.Some? ==> OrderStatusName(r.value) == s
    ensures r.None? ==> forall v :: OrderStatusName(v) != s
  {
    if s == "PENDING" then Some(PENDING)
    else if s == "PROCESSING" then Some(PROCESSING)
    else if s == "SHIPPED" then Some(SHIPPED)
    else if s == "DELIVERED" then Some(DELIVERED)
    else if s == "CANCELLED" then Some(CANCELLED)
    else None
  }

  datatype OrderItem = OrderItem(
    id: int,
    productId: int,
    productName: string,
    quantity: int,
    unitPrice: real,
    totalPrice: real)

  datatype Order = Order(
    id: int,
    orderNumber: string,
    customerId: int,
    customerName: string,
    orderDate: string,
    status: OrderStatus,
    totalAmount: real,
    items: seq<OrderItem>,
    createdAt: string,
    updatedAt: string)

  /** One line of an order request: a product and a quantity, nothing priced. */
  datatype OrderLine = OrderLine(productId: int, quantity: int)

  /** An order as the client submits it: no status, totals, order number or prices. */
  datatype CreateOrderDTO = CreateOrderDTO(customerId: int, customerName: string, items: seq<OrderLine>)

  /** The request lines of a list of order items. */
  function Lines(items: seq<OrderItem>): (r: seq<OrderLine>)
    ensures |r| == |items|
    ensures forall i :: 0 <= i < |r| ==>
      r[i].productId == items[i].productId && r[i].quantity == items[i].quantity
  {
    if items == [] then []
    else [OrderLine(items[0].productId, items[0].quantity)] + Lines(items[1..])
  }

  /** What of an order its request carries: the customer and, per line, product and quantity. */
  function OrderDraft(o: Order): (dto: CreateOrderDTO)
    ensures dto.customerId == o.customerId && dto.customerName == o.customerName
    ensures |dto.items| == |o.items|
    ensures forall i :: 0 <= i < |o.items| ==>
      dto.items[i] == OrderLine(o.items[i].productId, o.items[i].quantity)
  {
    CreateOrderDTO(o.customerId, o.customerName, Lines(o.items))
  }

  /** What the server adds to each requested line: the line's id, the product's name and the prices. */
  datatype LineExtras = LineExtras(id: int, productName: string, unitPrice: real, totalPrice: real)

  /** The server-assigned part of each item of an order. */
  function ExtrasOf(items: seq<OrderItem>): (r: seq<LineExtras>)
    ensures |r| == |items|
  {
    seq(|items|, i requires 0 <= i < |items| =>
      LineExtras(items[i].id, items[i].productName, items[i].unitPrice, items[i].totalPrice))
  }

  /** The items of a placed order: each requested line completed by what the server adds to it. */
  function PricedItems(lines: seq<OrderLine>, extras: seq<LineExtras>): (r: seq<OrderItem>)
    requires |extras| == |lines|
    ensures |r| == |lines|
  {
    seq(|lines|, i requires 0 <= i < |lines| =>
      OrderItem(extras[i].id, lines[i].productId, extras[i].productName, lines[i].quantity,
                extras[i].unitPrice, extras[i].totalPrice))
  }

  /** The order the server makes of a request, given the fields it assigns. */
  function Placed(dto: CreateOrderDTO, id: int, orderNumber: string, orderDate: string,
                  status: OrderStatus, totalAmount: real, extras: seq<LineExtras>,
                  createdAt: string, updatedAt: string): Order
    requires |extras| == |dto.items|
  {
    Order(id, orderNumber, dto.customerId, dto.customerName, orderDate, status, totalAmount,
          PricedItems(dto.items, extras), createdAt, updatedAt)
  }

  /**
   * The order request is exactly an Order without id, orderNumber, orderDate,
   * status, totalAmount and the timestamps, and without each item's id,
   * productName, unitPrice and totalPrice: nothing else is lost ...
   */
  lemma OrderSplitsIntoDraft(o: Order)
    ensures Placed(OrderDraft(o), o.id, o.orderNumber, o.orderDate, o.status, o.totalAmount,
                   ExtrasOf(o.items), o.createdAt, o.updatedAt) == o
  {
  }

  /** ... and nothing is added. */
  lemma DraftOfPlaced(dto: CreateOrderDTO, id: int, orderNumber: string, orderDate: string,
                      status: OrderStatus, totalAmount: real, extras: seq<LineExtras>,
                      createdAt: string, updatedAt: string)
    requires |extras| == |dto.items|
    ensures OrderDraft(Placed(dto, id, orderNumber, orderDate, status, totalAmount, extras, createdAt, updatedAt)) == dto
  {
  }

  // ----- Transactions -----

  datatype TransactionType = STOCK_IN | STOCK_OUT | ADJUSTMENT

  function TransactionTypeName(t: TransactionType): string {
    match t
    case STOCK_IN => "STOCK_IN"
    case STOCK_OUT => "STOCK_OUT"
    case ADJUSTMENT => "ADJUSTMENT"
  }

  /** A transaction type on the wire is exactly one of the three literals. */
  function ParseTransactionType(s: string): (r: Option<TransactionType>)
    ensures r.Some? ==> TransactionTypeName(r.value) == s
    ensures r.None? ==> forall v :: TransactionTypeName(v) != s
  {
    if s == "STOCK_IN" then Some(STOCK_IN)
    else if s == "STOCK_OUT" then Some(STOCK_OUT)
    else if s == "ADJUSTMENT" then Some(ADJUSTMENT)
    else None
  }

  /** `referenceId` is the only optional field; the source's `type` is `kind` here. */
  datatype Transaction = Transaction(
    id: int,
    productId: int,
    productName: string,
    kind: TransactionType,
    quantity: int,
    reason: string,
    referenceId: Option<int>,
    createdAt: string)

  /** `Omit<Transaction, 'id' | 'createdAt'>`: the body of a transaction-create call. */
  datatype NewTransaction = NewTransaction(
    productId: int,
    productName: string,
    kind: TransactionType,
    quantity: int,
    reason: string,
    referenceId: Option<int>)

  function TransactionDraft(t: Transaction): NewTransaction {
    NewTransaction(t.productId, t.productName, t.kind, t.quantity, t.reason, t.referenceId)
  }

  function Recorded(n: NewTransaction, id: int, createdAt: string): Transaction {
    Transaction(id, n.productId, n.productName, n.kind, n.quantity, n.reason, n.referenceId, createdAt)
  }

  /** The create body is exactly a Transaction without id and createdAt: nothing else is lost ... */
  lemma TransactionSplitsIntoDraft(t: Transaction)
    ensures Recorded(TransactionDraft(t), t.id, t.createdAt) == t
  {
  }

  /** ... and nothing is added. */
  lemma DraftOfRecorded(n: NewTransaction, id: int, createdAt: string)
    ensures TransactionDraft(Recorded(n, id, createdAt)) == n
  {
  }

  // ----- Pages -----

  /** A page of results; `number` is the zero-based page index. */
  datatype PaginatedResponse<T> = PaginatedResponse(
    content: seq<T>,
    totalElements: int,
    totalPages: int,
    size: int,
    number: int,
    first: bool,
    last: bool)

  /** What the list calls declare they return: only the content and the total count. */
  datatype PageSummary<T> = PageSummary(content: seq<T>, totalElements: int)
}

/**
 * The records of the application (`types.ts`) and the JSON object each one
 * is written as. Money is an integer number of FCFA; dates and timestamps
 * are integers.
 */
module Types {
  import opened Wrappers
  import opened Storage

  datatype TxType = Sale | Purchase | Expense | CreditRepayment | SupplierPayment | SocialContribution
  datatype UserRole = Owner | Manager | Cashier
  datatype BusinessType = Boutique | Restaurant | Hotel | Supermarket | General | Warehouse
  datatype Severity = Low | Medium | High
  datatype DebtStatus = Pending | Paid

  datatype ReceiptConfig = ReceiptConfig(
    headerNote: Option<string>,
    footerNote: Option<string>,
    showTax: Option<bool>,
    showQR: Option<bool>,
    logo: Option<string>)

  datatype UserProfile = UserProfile(
    id: string,
    name: string,
    role: UserRole,
    businessName: string,
    businessType: BusinessType,
    location: string,
    logo: Option<string>,
    isSimplifiedMode: bool,
    receiptConfig: ReceiptConfig,
    preferredLanguage: string)

  datatype Product = Product(
    id: string,
    name: string,
    price: int,
    purchasePrice: int,
    stock: int,
    minStock: int,
    unit: string,
    category: string,
    sku: string,
    image: Option<string>,
    qrCode: Option<string>)

  datatype Transaction = Transaction(
    id: string,
    date: int,
    kind: TxType,
    amount: int,
    description: string,
    category: string,
    paymentMethod: string,
    customerName: Option<string>,
    discount: Option<int>,
    taxAmount: Option<int>)

  datatype Debt = Debt(
    id: string,
    customerName: string,
    phone: string,
    amount: int,
    remainingAmount: int,
    description: string,
    date: int,
    dueDate: string,
    status: DebtStatus)

  datatype Supplier = Supplier(
    id: string,
    name: string,
    contact: string,
    category: string,
    address: string,
    totalBusiness: int,
    balance: int,
    lastDelivery: Option<string>)

  datatype AuditLog = AuditLog(
    id: string,
    timestamp: int,
    action: string,
    details: string,
    severity: Severity)

  /** The closing line of a receipt when none is configured. */
  const ThanksNote: string := "Merci de votre fidélité !"

  // ------------------------------------------------- what the screens hand over

  /** The object a screen passes to `onAddTransaction`; an empty string stands for a missing field. */
  datatype TxDraft = TxDraft(
    kind: TxType,
    amount: int,
    description: string,
    category: string,
    paymentMethod: string,
    customerName: Option<string>,
    discount: Option<int>,
    taxAmount: Option<int>)

  /** The object the debts screen passes to `onAddDebt`: its form with the amount made a number. */
  datatype DebtDraft = DebtDraft(customerName: string, phone: string, amount: int, description: string, dueDate: string)

  /** The suppliers form as it is passed to `onAddSupplier`. */
  datatype SupplierDraft = SupplierDraft(name: string, contact: string, category: string, address: string)

  /** The user object the sign-in screen reports. */
  datatype AuthUser = AuthUser(id: string, name: string, role: UserRole)

  // ------------------------------------------------------------ JSON shapes

  function TxTypeName(k: TxType): string
  {
    match k
    case Sale => "sale"
    case Purchase => "purchase"
    case Expense => "expense"
    case CreditRepayment => "credit_repayment"
    case SupplierPayment => "supplier_payment"
    case SocialContribution => "social_contribution"
  }

  function RoleName(r: UserRole): string
  {
    match r
    case Owner => "owner"
    case Manager => "manager"
    case Cashier => "cashier"
  }

  function BusinessTypeName(b: BusinessType): string
  {
    match b
    case Boutique => "boutique"
    case Restaurant => "restaurant"
    case Hotel => "hotel"
    case Supermarket => "supermarket"
    case General => "general"
    case Warehouse => "warehouse"
  }

  /** An optional field: `JSON.stringify` leaves out a property that is undefined. */
  function OptStr(key: string, v: Option<string>): map<string, Json>
  {
    if v.Some? then map[key := JStr(v.value)] else map[]
  }

  function OptNum(key: string, v: Option<int>): map<string, Json>
  {
    if v.Some? then map[key := JNum(v.value)] else map[]
  }

  function OptBool(key: string, v: Option<bool>): map<string, Json>
  {
    if v.Some? then map[key := JBool(v.value)] else map[]
  }

  /** The object a transaction is written as; its `id` property is the transaction's id. */
  function TransactionJson(t: Transaction): (j: Json)
    ensures j.JObj? && "id" in j.fields && j.fields["id"] == JStr(t.id)
  {
    JObj(
      OptStr("customerName", t.customerName) + OptNum("discount", t.discount) + OptNum("taxAmount", t.taxAmount)
      + map["id" := JStr(t.id), "date" := JNum(t.date), "type" := JStr(TxTypeName(t.kind)),
            "amount" := JNum(t.amount), "description" := JStr(t.description),
            "category" := JStr(t.category), "paymentMethod" := JStr(t.paymentMethod)])
  }

  function ProductJson(p: Product): (j: Json)
    ensures j.JObj? && "id" in j.fields && j.fields["id"] == JStr(p.id)
  {
    JObj(
      OptStr("image", p.image) + OptStr("qrCode", p.qrCode)
      + map["id" := JStr(p.id), "name" := JStr(p.name), "price" := JNum(p.price),
            "purchasePrice" := JNum(p.purchasePrice), "stock" := JNum(p.stock),
            "minStock" := JNum(p.minStock), "unit" := JStr(p.unit),
            "category" := JStr(p.category), "sku" := JStr(p.sku)])
  }

  function DebtJson(d: Debt): (j: Json)
    ensures j.JObj? && "id" in j.fields && j.fields["id"] == JStr(d.id)
  {
    JObj(map["id" := JStr(d.id), "customerName" := JStr(d.customerName), "phone" := JStr(d.phone),
             "amount" := JNum(d.amount), "remainingAmount" := JNum(d.remainingAmount),
             "description" := JStr(d.description), "date" := JNum(d.date), "dueDate" := JStr(d.dueDate),
             "status" := JStr(if d.status == Paid then "paid" else "pending")])
  }

  function SupplierJson(s: Supplier): (j: Json)
    ensures j.JObj? && "id" in j.fields && j.fields["id"] == JStr(s.id)
  {
    JObj(
      OptStr("lastDelivery", s.lastDelivery)
      + map["id" := JStr(s.id), "name" := JStr(s.name), "contact" := JStr(s.contact),
            "category" := JStr(s.category), "address" := JStr(s.address),
            "totalBusiness" := JNum(s.totalBusiness), "balance" := JNum(s.balance)])
  }

  function ReceiptConfigJson(r: ReceiptConfig): Json
  {
    JObj(OptStr("headerNote", r.headerNote) + OptStr("footerNote", r.footerNote)
         + OptBool("showTax", r.showTax) + OptBool("showQR", r.showQR) + OptStr("logo", r.logo))
  }

  function ProfileJson(u: UserProfile): (j: Json)
    ensures j.JObj?
  {
    JObj(
      OptStr("logo", u.logo)
      + map["id" := JStr(u.id), "name" := JStr(u.name), "role" := JStr(RoleName(u.role)),
            "businessName" := JStr(u.businessName), "businessType" := JStr(BusinessTypeName(u.businessType)),
            "location" := JStr(u.location), "isSimplifiedMode" := JBool(u.isSimplifiedMode),
            "receiptConfig" := ReceiptConfigJson(u.receiptConfig),
            "learningProfile" := JObj(map["preferredLanguage" := JStr(u.preferredLanguage)])])
  }
}

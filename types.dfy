/** The records of the marketplace as the typed client declares them
    (User, Service, Booking, Category), with dates as day numbers,
    timestamps as integers and amounts in whole taka. */
module Types {

  datatype Option<+T> = None | Some(value: T)

  /** Role of a profile; `Customer` is the role the database spells 'user'. */
  datatype Role = Customer | Provider | Admin

  function RoleName(r: Role): string
  {
    match r
    case Customer => "user"
    case Provider => "provider"
    case Admin => "admin"
  }

  datatype BookingStatus = Pending | Confirmed | Completed | Cancelled

  /** The spelling of a booking status in the database and in the UI filters. */
  function StatusName(st: BookingStatus): string
  {
    match st
    case Pending => "pending"
    case Confirmed => "confirmed"
    case Completed => "completed"
    case Cancelled => "cancelled"
  }

  lemma StatusNameInjective(a: BookingStatus, b: BookingStatus)
    ensures StatusName(a) == StatusName(b) <==> a == b
  {
  }

  datatype PaymentStatus = PaymentPending | PaymentCompleted | PaymentFailed

  datatype User = User(
    id: string,
    email: string,
    name: string,
    phone: string,
    role: Role,
    location: Option<string>,
    profession: Option<string>,
    verified: bool,
    createdAt: int,
    updatedAt: int)

  datatype Service = Service(
    id: string,
    title: string,
    description: string,
    price: int,
    category: string,
    providerId: string,
    location: string,
    rating: int,
    imageUrl: string,
    available: bool,
    createdAt: int,
    updatedAt: int)

  datatype Booking = Booking(
    id: string,
    serviceId: string,
    userId: string,
    providerId: string,
    date: int,
    time: string,
    address: string,
    notes: Option<string>,
    status: BookingStatus,
    totalAmount: int,
    paymentMethod: Option<string>,
    paymentStatus: PaymentStatus,
    createdAt: int,
    updatedAt: int)

  datatype Category = Category(
    id: string,
    name: string,
    description: string,
    icon: string,
    createdAt: int)

  /** A service row without the columns the database fills in (id and timestamps). */
  datatype ServiceDraft = ServiceDraft(
    title: string,
    description: string,
    price: int,
    category: string,
    providerId: string,
    location: string,
    rating: int,
    imageUrl: string,
    available: bool)

  /** A booking row without the columns the database fills in (id and timestamps). */
  datatype BookingDraft = BookingDraft(
    serviceId: string,
    userId: string,
    providerId: string,
    date: int,
    time: string,
    address: string,
    notes: Option<string>,
    status: BookingStatus,
    totalAmount: int,
    paymentMethod: Option<string>,
    paymentStatus: PaymentStatus)

  /** A partial update of a service row: `None` leaves the column as it is. */
  datatype ServicePatch = ServicePatch(
    title: Option<string>,
    description: Option<string>,
    price: Option<int>,
    category: Option<string>,
    providerId: Option<string>,
    location: Option<string>,
    rating: Option<int>,
    imageUrl: Option<string>,
    available: Option<bool>)

  /** A partial update of a booking row: `None` leaves the column as it is. */
  datatype BookingPatch = BookingPatch(
    status: Option<BookingStatus>,
    paymentStatus: Option<PaymentStatus>)

  /** How a call into the hosted auth provider ends: no error, an error object with a message, or a thrown exception. */
  datatype AuthReply = AuthOk | AuthFailed(message: string) | AuthThrew

  function Pick<T>(o: Option<T>, keep: T): T
  {
    match o
    case Some(v) => v
    case None => keep
  }

  /** A column after an update: the patch's value when it names one, the old value otherwise. */
  predicate Agrees<T(==)>(o: Option<T>, before: T, after: T)
  {
    if o.Some? then after == o.value else after == before
  }

  /** The row an update writes: every column the patch names, and `updated_at` stamped with `now`. */
  function PatchService(s: Service, p: ServicePatch, now: int): (r: Service)
    ensures r.id == s.id && r.createdAt == s.createdAt && r.updatedAt == now
    ensures Agrees(p.title, s.title, r.title) && Agrees(p.description, s.description, r.description)
    ensures Agrees(p.price, s.price, r.price) && Agrees(p.category, s.category, r.category)
    ensures Agrees(p.providerId, s.providerId, r.providerId) && Agrees(p.location, s.location, r.location)
    ensures Agrees(p.rating, s.rating, r.rating) && Agrees(p.imageUrl, s.imageUrl, r.imageUrl)
    ensures Agrees(p.available, s.available, r.available)
  {
    Service(s.id, Pick(p.title, s.title), Pick(p.description, s.description), Pick(p.price, s.price),
            Pick(p.category, s.category), Pick(p.providerId, s.providerId), Pick(p.location, s.location),
            Pick(p.rating, s.rating), Pick(p.imageUrl, s.imageUrl), Pick(p.available, s.available),
            s.createdAt, now)
  }

  /** A booking update writes status and payment status where named, stamps `updated_at`, and leaves
      every other column as it was. */
  function PatchBooking(b: Booking, p: BookingPatch, now: int): (r: Booking)
    ensures Agrees(p.status, b.status, r.status) && Agrees(p.paymentStatus, b.paymentStatus, r.paymentStatus)
    ensures r.updatedAt == now
    ensures r.(status := b.status, paymentStatus := b.paymentStatus, updatedAt := b.updatedAt) == b
  {
    Booking(b.id, b.serviceId, b.userId, b.providerId, b.date, b.time, b.address, b.notes,
            Pick(p.status, b.status), b.totalAmount, b.paymentMethod, Pick(p.paymentStatus, b.paymentStatus),
            b.createdAt, now)
  }

  /** The columns of a service row that an insert supplies. */
  function ServiceDraftOf(s: Service): ServiceDraft
  {
    ServiceDraft(s.title, s.description, s.price, s.category, s.providerId, s.location, s.rating,
                 s.imageUrl, s.available)
  }

  /** The columns of a booking row that an insert supplies. */
  function BookingDraftOf(b: Booking): BookingDraft
  {
    BookingDraft(b.serviceId, b.userId, b.providerId, b.date, b.time, b.address, b.notes, b.status,
                 b.totalAmount, b.paymentMethod, b.paymentStatus)
  }

  /** The row an insert creates: the draft's columns, the new id, and both timestamps set to `now`. */
  function ServiceFromDraft(d: ServiceDraft, id: string, now: int): (r: Service)
    ensures ServiceDraftOf(r) == d
    ensures r.id == id && r.createdAt == now && r.updatedAt == now
  {
    Service(id, d.title, d.description, d.price, d.category, d.providerId, d.location, d.rating,
            d.imageUrl, d.available, now, now)
  }

  function BookingFromDraft(d: BookingDraft, id: string, now: int): (r: Booking)
    ensures BookingDraftOf(r) == d
    ensures r.id == id && r.createdAt == now && r.updatedAt == now
  {
    Booking(id, d.serviceId, d.userId, d.providerId, d.date, d.time, d.address, d.notes, d.status,
            d.totalAmount, d.paymentMethod, d.paymentStatus, now, now)
  }
}

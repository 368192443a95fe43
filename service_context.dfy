/** The catalog and booking store: in-memory caches of services,
    bookings and categories, filled from the remote tables and fully
    refetched after every mutation. The remote database is modelled as
    three in-memory tables held by the same object; a failure of a remote
    call is a parameter of the operation. */
module ServiceContext {
  import opened Types
  import Seqs
  import Bookings

  predicate IsAvailable(s: Service)
  {
    s.available
  }

  /** `order('created_at', { ascending: false })`. */
  predicate NewerService(a: Service, b: Service)
  {
    a.createdAt >= b.createdAt
  }

  predicate NewerBooking(a: Booking, b: Booking)
  {
    a.createdAt >= b.createdAt
  }

  /** Lexicographic order of strings, character by character. */
  predicate LexLe(a: string, b: string)
    decreases |a|
  {
    a == [] || (b != [] && (a[0] < b[0] || (a[0] == b[0] && LexLe(a[1..], b[1..]))))
  }

  lemma {:induction false} LexLeTotal(a: string, b: string)
    ensures LexLe(a, b) || LexLe(b, a)
    decreases |a|
  {
    if a != [] && b != [] && a[0] == b[0] {
      LexLeTotal(a[1..], b[1..]);
    }
  }

  lemma {:induction false} LexLeTransitive(a: string, b: string, c: string)
    requires LexLe(a, b) && LexLe(b, c)
    ensures LexLe(a, c)
    decreases |a|
  {
    if a != [] && a[0] == b[0] && b[0] == c[0] {
      LexLeTransitive(a[1..], b[1..], c[1..]);
    }
  }

  /** `order('name')`: ascending by name. */
  predicate NameOrder(a: Category, b: Category)
  {
    LexLe(a.name, b.name)
  }

  lemma NewerServiceIsPreorder()
    ensures Seqs.TotalPreorder(NewerService)
  {
  }

  lemma NewerBookingIsPreorder()
    ensures Seqs.TotalPreorder(NewerBooking)
  {
  }

  lemma NameOrderIsPreorder()
    ensures Seqs.TotalPreorder(NameOrder)
  {
    forall a: Category, b: Category ensures NameOrder(a, b) || NameOrder(b, a) {
      LexLeTotal(a.name, b.name);
    }
    forall a: Category, b: Category, c: Category | NameOrder(a, b) && NameOrder(b, c) ensures NameOrder(a, c) {
      LexLeTransitive(a.name, b.name, c.name);
    }
  }

  /** What a successful `fetchServices` stores: the available rows, newest first. */
  function AvailableNewest(rows: seq<Service>): (r: seq<Service>)
    ensures forall s | s in r :: s.available
    ensures forall s :: multiset(r)[s] == if s.available then multiset(rows)[s] else 0
    ensures forall i, j | 0 <= i < j < |r| :: r[i].createdAt >= r[j].createdAt
  {
    var kept := Seqs.Filter(rows, IsAvailable);
    NewerServiceIsPreorder();
    Seqs.SortBySorted(kept, NewerService);
    Seqs.SameElements(Seqs.SortBy(kept, NewerService), kept);
    Seqs.SortBy(kept, NewerService)
  }

  /** The row filter `fetchBookings` adds to its query for the signed-in role. */
  function RoleRows(rows: seq<Booking>, u: User): seq<Booking>
  {
    match u.role
    case Customer => Bookings.OwnedBy(rows, u.id)
    case Provider => Bookings.ProvidedBy(rows, u.id)
    case Admin => rows
  }

  /** What a successful `fetchBookings` stores for `u`: exactly the rows the role may see, newest first. */
  function VisibleBookings(rows: seq<Booking>, u: User): (r: seq<Booking>)
    ensures u.role == Customer ==> forall b :: multiset(r)[b] == if b.userId == u.id then multiset(rows)[b] else 0
    ensures u.role == Provider ==> forall b :: multiset(r)[b] == if b.providerId == u.id then multiset(rows)[b] else 0
    ensures u.role == Admin ==> multiset(r) == multiset(rows)
    ensures forall i, j | 0 <= i < j < |r| :: r[i].createdAt >= r[j].createdAt
  {
    var kept := RoleRows(rows, u);
    NewerBookingIsPreorder();
    Seqs.SortBySorted(kept, NewerBooking);
    Seqs.SortBy(kept, NewerBooking)
  }

  /** What a successful `fetchCategories` stores: every row, ascending by name. */
  function CategoriesByName(rows: seq<Category>): (r: seq<Category>)
    ensures multiset(r) == multiset(rows)
    ensures forall i, j | 0 <= i < j < |r| :: LexLe(r[i].name, r[j].name)
  {
    NameOrderIsPreorder();
    Seqs.SortBySorted(rows, NameOrder);
    Seqs.SortBy(rows, NameOrder)
  }

  /** The table after `update(...).eq('id', id)`: each row with that id patched and stamped, every other row as it was. */
  function UpdateServiceRows(rows: seq<Service>, id: string, p: ServicePatch, now: int): (r: seq<Service>)
    ensures |r| == |rows|
    ensures forall i | 0 <= i < |rows| :: r[i] == if rows[i].id == id then PatchService(rows[i], p, now) else rows[i]
  {
    if rows == [] then []
    else [if rows[0].id == id then PatchService(rows[0], p, now) else rows[0]] + UpdateServiceRows(rows[1..], id, p, now)
  }

  /** The table after `delete().eq('id', id)`: the other rows, unchanged and in order. */
  function DeleteServiceRows(rows: seq<Service>, id: string): (r: seq<Service>)
    ensures forall s | s in r :: s.id != id
    ensures forall s :: multiset(r)[s] == if s.id == id then 0 else multiset(rows)[s]
  {
    Seqs.Filter(rows, (s: Service) => s.id != id)
  }

  function UpdateBookingRows(rows: seq<Booking>, id: string, p: BookingPatch, now: int): (r: seq<Booking>)
    ensures |r| == |rows|
    ensures forall i | 0 <= i < |rows| :: r[i] == if rows[i].id == id then PatchBooking(rows[i], p, now) else rows[i]
  {
    if rows == [] then []
    else [if rows[0].id == id then PatchBooking(rows[0], p, now) else rows[0]] + UpdateBookingRows(rows[1..], id, p, now)
  }

  /** The update `cancelBooking` sends. */
  const CancelPatch := BookingPatch(Some(Cancelled), None)

  /** Cancelling changes only the target rows: their status becomes cancelled and `updated_at` is refreshed. */
  lemma CancelChangesOnlyTarget(rows: seq<Booking>, id: string, now: int)
    ensures var r := UpdateBookingRows(rows, id, CancelPatch, now);
      && |r| == |rows|
      && (forall i | 0 <= i < |rows| && rows[i].id != id :: r[i] == rows[i])
      && (forall i | 0 <= i < |rows| && rows[i].id == id :: r[i] == rows[i].(status := Cancelled, updatedAt := now))
  {
  }

  /** Cancelling twice is cancelling once, with the second timestamp. */
  lemma CancelTwice(rows: seq<Booking>, id: string, now1: int, now2: int)
    ensures UpdateBookingRows(UpdateBookingRows(rows, id, CancelPatch, now1), id, CancelPatch, now2)
         == UpdateBookingRows(rows, id, CancelPatch, now2)
  {
    var once := UpdateBookingRows(rows, id, CancelPatch, now1);
    var twice := UpdateBookingRows(once, id, CancelPatch, now2);
    var direct := UpdateBookingRows(rows, id, CancelPatch, now2);
    assert forall i | 0 <= i < |rows| :: twice[i] == direct[i];
  }

  /** After `updateService(id, {available: false})` and the refetch, no cached service has that id. */
  lemma HiddenAfterRefetch(rows: seq<Service>, id: string, p: ServicePatch, now: int)
    requires p.available == Some(false)
    ensures forall s | s in AvailableNewest(UpdateServiceRows(rows, id, p, now)) :: s.id != id
  {
    var updated := UpdateServiceRows(rows, id, p, now);
    forall s | s in AvailableNewest(updated) ensures s.id != id {
      assert s in multiset(AvailableNewest(updated));
      assert s in updated;
      var i :| 0 <= i < |updated| && updated[i] == s;
    }
  }

  /** After `deleteService(id)` and the refetch, neither the table nor the cache holds that id. */
  lemma GoneAfterDelete(rows: seq<Service>, id: string)
    ensures forall s | s in DeleteServiceRows(rows, id) :: s.id != id
    ensures forall s | s in AvailableNewest(DeleteServiceRows(rows, id)) :: s.id != id
  {
    var left := DeleteServiceRows(rows, id);
    forall s | s in AvailableNewest(left) ensures s.id != id {
      assert s in multiset(AvailableNewest(left));
      assert s in left;
    }
  }

  class Store {
    // the caches the pages read
    var services: seq<Service>
    var bookings: seq<Booking>
    var categories: seq<Category>
    var loading: bool
    // the identity the auth provider reports
    var user: Option<User>
    var session: bool
    // the remote tables
    var remoteServices: seq<Service>
    var remoteBookings: seq<Booking>
    var remoteCategories: seq<Category>

    constructor (serviceRows: seq<Service>, bookingRows: seq<Booking>, categoryRows: seq<Category>)
      ensures services == [] && bookings == [] && categories == [] && loading
      ensures user == None && !session
      ensures remoteServices == serviceRows && remoteBookings == bookingRows && remoteCategories == categoryRows
    {
      services, bookings, categories, loading := [], [], [], true;
      user, session := None, false;
      remoteServices, remoteBookings, remoteCategories := serviceRows, bookingRows, categoryRows;
    }

    /** `fetchServices`; a failed query resets the cache to empty. */
    method FetchServices(fails: bool)
      modifies this`services
      ensures services == if fails then [] else AvailableNewest(remoteServices)
    {
      if fails {
        services := [];
      } else {
        services := AvailableNewest(remoteServices);
      }
    }

    /** `fetchBookings`: nothing without a user; otherwise the role-filtered query, or empty on failure. */
    method FetchBookings(fails: bool)
      modifies this`bookings
      ensures user.None? ==> bookings == old(bookings)
      ensures user.Some? ==> bookings == if fails then [] else VisibleBookings(remoteBookings, user.value)
    {
      if user.None? {
        return;
      }
      var u := user.value;
      var query := remoteBookings;
      if u.role == Customer {
        query := Bookings.OwnedBy(query, u.id);
      } else if u.role == Provider {
        query := Bookings.ProvidedBy(query, u.id);
      }
      query := Seqs.SortBy(query, NewerBooking);
      if fails {
        bookings := [];
      } else {
        bookings := query;
      }
    }

    /** `fetchCategories`; `loading` ends false whatever the outcome. */
    method FetchCategories(fails: bool)
      modifies this`categories, this`loading
      ensures categories == if fails then [] else CategoriesByName(remoteCategories)
      ensures !loading
    {
      if fails {
        categories := [];
      } else {
        categories := CategoriesByName(remoteCategories);
      }
      loading := false;
    }

    /** The effect run whenever the user or the session changes. */
    method IdentityChanged(u: Option<User>, hasSession: bool, categoriesFail: bool, servicesFail: bool, bookingsFail: bool)
      modifies this
      ensures user == u && session == hasSession && !loading
      ensures remoteServices == old(remoteServices) && remoteBookings == old(remoteBookings)
      ensures remoteCategories == old(remoteCategories)
      ensures categories == if categoriesFail then [] else CategoriesByName(remoteCategories)
      ensures services == if servicesFail then [] else AvailableNewest(remoteServices)
      ensures bookings == if hasSession && u.Some? then (if bookingsFail then [] else VisibleBookings(remoteBookings, u.value)) else []
    {
      user, session := u, hasSession;
      FetchCategories(categoriesFail);
      FetchServices(servicesFail);
      if hasSession && u.Some? {
        FetchBookings(bookingsFail);
      } else {
        bookings := [];
        loading := false;
      }
    }

    /** `createService`: insert, then refetch services; a failed insert returns its error and skips the refetch. */
    method CreateService(draft: ServiceDraft, newId: string, now: int, dbError: Option<string>, refetchFails: bool)
      returns (error: Option<string>)
      modifies this`remoteServices, this`services
      ensures error == dbError
      ensures dbError.Some? ==> remoteServices == old(remoteServices) && services == old(services)
      ensures dbError.None? ==> remoteServices == old(remoteServices) + [ServiceFromDraft(draft, newId, now)]
      ensures dbError.None? ==> services == if refetchFails then [] else AvailableNewest(remoteServices)
    {
      if dbError.Some? {
        return dbError;
      }
      remoteServices := remoteServices + [ServiceFromDraft(draft, newId, now)];
      FetchServices(refetchFails);
      return None;
    }

    /** `updateService`: patch the rows with that id, stamping `updated_at`, then refetch services. */
    method UpdateService(id: string, patch: ServicePatch, now: int, dbError: Option<string>, refetchFails: bool)
      returns (error: Option<string>)
      modifies this`remoteServices, this`services
      ensures error == dbError
      ensures dbError.Some? ==> remoteServices == old(remoteServices) && services == old(services)
      ensures dbError.None? ==> remoteServices == UpdateServiceRows(old(remoteServices), id, patch, now)
      ensures dbError.None? ==> services == if refetchFails then [] else AvailableNewest(remoteServices)
    {
      if dbError.Some? {
        return dbError;
      }
      remoteServices := UpdateServiceRows(remoteServices, id, patch, now);
      FetchServices(refetchFails);
      return None;
    }

    /** `deleteService`: remove the rows with that id, then refetch services. */
    method DeleteService(id: string, dbError: Option<string>, refetchFails: bool)
      returns (error: Option<string>)
      modifies this`remoteServices, this`services
      ensures error == dbError
      ensures dbError.Some? ==> remoteServices == old(remoteServices) && services == old(services)
      ensures dbError.None? ==> remoteServices == DeleteServiceRows(old(remoteServices), id)
      ensures dbError.None? ==> services == if refetchFails then [] else AvailableNewest(remoteServices)
    {
      if dbError.Some? {
        return dbError;
      }
      remoteServices := DeleteServiceRows(remoteServices, id);
      FetchServices(refetchFails);
      return None;
    }

    /** `createBooking`: insert, then refetch bookings for the current user. */
    method CreateBooking(draft: BookingDraft, newId: string, now: int, dbError: Option<string>, refetchFails: bool)
      returns (error: Option<string>)
      modifies this`remoteBookings, this`bookings
      ensures error == dbError
      ensures dbError.Some? ==> remoteBookings == old(remoteBookings) && bookings == old(bookings)
      ensures dbError.None? ==> remoteBookings == old(remoteBookings) + [BookingFromDraft(draft, newId, now)]
      ensures dbError.None? && user.None? ==> bookings == old(bookings)
      ensures dbError.None? && user.Some? ==>
        bookings == if refetchFails then [] else VisibleBookings(remoteBookings, user.value)
    {
      if dbError.Some? {
        return dbError;
      }
      remoteBookings := remoteBookings + [BookingFromDraft(draft, newId, now)];
      FetchBookings(refetchFails);
      return None;
    }

    /** `updateBooking`: patch the rows with that id, stamping `updated_at`, then refetch bookings. */
    method UpdateBooking(id: string, patch: BookingPatch, now: int, dbError: Option<string>, refetchFails: bool)
      returns (error: Option<string>)
      modifies this`remoteBookings, this`bookings
      ensures error == dbError
      ensures dbError.Some? ==> remoteBookings == old(remoteBookings) && bookings == old(bookings)
      ensures dbError.None? ==> remoteBookings == UpdateBookingRows(old(remoteBookings), id, patch, now)
      ensures dbError.None? && user.None? ==> bookings == old(bookings)
      ensures dbError.None? && user.Some? ==>
        bookings == if refetchFails then [] else VisibleBookings(remoteBookings, user.value)
    {
      if dbError.Some? {
        return dbError;
      }
      remoteBookings := UpdateBookingRows(remoteBookings, id, patch, now);
      FetchBookings(refetchFails);
      return None;
    }

    /** `cancelBooking`: set status 'cancelled' and `updated_at` on the rows with that id, then refetch bookings. */
    method CancelBooking(id: string, now: int, dbError: Option<string>, refetchFails: bool)
      returns (error: Option<string>)
      modifies this`remoteBookings, this`bookings
      ensures error == dbError
      ensures dbError.Some? ==> remoteBookings == old(remoteBookings) && bookings == old(bookings)
      ensures dbError.None? ==> remoteBookings == UpdateBookingRows(old(remoteBookings), id, CancelPatch, now)
      ensures dbError.None? && user.None? ==> bookings == old(bookings)
      ensures dbError.None? && user.Some? ==>
        bookings == if refetchFails then [] else VisibleBookings(remoteBookings, user.value)
    {
      if dbError.Some? {
        return dbError;
      }
      remoteBookings := UpdateBookingRows(remoteBookings, id, CancelPatch, now);
      FetchBookings(refetchFails);
      return None;
    }
  }

  /** Cancelling the same booking twice succeeds both times and leaves it cancelled. */
  method CancelTwiceScenario(store: Store, id: string, now1: int, now2: int)
    modifies store
    ensures forall i | 0 <= i < |store.remoteBookings| && store.remoteBookings[i].id == id ::
      store.remoteBookings[i].status == Cancelled
  {
    var e1 := store.CancelBooking(id, now1, None, false);
    var e2 := store.CancelBooking(id, now2, None, false);
    assert e1 == None && e2 == None;
    CancelTwice(old(store.remoteBookings), id, now1, now2);
  }
}

/** One service's card: the owner's availability toggle and delete
    button, the booking link for everyone else, and the "unavailable"
    overlay. */
module ServiceCard {
  import opened Types
  import ServiceContext
  import App
  import BookingPage

  /** The update the toggle sends: `available` flipped, nothing else. */
  function TogglePatch(s: Service): ServicePatch
  {
    ServicePatch(None, None, None, None, None, None, None, None, Some(!s.available))
  }

  /** The toggle flips availability and leaves every other column alone; toggling twice restores the row. */
  lemma ToggleFlipsOnlyAvailability(s: Service, now1: int, now2: int)
    ensures PatchService(s, TogglePatch(s), now1) == s.(available := !s.available, updatedAt := now1)
    ensures var t := PatchService(s, TogglePatch(s), now1);
      PatchService(t, TogglePatch(t), now2) == s.(updatedAt := now2)
  {
  }

  /** `handleToggleAvailability`: delegates to `updateService` and ignores its result. */
  method ToggleAvailability(store: ServiceContext.Store, s: Service, now: int, dbError: Option<string>, refetchFails: bool)
    modifies store`remoteServices, store`services
    ensures dbError.Some? ==> store.remoteServices == old(store.remoteServices) && store.services == old(store.services)
    ensures dbError.None? ==>
      store.remoteServices == ServiceContext.UpdateServiceRows(old(store.remoteServices), s.id, TogglePatch(s), now)
    ensures dbError.None? ==> store.services == if refetchFails then [] else ServiceContext.AvailableNewest(store.remoteServices)
    ensures dbError.None? && !refetchFails && s.available ==> forall c | c in store.services :: c.id != s.id
  {
    var _ := store.UpdateService(s.id, TogglePatch(s), now, dbError, refetchFails);
    if dbError.None? && !refetchFails && s.available {
      ServiceContext.HiddenAfterRefetch(old(store.remoteServices), s.id, TogglePatch(s), now);
    }
  }

  /** `handleDelete`: deletes only once the confirmation dialog returned true. */
  method HandleDelete(store: ServiceContext.Store, s: Service, confirmed: bool, dbError: Option<string>, refetchFails: bool)
    modifies store`remoteServices, store`services
    ensures !confirmed || dbError.Some? ==>
      store.remoteServices == old(store.remoteServices) && store.services == old(store.services)
    ensures confirmed && dbError.None? ==>
      store.remoteServices == ServiceContext.DeleteServiceRows(old(store.remoteServices), s.id)
    ensures confirmed && dbError.None? ==>
      store.services == if refetchFails then [] else ServiceContext.AvailableNewest(store.remoteServices)
  {
    if confirmed {
      var _ := store.DeleteService(s.id, dbError, refetchFails);
    }
  }

  /** Edit, toggle and delete show for the owner when the card is asked to show actions. */
  function ShowOwnerActions(showActions: bool, user: Option<User>, s: Service): bool
  {
    showActions && user.Some? && user.value.id == s.providerId
  }

  /** Otherwise the booking link shows for an available service: an owner managing their card never
      sees it, nobody sees it for an unavailable service, and anyone else sees it exactly when the
      service is available. */
  function ShowBookingLink(showActions: bool, user: Option<User>, s: Service): (show: bool)
    ensures showActions && user.Some? && user.value.id == s.providerId ==> !show
    ensures !s.available ==> !show
    ensures !(showActions && user.Some? && user.value.id == s.providerId) ==> (show <==> s.available)
  {
    !ShowOwnerActions(showActions, user, s) && s.available
  }

  function ShowUnavailableOverlay(s: Service): bool
  {
    !s.available
  }

  /** The services cache holds only available rows, so no card built from it shows the overlay, and the
      toggle's "make available" state is never offered. */
  lemma CachedCardsNeverUnavailable(rows: seq<Service>, s: Service)
    requires s in ServiceContext.AvailableNewest(rows)
    ensures !ShowUnavailableOverlay(s)
  {
  }

  /** The booking link's target. */
  function BookingLink(s: Service): (path: string)
    ensures |path| == 6 + |s.id| && path[..6] == "/book/"
  {
    "/book/" + s.id
  }

  /** Following a card's booking link, a signed-in user reaches the booking flow for that service, as
      long as no earlier cached service has the same id. */
  lemma BookingLinkReachesFlow(services: seq<Service>, i: nat, u: User)
    requires i < |services| && services[i].id != "" && '/' !in services[i].id
    requires forall k | 0 <= k < i :: services[k].id != services[i].id
    ensures App.Screen(BookingLink(services[i]), false, Some(u)) == App.Render
    ensures BookingPage.PageView(services, services[i].id, Some(u)) == BookingPage.Flow(services[i], u)
  {
    var s := services[i];
    var path := BookingLink(s);
    assert path[6..] == s.id;
    assert path[1] == 'b' by {
      assert path[..6][1] == "/book/"[1];
    }
    assert path !in {"/login", "/register", "/user-dashboard", "/provider-dashboard", "/admin-dashboard"} by {
      assert "/login"[1] == 'l' && "/register"[1] == 'r' && "/user-dashboard"[1] == 'u';
      assert "/provider-dashboard"[1] == 'p' && "/admin-dashboard"[1] == 'a';
    }
  }
}

/** The provider's create/edit form for a service: its initial fields,
    the record it builds on submit (image, rating and availability
    fallbacks), and the choice between create and update. */
module ServiceForm {
  import opened Types
  import ServiceContext

  /** The form's fields. `price` is the number input's value, `None` while it is empty. */
  datatype FormData = FormData(title: string, description: string, price: Option<int>, category: string,
                               location: string, imageUrl: string)

  /** `a || b` on strings. */
  function Or(a: string, b: string): string
  {
    if a != "" then a else b
  }

  /** The initial fields: the edited service's, else empty; the location falls back to the user's. */
  function InitialForm(service: Option<Service>, user: Option<User>): (f: FormData)
    ensures service.None? ==> f.title == "" && f.description == "" && f.price == None && f.category == "" && f.imageUrl == ""
    ensures service.Some? ==>
      f.title == service.value.title && f.category == service.value.category
      && f.imageUrl == service.value.imageUrl && f.description == service.value.description
    ensures service.Some? && service.value.location != "" ==> f.location == service.value.location
    ensures (service.None? || service.value.location == "") && user.Some? && user.value.location.Some? ==>
      f.location == user.value.location.value
    ensures (service.None? || service.value.location == "") && (user.None? || user.value.location.None?) ==> f.location == ""
  {
    var userLocation := if user.Some? && user.value.location.Some? then user.value.location.value else "";
    match service
    case None => FormData("", "", None, "", userLocation, "")
    case Some(s) =>
      FormData(s.title, s.description, if s.price == 0 then None else Some(s.price), s.category,
               Or(s.location, userLocation), s.imageUrl)
  }

  /** `Number(formData.price)`: an empty field reads as 0. */
  function PriceNumber(p: Option<int>): int
  {
    match p
    case None => 0
    case Some(n) => n
  }

  /** A picture on the stock-photo site, at the width the form asks for. */
  function PhotoUrl(photo: string): (url: string)
    ensures |url| > |photo|
  {
    "https://images.pexels.com/photos/" + photo + "/pexels-photo-" + photo + ".jpeg?auto=compress&cs=tinysrgb&w=800"
  }

  /** The picture table keyed by category name. */
  function CategoryImage(category: string): (url: Option<string>)
    ensures url.Some? ==> url.value != ""
  {
    if category == "ইলেকট্রিক্যাল" then Some(PhotoUrl("257736"))
    else if category == "প্লাম্বিং" then Some(PhotoUrl("8486944"))
    else if category == "এসি সার্ভিস" then Some(PhotoUrl("7031406"))
    else if category == "ক্লিনিং" then Some(PhotoUrl("4239146"))
    else if category == "পেইন্টিং" then Some(PhotoUrl("1669799"))
    else if category == "কার্পেন্টার" then Some(PhotoUrl("5691659"))
    else None
  }

  const DefaultImage := PhotoUrl("4792509")

  /** The image stored: the entered URL, else the category's picture, else the default one. */
  function ImageUrlFor(entered: string, category: string): (url: string)
    ensures entered != "" ==> url == entered
    ensures entered == "" && CategoryImage(category).Some? ==> url == CategoryImage(category).value
    ensures entered == "" && CategoryImage(category).None? ==> url == DefaultImage
    ensures url != ""
  {
    if entered != "" then entered
    else match CategoryImage(category)
      case Some(u) => u
      case None => DefaultImage
  }

  /** `serviceData`: the form, the signed-in provider, a rating kept from the edited service (0 for a
      new one), and availability kept from it (true for a new one). */
  function ServiceData(f: FormData, user: User, service: Option<Service>): (d: ServiceDraft)
    ensures d.providerId == user.id && d.price == PriceNumber(f.price) && d.imageUrl == ImageUrlFor(f.imageUrl, f.category)
    ensures d.title == f.title && d.description == f.description && d.category == f.category && d.location == f.location
    ensures service.None? ==> d.rating == 0 && d.available
    ensures service.Some? ==> d.rating == service.value.rating && d.available == service.value.available
  {
    ServiceDraft(f.title, f.description, PriceNumber(f.price), f.category, user.id, f.location,
                 if service.Some? then service.value.rating else 0,
                 ImageUrlFor(f.imageUrl, f.category),
                 if service.Some? then service.value.available else true)
  }

  /** An update sends every field of the record. */
  function AsPatch(d: ServiceDraft): ServicePatch
  {
    ServicePatch(Some(d.title), Some(d.description), Some(d.price), Some(d.category), Some(d.providerId),
                 Some(d.location), Some(d.rating), Some(d.imageUrl), Some(d.available))
  }

  /** Opening a service of one's own for editing and saving without a change rewrites it as it was. */
  lemma SaveUnchangedKeepsService(s: Service, u: User, now: int)
    requires s.providerId == u.id && s.location != "" && s.imageUrl != ""
    ensures PatchService(s, AsPatch(ServiceData(InitialForm(Some(s), Some(u)), u, Some(s))), now) == s.(updatedAt := now)
  {
  }

  /** A new service with no picture entered gets the category's picture, or the default, never an empty URL. */
  lemma NewServiceHasPicture(f: FormData, u: User)
    requires f.imageUrl == ""
    ensures ServiceData(f, u, None).imageUrl != ""
    ensures ServiceData(f, u, None).imageUrl == if CategoryImage(f.category).Some? then CategoryImage(f.category).value else DefaultImage
  {
  }

  const SaveFailedMessage := "সার্ভিস সংরক্ষণে সমস্যা হয়েছে"

  /** The form's state. */
  class ServiceFormFlow {
    const user: User
    const service: Option<Service>
    const isEdit: bool
    var form: FormData
    var loading: bool
    var error: string
    /** Whether `onClose` has been called. */
    var closed: bool

    constructor (u: User, s: Option<Service>, edit: bool)
      ensures user == u && service == s && isEdit == edit
      ensures form == InitialForm(s, Some(u)) && !loading && error == "" && !closed
    {
      user, service, isEdit := u, s, edit;
      form := InitialForm(s, Some(u));
      loading, error, closed := false, "", false;
    }

    /** An input's `onChange`: the inputs stay enabled while a save runs. */
    method Edit(f: FormData)
      modifies this`form
      ensures form == f
    {
      form := f;
    }

    /** `handleSubmit`: update in edit mode with a service, create otherwise; close only on success. */
    method Submit(store: ServiceContext.Store, now: int, newId: string, dbError: Option<string>, refetchFails: bool)
      requires !loading
      modifies this`loading, this`error, this`closed, store`remoteServices, store`services
      ensures !loading
      ensures closed <==> old(closed) || dbError.None?
      ensures dbError.Some? ==> error == (if dbError.value != "" then dbError.value else SaveFailedMessage)
      ensures dbError.None? ==> error == ""
      ensures dbError.Some? ==> store.remoteServices == old(store.remoteServices) && store.services == old(store.services)
      ensures dbError.None? ==>
        store.services == if refetchFails then [] else ServiceContext.AvailableNewest(store.remoteServices)
      ensures dbError.None? && isEdit && service.Some? ==>
        store.remoteServices == ServiceContext.UpdateServiceRows(old(store.remoteServices), service.value.id,
                                                              AsPatch(ServiceData(form, user, service)), now)
      ensures dbError.None? && !(isEdit && service.Some?) ==>
        store.remoteServices == old(store.remoteServices) + [ServiceFromDraft(ServiceData(form, user, service), newId, now)]
    {
      loading, error := true, "";
      var data := ServiceData(form, user, service);
      var err: Option<string>;
      if isEdit && service.Some? {
        err := store.UpdateService(service.value.id, AsPatch(data), now, dbError, refetchFails);
      } else {
        err := store.CreateService(data, newId, now, dbError, refetchFails);
      }
      if err.None? {
        closed := true;
      } else {
        error := if err.value != "" then err.value else SaveFailedMessage;
      }
      loading := false;
    }
  }
}

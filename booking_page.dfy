/** The booking page of one service: a details form, its validation, a
    payment step that posts a payload to the payment gateway, and the
    gateway's answer (a redirect or an alert). */
module BookingPage {
  import opened Types
  import Text
  import Bookings
  import ServiceContext

  /** `services.find(s => s.id === serviceId)`: the first cached service with that id. */
  function FindService(services: seq<Service>, id: string): (r: Option<Service>)
    ensures r.None? <==> forall i | 0 <= i < |services| :: services[i].id != id
    ensures r.Some? ==> exists i | 0 <= i < |services| ::
      services[i] == r.value && r.value.id == id && forall k | 0 <= k < i :: services[k].id != id
  {
    if services == [] then None
    else if services[0].id == id then Some(services[0])
    else
      var rest := FindService(services[1..], id);
      assert forall i | 0 < i < |services| :: services[i] == services[1..][i - 1];
      rest
  }

  /** What the page renders before any form: not found, a redirect to login, or the booking flow. */
  datatype View = NotFound | ToLogin | Flow(service: Service, user: User)

  /** A missing service wins over a missing user: the not-found screen is checked first. */
  function PageView(services: seq<Service>, serviceId: string, user: Option<User>): (v: View)
    ensures v == NotFound <==> FindService(services, serviceId).None?
    ensures v == ToLogin <==> FindService(services, serviceId).Some? && user.None?
    ensures v.Flow? ==> v.service.id == serviceId && v.service in services && user == Some(v.user)
  {
    match FindService(services, serviceId)
    case None => NotFound
    case Some(s) => if user.None? then ToLogin else Flow(s, user.value)
  }

  /** The details form; `date` is a day number, `None` while the field is empty. */
  datatype BookingForm = BookingForm(date: Option<int>, time: string, address: string, notes: string,
                                     paymentMethod: string)

  const InitialForm := BookingForm(None, "", "", "", "bkash")

  /** The outcome of `handleBookingSubmit`'s two checks. */
  datatype Check = MissingField | PastDate | Ready

  predicate Complete(f: BookingForm)
  {
    f.date.Some? && f.time != "" && !Text.IsBlank(f.address)
  }

  /** Missing date, time or non-blank address first, then a date before today. */
  function ValidateBooking(f: BookingForm, today: int): (c: Check)
    ensures c == MissingField <==> !Complete(f)
    ensures c == PastDate <==> Complete(f) && f.date.value < today
    ensures c == Ready <==> Complete(f) && f.date.value >= today
  {
    if !Complete(f) then MissingField
    else if f.date.value < today then PastDate
    else Ready
  }

  /** Today itself is bookable; yesterday is not. */
  lemma TodayIsTheBoundary(f: BookingForm, today: int)
    requires Complete(f)
    ensures ValidateBooking(f.(date := Some(today - 1)), today) == PastDate
    ensures ValidateBooking(f.(date := Some(today)), today) == Ready
    ensures ValidateBooking(f.(date := Some(today + 1)), today) == Ready
  {
  }

  /** A blank address is missing however much white space it holds. */
  lemma BlankAddressIsMissing(f: BookingForm, today: int)
    requires forall i | 0 <= i < |f.address| :: Text.IsWhitespace(f.address[i])
    ensures ValidateBooking(f, today) == MissingField
  {
    Text.BlankIffAllWhitespace(f.address);
  }

  function CheckAlert(c: Check): string
  {
    match c
    case MissingField => "সব তথ্য পূরণ করুন"
    case PastDate => "অতীতের তারিখ নির্বাচন করা যাবে না"
    case Ready => ""
  }

  /** The body posted to the payment gateway. */
  function PaymentPayload(service: Service, user: User, f: BookingForm): (d: BookingDraft)
    requires f.date.Some?
    ensures d.serviceId == service.id && d.userId == user.id && d.providerId == service.providerId
    ensures d.date == f.date.value && d.time == f.time && d.address == f.address && d.notes == Some(f.notes)
    ensures d.status == Pending && d.paymentStatus == PaymentCompleted
    ensures d.totalAmount == service.price && d.paymentMethod == Some(f.paymentMethod)
  {
    BookingDraft(service.id, user.id, service.providerId, f.date.value, f.time, f.address, Some(f.notes),
                 Pending, service.price, Some(f.paymentMethod), PaymentCompleted)
  }

  /** Once stored, the booking the payload describes shows up for the customer who booked it,
      for the service's provider and for an admin. */
  lemma PaymentBookingVisible(rows: seq<Booking>, service: Service, user: User, f: BookingForm,
                              id: string, now: int, viewer: User)
    requires f.date.Some?
    requires (viewer.role == Customer && viewer.id == user.id)
          || (viewer.role == Provider && viewer.id == service.providerId)
          || viewer.role == Admin
    ensures BookingFromDraft(PaymentPayload(service, user, f), id, now)
         in ServiceContext.VisibleBookings(rows + [BookingFromDraft(PaymentPayload(service, user, f), id, now)], viewer)
  {
    var b := BookingFromDraft(PaymentPayload(service, user, f), id, now);
    var visible := ServiceContext.VisibleBookings(rows + [b], viewer);
    assert b in multiset(rows + [b]);
    assert multiset(visible)[b] > 0;
  }

  /** What the gateway call comes back with: a response (its `ok` flag and the JSON's `url` and
      `error`), or a thrown error with its message. */
  datatype GatewayReply = Responded(ok: bool, url: Option<string>, error: Option<string>) | Threw(message: string)

  datatype Outcome = Redirect(url: string) | Alert(message: string)

  const PaymentAlertPrefix := "বুকিংয়ে সমস্যা হয়েছে: "

  /** `a || b` on strings: `b` when `a` is missing or empty. */
  function OrElse(a: Option<string>, b: string): (r: string)
    ensures a.Some? && a.value != "" ==> r == a.value
    ensures a.None? || a.value == "" ==> r == b
  {
    if a.Some? && a.value != "" then a.value else b
  }

  /** `response.ok && data.url` redirects; anything else alerts with the error's message. */
  function PaymentOutcome(reply: GatewayReply): (o: Outcome)
    ensures o.Redirect? <==> reply.Responded? && reply.ok && reply.url.Some? && reply.url.value != ""
    ensures o.Redirect? ==> o.url == reply.url.value
    ensures o.Alert? && reply.Responded? ==>
      o.message == PaymentAlertPrefix + OrElse(reply.error, "Failed to initiate payment.")
    ensures reply.Threw? ==> o.message == PaymentAlertPrefix + OrElse(Some(reply.message), "অজানা সমস্যা")
  {
    match reply
    case Responded(ok, url, error) =>
      if ok && url.Some? && url.value != "" then Redirect(url.value)
      else Alert(PaymentAlertPrefix + OrElse(Some(OrElse(error, "Failed to initiate payment.")), "অজানা সমস্যা"))
    case Threw(message) => Alert(PaymentAlertPrefix + OrElse(Some(message), "অজানা সমস্যা"))
  }

  /** The page's state once a service and a user are known. */
  class BookingFlow {
    const service: Service
    const user: User
    var form: BookingForm
    var showPayment: bool
    var loading: bool
    var alerts: seq<string>
    var redirect: Option<string>
    /** Every payload posted to the gateway, oldest first. */
    var sent: seq<BookingDraft>

    /** The payment step is only shown for a filled-in form, so a payload always has a date. */
    ghost predicate Valid()
      reads this`showPayment, this`form
    {
      showPayment ==> Complete(form)
    }

    constructor (s: Service, u: User)
      ensures Valid()
      ensures service == s && user == u
      ensures form == InitialForm && !showPayment && !loading
      ensures alerts == [] && redirect == None && sent == []
    {
      service, user := s, u;
      form, showPayment, loading := InitialForm, false, false;
      alerts, redirect, sent := [], None, [];
    }

    /** The date, time, address and notes inputs, which only the details view renders. */
    method EditDetails(date: Option<int>, time: string, address: string, notes: string)
      requires Valid() && !showPayment
      modifies this`form
      ensures Valid()
      ensures form == old(form).(date := date, time := time, address := address, notes := notes)
    {
      form := form.(date := date, time := time, address := address, notes := notes);
    }

    /** The bKash / Nagad radio buttons of the payment view. */
    method ChoosePaymentMethod(m: string)
      requires Valid() && (m == "bkash" || m == "nagad")
      modifies this`form
      ensures Valid()
      ensures form == old(form).(paymentMethod := m)
    {
      form := form.(paymentMethod := m);
    }

    /** `handleBookingSubmit`: alert and stay, or move on to payment. */
    method SubmitBooking(today: int) returns (c: Check)
      requires Valid()
      modifies this`alerts, this`showPayment
      ensures Valid()
      ensures c == ValidateBooking(form, today)
      ensures c == Ready ==> showPayment && alerts == old(alerts)
      ensures c != Ready ==> showPayment == old(showPayment) && alerts == old(alerts) + [CheckAlert(c)]
    {
      c := ValidateBooking(form, today);
      if c != Ready {
        alerts := alerts + [CheckAlert(c)];
        return;
      }
      showPayment := true;
    }

    /** `handlePaymentSubmit` up to the request: the button is disabled while loading. */
    method StartPayment()
      requires Valid() && showPayment && !loading
      modifies this`loading, this`sent
      ensures Valid()
      ensures loading
      ensures sent == old(sent) + [PaymentPayload(service, user, form)]
    {
      loading := true;
      sent := sent + [PaymentPayload(service, user, form)];
    }

    /** The gateway's answer: redirect or alert, and `loading` ends false either way. */
    method PaymentSettled(reply: GatewayReply)
      requires Valid()
      modifies this`loading, this`alerts, this`redirect
      ensures Valid()
      ensures !loading
      ensures PaymentOutcome(reply).Redirect? ==>
        redirect == Some(PaymentOutcome(reply).url) && alerts == old(alerts)
      ensures PaymentOutcome(reply).Alert? ==>
        redirect == old(redirect) && alerts == old(alerts) + [PaymentOutcome(reply).message]
    {
      var o := PaymentOutcome(reply);
      if o.Redirect? {
        redirect := Some(o.url);
      } else {
        alerts := alerts + [o.message];
      }
      loading := false;
    }

    /** The back button of the payment view keeps everything typed so far. */
    method Back()
      requires Valid()
      modifies this`showPayment
      ensures Valid()
      ensures !showPayment
    {
      showPayment := false;
    }
  }

  /** Submitting the details form and then paying posts exactly one payload, priced as the service,
      and only when the form passed its checks. */
  method SubmitThenPay(flow: BookingFlow, today: int) returns (c: Check, posted: bool)
    requires flow.Valid() && !flow.loading && !flow.showPayment && flow.sent == []
    modifies flow`alerts, flow`showPayment, flow`loading, flow`sent
    ensures c == ValidateBooking(flow.form, today)
    ensures posted <==> c == Ready
    ensures posted ==> |flow.sent| == 1 && flow.sent[0].totalAmount == flow.service.price
    ensures !posted ==> flow.sent == []
  {
    c := flow.SubmitBooking(today);
    posted := c == Ready;
    if posted {
      flow.StartPayment();
    }
  }
}

/**
 * The order detail page: loading one order, the status buttons with their guard for shipping
 * without a tracking number, and the shipping modal that writes the shipping information and
 * then the 'shipped' status.
 */
module OrderDetail {
  import opened Wrappers
  import opened Types
  import OrderService

  /** One status button: the status it sets, its label and its colour. */
  datatype StatusOption = StatusOption(value: OrderStatus, text: string, color: string)

  /** `statusOptions`, in display order. */
  const StatusOptions: seq<StatusOption> := [
    StatusOption(Pending, "Bekliyor", "warning"),
    StatusOption(PaymentConfirmed, "Ödeme Onaylandı", "info"),
    StatusOption(Preparing, "Hazırlanıyor", "primary"),
    StatusOption(Shipped, "Kargoda", "info"),
    StatusOption(Delivered, "Teslim Edildi", "success"),
    StatusOption(Cancelled, "İptal", "danger"),
    StatusOption(Refunded, "İade", "secondary")
  ]

  /** `shippingCompanies` */
  const ShippingCompanies: seq<string> := ["Yurtiçi Kargo", "Aras Kargo", "MNG Kargo", "PTT Kargo", "Sürat Kargo"]

  /** The position of each status among the buttons. */
  function OptionIndex(s: OrderStatus): (i: nat)
    ensures i < |StatusOptions| && StatusOptions[i].value == s
  {
    match s
    case Pending => 0
    case PaymentConfirmed => 1
    case Preparing => 2
    case Shipped => 3
    case Delivered => 4
    case Cancelled => 5
    case Refunded => 6
  }

  /** Every one of the seven statuses has a button, and no status has two. */
  lemma StatusOptionsOnce(s: OrderStatus, i: int)
    requires 0 <= i < |StatusOptions|
    ensures |StatusOptions| == 7
    ensures StatusOptions[i].value == s <==> i == OptionIndex(s)
  {
  }

  /** The remote calls the page issues. */
  datatype Request =
    | SetOrderStatus(id: string, status: OrderStatus)
    | SetShipping(id: string, info: OrderService.ShippingInfo)

  /** What the page shows. */
  datatype View = LoadingView | NotFoundView | DetailView(order: Order)

  class OrderDetailPage {
    /** The route's `id`. */
    const routeId: Option<string>
    var order: Option<Order>
    var loading: bool
    var currentStatus: OrderStatus
    var shippingCompany: string
    var trackingNumber: string
    var trackingUrl: string
    var showShippingModal: bool
    var saving: bool
    var sent: seq<Request>

    constructor (routeId: Option<string>)
      ensures this.routeId == routeId && order.None? && loading && currentStatus == Pending
      ensures shippingCompany == "" && trackingNumber == "" && trackingUrl == ""
      ensures !showShippingModal && !saving && sent == []
    {
      this.routeId := routeId;
      order := None;
      loading := true;
      currentStatus := Pending;
      shippingCompany := "";
      trackingNumber := "";
      trackingUrl := "";
      showShippingModal := false;
      saving := false;
      sent := [];
    }

    function CurrentView(): (v: View)
      reads this
      ensures v.LoadingView? <==> loading
      ensures v.NotFoundView? <==> !loading && order.None?
      ensures v.DetailView? ==> order == Some(v.order)
    {
      if loading then LoadingView
      else if order.None? then NotFoundView
      else DetailView(order.value)
    }

    /** The status buttons are disabled while a write is in flight. */
    predicate StatusButtonsEnabled()
      reads this
    {
      !saving
    }

    /** The modal's save button: enabled iff nothing is saving and a company and a number are given. */
    predicate CanSaveShipping()
      reads this
    {
      !saving && shippingCompany != "" && trackingNumber != ""
    }

    /**
     * `loadOrder`: without a (non-empty) id nothing happens, not even the end of loading. A found
     * order fills the status and the shipping fields, missing ones as ''. A missing order or a
     * failed load keeps the rest, and loading is over.
     */
    method LoadOrder(result: Outcome<Option<Order>>)
      modifies this`order, this`loading, this`currentStatus, this`shippingCompany,
        this`trackingNumber, this`trackingUrl
      ensures routeId.None? || routeId.value == "" ==>
        order == old(order) && loading == old(loading) && currentStatus == old(currentStatus)
        && shippingCompany == old(shippingCompany) && trackingNumber == old(trackingNumber)
        && trackingUrl == old(trackingUrl)
      ensures routeId.Some? && routeId.value != "" ==> !loading
      ensures routeId.Some? && routeId.value != "" && result.Ok? && result.value.Some? ==>
        var o := result.value.value;
        && order == Some(o) && currentStatus == o.status
        && shippingCompany == OrElse(o.shippingCompany, "")
        && trackingNumber == OrElse(o.trackingNumber, "")
        && trackingUrl == OrElse(o.trackingUrl, "")
      ensures routeId.Some? && routeId.value != "" && !(result.Ok? && result.value.Some?) ==>
        order == old(order) && currentStatus == old(currentStatus)
        && shippingCompany == old(shippingCompany) && trackingNumber == old(trackingNumber)
        && trackingUrl == old(trackingUrl)
    {
      if routeId.None? || routeId.value == "" {
        return;
      }
      if result.Ok? && result.value.Some? {
        var o := result.value.value;
        order := Some(o);
        currentStatus := o.status;
        shippingCompany := OrElse(o.shippingCompany, "");
        trackingNumber := OrElse(o.trackingNumber, "");
        trackingUrl := OrElse(o.trackingUrl, "");
      }
      loading := false;
    }

    /**
     * `handleStatusChange`: 'shipped' without a tracking number only opens the shipping modal.
     * Any other choice sends the status write and shows the new status only once it succeeded.
     */
    method HandleStatusChange(newStatus: OrderStatus, outcome: Outcome<()>)
      requires order.Some?
      modifies this`showShippingModal, this`saving, this`sent, this`currentStatus
      ensures newStatus == Shipped && trackingNumber == "" ==>
        showShippingModal && sent == old(sent) && currentStatus == old(currentStatus)
        && saving == old(saving)
      ensures !(newStatus == Shipped && trackingNumber == "") ==>
        && sent == old(sent) + [SetOrderStatus(order.value.id, newStatus)]
        && currentStatus == (if outcome.Ok? then newStatus else old(currentStatus))
        && showShippingModal == old(showShippingModal) && !saving
    {
      if newStatus == Shipped && trackingNumber == "" {
        showShippingModal := true;
        return;
      }
      saving := true;
      sent := sent + [SetOrderStatus(order.value.id, newStatus)];
      if outcome.Ok? {
        currentStatus := newStatus;
      }
      saving := false;
    }

    /** The overlay, the × and the Cancel button close the shipping form; nothing is sent and the fields are kept. */
    method CloseShippingModal()
      modifies this`showShippingModal
      ensures !showShippingModal
    {
      showShippingModal := false;
    }

    /** Typing into the modal's fields; the save button is enabled once both company and number are filled in. */
    method SetShippingFields(company: string, number: string, url: string)
      modifies this`shippingCompany, this`trackingNumber, this`trackingUrl
      ensures shippingCompany == company && trackingNumber == number && trackingUrl == url
      ensures CanSaveShipping() <==> !saving && company != "" && number != ""
      ensures saving ==> !CanSaveShipping() && !StatusButtonsEnabled()
    {
      shippingCompany := company;
      trackingNumber := number;
      trackingUrl := url;
    }

    /**
     * `saveShippingInfo`: first the shipping information is written; only if that succeeded is
     * the 'shipped' status written; only if that succeeded too does the page show 'shipped' and
     * close the modal. Saving is over on every path.
     */
    method SaveShippingInfo(shipOutcome: Outcome<()>, statusOutcome: Outcome<()>)
      requires order.Some?
      modifies this`showShippingModal, this`saving, this`sent, this`currentStatus
      ensures var info := OrderService.ShippingInfo(shippingCompany, trackingNumber, Some(trackingUrl));
        sent == old(sent) + [SetShipping(order.value.id, info)]
          + (if shipOutcome.Ok? then [SetOrderStatus(order.value.id, Shipped)] else [])
      ensures shipOutcome.Ok? && statusOutcome.Ok? ==> currentStatus == Shipped && !showShippingModal
      ensures !(shipOutcome.Ok? && statusOutcome.Ok?) ==>
        currentStatus == old(currentStatus) && showShippingModal == old(showShippingModal)
      ensures !saving
    {
      saving := true;
      var id := order.value.id;
      sent := sent + [SetShipping(id, OrderService.ShippingInfo(shippingCompany, trackingNumber, Some(trackingUrl)))];
      if shipOutcome.Ok? {
        sent := sent + [SetOrderStatus(id, Shipped)];
        if statusOutcome.Ok? {
          currentStatus := Shipped;
          showShippingModal := false;
        }
      }
      saving := false;
    }
  }
}

/** Match and delivery request statuses. */
module MatchStates {

  datatype Status =
    | Proposed | CarrierAccepted | SenderConfirmed | Active | PickupPending | PickedUp | InTransit
    | DeliveryPending | Delivered | Cancelled | Disputed

  datatype DeliveryStatus =
    | RequestPending | RequestMatched | PickupOtpSent | RequestPickedUp | RequestInTransit
    | DeliveryOtpSent | RequestDelivered | RequestCancelled | RequestExpired

  datatype Payment = Unpaid | Paid | Refunded

  /** The parcel is with the carrier. */
  predicate InCustody(s: Status) {
    s == PickedUp || s == InTransit || s == DeliveryPending
  }

  /** `mapMatchStatusToDeliveryStatus`; a status it does not list maps to pending. */
  function DeliveryStatusOf(s: Status): DeliveryStatus {
    match s
    case Proposed => RequestMatched
    case CarrierAccepted => RequestMatched
    case SenderConfirmed => RequestMatched
    case Active => RequestMatched
    case PickupPending => PickupOtpSent
    case PickedUp => RequestPickedUp
    case InTransit => RequestInTransit
    case DeliveryPending => DeliveryOtpSent
    case Delivered => RequestDelivered
    case Cancelled => RequestCancelled
    case Disputed => RequestPending
  }
}

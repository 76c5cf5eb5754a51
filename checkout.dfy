/**
 * The checkout dialog: the form state (delivery mode, payment method, delivery
 * details) and the pricing snapshot it hands on when the customer proceeds.
 * Checkout charges tax on the subtotal plus the fee it actually applies, while
 * the cart charges tax on the subtotal alone; both rules are kept.
 */
module Checkout {

  import opened CartUtils

  datatype DeliveryType = Delivery | Pickup
  datatype PaymentMethod = Card | Cash

  datatype DeliveryInfo = DeliveryInfo(name: string, phone: string, address: string, instructions: string)

  /** The totals and lines the dialog receives from the cart. */
  datatype CheckoutProps = CheckoutProps(items: seq<CartItem>, subtotal: real, deliveryFee: real, tax: real, total: real)

  /** The record handed on by "proceed". */
  datatype CheckoutData = CheckoutData(
    deliveryType: DeliveryType,
    paymentMethod: PaymentMethod,
    deliveryInfo: DeliveryInfo,
    items: seq<CartItem>,
    subtotal: real,
    deliveryFee: real,
    tax: real,
    total: real)

  /** The checkout tax rate is written as a literal in the dialog, apart from the cart's constant. */
  const CHECKOUT_TAX_RATE: real := 0.08

  const DEFAULT_DELIVERY_INFO: DeliveryInfo :=
    DeliveryInfo("John Doe", "+1 (555) 123-4567", "123 Main St, New York, NY 10001", "")

  /** Pickup waives the fee; delivery charges the fee the cart computed. */
  function FinalDeliveryFee(deliveryType: DeliveryType, deliveryFee: real): (fee: real)
    ensures deliveryType == Pickup ==> fee == 0.0
    ensures deliveryType == Delivery ==> fee == deliveryFee
  {
    if deliveryType == Delivery then deliveryFee else 0.0
  }

  function FinalTax(subtotal: real, finalDeliveryFee: real): real
  {
    (subtotal + finalDeliveryFee) * CHECKOUT_TAX_RATE
  }

  /** The checkout total is the taxed sum of subtotal and applied fee. */
  function FinalTotal(subtotal: real, finalDeliveryFee: real): (total: real)
    ensures total == (subtotal + finalDeliveryFee) * 1.08
  {
    subtotal + finalDeliveryFee + FinalTax(subtotal, finalDeliveryFee)
  }

  /**
   * The snapshot: the form state and the cart's lines and subtotal pass through,
   * and the fee, tax and total are recomputed by the checkout rule.
   */
  function Snapshot(deliveryType: DeliveryType, paymentMethod: PaymentMethod, deliveryInfo: DeliveryInfo,
                    props: CheckoutProps): (d: CheckoutData)
    ensures d.deliveryType == deliveryType && d.paymentMethod == paymentMethod && d.deliveryInfo == deliveryInfo
    ensures d.items == props.items && d.subtotal == props.subtotal
    ensures d.deliveryFee == (if deliveryType == Pickup then 0.0 else props.deliveryFee)
    ensures d.tax == (props.subtotal + d.deliveryFee) * 0.08
    ensures d.total == d.subtotal + d.deliveryFee + d.tax
    ensures d.total == (props.subtotal + d.deliveryFee) * 1.08
  {
    var fee := FinalDeliveryFee(deliveryType, props.deliveryFee);
    CheckoutData(deliveryType, paymentMethod, deliveryInfo, props.items, props.subtotal,
                 fee, FinalTax(props.subtotal, fee), FinalTotal(props.subtotal, fee))
  }

  /** The snapshot never reads the tax or total the cart passed in. */
  lemma SnapshotIgnoresCartTaxAndTotal(t: DeliveryType, m: PaymentMethod, info: DeliveryInfo,
                                       p: CheckoutProps, q: CheckoutProps)
    requires p.items == q.items && p.subtotal == q.subtotal && p.deliveryFee == q.deliveryFee
    ensures Snapshot(t, m, info, p) == Snapshot(t, m, info, q)
  {
  }

  /** With a positive fee, checkout tax exceeds the cart-level tax; with pickup they agree. */
  lemma CheckoutTaxVersusCartTax(subtotal: real, fee: real)
    ensures fee > 0.0 ==> FinalTax(subtotal, fee) > CalculateTax(subtotal)
    ensures FinalTax(subtotal, FinalDeliveryFee(Pickup, fee)) == CalculateTax(subtotal)
    ensures FinalTax(subtotal, fee) == CalculateTax(subtotal) + fee * 0.08
  {
  }

  /**
   * Given the cart's own totals, the delivery total exceeds the cart total by
   * the tax on the fee, and the pickup total is the cart total without the fee.
   */
  lemma CheckoutTotalVersusCartTotal(subtotal: real)
    ensures var fee := CalculateDeliveryFee(subtotal);
      var cartTotal := CalculateTotal(subtotal, fee, CalculateTax(subtotal));
      FinalTotal(subtotal, FinalDeliveryFee(Delivery, fee)) == cartTotal + fee * 0.08 &&
      FinalTotal(subtotal, FinalDeliveryFee(Pickup, fee)) == cartTotal - fee
  {
  }

  /** The dialog's own state: the choices the customer makes before proceeding. */
  class CheckoutDialog {

    var deliveryType: DeliveryType
    var paymentMethod: PaymentMethod
    var deliveryInfo: DeliveryInfo

    /** The defaults: delivery, pay by card, the placeholder contact details. */
    constructor ()
      ensures deliveryType == Delivery && paymentMethod == Card
      ensures deliveryInfo == DEFAULT_DELIVERY_INFO
    {
      deliveryType := Delivery;
      paymentMethod := Card;
      deliveryInfo := DEFAULT_DELIVERY_INFO;
    }

    method SetDeliveryType(t: DeliveryType)
      modifies this
      ensures deliveryType == t
      ensures paymentMethod == old(paymentMethod) && deliveryInfo == old(deliveryInfo)
    {
      deliveryType := t;
    }

    method SetPaymentMethod(m: PaymentMethod)
      modifies this
      ensures paymentMethod == m
      ensures deliveryType == old(deliveryType) && deliveryInfo == old(deliveryInfo)
    {
      paymentMethod := m;
    }

    // The name, phone, address and instructions inputs render only for delivery;
    // each replaces one field of the details.

    method SetName(name: string)
      requires deliveryType == Delivery
      modifies this
      ensures deliveryInfo == old(deliveryInfo).(name := name)
      ensures deliveryType == old(deliveryType) && paymentMethod == old(paymentMethod)
    {
      deliveryInfo := deliveryInfo.(name := name);
    }

    method SetPhone(phone: string)
      requires deliveryType == Delivery
      modifies this
      ensures deliveryInfo == old(deliveryInfo).(phone := phone)
      ensures deliveryType == old(deliveryType) && paymentMethod == old(paymentMethod)
    {
      deliveryInfo := deliveryInfo.(phone := phone);
    }

    method SetAddress(address: string)
      requires deliveryType == Delivery
      modifies this
      ensures deliveryInfo == old(deliveryInfo).(address := address)
      ensures deliveryType == old(deliveryType) && paymentMethod == old(paymentMethod)
    {
      deliveryInfo := deliveryInfo.(address := address);
    }

    method SetInstructions(instructions: string)
      requires deliveryType == Delivery
      modifies this
      ensures deliveryInfo == old(deliveryInfo).(instructions := instructions)
      ensures deliveryType == old(deliveryType) && paymentMethod == old(paymentMethod)
    {
      deliveryInfo := deliveryInfo.(instructions := instructions);
    }

    /** "Proceed": the snapshot of the current choices priced by the checkout rule. */
    method HandleProceed(props: CheckoutProps) returns (data: CheckoutData)
      ensures data == Snapshot(deliveryType, paymentMethod, deliveryInfo, props)
      ensures data.deliveryType == deliveryType && data.paymentMethod == paymentMethod
      ensures data.total == (props.subtotal + data.deliveryFee) * 1.08
    {
      data := Snapshot(deliveryType, paymentMethod, deliveryInfo, props);
    }
  }
}

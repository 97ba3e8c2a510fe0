/**
 * The receipt builder: filling a receipt from the stored invoice (customer,
 * amount after discount and tax, reference) and restoring a saved receipt.
 */
module Receipt {
  import opened Wrappers
  import opened Fallbacks
  import opened StoredDocuments
  import opened DocumentNumbers

  /** `invoice.discount || 0`, a percentage: the stored discount, 0 when none is stored. */
  function DiscountRate(invoice: StoredDocument): (r: real)
    ensures r == invoice.discount.GetOr(0.0)
  {
    NumberOr(invoice.discount, 0.0)
  }

  /** `invoice.taxRate || 0`, a percentage: the stored rate, 0 when none is stored. */
  function TaxRate(invoice: StoredDocument): (r: real)
    ensures r == invoice.taxRate.GetOr(0.0)
  {
    NumberOr(invoice.taxRate, 0.0)
  }

  /** The amount of a receipt made from `invoice`: the discount comes off the
      item subtotal first, and tax is charged on what remains. */
  function ReceiptAmount(invoice: StoredDocument): (r: real)
    ensures var total, d, t := Subtotal(invoice.items), DiscountRate(invoice), TaxRate(invoice);
            r == total * (1.0 - d / 100.0) * (1.0 + t / 100.0)
  {
    var total := Subtotal(invoice.items);
    var discountAmount := total * DiscountRate(invoice) / 100.0;
    var taxAmount := (total - discountAmount) * TaxRate(invoice) / 100.0;
    total - discountAmount + taxAmount
  }

  /** Without discount and tax the receipt asks for the item subtotal. */
  lemma NoRatesMeansSubtotal(invoice: StoredDocument)
    requires invoice.discount.None? || invoice.discount == Some(0.0)
    requires invoice.taxRate.None? || invoice.taxRate == Some(0.0)
    ensures ReceiptAmount(invoice) == Subtotal(invoice.items)
  {
  }

  /** Tax is charged on the discounted subtotal, never on the full one. */
  lemma TaxAfterDiscount(invoice: StoredDocument)
    ensures var discounted := Subtotal(invoice.items) * (1.0 - DiscountRate(invoice) / 100.0);
            ReceiptAmount(invoice) == discounted + discounted * TaxRate(invoice) / 100.0
  {
  }

  /** The customer copied from the invoice's client, each field defaulting to "". */
  function CustomerFromInvoice(invoice: StoredDocument): (c: CustomerInfo)
    ensures invoice.clientInfo.None? ==> c == CustomerInfo("", "", "")
    ensures c.name != "" ==> invoice.clientInfo.Some? && invoice.clientInfo.value.name == Some(c.name)
    ensures invoice.clientInfo.Some? ==>
              c == CustomerInfo(invoice.clientInfo.value.name.GetOr(""), invoice.clientInfo.value.email.GetOr(""), invoice.clientInfo.value.phone.GetOr(""))
  {
    CustomerInfo(
      ClientText(invoice.clientInfo, (cl: StoredClient) => cl.name),
      ClientText(invoice.clientInfo, (cl: StoredClient) => cl.email),
      ClientText(invoice.clientInfo, (cl: StoredClient) => cl.phone))
  }

  /** The payment a receipt made from `invoice` records. */
  function PaymentFromInvoice(invoice: StoredDocument): (p: PaymentInfo)
    ensures p.amount == ReceiptAmount(invoice) && p.paymentMethod == ""
    ensures p.reference == TextOr(invoice.referenceNumber, "")
    ensures p.description == "Payment for Invoice " + p.reference
  {
    var reference := TextOr(invoice.referenceNumber, "");
    PaymentInfo(ReceiptAmount(invoice), "", reference, "Payment for Invoice " + reference)
  }

  /** The part of the builder's state that is saved and restored. */
  datatype ReceiptForm = ReceiptForm(
    template: string,
    receiptNumber: string,
    customerInfo: CustomerInfo,
    paymentInfo: PaymentInfo,
    signature: Option<string>,
    logo: Option<string>,
    documentStyle: DocumentStyle,
    additionalNotes: string)

  const EmptyCustomer: CustomerInfo := CustomerInfo("", "", "")
  const EmptyPayment: PaymentInfo := PaymentInfo(0.0, "", "", "")
  const DefaultStyle: DocumentStyle := DocumentStyle("Arial", "12")

  /** `value || null` on an optional stored text. */
  function NonEmptyOrNone(text: Option<string>): (r: Option<string>)
    ensures r.Some? <==> text.Some? && text.value != ""
    ensures r.Some? ==> r == text
    ensures r != Some("") && r.GetOr("") == text.GetOr("")
  {
    if text.Some? && text.value != "" then text else None
  }

  /** The state a stored receipt restores; `freshNumber` is the number drawn
      to replace a missing one. */
  function Restored(stored: StoredReceipt, freshNumber: string): (f: ReceiptForm)
    ensures f.template == TextOr(stored.template, "standard") && f.template != ""
    ensures f.receiptNumber == TextOr(stored.receiptNumber, freshNumber)
    ensures f.customerInfo == stored.customerInfo.GetOr(EmptyCustomer)
    ensures f.paymentInfo == stored.paymentInfo.GetOr(EmptyPayment)
    ensures f.signature == NonEmptyOrNone(stored.signature) && f.logo == NonEmptyOrNone(stored.logo)
    ensures f.documentStyle == stored.documentStyle.GetOr(DefaultStyle)
    ensures f.additionalNotes == TextOr(stored.additionalNotes, "")
  {
    ReceiptForm(
      TextOr(stored.template, "standard"),
      TextOr(stored.receiptNumber, freshNumber),
      stored.customerInfo.GetOr(EmptyCustomer),
      stored.paymentInfo.GetOr(EmptyPayment),
      NonEmptyOrNone(stored.signature),
      NonEmptyOrNone(stored.logo),
      stored.documentStyle.GetOr(DefaultStyle),
      TextOr(stored.additionalNotes, ""))
  }

  /** What the save effect writes: every field, with the signature and logo
      as they are.  The fields restore never treats as falsy (customer,
      payment, style and notes) come back unchanged. */
  function Saved(form: ReceiptForm): (r: StoredReceipt)
    ensures r.template.Some? && r.receiptNumber.Some? && r.customerInfo.Some?
    ensures r.paymentInfo.Some? && r.documentStyle.Some? && r.additionalNotes.Some?
    ensures r.signature == form.signature && r.logo == form.logo
    ensures forall freshNumber :: var f := Restored(r, freshNumber);
              f.customerInfo == form.customerInfo && f.paymentInfo == form.paymentInfo
              && f.documentStyle == form.documentStyle && f.additionalNotes == form.additionalNotes
  {
    StoredReceipt(
      Some(form.template), Some(form.receiptNumber), Some(form.customerInfo), Some(form.paymentInfo),
      form.signature, form.logo, Some(form.documentStyle), Some(form.additionalNotes))
  }

  /** Restoring what was saved gives the same form back, unless a text the
      restore treats as missing (an empty template or number, an empty
      signature or logo) was saved. */
  lemma RestoreUndoesSave(form: ReceiptForm, freshNumber: string)
    ensures Restored(Saved(form), freshNumber) == form <==>
              && form.template != ""
              && (form.receiptNumber != "" || freshNumber == "")
              && form.signature != Some("") && form.logo != Some("")
  {
    var r := Restored(Saved(form), freshNumber);
    if form.template == "" {
      assert r.template != form.template;
    }
    if form.receiptNumber == "" && freshNumber != "" {
      assert r.receiptNumber != form.receiptNumber;
    }
    if form.signature == Some("") {
      assert r.signature != form.signature;
    }
    if form.logo == Some("") {
      assert r.logo != form.logo;
    }
  }

  class ReceiptBuilder {
    var template: string
    var receiptNumber: string
    var customerInfo: CustomerInfo
    var paymentInfo: PaymentInfo
    var signature: Option<string>
    var logo: Option<string>
    var documentStyle: DocumentStyle
    var additionalNotes: string
    var invoiceReference: string

    function Form(): ReceiptForm
      reads this
    {
      ReceiptForm(template, receiptNumber, customerInfo, paymentInfo, signature, logo, documentStyle, additionalNotes)
    }

    /** A new builder; `random` is the draw its receipt number is made from. */
    constructor (random: real)
      requires 0.0 <= random < 1.0
      ensures Form() == ReceiptForm("standard", ReceiptNumber(random), EmptyCustomer, EmptyPayment, None, None, DefaultStyle, "")
      ensures invoiceReference == ""
    {
      template := "standard";
      receiptNumber := ReceiptNumber(random);
      customerInfo := EmptyCustomer;
      paymentInfo := EmptyPayment;
      signature := None;
      logo := None;
      documentStyle := DefaultStyle;
      additionalNotes := "";
      invoiceReference := "";
    }

    /** The load effect: with a stored receipt every field is restored or
        falls back to its default; without one nothing changes. */
    method Restore(stored: Option<StoredReceipt>, random: real)
      requires 0.0 <= random < 1.0
      modifies this
      ensures stored.None? ==> Form() == old(Form())
      ensures stored.Some? ==> Form() == Restored(stored.value, ReceiptNumber(random))
      ensures invoiceReference == old(invoiceReference)
    {
      if stored.Some? {
        var data := stored.value;
        template := TextOr(data.template, "standard");
        receiptNumber := TextOr(data.receiptNumber, ReceiptNumber(random));
        customerInfo := data.customerInfo.GetOr(EmptyCustomer);
        paymentInfo := data.paymentInfo.GetOr(EmptyPayment);
        signature := NonEmptyOrNone(data.signature);
        logo := NonEmptyOrNone(data.logo);
        documentStyle := data.documentStyle.GetOr(DefaultStyle);
        additionalNotes := TextOr(data.additionalNotes, "");
      }
    }

    /** `loadFromInvoice`; `found` tells which alert is shown. */
    method LoadFromInvoice(invoice: Option<StoredDocument>) returns (found: bool)
      modifies this
      ensures found == invoice.Some?
      ensures invoice.None? ==> Form() == old(Form()) && invoiceReference == old(invoiceReference)
      ensures invoice.Some? ==>
                && Form() == old(Form()).(customerInfo := CustomerFromInvoice(invoice.value),
                                          paymentInfo := PaymentFromInvoice(invoice.value))
                && invoiceReference == TextOr(invoice.value.referenceNumber, "")
    {
      found := invoice.Some?;
      if found {
        var data := invoice.value;
        customerInfo := CustomerFromInvoice(data);
        paymentInfo := PaymentFromInvoice(data);
        invoiceReference := TextOr(data.referenceNumber, "");
      }
    }
  }
}

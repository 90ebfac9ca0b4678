/** The bill card: three lookup tables over the bill status (colour, text,
    icon) and the rules that decide which rows and actions the card shows. */
module BillCard {
  import opened Wrappers
  import opened Theme
  import Js
  import Button

  /** The declared statuses of a bill. */
  datatype BillStatus = Pending | Paid | Overdue

  /** The string a status is stored as. */
  function Tag(s: BillStatus): string {
    match s
    case Pending => "pending"
    case Paid => "paid"
    case Overdue => "overdue"
  }

  /** A bill as the card receives it. `status` is the stored string, so values
      outside the declared union reach the tables' `default` branch. */
  datatype Bill = Bill(id: string, description: string, amount: real, dueDate: string,
                       status: string, paidDate: Option<string>)

  /** The branch every status table takes: the matching case, or the
      `pending`/`default` branch for anything else. */
  function Classify(raw: string): (s: BillStatus)
    ensures s == Paid <==> raw == "paid"
    ensures s == Overdue <==> raw == "overdue"
    ensures raw == "pending" ==> s == Pending
  {
    if raw == "paid" then Paid
    else if raw == "overdue" then Overdue
    else Pending
  }

  function StatusColor(raw: string): (c: Color)
    ensures c == Success <==> raw == "paid"
    ensures c == Error <==> raw == "overdue"
    ensures c == Warning <==> raw != "paid" && raw != "overdue"
  {
    match Classify(raw)
    case Paid => Success
    case Overdue => Error
    case Pending => Warning
  }

  function StatusText(raw: string): (t: string)
    ensures raw == "paid" ==> t == "Pago"
    ensures raw == "overdue" ==> t == "Atrasado"
    ensures raw != "paid" && raw != "overdue" ==> t == "Pendente"
  {
    match Classify(raw)
    case Paid => "Pago"
    case Overdue => "Atrasado"
    case Pending => "Pendente"
  }

  function StatusIcon(raw: string): (i: Icon)
    ensures i.color == StatusColor(raw)
    ensures i.size == BadgeIconSize
    ensures i.glyph == Check <==> raw == "paid"
    ensures i.glyph == AlertCircle <==> raw == "overdue"
    ensures i.glyph == Clock <==> raw != "paid" && raw != "overdue"
  {
    var color := StatusColor(raw);
    match Classify(raw)
    case Paid => Icon(Check, BadgeIconSize, color)
    case Overdue => Icon(AlertCircle, BadgeIconSize, color)
    case Pending => Icon(Clock, BadgeIconSize, color)
  }

  /** What the card's two buttons call back with. */
  datatype BillEvent = ViewDetails(id: string) | UploadReceipt(id: string)

  function EventBill(e: BillEvent): string {
    match e
    case ViewDetails(id) => id
    case UploadReceipt(id) => id
  }

  /** The rendered card, reduced to what the card decides. */
  datatype BillView = BillView(
    badge: Badge,
    description: string,
    dueDate: string,
    paidRow: Option<string>,
    details: Button.ButtonProps<BillEvent>,
    upload: Option<Button.ButtonProps<BillEvent>>)

  function Render(bill: Bill): (v: BillView)
    ensures v.description == bill.description && v.dueDate == bill.dueDate
    ensures Consistent(v.badge)
    ensures v.badge.icon == StatusIcon(bill.status) && v.badge.textColor == StatusColor(bill.status)
    ensures v.badge.text == StatusText(bill.status)
    ensures v.paidRow.Some? <==> bill.status == "paid" && Js.TruthyText(bill.paidDate)
    ensures v.paidRow.Some? ==> bill.paidDate == Some(v.paidRow.value)
    ensures v.upload.Some? <==> bill.status != "paid"
    ensures v.details.onPress == ViewDetails(bill.id)
    ensures v.upload.Some? ==> v.upload.value.onPress == UploadReceipt(bill.id)
    ensures !v.details.disabled && (v.upload.Some? ==> !v.upload.value.disabled)
  {
    BillView(
      StatusBadge(StatusIcon(bill.status), StatusText(bill.status)),
      bill.description,
      bill.dueDate,
      if bill.status == "paid" && Js.TruthyText(bill.paidDate) then bill.paidDate else None,
      Button.Plain("Ver Detalhes", ViewDetails(bill.id)),
      if bill.status != "paid" then Some(Button.Plain("Anexar Comprovante", UploadReceipt(bill.id))) else None)
  }

  /** Each declared status is stored as a string that classifies back to it. */
  lemma ClassifyTag(s: BillStatus)
    ensures Classify(Tag(s)) == s
  {}

  /** Every string reaching the tables is handled: anything undeclared shows
      exactly what `pending` shows. */
  lemma FallbackIsPending(raw: string)
    requires raw != Tag(Paid) && raw != Tag(Overdue) && raw != Tag(Pending)
    ensures StatusColor(raw) == StatusColor(Tag(Pending))
    ensures StatusText(raw) == StatusText(Tag(Pending))
    ensures StatusIcon(raw) == StatusIcon(Tag(Pending))
  {}

  /** The three declared statuses get three different colours, texts and
      glyphs, and every text is non-empty. */
  lemma TablesDistinguishStatuses(s: BillStatus, t: BillStatus)
    requires s != t
    ensures StatusColor(Tag(s)) != StatusColor(Tag(t))
    ensures StatusText(Tag(s)) != StatusText(Tag(t))
    ensures StatusIcon(Tag(s)).glyph != StatusIcon(Tag(t)).glyph
    ensures StatusText(Tag(s)) != ""
  {}

  /** The visibility rules agree with the tables: the upload action is shown
      exactly for bills the badge does not call paid, and the paid-on row only
      for bills it does. The two are never shown together. */
  lemma ActionsAgreeWithBadge(bill: Bill)
    ensures Render(bill).upload.Some? <==> StatusColor(bill.status) != Success
    ensures Render(bill).paidRow.Some? ==> StatusText(bill.status) == "Pago"
    ensures !(Render(bill).upload.Some? && Render(bill).paidRow.Some?)
  {}

  /** Every tap on an enabled button of the card reports this bill's id. */
  lemma CallbacksCarryBillId(bill: Bill)
    ensures Button.Press(Render(bill).details) == Some(ViewDetails(bill.id))
    ensures Render(bill).upload.Some? ==>
      Button.Press(Render(bill).upload.value) == Some(UploadReceipt(bill.id))
    ensures forall e :: e in PressableEvents(Render(bill)) ==> EventBill(e) == bill.id
  {}

  /** The events a tap on some button of the card can raise. */
  function PressableEvents(v: BillView): set<BillEvent> {
    (if Button.Press(v.details).Some? then {Button.Press(v.details).value} else {})
    + (if v.upload.Some? && Button.Press(v.upload.value).Some? then {Button.Press(v.upload.value).value} else {})
  }
}

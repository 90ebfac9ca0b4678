/** The complaint card: three lookup tables over the complaint status (colour,
    text, icon), the image and response-count rules, and the details action. */
module ComplaintCard {
  import opened Wrappers
  import opened Theme
  import Js
  import Button

  /** The declared statuses of a complaint. */
  datatype ComplaintStatus = New | Processing | Resolved

  /** The string a status is stored as. */
  function Tag(s: ComplaintStatus): string {
    match s
    case New => "new"
    case Processing => "processing"
    case Resolved => "resolved"
  }

  datatype Response = Response(id: string, message: string, date: string, isLandlord: bool)

  /** A complaint as the card receives it; `status` is the stored string. */
  datatype Complaint = Complaint(id: string, title: string, description: string, date: string,
                                 status: string, imageUrl: Option<string>,
                                 responses: Option<seq<Response>>)

  /** The branch every status table takes: the matching case, or the
      `new`/`default` branch for anything else. */
  function Classify(raw: string): (s: ComplaintStatus)
    ensures s == Resolved <==> raw == "resolved"
    ensures s == Processing <==> raw == "processing"
    ensures raw == "new" ==> s == New
  {
    if raw == "resolved" then Resolved
    else if raw == "processing" then Processing
    else New
  }

  function StatusColor(raw: string): (c: Color)
    ensures c == Success <==> raw == "resolved"
    ensures c == Warning <==> raw == "processing"
    ensures c == Error <==> raw != "resolved" && raw != "processing"
  {
    match Classify(raw)
    case Resolved => Success
    case Processing => Warning
    case New => Error
  }

  function StatusText(raw: string): (t: string)
    ensures raw == "resolved" ==> t == "Resolvido"
    ensures raw == "processing" ==> t == "Em Andamento"
    ensures raw != "resolved" && raw != "processing" ==> t == "Novo"
  {
    match Classify(raw)
    case Resolved => "Resolvido"
    case Processing => "Em Andamento"
    case New => "Novo"
  }

  function StatusIcon(raw: string): (i: Icon)
    ensures i.color == StatusColor(raw)
    ensures i.size == BadgeIconSize
    ensures i.glyph == CheckCircle <==> raw == "resolved"
    ensures i.glyph == Clock <==> raw == "processing"
    ensures i.glyph == AlertCircle <==> raw != "resolved" && raw != "processing"
  {
    var color := StatusColor(raw);
    match Classify(raw)
    case Resolved => Icon(CheckCircle, BadgeIconSize, color)
    case Processing => Icon(Clock, BadgeIconSize, color)
    case New => Icon(AlertCircle, BadgeIconSize, color)
  }

  /** What the details button calls back with. */
  datatype ComplaintEvent = ViewDetails(id: string)

  /** The rendered card, reduced to what the card decides. */
  datatype ComplaintView = ComplaintView(
    badge: Badge,
    title: string,
    description: string,
    image: Option<string>,
    date: string,
    responseCount: nat,
    details: Button.ButtonProps<ComplaintEvent>)

  /** The number shown next to "respostas". */
  function ResponseCount(responses: Option<seq<Response>>): (n: nat)
    ensures responses.None? ==> n == 0
    ensures responses.Some? ==> n == |responses.value|
  {
    if Js.TruthyObject(responses) then |responses.value| else 0
  }

  function Render(c: Complaint): (v: ComplaintView)
    ensures v.title == c.title && v.description == c.description && v.date == c.date
    ensures Consistent(v.badge)
    ensures v.badge.icon == StatusIcon(c.status) && v.badge.textColor == StatusColor(c.status)
    ensures v.badge.text == StatusText(c.status)
    ensures v.image.Some? <==> Js.TruthyText(c.imageUrl)
    ensures v.image.Some? ==> c.imageUrl == Some(v.image.value)
    ensures v.responseCount == ResponseCount(c.responses)
    ensures v.details.onPress == ViewDetails(c.id) && !v.details.disabled
  {
    ComplaintView(
      StatusBadge(StatusIcon(c.status), StatusText(c.status)),
      c.title,
      c.description,
      if Js.TruthyText(c.imageUrl) then c.imageUrl else None,
      c.date,
      ResponseCount(c.responses),
      Button.Plain("Ver Detalhes", ViewDetails(c.id)))
  }

  lemma ClassifyTag(s: ComplaintStatus)
    ensures Classify(Tag(s)) == s
  {}

  /** Anything undeclared shows exactly what `new` shows. */
  lemma FallbackIsNew(raw: string)
    requires raw != Tag(New) && raw != Tag(Processing) && raw != Tag(Resolved)
    ensures StatusColor(raw) == StatusColor(Tag(New))
    ensures StatusText(raw) == StatusText(Tag(New))
    ensures StatusIcon(raw) == StatusIcon(Tag(New))
  {}

  lemma TablesDistinguishStatuses(s: ComplaintStatus, t: ComplaintStatus)
    requires s != t
    ensures StatusColor(Tag(s)) != StatusColor(Tag(t))
    ensures StatusText(Tag(s)) != StatusText(Tag(t))
    ensures StatusIcon(Tag(s)).glyph != StatusIcon(Tag(t)).glyph
    ensures StatusText(Tag(s)) != ""
  {}

  /** A missing response list and an empty one both show zero; each further
      response adds one. */
  lemma ResponseCountGrows(rs: seq<Response>, r: Response)
    ensures ResponseCount(None) == ResponseCount(Some([])) == 0
    ensures ResponseCount(Some(rs + [r])) == ResponseCount(Some(rs)) + 1
  {}

  /** The details button reports this complaint's id. */
  lemma DetailsCarryComplaintId(c: Complaint)
    ensures Button.Press(Render(c).details) == Some(ViewDetails(c.id))
  {}
}

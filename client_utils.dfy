/**
 * The client's constants and formatting helpers (client/src/constants.js and
 * client/src/utils.js): label lookups, the fixed message the citizen sends
 * over WhatsApp, the wa.me link and the OpenStreetMap link. Number and date
 * formatting and URI encoding are library calls and enter as parameters.
 */
module ClientUtils {
  import opened Wrappers
  import opened Text

  // ---------------------------------------------------------------------------
  // Constants
  // ---------------------------------------------------------------------------

  datatype CategoryEntry = CategoryEntry(id: string, caption: string, short: string)

  datatype StatusOption = StatusOption(value: string, caption: string)

  const Categories: seq<CategoryEntry> := [
    CategoryEntry("rifiuti", "Rifiuti per strada", "RF"),
    CategoryEntry("luci", "Guasti semafori o luci", "LS"),
    CategoryEntry("asfalto", "Dissesto asfalto", "AS"),
    CategoryEntry("verde", "Verde pubblico", "VP"),
    CategoryEntry("altro", "Altro", "AL")
  ]

  const StatusOptions: seq<StatusOption> := [
    StatusOption("nuova", "Nuova"),
    StatusOption("in_lavorazione", "In lavorazione"),
    StatusOption("chiusa", "Chiusa")
  ]

  /** A report as the server returns it in JSON. Absent text fields are
      empty; a coordinate is None unless it is a finite number.
      `createdAt` is the `created_at` field and `createdAtAlt` the
      `createdAt` field some callers use instead. */
  datatype ClientReport = ClientReport(
    id: string,
    category: string,
    description: string,
    address: string,
    lat: Option<real>,
    lng: Option<real>,
    photoUrl: string,
    status: string,
    createdAt: string,
    createdAtAlt: string)

  /** The library calls the helpers use, left uninterpreted: `toFixed(6)`,
      a number interpolated into a template, `toLocaleString('it-IT')` of a
      date string, `encodeURIComponent`, and the current time as an ISO
      string. */
  datatype Formatters = Formatters(
    fixed6: real -> string,
    numberText: real -> string,
    localeDate: string -> string,
    encodeUriComponent: string -> string,
    now: string)

  // ---------------------------------------------------------------------------
  // Label lookups
  // ---------------------------------------------------------------------------

  /** `CATEGORIES.find((item) => item.id === id)`. */
  function FindCategory(entries: seq<CategoryEntry>, id: string): (r: Option<CategoryEntry>)
    ensures r.None? <==> forall e | e in entries :: e.id != id
    ensures r.Some? ==> r.value in entries && r.value.id == id
  {
    if entries == [] then None
    else if entries[0].id == id then Some(entries[0])
    else FindCategory(entries[1..], id)
  }

  /** `STATUS_OPTIONS.find((item) => item.value === value)`. */
  function FindStatus(options: seq<StatusOption>, value: string): (r: Option<StatusOption>)
    ensures r.None? <==> forall o | o in options :: o.value != value
    ensures r.Some? ==> r.value in options && r.value.value == value
  {
    if options == [] then None
    else if options[0].value == value then Some(options[0])
    else FindStatus(options[1..], value)
  }

  /** `categoryLabel`: the label of the first category with that id, or the
      id itself. */
  function CategoryLabel(id: string): string
  {
    match FindCategory(Categories, id)
    case Some(e) => e.caption
    case None => id
  }

  /** `statusLabel`: the label of the first status option with that value,
      or the value itself. */
  function StatusLabel(value: string): string
  {
    match FindStatus(StatusOptions, value)
    case Some(o) => o.caption
    case None => value
  }

  /** No two categories share an id. */
  lemma CategoryIdsDistinct()
    ensures forall i, j | 0 <= i < j < |Categories| :: Categories[i].id != Categories[j].id
  {
    assert Categories[0].id[0] == 'r' && Categories[1].id[0] == 'l' && Categories[3].id[0] == 'v';
    assert Categories[2].id[0] == 'a' && Categories[2].id[1] == 's';
    assert Categories[4].id[0] == 'a' && Categories[4].id[1] == 'l';
  }

  /** No two status options share a value. */
  lemma StatusValuesDistinct()
    ensures forall i, j | 0 <= i < j < |StatusOptions| :: StatusOptions[i].value != StatusOptions[j].value
  {
    assert StatusOptions[0].value[0] == 'n';
    assert StatusOptions[1].value[0] == 'i';
    assert StatusOptions[2].value[0] == 'c';
  }

  /** A known category id shows as its label; any other value is shown
      unchanged. */
  lemma CategoryLabelLookup(id: string)
    ensures forall e | e in Categories && e.id == id :: CategoryLabel(id) == e.caption
    ensures (forall e | e in Categories :: e.id != id) ==> CategoryLabel(id) == id
  {
    CategoryIdsDistinct();
  }

  /** A known status value shows as its label; any other value is shown
      unchanged. */
  lemma StatusLabelLookup(value: string)
    ensures forall o | o in StatusOptions && o.value == value :: StatusLabel(value) == o.caption
    ensures (forall o | o in StatusOptions :: o.value != value) ==> StatusLabel(value) == value
  {
    StatusValuesDistinct();
  }

  // ---------------------------------------------------------------------------
  // Links and dates
  // ---------------------------------------------------------------------------

  const OsmPrefix := "https://www.openstreetmap.org/?mlat="

  /** `toOsmLink`: empty unless both coordinates are finite numbers. */
  function ToOsmLink(lat: Option<real>, lng: Option<real>, numberText: real -> string): (r: string)
    ensures r == "" <==> lat.None? || lng.None?
    ensures r != "" ==> OsmPrefix <= r
  {
    if lat.None? || lng.None? then ""
    else
      var la, lo := numberText(lat.value), numberText(lng.value);
      OsmPrefix + la + "&mlon=" + lo + "#map=18/" + la + "/" + lo
  }

  /** `formatDate`: empty for an absent value. */
  function FormatDate(value: string, localeDate: string -> string): (r: string)
    ensures value == "" ==> r == ""
    ensures value != "" ==> r == localeDate(value)
  {
    if value == "" then "" else localeDate(value)
  }

  const WaPrefix := "https://wa.me/"

  /** `buildWhatsappUrl`: a chat link to the phone number's digits when it
      has any, otherwise the generic share link; the text always follows
      `?text=`, URI-encoded. */
  function BuildWhatsappUrl(phone: string, text: string, encodeUriComponent: string -> string): (r: string)
    ensures Digits(phone) != "" ==> r == WaPrefix + Digits(phone) + "?text=" + encodeUriComponent(text)
    ensures Digits(phone) == "" ==> r == WaPrefix + "?text=" + encodeUriComponent(text)
  {
    var cleaned := if phone != "" then Digits(phone) else "";
    var encoded := encodeUriComponent(text);
    if cleaned != "" then WaPrefix + cleaned + "?text=" + encoded
    else WaPrefix + "?text=" + encoded
  }

  /** Punctuation, spaces and a leading `+` in the number do not change the
      link: a number and its digits alone give the same URL. */
  lemma WhatsappUrlIgnoresFormatting(phone: string, text: string, encodeUriComponent: string -> string)
    ensures BuildWhatsappUrl(Digits(phone), text, encodeUriComponent) == BuildWhatsappUrl(phone, text, encodeUriComponent)
  {
  }

  // ---------------------------------------------------------------------------
  // The WhatsApp message
  // ---------------------------------------------------------------------------

  const MessageHeader := "Segnalazione Municipio Bari Loseto"
  const NoAddress := "Non indicato"
  const NoCoordinates := "Non indicata"
  const NoMapLink := "Non disponibile"
  const NoPhoto := "Non presente"
  const MessageLineCount := 11
  const IdPrefix := "ID: "
  const CategoryPrefix := "Categoria: "
  const DescriptionPrefix := "Cosa succede: "
  const AddressPrefix := "Dove (indirizzo/riferimento): "
  const CoordinatesPrefix := "Coordinate GPS: "
  const MapPrefix := "Mappa: "
  const PhotoPrefix := "Foto: "
  const RequestLine := "Richiesta: verifica e intervento."
  const ReporterLine := "Segnalante: cittadino anonimo."
  const DatePrefix := "Data: "

  /** The six lines between the ID and the closing request: category,
      description, address, coordinates, map link and photo. */
  function DetailLines(report: ClientReport, categoryId: string, fmt: Formatters): seq<string>
  {
    var caption := CategoryLabel(if categoryId != "" then categoryId else report.category);
    var addressValue := if report.address != "" then report.address else NoAddress;
    var coordsAvailable := report.lat.Some? && report.lng.Some?;
    var coordsValue := if coordsAvailable then fmt.fixed6(report.lat.value) + ", " + fmt.fixed6(report.lng.value)
                       else NoCoordinates;
    var mapLink := if coordsAvailable then ToOsmLink(report.lat, report.lng, fmt.numberText) else NoMapLink;
    var photoValue := if report.photoUrl != "" then report.photoUrl else NoPhoto;
    [
      CategoryPrefix + caption,
      DescriptionPrefix + report.description,
      AddressPrefix + addressValue,
      CoordinatesPrefix + coordsValue,
      MapPrefix + mapLink,
      PhotoPrefix + photoValue
    ]
  }

  /** The date the message shows: the report's `created_at`, else its
      `createdAt`, else the current time. */
  function DateValue(report: ClientReport, now: string): (r: string)
    ensures report.createdAt != "" ==> r == report.createdAt
    ensures report.createdAt == "" && report.createdAtAlt != "" ==> r == report.createdAtAlt
    ensures report.createdAt == "" && report.createdAtAlt == "" ==> r == now
  {
    if report.createdAt != "" then report.createdAt
    else if report.createdAtAlt != "" then report.createdAtAlt
    else now
  }

  /** The lines of `buildWhatsappMessage`, in order: ten fixed-layout lines
      and the date line it pushes last. */
  function MessageLines(report: ClientReport, categoryId: string, fmt: Formatters): seq<string>
  {
    [MessageHeader, IdPrefix + report.id]
    + DetailLines(report, categoryId, fmt)
    + [RequestLine, ReporterLine, DatePrefix + fmt.localeDate(DateValue(report, fmt.now))]
  }

  /** The message has eleven lines: the header, the ID, the six detail
      lines, the request, the reporter line and the date. */
  lemma MessageLinesLayout(report: ClientReport, categoryId: string, fmt: Formatters)
    ensures var lines := MessageLines(report, categoryId, fmt);
            && |lines| == MessageLineCount
            && lines[0] == MessageHeader && lines[1] == IdPrefix + report.id
            && lines[2..8] == DetailLines(report, categoryId, fmt)
            && lines[8] == RequestLine && lines[9] == ReporterLine
            && lines[10] == DatePrefix + fmt.localeDate(DateValue(report, fmt.now))
  {
  }

  /** Missing data shows as placeholders, and an explicit category id
      takes precedence over the report's own category. */
  lemma DetailPlaceholders(report: ClientReport, categoryId: string, fmt: Formatters)
    ensures var lines := DetailLines(report, categoryId, fmt);
            && (report.address == "" ==> lines[2] == AddressPrefix + NoAddress)
            && (report.address != "" ==> lines[2] == AddressPrefix + report.address)
            && (report.lat.None? || report.lng.None? ==>
                  lines[3] == CoordinatesPrefix + NoCoordinates && lines[4] == MapPrefix + NoMapLink)
            && (report.lat.Some? && report.lng.Some? ==> lines[4] == MapPrefix + ToOsmLink(report.lat, report.lng, fmt.numberText))
            && (report.photoUrl == "" ==> lines[5] == PhotoPrefix + NoPhoto)
            && (report.photoUrl != "" ==> lines[5] == PhotoPrefix + report.photoUrl)
            && (categoryId != "" ==> lines[0] == CategoryPrefix + CategoryLabel(categoryId))
            && (categoryId == "" ==> lines[0] == CategoryPrefix + CategoryLabel(report.category))
  {
  }

  /** `buildWhatsappMessage`: the lines joined with newlines. */
  function BuildWhatsappMessage(report: ClientReport, categoryId: string, fmt: Formatters): string
  {
    Join(MessageLines(report, categoryId, fmt), '\n')
  }

  /** The message opens with the header line and then the ID line. */
  lemma MessageStartsWithHeader(report: ClientReport, categoryId: string, fmt: Formatters)
    ensures MessageHeader + "\n" + IdPrefix + report.id + "\n" <= BuildWhatsappMessage(report, categoryId, fmt)
  {
    MessageLinesLayout(report, categoryId, fmt);
    JoinStartsWithFirstTwo(MessageLines(report, categoryId, fmt), '\n');
  }

  /** When no field holds a newline, splitting the message at newlines
      gives back exactly its eleven lines. */
  lemma MessageHasElevenLines(report: ClientReport, categoryId: string, fmt: Formatters)
    requires forall l | l in MessageLines(report, categoryId, fmt) :: '\n' !in l
    ensures Split(BuildWhatsappMessage(report, categoryId, fmt), '\n') == MessageLines(report, categoryId, fmt)
    ensures |Split(BuildWhatsappMessage(report, categoryId, fmt), '\n')| == MessageLineCount
  {
    SplitJoin(MessageLines(report, categoryId, fmt), '\n');
  }
}

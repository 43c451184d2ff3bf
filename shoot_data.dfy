/** The shoot record (`ShootData`), the partial record an update supplies
    (`Partial<ShootData>`), the shallow merge `{ ...shoot, ...updates }`, and the
    translation between a record and a row of the remote `shoots` table. */
module ShootData {
  import opened Common

  datatype Person = Person(name: string, avatar: Option<string>)

  datatype ClientRef = ClientRef(name: string, email: string, company: Option<string>, phone: Option<string>)

  datatype Location = Location(
    address: string, address2: Option<string>, city: string, state: string, zip: string, fullAddress: string)

  /** Amounts are carried, never computed, by the modelled code. */
  datatype Payment = Payment(baseQuote: real, taxRate: real, taxAmount: real, totalQuote: real, totalPaid: real)

  datatype MediaFile = MediaFile(url: string, filename: string, uploadedAt: string)

  datatype Media = Media(images: seq<MediaFile>, videos: seq<MediaFile>, documents: seq<MediaFile>)

  /** The tour-link bundle is carried as an opaque list of links. */
  type TourLinks = seq<string>

  datatype Shoot = Shoot(
    id: string,
    scheduledDate: string,
    time: string,
    client: ClientRef,
    location: Location,
    photographer: Person,
    editor: Option<Person>,
    services: seq<string>,
    payment: Payment,
    status: string,
    notes: Option<string>,
    createdBy: string,
    completedDate: Option<string>,
    media: Option<Media>,
    tourLinks: Option<TourLinks>)

  /** A partial record: `None` means the key is not supplied. For fields that
      are themselves optional, `Some(None)` means the key is supplied with the
      value `undefined`. */
  datatype ShootPatch = ShootPatch(
    id: Option<string>,
    scheduledDate: Option<string>,
    time: Option<string>,
    client: Option<ClientRef>,
    location: Option<Location>,
    photographer: Option<Person>,
    editor: Option<Option<Person>>,
    services: Option<seq<string>>,
    payment: Option<Payment>,
    status: Option<string>,
    notes: Option<Option<string>>,
    createdBy: Option<string>,
    completedDate: Option<Option<string>>,
    media: Option<Option<Media>>,
    tourLinks: Option<Option<TourLinks>>)

  const EmptyPatch := ShootPatch(None, None, None, None, None, None, None, None, None, None, None, None, None, None, None)

  /** `{ ...shoot, ...updates }`: every supplied key overrides, every other key is kept. */
  function MergeShoot(s: Shoot, p: ShootPatch): (r: Shoot)
    ensures p == EmptyPatch ==> r == s
    ensures p.id.None? ==> r.id == s.id
    ensures p.status.Some? ==> r.status == p.status.value
  {
    Shoot(
      p.id.GetOr(s.id),
      p.scheduledDate.GetOr(s.scheduledDate),
      p.time.GetOr(s.time),
      p.client.GetOr(s.client),
      p.location.GetOr(s.location),
      p.photographer.GetOr(s.photographer),
      p.editor.GetOr(s.editor),
      p.services.GetOr(s.services),
      p.payment.GetOr(s.payment),
      p.status.GetOr(s.status),
      p.notes.GetOr(s.notes),
      p.createdBy.GetOr(s.createdBy),
      p.completedDate.GetOr(s.completedDate),
      p.media.GetOr(s.media),
      p.tourLinks.GetOr(s.tourLinks))
  }

  /** The patch that supplies every key of `s`. */
  function FullPatch(s: Shoot): ShootPatch {
    ShootPatch(Some(s.id), Some(s.scheduledDate), Some(s.time), Some(s.client), Some(s.location),
      Some(s.photographer), Some(s.editor), Some(s.services), Some(s.payment), Some(s.status),
      Some(s.notes), Some(s.createdBy), Some(s.completedDate), Some(s.media), Some(s.tourLinks))
  }

  /** The patch applied by `{ ...{ ...shoot, ...p }, ...q }`: `q` wins where it supplies a key. */
  function Overlay(p: ShootPatch, q: ShootPatch): ShootPatch {
    ShootPatch(
      if q.id.Some? then q.id else p.id,
      if q.scheduledDate.Some? then q.scheduledDate else p.scheduledDate,
      if q.time.Some? then q.time else p.time,
      if q.client.Some? then q.client else p.client,
      if q.location.Some? then q.location else p.location,
      if q.photographer.Some? then q.photographer else p.photographer,
      if q.editor.Some? then q.editor else p.editor,
      if q.services.Some? then q.services else p.services,
      if q.payment.Some? then q.payment else p.payment,
      if q.status.Some? then q.status else p.status,
      if q.notes.Some? then q.notes else p.notes,
      if q.createdBy.Some? then q.createdBy else p.createdBy,
      if q.completedDate.Some? then q.completedDate else p.completedDate,
      if q.media.Some? then q.media else p.media,
      if q.tourLinks.Some? then q.tourLinks else p.tourLinks)
  }

  /** Supplied keys override and omitted keys are kept, field by field. */
  lemma MergeFieldwise(s: Shoot, p: ShootPatch)
    ensures MergeShoot(s, p).id == (if p.id.Some? then p.id.value else s.id)
    ensures MergeShoot(s, p).scheduledDate == (if p.scheduledDate.Some? then p.scheduledDate.value else s.scheduledDate)
    ensures MergeShoot(s, p).time == (if p.time.Some? then p.time.value else s.time)
    ensures MergeShoot(s, p).client == (if p.client.Some? then p.client.value else s.client)
    ensures MergeShoot(s, p).location == (if p.location.Some? then p.location.value else s.location)
    ensures MergeShoot(s, p).photographer == (if p.photographer.Some? then p.photographer.value else s.photographer)
    ensures MergeShoot(s, p).editor == (if p.editor.Some? then p.editor.value else s.editor)
    ensures MergeShoot(s, p).services == (if p.services.Some? then p.services.value else s.services)
    ensures MergeShoot(s, p).payment == (if p.payment.Some? then p.payment.value else s.payment)
    ensures MergeShoot(s, p).status == (if p.status.Some? then p.status.value else s.status)
    ensures MergeShoot(s, p).notes == (if p.notes.Some? then p.notes.value else s.notes)
    ensures MergeShoot(s, p).createdBy == (if p.createdBy.Some? then p.createdBy.value else s.createdBy)
    ensures MergeShoot(s, p).completedDate == (if p.completedDate.Some? then p.completedDate.value else s.completedDate)
    ensures MergeShoot(s, p).media == (if p.media.Some? then p.media.value else s.media)
    ensures MergeShoot(s, p).tourLinks == (if p.tourLinks.Some? then p.tourLinks.value else s.tourLinks)
  {
  }

  /** Merging a patch that supplies nothing leaves the record unchanged. */
  lemma MergeEmptyPatch(s: Shoot)
    ensures MergeShoot(s, EmptyPatch) == s
  {
  }

  /** Applying the same partial update twice is the same as applying it once. */
  lemma MergeIdempotent(s: Shoot, p: ShootPatch)
    ensures MergeShoot(MergeShoot(s, p), p) == MergeShoot(s, p)
  {
  }

  /** Two successive merges are one merge of the overlaid patches. */
  lemma MergeOverlay(s: Shoot, p: ShootPatch, q: ShootPatch)
    ensures MergeShoot(MergeShoot(s, p), q) == MergeShoot(s, Overlay(p, q))
  {
  }

  /** A patch that supplies every key replaces the record outright. */
  lemma MergeFullPatch(s: Shoot, t: Shoot)
    ensures MergeShoot(s, FullPatch(t)) == t
  {
  }

  /** One row of the remote `shoots` table; column names are the table's own.
      Columns that the table allows to be `null` are `Option`s. */
  datatype RemoteRow = RemoteRow(
    id: string,
    scheduled_date: string,
    time: string,
    client: ClientRef,
    location: Location,
    photographer: Person,
    editor: Option<Person>,
    services: Option<seq<string>>,
    payment: Payment,
    status: string,
    notes: Option<string>,
    created_by: string,
    completed_date: Option<string>,
    media: Option<Media>,
    tour_links: Option<TourLinks>)

  /** `x || undefined` (or `x || null`) on an optional string: an empty string is dropped. */
  function NonEmpty(o: Option<string>): (r: Option<string>)
    ensures r.Some? <==> o.Some? && o.value != ""
    ensures r.Some? ==> r == o
  {
    if o.Some? && o.value != "" then o else None
  }

  /** The row `addShoot` inserts for a record. */
  function ToRow(s: Shoot): (r: RemoteRow)
    ensures r.id == s.id && r.status == s.status
    ensures r.services.Some? && r.notes != Some("") && r.completed_date != Some("")
  {
    RemoteRow(s.id, s.scheduledDate, s.time, s.client, s.location, s.photographer, s.editor,
      Some(s.services), s.payment, s.status, NonEmpty(s.notes), s.createdBy, NonEmpty(s.completedDate),
      s.media, s.tourLinks)
  }

  /** The load-time transform from a remote row to a record. */
  function FromRow(row: RemoteRow): (r: Shoot)
    ensures r.id == row.id && r.status == row.status
    ensures row.services.None? ==> r.services == []
    ensures r.notes != Some("") && r.completedDate != Some("")
  {
    Shoot(row.id, row.scheduled_date, row.time, row.client, row.location, row.photographer, row.editor,
      row.services.GetOr([]), row.payment, row.status, NonEmpty(row.notes), row.created_by,
      NonEmpty(row.completed_date), row.media, row.tour_links)
  }

  /** The record as it comes back from the table: empty notes and an empty completion date are dropped. */
  function Normalized(s: Shoot): Shoot {
    s.(notes := NonEmpty(s.notes), completedDate := NonEmpty(s.completedDate))
  }

  /** Inserting a record and loading it back yields the normalized record, and
      the record itself exactly when it has no empty notes or completion date. */
  lemma RowRoundTrip(s: Shoot)
    ensures FromRow(ToRow(s)) == Normalized(s)
    ensures FromRow(ToRow(s)) == s <==> s.notes != Some("") && s.completedDate != Some("")
  {
  }

  /** A loaded row written back is the same row, except that a `null` service
      list becomes empty and empty notes or completion dates become `null`. */
  lemma RowLoadInsert(row: RemoteRow)
    ensures ToRow(FromRow(row)) == row.(services := Some(row.services.GetOr([])),
      notes := NonEmpty(row.notes), completed_date := NonEmpty(row.completed_date))
  {
  }
}

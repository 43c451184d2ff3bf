/** The shoot-history page's own list logic: its status query (which differs
    from the store's), the address/photographer filter of the scheduled list,
    the three-way split of uploaded files, and the status badge. */
module ShootHistory {
  import opened Common
  import opened Text
  import opened ShootData
  import opened ShootQueries
  import opened ShootStore

  /** The page's client-identity test: name, company or email equal, with no
      guard on the user's company (two absent companies are equal). */
  predicate PageMatchesClient(u: User, s: Shoot)
    ensures MatchesClient(u, s) ==> PageMatchesClient(u, s)
    ensures u.company.None? && s.client.company.None? ==> PageMatchesClient(u, s)
  {
    s.client.name == u.name || s.client.company == u.company || s.client.email == u.email
  }

  predicate PageVisible(user: Option<User>, s: Shoot) {
    !IsClientRole(user) || PageMatchesClient(user.value, s)
  }

  /** The page-local `getClientShootsByStatus`: identity narrowing, then literal status equality. */
  function PageShootsByStatus(shoots: seq<Shoot>, user: Option<User>, status: string): (r: seq<Shoot>)
    ensures |r| <= |shoots|
    ensures forall s :: s in r ==> s in shoots && PageVisible(user, s) && s.status == status
  {
    var narrowed := if IsClientRole(user) then Filter(shoots, s => PageMatchesClient(user.value, s)) else shoots;
    Filter(narrowed, (s: Shoot) => s.status == status)
  }

  /** The page's query keeps exactly the visible records with that literal status, in order. */
  lemma PageShootsByStatusSpec(shoots: seq<Shoot>, user: Option<User>, status: string)
    ensures IsSubsequence(PageShootsByStatus(shoots, user, status), shoots)
    ensures forall s :: s in PageShootsByStatus(shoots, user, status) <==>
      s in shoots && PageVisible(user, s) && s.status == status
  {
    var both := (s: Shoot) => PageVisible(user, s) && s.status == status;
    if IsClientRole(user) {
      FilterTwice(shoots, s => PageMatchesClient(user.value, s), (s: Shoot) => s.status == status, both);
    } else {
      FilterCongruent(shoots, (s: Shoot) => s.status == status, both);
    }
    FilterSubsequence(shoots, both);
    FilterMembership(shoots, both);
  }

  /** The page's `'scheduled'` list never contains a booked record. */
  lemma PageScheduledExcludesBooked(shoots: seq<Shoot>, user: Option<User>)
    ensures forall s :: s in PageShootsByStatus(shoots, user, "scheduled") ==> s.status != "booked"
  {
    PageShootsByStatusSpec(shoots, user, "scheduled");
  }

  /** Side by side: whoever the user, a visible booked record is in the store's
      `'scheduled'` list and not in the page's. */
  lemma ScheduledQueriesDiffer(shoots: seq<Shoot>, user: Option<User>, s: Shoot)
    requires s in shoots && s.status == "booked" && Visible(user, s)
    ensures s in ClientShootsByStatus(shoots, user, "scheduled")
    ensures s !in PageShootsByStatus(shoots, user, "scheduled")
  {
    ScheduledIncludesBooked(shoots, user);
    PageShootsByStatusSpec(shoots, user, "scheduled");
  }

  /** The page accepts every record the store accepts, and the only extra records
      are those whose company equals a user company that is absent or empty. */
  lemma PageMatchWidensStoreMatch(u: User, s: Shoot)
    ensures MatchesClient(u, s) ==> PageMatchesClient(u, s)
    ensures PageMatchesClient(u, s) && !MatchesClient(u, s) ==>
      s.client.company == u.company && (u.company == None || u.company == Some(""))
  {
  }

  /** A client user with no company sees, on this page, a record of a different
      client that also has no company; the store's query does not list it. */
  lemma AbsentCompaniesMatchOnPage(u: User, s: Shoot)
    requires u.role == "client" && u.company == None
    requires s.client.company == None && s.client.name != u.name && s.client.email != u.email
    ensures s in PageShootsByStatus([s], Some(u), s.status)
    ensures s !in ClientShootsByStatus([s], Some(u), s.status)
  {
    PageShootsByStatusSpec([s], Some(u), s.status);
    ClientShootsByStatusSpec([s], Some(u), s.status);
  }

  // ---------------------------------------------------------------------------
  // filteredScheduledShoots

  /** The address filter (case-insensitive substring of the full address) and the
      photographer filter (exact name); an empty filter accepts everything. */
  predicate PassesFilters(s: Shoot, filterAddress: string, filterPhotographer: string) {
    && (filterAddress == "" || Includes(Lower(s.location.fullAddress), Lower(filterAddress)))
    && (filterPhotographer == "" || s.photographer.name == filterPhotographer)
  }

  function FilteredScheduledShoots(scheduled: seq<Shoot>, filterAddress: string, filterPhotographer: string): (r: seq<Shoot>)
    ensures |r| <= |scheduled|
    ensures forall s :: s in r ==> s in scheduled && PassesFilters(s, filterAddress, filterPhotographer)
  {
    Filter(scheduled, s => PassesFilters(s, filterAddress, filterPhotographer))
  }

  /** The filtered list is an order-preserving sub-list holding exactly the records
      that pass both filters, and it is the whole list when both filters are empty. */
  lemma FilteredScheduledSpec(scheduled: seq<Shoot>, filterAddress: string, filterPhotographer: string)
    ensures IsSubsequence(FilteredScheduledShoots(scheduled, filterAddress, filterPhotographer), scheduled)
    ensures forall s :: s in FilteredScheduledShoots(scheduled, filterAddress, filterPhotographer) <==>
      s in scheduled && PassesFilters(s, filterAddress, filterPhotographer)
    ensures filterAddress == "" && filterPhotographer == "" ==>
      FilteredScheduledShoots(scheduled, filterAddress, filterPhotographer) == scheduled
  {
    var p := s => PassesFilters(s, filterAddress, filterPhotographer);
    FilterSubsequence(scheduled, p);
    FilterMembership(scheduled, p);
    if filterAddress == "" && filterPhotographer == "" {
      FilterKeepsAll(scheduled, p);
    }
  }

  /** The address filter ignores letter case in the query. */
  lemma AddressFilterIgnoresCase(s: Shoot, a: string, b: string, filterPhotographer: string)
    requires a != "" && b != "" && Lower(a) == Lower(b)
    ensures PassesFilters(s, a, filterPhotographer) == PassesFilters(s, b, filterPhotographer)
  {
  }

  // ---------------------------------------------------------------------------
  // handleUploadComplete

  /** An uploaded file: its name and MIME type. */
  datatype UploadFile = UploadFile(name: string, mimeType: string)

  predicate IsImage(f: UploadFile) {
    StartsWith(f.mimeType, "image/")
  }

  predicate IsVideo(f: UploadFile) {
    StartsWith(f.mimeType, "video/")
  }

  predicate IsDocument(f: UploadFile) {
    !IsImage(f) && !IsVideo(f)
  }

  /** An uploaded entry; the object URL and the upload time come from the browser. */
  function MediaFiles(files: seq<UploadFile>, objectUrl: UploadFile -> string, stamp: string): (r: seq<MediaFile>)
    ensures |r| == |files|
    ensures forall i :: 0 <= i < |files| ==> r[i] == MediaFile(objectUrl(files[i]), files[i].name, stamp)
  {
    seq(|files|, i requires 0 <= i < |files| => MediaFile(objectUrl(files[i]), files[i].name, stamp))
  }

  /** The media bundle built from the uploaded files. */
  function UploadedMedia(files: seq<UploadFile>, objectUrl: UploadFile -> string, stamp: string): (r: Media)
    ensures forall m :: m in r.images + r.videos + r.documents ==> m.uploadedAt == stamp
    ensures (forall f :: f in files ==> !IsImage(f)) ==> r.images == []
    ensures (forall f :: f in files ==> !IsVideo(f)) ==> r.videos == []
  {
    FilterKeepsNone(files, IsImage);
    FilterKeepsNone(files, IsVideo);
    Media(
      MediaFiles(Filter(files, IsImage), objectUrl, stamp),
      MediaFiles(Filter(files, IsVideo), objectUrl, stamp),
      MediaFiles(Filter(files, IsDocument), objectUrl, stamp))
  }

  /** No MIME type starts with both `image/` and `video/`. */
  lemma ImageIsNotVideo(f: UploadFile)
    ensures !(IsImage(f) && IsVideo(f))
  {
    if IsImage(f) {
      assert f.mimeType[0] == "image/"[0];
    }
  }

  /** Every file lands in exactly one group, in original order, and the group sizes sum to the number of files. */
  lemma UploadPartition(files: seq<UploadFile>, objectUrl: UploadFile -> string, stamp: string)
    ensures forall f :: f in files ==>
      (if IsImage(f) then 1 else 0) + (if IsVideo(f) then 1 else 0) + (if IsDocument(f) then 1 else 0) == 1
    ensures IsSubsequence(Filter(files, IsImage), files)
    ensures IsSubsequence(Filter(files, IsVideo), files)
    ensures IsSubsequence(Filter(files, IsDocument), files)
    ensures var m := UploadedMedia(files, objectUrl, stamp);
      |m.images| + |m.videos| + |m.documents| == |files|
  {
    forall f ensures !(IsImage(f) && IsVideo(f)) {
      ImageIsNotVideo(f);
    }
    FilterSubsequence(files, IsImage);
    FilterSubsequence(files, IsVideo);
    FilterSubsequence(files, IsDocument);
    FilterPartitionLength(files, IsImage, IsVideo, IsDocument);
  }

  /** The partial update the upload hands to `updateShoot`. */
  function MediaPatch(media: Media): ShootPatch {
    EmptyPatch.(media := Some(Some(media)))
  }

  /** `handleUploadComplete`: nothing without a selected shoot; otherwise an update
      of that shoot's id with the new media bundle. */
  function UploadRequest(selected: Option<Shoot>, files: seq<UploadFile>, objectUrl: UploadFile -> string, stamp: string):
    (r: Option<(string, ShootPatch)>)
    ensures r.Some? <==> selected.Some?
    ensures r.Some? ==> r.value.0 == selected.value.id
    ensures r.Some? ==> r.value.1 == MediaPatch(UploadedMedia(files, objectUrl, stamp))
    ensures r.Some? ==> MergeShoot(selected.value, r.value.1) == selected.value.(media := Some(UploadedMedia(files, objectUrl, stamp)))
  {
    if selected.None? then None
    else Some((selected.value.id, MediaPatch(UploadedMedia(files, objectUrl, stamp))))
  }

  /** An upload replaces the record's whole media bundle and nothing else, and its
      payload is never empty, so a UUID-identified record is always sent to the table. */
  lemma UploadReplacesMedia(s: Shoot, media: Media)
    ensures MergeShoot(s, MediaPatch(media)) == s.(media := Some(media))
    ensures RemotePayload(MediaPatch(media)) == map[MediaColumn := MediaValue(media)]
    ensures IsUuid(s.id) ==> UpdateCall(s.id, MediaPatch(media)).Some?
  {
    var r := RemotePayload(MediaPatch(media));
    assert r.Keys == {MediaColumn};
  }

  /** What the page shows after the update: the toast title, and whether the
      upload dialog closes (and the selection is cleared). */
  datatype UploadNotice = UploadNotice(title: string, closesDialog: bool)

  /** A rejected update propagates out of `updateShoot` and is reported as a failed upload. */
  function UploadOutcome(result: UpdateResult): (r: UploadNotice)
    ensures r.closesDialog <==> result.Saved?
    ensures r.title == "Upload failed" <==> result.Failed?
  {
    if result.Saved? then UploadNotice("Media uploaded successfully", true)
    else UploadNotice("Upload failed", false)
  }

  /** An upload fails only when the record has a UUID and the table rejects the update;
      an upload on a locally identified record always succeeds. */
  lemma UploadFailsOnlyRemotely(s: Shoot, media: Media, remote: RemoteOutcome)
    ensures !UploadOutcome(UpdateResultOf(s.id, MediaPatch(media), remote)).closesDialog <==>
      IsUuid(s.id) && remote.RemoteError?
  {
    UploadReplacesMedia(s, media);
  }

  // ---------------------------------------------------------------------------
  // The status badge

  /** `statusColors[status] || 'bg-gray-500'`. */
  function StatusColor(status: string): (r: string)
    ensures r == "bg-gray-500" <==> status !in {"scheduled", "completed", "pending", "booked"}
  {
    match status
    case "scheduled" => "bg-blue-500"
    case "completed" => "bg-green-500"
    case "pending" => "bg-yellow-500"
    case "booked" => "bg-orange-500"
    case _ => "bg-gray-500"
  }

  /** The badge text is `Capitalize(status)`; the label of each known status. */
  lemma KnownStatusLabels()
    ensures Capitalize("scheduled") == "Scheduled" && Capitalize("booked") == "Booked"
    ensures Capitalize("completed") == "Completed" && Capitalize("pending") == "Pending"
  {
    assert Capitalize("scheduled") == ['S'] + "cheduled";
    assert Capitalize("booked") == ['B'] + "ooked";
    assert Capitalize("completed") == ['C'] + "ompleted";
    assert Capitalize("pending") == ['P'] + "ending";
  }
}

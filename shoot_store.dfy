/** The shoot store (`ShootsProvider`): the local, authoritative list of shoot
    records and its three mutations, with the decisions that mirror them to the
    remote `shoots` table. The network itself is not modelled: the outcome a
    remote call would have is an input, and each mutation returns the remote
    call it issues. */
module ShootStore {
  import opened Common
  import opened Text
  import opened ShootData
  import opened ShootQueries

  /** What the remote table answers to a write. */
  datatype RemoteOutcome = RemoteOk | RemoteError(message: string)

  /** What the remote table answers to the load at start-up. */
  datatype LoadResult = LoadFailed | Loaded(rows: seq<RemoteRow>)

  /** A value in the update payload. */
  datatype PayloadValue =
    | Text(text: string)
    | ClientValue(client: ClientRef)
    | LocationValue(location: Location)
    | PersonValue(person: Person)
    | ServicesValue(services: seq<string>)
    | PaymentValue(payment: Payment)
    | MediaValue(media: Media)
    | LinksValue(links: TourLinks)

  /** The columns an update may write. */
  datatype Column =
    | ScheduledDateColumn | TimeColumn | ClientColumn | LocationColumn | PhotographerColumn | EditorColumn
    | ServicesColumn | PaymentColumn | StatusColumn | NotesColumn | CompletedDateColumn | MediaColumn
    | TourLinksColumn
  {
    /** The snake_case key the payload uses for the column. */
    function Key(): string {
      match this
      case ScheduledDateColumn => "scheduled_date"
      case TimeColumn => "time"
      case ClientColumn => "client"
      case LocationColumn => "location"
      case PhotographerColumn => "photographer"
      case EditorColumn => "editor"
      case ServicesColumn => "services"
      case PaymentColumn => "payment"
      case StatusColumn => "status"
      case NotesColumn => "notes"
      case CompletedDateColumn => "completed_date"
      case MediaColumn => "media"
      case TourLinksColumn => "tour_links"
    }
  }

  /** A call the store issues to the remote table. */
  datatype RemoteCall =
    | Insert(row: RemoteRow)
    | Update(id: string, payload: map<Column, PayloadValue>)
    | Delete(id: string)

  /** A notification shown to the user. */
  datatype Notice = Notice(title: string, description: string)

  /** How `updateShoot` completes: it resolves (with the toast it showed, if any) or it rejects
      with the remote error message, after showing the error toast `error`. */
  datatype UpdateResult = Saved(notice: Option<Notice>) | Failed(error: Notice, message: string)

  /** A truthy string: present and non-empty. */
  predicate Truthy(o: Option<string>) {
    o.Some? && o.value != ""
  }

  const AllColumns: set<Column> := {
    ScheduledDateColumn, TimeColumn, ClientColumn, LocationColumn, PhotographerColumn, EditorColumn,
    ServicesColumn, PaymentColumn, StatusColumn, NotesColumn, CompletedDateColumn, MediaColumn, TourLinksColumn}

  /** Each column carries a value of its own kind: text, a client, a location, a person, and so on. */
  predicate ValueFits(c: Column, v: PayloadValue) {
    match c
    case ClientColumn => v.ClientValue?
    case LocationColumn => v.LocationValue?
    case PhotographerColumn => v.PersonValue?
    case EditorColumn => v.PersonValue?
    case ServicesColumn => v.ServicesValue?
    case PaymentColumn => v.PaymentValue?
    case MediaColumn => v.MediaValue?
    case TourLinksColumn => v.LinksValue?
    case _ => v.Text?
  }

  /** The value a patch contributes to one column of the payload, if any.
      Strings count as supplied when non-empty, objects and arrays when present,
      and `editor`, `notes` and `media` whenever they are not `undefined`. */
  function ColumnValue(p: ShootPatch, c: Column): (r: Option<PayloadValue>)
    ensures p == EmptyPatch ==> r.None?
    ensures r.Some? ==> ValueFits(c, r.value)
  {
    match c
    case ScheduledDateColumn => if Truthy(p.scheduledDate) then Some(Text(p.scheduledDate.value)) else None
    case TimeColumn => if Truthy(p.time) then Some(Text(p.time.value)) else None
    case ClientColumn => if p.client.Some? then Some(ClientValue(p.client.value)) else None
    case LocationColumn => if p.location.Some? then Some(LocationValue(p.location.value)) else None
    case PhotographerColumn => if p.photographer.Some? then Some(PersonValue(p.photographer.value)) else None
    case EditorColumn =>
      if p.editor.Some? && p.editor.value.Some? then Some(PersonValue(p.editor.value.value)) else None
    case ServicesColumn => if p.services.Some? then Some(ServicesValue(p.services.value)) else None
    case PaymentColumn => if p.payment.Some? then Some(PaymentValue(p.payment.value)) else None
    case StatusColumn => if Truthy(p.status) then Some(Text(p.status.value)) else None
    case NotesColumn => if p.notes.Some? && p.notes.value.Some? then Some(Text(p.notes.value.value)) else None
    case CompletedDateColumn =>
      if p.completedDate.Some? && Truthy(p.completedDate.value) then Some(Text(p.completedDate.value.value)) else None
    case MediaColumn => if p.media.Some? && p.media.value.Some? then Some(MediaValue(p.media.value.value)) else None
    case TourLinksColumn =>
      if p.tourLinks.Some? && p.tourLinks.value.Some? then Some(LinksValue(p.tourLinks.value.value)) else None
  }

  /** The update payload `updateShoot` builds: one entry per column the patch supplies. */
  function RemotePayload(p: ShootPatch): (r: map<Column, PayloadValue>)
    ensures forall c :: c in r <==> ColumnValue(p, c).Some?
    ensures forall c :: c in r ==> r[c] == ColumnValue(p, c).value
  {
    map c | c in AllColumns && ColumnValue(p, c).Some? :: ColumnValue(p, c).value
  }

  /** The payload holds a key for a field exactly when that field was supplied. */
  lemma PayloadKeys(p: ShootPatch)
    ensures ScheduledDateColumn in RemotePayload(p) <==> Truthy(p.scheduledDate)
    ensures TimeColumn in RemotePayload(p) <==> Truthy(p.time)
    ensures ClientColumn in RemotePayload(p) <==> p.client.Some?
    ensures LocationColumn in RemotePayload(p) <==> p.location.Some?
    ensures PhotographerColumn in RemotePayload(p) <==> p.photographer.Some?
    ensures EditorColumn in RemotePayload(p) <==> p.editor.Some? && p.editor.value.Some?
    ensures ServicesColumn in RemotePayload(p) <==> p.services.Some?
    ensures PaymentColumn in RemotePayload(p) <==> p.payment.Some?
    ensures StatusColumn in RemotePayload(p) <==> Truthy(p.status)
    ensures NotesColumn in RemotePayload(p) <==> p.notes.Some? && p.notes.value.Some?
    ensures CompletedDateColumn in RemotePayload(p) <==> p.completedDate.Some? && Truthy(p.completedDate.value)
    ensures MediaColumn in RemotePayload(p) <==> p.media.Some? && p.media.value.Some?
    ensures TourLinksColumn in RemotePayload(p) <==> p.tourLinks.Some? && p.tourLinks.value.Some?
  {
  }

  /** The snake_case keys are pairwise distinct, so no two fields share a payload entry. */
  lemma ColumnKeysDistinct(c: Column, d: Column)
    requires c != d
    ensures c.Key() != d.Key()
  {
  }

  /** An update that supplies only `id` or `createdBy` (or nothing) has an empty payload. */
  lemma PayloadIgnoresIdentity(p: ShootPatch)
    requires p.(id := None, createdBy := None) == EmptyPatch
    ensures RemotePayload(p) == map[]
  {
    var r := RemotePayload(p);
    assert r.Keys == {};
  }

  predicate IsDashPosition(i: int) {
    i == 8 || i == 13 || i == 18 || i == 23
  }

  /** The identifier test `^[0-9a-fA-F]{8}-[0-9a-fA-F]{4}-[0-9a-fA-F]{4}-[0-9a-fA-F]{4}-[0-9a-fA-F]{12}$`,
      group by group. */
  predicate IsUuid(id: string)
    ensures IsUuid(id) ==> |id| == 36 && forall i :: 0 <= i < |id| ==> id[i] == '-' || IsHexDigit(id[i])
  {
    && |id| == 36
    && AllHex(id[0..8]) && id[8] == '-'
    && AllHex(id[9..13]) && id[13] == '-'
    && AllHex(id[14..18]) && id[18] == '-'
    && AllHex(id[19..23]) && id[23] == '-'
    && AllHex(id[24..36])
  }

  /** The same test position by position: dashes at 8, 13, 18 and 23, a hex digit everywhere else. */
  lemma UuidPositional(id: string)
    ensures IsUuid(id) <==> (|id| == 36 &&
      forall i :: 0 <= i < 36 ==> if IsDashPosition(i) then id[i] == '-' else IsHexDigit(id[i]))
  {
    if |id| == 36 && forall i :: 0 <= i < 36 ==> if IsDashPosition(i) then id[i] == '-' else IsHexDigit(id[i]) {
      assert forall i :: 0 <= i < 8 ==> id[0..8][i] == id[i];
      assert forall i :: 0 <= i < 4 ==> id[9..13][i] == id[9 + i] && id[14..18][i] == id[14 + i] && id[19..23][i] == id[19 + i];
      assert forall i :: 0 <= i < 12 ==> id[24..36][i] == id[24 + i];
    }
    if IsUuid(id) {
      forall i | 0 <= i < 36 ensures if IsDashPosition(i) then id[i] == '-' else IsHexDigit(id[i]) {
        if i < 8 {
          assert id[0..8][i] == id[i];
        } else if 8 < i < 13 {
          assert id[9..13][i - 9] == id[i];
        } else if 13 < i < 18 {
          assert id[14..18][i - 14] == id[i];
        } else if 18 < i < 23 {
          assert id[19..23][i - 19] == id[i];
        } else if 23 < i {
          assert id[24..36][i - 24] == id[i];
        }
      }
    }
  }

  /** A timestamp-style local identifier is not sent to the remote table. */
  lemma TimestampIdIsNotUuid()
    ensures !IsUuid("1697371200000")
  {
  }

  /** The remote call `updateShoot` issues: only when the payload is non-empty and the id is UUID-shaped. */
  function UpdateCall(shootId: string, updates: ShootPatch): (r: Option<RemoteCall>)
    ensures r.Some? <==> |RemotePayload(updates)| > 0 && IsUuid(shootId)
    ensures r.Some? ==> r.value == Update(shootId, RemotePayload(updates))
  {
    var payload := RemotePayload(updates);
    if |payload| > 0 && IsUuid(shootId) then Some(Update(shootId, payload)) else None
  }

  /** How `updateShoot` completes, given what the remote table would answer. */
  function UpdateResultOf(shootId: string, updates: ShootPatch, remote: RemoteOutcome): (r: UpdateResult)
    ensures r.Failed? <==> UpdateCall(shootId, updates).Some? && remote.RemoteError?
    ensures r.Failed? ==> r.message == remote.message && r.error == Notice("Error updating shoot", remote.message)
    ensures r.Saved? && r.notice.None? <==> |RemotePayload(updates)| == 0
  {
    if |RemotePayload(updates)| == 0 then Saved(None)
    else if !IsUuid(shootId) then Saved(Some(Notice("Notes saved", "Your changes have been saved to local storage")))
    else if remote.RemoteError? then Failed(Notice("Error updating shoot", remote.message), remote.message)
    else Saved(Some(Notice("Notes saved", "Your changes have been saved successfully")))
  }

  /** A non-UUID identifier never reaches the remote table, and such an update never fails. */
  lemma NonUuidUpdateStaysLocal(shootId: string, updates: ShootPatch, remote: RemoteOutcome)
    requires !IsUuid(shootId)
    ensures UpdateCall(shootId, updates) == None
    ensures UpdateResultOf(shootId, updates, remote).Saved?
  {
  }

  /** The local list after `updateShoot`: the patch is merged into every record with that id. */
  function MergeById(shoots: seq<Shoot>, shootId: string, updates: ShootPatch): (r: seq<Shoot>)
    ensures |r| == |shoots|
  {
    seq(|shoots|, i requires 0 <= i < |shoots| =>
      if shoots[i].id == shootId then MergeShoot(shoots[i], updates) else shoots[i])
  }

  /** The local list after `deleteShoot`. */
  function RemoveById(shoots: seq<Shoot>, shootId: string): (r: seq<Shoot>)
    ensures |r| <= |shoots|
    ensures forall s :: s in r ==> s in shoots && s.id != shootId
  {
    Filter(shoots, (s: Shoot) => s.id != shootId)
  }

  /** The local list after the start-up load: replaced by the transformed rows when
      the table returned any, kept otherwise. */
  function LoadedShoots(current: seq<Shoot>, result: LoadResult): (r: seq<Shoot>)
    ensures result.LoadFailed? || result.rows == [] ==> r == current
    ensures result.Loaded? && result.rows != [] ==>
      |r| == |result.rows| && forall i :: 0 <= i < |r| ==> r[i] == FromRow(result.rows[i])
  {
    if result.Loaded? && |result.rows| > 0 then
      seq(|result.rows|, i requires 0 <= i < |result.rows| => FromRow(result.rows[i]))
    else current
  }

  /** Identifiers are pairwise distinct. */
  ghost predicate UniqueIds(shoots: seq<Shoot>) {
    forall i, j :: 0 <= i < j < |shoots| ==> shoots[i].id != shoots[j].id
  }

  class ShootStore {
    var shoots: seq<Shoot>

    /** The list restored from local storage, or empty. */
    constructor (stored: Option<seq<Shoot>>)
      ensures shoots == stored.GetOr([])
    {
      shoots := stored.GetOr([]);
    }

    /** The mount-time load from the remote table. */
    method LoadFromRemote(result: LoadResult)
      modifies this
      ensures shoots == LoadedShoots(old(shoots), result)
    {
      if result.Loaded? && |result.rows| > 0 {
        shoots := LoadedShoots(shoots, result);
      }
    }

    /** `addShoot`: appended locally first; the insert it then issues cannot undo that. */
    method AddShoot(shoot: Shoot) returns (call: RemoteCall)
      modifies this
      ensures shoots == old(shoots) + [shoot]
      ensures call == Insert(ToRow(shoot))
    {
      shoots := shoots + [shoot];
      call := Insert(ToRow(shoot));
    }

    /** `updateShoot`: merged locally first; a rejected remote update fails the call
        but the local merge stays. */
    method UpdateShoot(shootId: string, updates: ShootPatch, remote: RemoteOutcome)
      returns (call: Option<RemoteCall>, result: UpdateResult)
      modifies this
      ensures shoots == MergeById(old(shoots), shootId, updates)
      ensures call == UpdateCall(shootId, updates)
      ensures result == UpdateResultOf(shootId, updates, remote)
    {
      shoots := MergeById(shoots, shootId, updates);
      var payload := RemotePayload(updates);
      if |payload| > 0 {
        if IsUuid(shootId) {
          call := Some(Update(shootId, payload));
          match remote {
            case RemoteError(message) =>
              result := Failed(Notice("Error updating shoot", message), message);
            case RemoteOk =>
              result := Saved(Some(Notice("Notes saved", "Your changes have been saved successfully")));
          }
        } else {
          call := None;
          result := Saved(Some(Notice("Notes saved", "Your changes have been saved to local storage")));
        }
      } else {
        call := None;
        result := Saved(None);
      }
    }

    /** `deleteShoot`: filtered out locally first; the delete is always sent,
        whatever the id looks like, and a rejection only shows a notice. */
    method DeleteShoot(shootId: string, remote: RemoteOutcome) returns (call: RemoteCall, notice: Option<Notice>)
      modifies this
      ensures shoots == RemoveById(old(shoots), shootId)
      ensures call == Delete(shootId)
      ensures notice.Some? <==> remote.RemoteError?
      ensures notice.Some? ==> notice.value == Notice("Error deleting shoot", remote.message)
    {
      shoots := RemoveById(shoots, shootId);
      call := Delete(shootId);
      notice := if remote.RemoteError? then Some(Notice("Error deleting shoot", remote.message)) else None;
    }

    /** `getUniquePhotographers`. */
    method UniquePhotographers() returns (r: seq<Tally<Option<string>>>)
      ensures r == Grouped(PhotographerKeys(shoots))
    {
      r := GroupByName(PhotographerKeys(shoots));
    }

    /** `getUniqueEditors`. */
    method UniqueEditors() returns (r: seq<Tally<Option<string>>>)
      ensures r == Grouped(EditorKeys(shoots))
    {
      r := GroupByName(EditorKeys(shoots));
    }

    /** `getUniqueClients`. */
    method UniqueClients() returns (r: seq<Tally<ClientInfo>>)
      ensures r == Grouped(ClientKeys(shoots))
    {
      r := GroupByName(ClientKeys(shoots));
    }
  }

  // ---------------------------------------------------------------------------
  // Properties of the mutations

  /** `updateShoot` touches only records with a matching id; list length and order are unchanged. */
  lemma MergeByIdSpec(shoots: seq<Shoot>, shootId: string, updates: ShootPatch)
    ensures |MergeById(shoots, shootId, updates)| == |shoots|
    ensures forall i :: 0 <= i < |shoots| && shoots[i].id != shootId ==> MergeById(shoots, shootId, updates)[i] == shoots[i]
    ensures forall i :: 0 <= i < |shoots| && shoots[i].id == shootId ==>
      MergeById(shoots, shootId, updates)[i] == MergeShoot(shoots[i], updates)
    ensures (forall s :: s in shoots ==> s.id != shootId) ==> MergeById(shoots, shootId, updates) == shoots
  {
  }

  /** After `deleteShoot` no record has that id, and all other records remain in their order. */
  lemma RemoveByIdSpec(shoots: seq<Shoot>, shootId: string)
    ensures forall s :: s in RemoveById(shoots, shootId) ==> s.id != shootId
    ensures forall s :: s in shoots && s.id != shootId ==> s in RemoveById(shoots, shootId)
    ensures IsSubsequence(RemoveById(shoots, shootId), shoots)
    ensures |RemoveById(shoots, shootId)| + |Filter(shoots, (s: Shoot) => s.id == shootId)| == |shoots|
  {
    FilterMembership(shoots, (s: Shoot) => s.id != shootId);
    FilterSubsequence(shoots, (s: Shoot) => s.id != shootId);
    ComplementLength(shoots, shootId);
  }

  lemma {:induction false} ComplementLength(shoots: seq<Shoot>, shootId: string)
    ensures |Filter(shoots, (s: Shoot) => s.id != shootId)| + |Filter(shoots, (s: Shoot) => s.id == shootId)| == |shoots|
  {
    if shoots != [] {
      ComplementLength(shoots[1..], shootId);
    }
  }

  /** Appending keeps identifiers distinct exactly when the new id is not already present. */
  lemma AddKeepsUniqueIds(shoots: seq<Shoot>, shoot: Shoot)
    requires UniqueIds(shoots)
    ensures UniqueIds(shoots + [shoot]) <==> forall s :: s in shoots ==> s.id != shoot.id
  {
    var all := shoots + [shoot];
    if forall s :: s in shoots ==> s.id != shoot.id {
      forall i, j | 0 <= i < j < |all| ensures all[i].id != all[j].id {
        if j == |shoots| {
          assert all[i] in shoots;
        }
      }
    } else {
      var s :| s in shoots && s.id == shoot.id;
      var i :| 0 <= i < |shoots| && shoots[i] == s;
      assert all[i].id == all[|shoots|].id;
    }
  }

  /** Deleting keeps identifiers distinct. */
  lemma {:induction false} RemoveKeepsUniqueIds(shoots: seq<Shoot>, shootId: string)
    requires UniqueIds(shoots)
    ensures UniqueIds(RemoveById(shoots, shootId))
  {
    if shoots != [] {
      var p := (s: Shoot) => s.id != shootId;
      var rest := Filter(shoots[1..], p);
      assert UniqueIds(shoots[1..]) by {
        forall i, j | 0 <= i < j < |shoots| - 1 ensures shoots[1..][i].id != shoots[1..][j].id {
          assert shoots[i + 1].id != shoots[j + 1].id;
        }
      }
      RemoveKeepsUniqueIds(shoots[1..], shootId);
      if p(shoots[0]) {
        forall k | 0 <= k < |rest| ensures rest[k].id != shoots[0].id {
          assert rest[k] in shoots[1..];
          var m :| 0 <= m < |shoots| - 1 && shoots[1..][m] == rest[k];
          assert shoots[m + 1] == rest[k];
        }
        assert RemoveById(shoots, shootId) == [shoots[0]] + rest;
      }
    }
  }

  /** An update that does not supply an id keeps identifiers distinct. */
  lemma UpdateKeepsUniqueIds(shoots: seq<Shoot>, shootId: string, updates: ShootPatch)
    requires UniqueIds(shoots) && updates.id.None?
    ensures UniqueIds(MergeById(shoots, shootId, updates))
  {
  }

  // ---------------------------------------------------------------------------
  // The store's mutations as seen through its status query

  /** A record just added is returned by the query for its own status whenever
      the user may see it, whatever happened to the remote insert. */
  lemma AddedShootIsListed(shoots: seq<Shoot>, shoot: Shoot, user: Option<User>)
    requires Visible(user, shoot)
    ensures shoot in ClientShootsByStatus(shoots + [shoot], user, shoot.status)
  {
    ClientShootsByStatusSpec(shoots + [shoot], user, shoot.status);
  }

  /** After a delete, no query returns a record with that id. */
  lemma DeletedShootIsGone(shoots: seq<Shoot>, shootId: string, user: Option<User>, status: string)
    ensures forall s :: s in ClientShootsByStatus(RemoveById(shoots, shootId), user, status) ==> s.id != shootId
  {
    ClientShootsByStatusSpec(RemoveById(shoots, shootId), user, status);
    RemoveByIdSpec(shoots, shootId);
  }

  /** Setting a status is reflected by the query for that status straight away,
      before and whatever the remote update answers. */
  lemma UpdatedStatusIsListed(shoots: seq<Shoot>, shootId: string, updates: ShootPatch, user: Option<User>, i: nat)
    requires i < |shoots| && shoots[i].id == shootId
    requires updates.status.Some?
    requires Visible(user, MergeShoot(shoots[i], updates))
    ensures MergeShoot(shoots[i], updates) in ClientShootsByStatus(MergeById(shoots, shootId, updates), user, updates.status.value)
  {
    var after := MergeById(shoots, shootId, updates);
    assert after[i] == MergeShoot(shoots[i], updates);
    ClientShootsByStatusSpec(after, user, updates.status.value);
  }
}

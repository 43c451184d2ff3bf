/** The store's read-only queries: `getClientShootsByStatus` and the three
    `getUnique*` groupings (photographers, editors, clients). */
module ShootQueries {
  import opened Common
  import opened ShootData

  /** The signed-in principal as the authentication context exposes it. */
  datatype User = User(name: string, email: string, company: Option<string>, role: string)

  predicate IsClientRole(user: Option<User>) {
    user.Some? && user.value.role == "client"
  }

  /** The store's client-identity test: name, email, or a non-empty user company equal to the record's. */
  predicate MatchesClient(u: User, s: Shoot)
    ensures u.company.None? || u.company == Some("") ==>
      (MatchesClient(u, s) <==> s.client.name == u.name || s.client.email == u.email)
  {
    || s.client.name == u.name
    || s.client.email == u.email
    || (u.company.Some? && u.company.value != "" && s.client.company == u.company)
  }

  /** A record is visible to a client-role user only when it matches them; other roles see every record. */
  predicate Visible(user: Option<User>, s: Shoot) {
    !IsClientRole(user) || MatchesClient(user.value, s)
  }

  /** A `'scheduled'` query also accepts `'booked'` records; any other status is matched literally. */
  predicate StatusMatches(query: string, s: Shoot)
    ensures s.status == query ==> StatusMatches(query, s)
    ensures query != "scheduled" ==> (StatusMatches(query, s) <==> s.status == query)
  {
    if query == "scheduled" then s.status == "scheduled" || s.status == "booked" else s.status == query
  }

  function NarrowToUser(shoots: seq<Shoot>, user: Option<User>): seq<Shoot> {
    if IsClientRole(user) then Filter(shoots, s => MatchesClient(user.value, s)) else shoots
  }

  /** `getClientShootsByStatus`: identity narrowing, then the status filter. */
  function ClientShootsByStatus(shoots: seq<Shoot>, user: Option<User>, status: string): (r: seq<Shoot>)
    ensures |r| <= |shoots|
    ensures forall s :: s in r ==> s in shoots && Visible(user, s) && StatusMatches(status, s)
  {
    Filter(NarrowToUser(shoots, user), s => StatusMatches(status, s))
  }

  /** The two-pass query is one order-preserving filter of the store by visibility and status. */
  lemma ClientShootsByStatusSpec(shoots: seq<Shoot>, user: Option<User>, status: string)
    ensures ClientShootsByStatus(shoots, user, status) == Filter(shoots, s => Visible(user, s) && StatusMatches(status, s))
    ensures IsSubsequence(ClientShootsByStatus(shoots, user, status), shoots)
    ensures forall s :: s in ClientShootsByStatus(shoots, user, status) <==>
      s in shoots && Visible(user, s) && StatusMatches(status, s)
  {
    var both := s => Visible(user, s) && StatusMatches(status, s);
    if IsClientRole(user) {
      FilterTwice(shoots, s => MatchesClient(user.value, s), s => StatusMatches(status, s), both);
    } else {
      FilterCongruent(shoots, s => StatusMatches(status, s), both);
    }
    FilterSubsequence(shoots, both);
    FilterMembership(shoots, both);
  }

  /** A `'scheduled'` query returns exactly the visible records that are scheduled or booked. */
  lemma ScheduledIncludesBooked(shoots: seq<Shoot>, user: Option<User>)
    ensures forall s :: s in ClientShootsByStatus(shoots, user, "scheduled") <==>
      s in shoots && Visible(user, s) && (s.status == "scheduled" || s.status == "booked")
  {
    ClientShootsByStatusSpec(shoots, user, "scheduled");
  }

  /** Any other query returns exactly the visible records with that literal status. */
  lemma OtherStatusIsLiteral(shoots: seq<Shoot>, user: Option<User>, status: string)
    requires status != "scheduled"
    ensures forall s :: s in ClientShootsByStatus(shoots, user, status) <==>
      s in shoots && Visible(user, s) && s.status == status
  {
    ClientShootsByStatusSpec(shoots, user, status);
  }

  /** A user without the client role sees the status filter of the whole store. */
  lemma NonClientSeesAll(shoots: seq<Shoot>, user: Option<User>, status: string)
    requires !IsClientRole(user)
    ensures ClientShootsByStatus(shoots, user, status) == Filter(shoots, s => StatusMatches(status, s))
  {
  }

  // ---------------------------------------------------------------------------
  // getUniquePhotographers / getUniqueEditors / getUniqueClients

  /** One named occurrence, with the fields carried into the summary. */
  datatype Keyed<T> = Keyed(name: string, info: T)

  /** One summary entry: a name, the fields of its first occurrence, and its number of occurrences. */
  datatype Tally<T> = Tally(name: string, info: T, shootCount: nat)

  /** The client fields `getUniqueClients` carries. */
  datatype ClientInfo = ClientInfo(email: string, company: Option<string>, phone: Option<string>)

  /** Records whose photographer has a non-empty name, keyed by it and carrying the avatar. */
  function PhotographerKeys(shoots: seq<Shoot>): (r: seq<Keyed<Option<string>>>)
    ensures forall k :: k in r ==> k.name != ""
  {
    if shoots == [] then []
    else
      var p := shoots[0].photographer;
      (if p.name != "" then [Keyed(p.name, p.avatar)] else []) + PhotographerKeys(shoots[1..])
  }

  /** Records with an editor whose name is non-empty, keyed by it and carrying the avatar. */
  function EditorKeys(shoots: seq<Shoot>): (r: seq<Keyed<Option<string>>>)
    ensures forall k :: k in r ==> k.name != ""
  {
    if shoots == [] then []
    else
      var e := shoots[0].editor;
      (if e.Some? && e.value.name != "" then [Keyed(e.value.name, e.value.avatar)] else []) + EditorKeys(shoots[1..])
  }

  /** Records whose client has a non-empty name, keyed by it and carrying email, company and phone. */
  function ClientKeys(shoots: seq<Shoot>): (r: seq<Keyed<ClientInfo>>)
    ensures forall k :: k in r ==> k.name != ""
  {
    if shoots == [] then []
    else
      var c := shoots[0].client;
      (if c.name != "" then [Keyed(c.name, ClientInfo(c.email, c.company, c.phone))] else []) + ClientKeys(shoots[1..])
  }

  /** One key per record that has a named photographer. */
  lemma {:induction false} PhotographerKeysCount(shoots: seq<Shoot>)
    ensures |PhotographerKeys(shoots)| == |Filter(shoots, (s: Shoot) => s.photographer.name != "")|
  {
    if shoots != [] {
      PhotographerKeysCount(shoots[1..]);
    }
  }

  /** One key per record that has a named editor. */
  lemma {:induction false} EditorKeysCount(shoots: seq<Shoot>)
    ensures |EditorKeys(shoots)| == |Filter(shoots, (s: Shoot) => s.editor.Some? && s.editor.value.name != "")|
  {
    if shoots != [] {
      EditorKeysCount(shoots[1..]);
    }
  }

  /** One key per record that has a named client. */
  lemma {:induction false} ClientKeysCount(shoots: seq<Shoot>)
    ensures |ClientKeys(shoots)| == |Filter(shoots, (s: Shoot) => s.client.name != "")|
  {
    if shoots != [] {
      ClientKeysCount(shoots[1..]);
    }
  }

  function Last<T>(items: seq<T>): T
    requires items != []
  {
    items[|items| - 1]
  }

  function AllButLast<T>(items: seq<T>): seq<T>
    requires items != []
  {
    items[..|items| - 1]
  }

  /** The distinct names, in order of first appearance (the insertion order of a JavaScript `Map`). */
  function Names<T>(items: seq<Keyed<T>>): seq<string> {
    if items == [] then []
    else
      var prior := Names(AllButLast(items));
      if Last(items).name in prior then prior else prior + [Last(items).name]
  }

  /** How many items carry the name `n`. */
  function Occurrences<T>(items: seq<Keyed<T>>, n: string): nat {
    if items == [] then 0
    else Occurrences(AllButLast(items), n) + if Last(items).name == n then 1 else 0
  }

  /** The carried fields of the first item named `n`. */
  function FirstInfo<T>(items: seq<Keyed<T>>, n: string): T
    requires n in Names(items)
  {
    if n in Names(AllButLast(items)) then FirstInfo(AllButLast(items), n) else Last(items).info
  }

  /** The specification of the grouping: one entry per distinct name, in first-seen order. */
  function Grouped<T>(items: seq<Keyed<T>>): seq<Tally<T>> {
    var names := Names(items);
    seq(|names|, i requires 0 <= i < |names| => Tally(names[i], FirstInfo(items, names[i]), Occurrences(items, names[i])))
  }

  /** The `forEach` loop over the records that updates a name-keyed map in place,
      followed by `Array.from(map.values())`. */
  method GroupByName<T>(items: seq<Keyed<T>>) returns (r: seq<Tally<T>>)
    ensures r == Grouped(items)
  {
    var entries: map<string, Tally<T>> := map[];
    var order: seq<string> := [];
    var k := 0;
    while k < |items|
      invariant 0 <= k <= |items|
      invariant order == Names(items[..k])
      invariant forall n :: n in entries <==> n in order
      invariant forall n :: n in entries ==>
        entries[n] == Tally(n, FirstInfo(items[..k], n), Occurrences(items[..k], n))
    {
      var item := items[k];
      ghost var done, next := items[..k], items[..k + 1];
      assert AllButLast(next) == done && Last(next) == item;
      ghost var before := entries;
      if item.name in entries {
        var existing := entries[item.name];
        entries := entries[item.name := existing.(shootCount := existing.shootCount + 1)];
      } else {
        entries := entries[item.name := Tally(item.name, item.info, 1)];
        order := order + [item.name];
      }
      forall n | n in entries
        ensures entries[n] == Tally(n, FirstInfo(next, n), Occurrences(next, n))
      {
        if n !in Names(done) {
          UnlistedNameAbsent(done, n);
        }
        if n != item.name {
          assert n in before && entries[n] == before[n];
        }
      }
      k := k + 1;
    }
    assert items[..k] == items;
    r := seq(|order|, i requires 0 <= i < |order| && order[i] in entries => entries[order[i]]);
  }

  /** A name is listed iff some item carries it. */
  lemma {:induction false} NamesMembership<T>(items: seq<Keyed<T>>, n: string)
    ensures n in Names(items) <==> exists i :: 0 <= i < |items| && items[i].name == n
  {
    if items != [] {
      var prior := AllButLast(items);
      NamesMembership(prior, n);
      if exists i :: 0 <= i < |prior| && prior[i].name == n {
        var i :| 0 <= i < |prior| && prior[i].name == n;
        assert items[i].name == n;
      }
      if exists i :: 0 <= i < |items| && items[i].name == n {
        var i :| 0 <= i < |items| && items[i].name == n;
        if i < |prior| {
          assert prior[i].name == n;
        }
      }
    }
  }

  /** No name is listed twice. */
  lemma {:induction false} NamesDistinct<T>(items: seq<Keyed<T>>)
    ensures forall i, j :: 0 <= i < j < |Names(items)| ==> Names(items)[i] != Names(items)[j]
  {
    if items != [] {
      NamesDistinct(AllButLast(items));
    }
  }

  /** First-seen order: the names of any prefix of the items are a prefix of the names of all of them. */
  lemma {:induction false} NamesPrefix<T>(items: seq<Keyed<T>>, k: nat)
    requires k <= |items|
    ensures Names(items[..k]) <= Names(items)
    decreases |items|
  {
    if k < |items| {
      assert items[..k] == AllButLast(items)[..k];
      NamesPrefix(AllButLast(items), k);
    } else {
      assert items[..k] == items;
    }
  }

  /** A name that is not listed does not occur. */
  lemma {:induction false} UnlistedNameAbsent<T>(items: seq<Keyed<T>>, n: string)
    requires n !in Names(items)
    ensures Occurrences(items, n) == 0
  {
    if items != [] {
      UnlistedNameAbsent(AllButLast(items), n);
    }
  }

  /** The carried fields are those of the first item with that name. */
  lemma {:induction false} FirstInfoIsFirst<T>(items: seq<Keyed<T>>, n: string)
    requires n in Names(items)
    ensures exists i :: (0 <= i < |items| && items[i].name == n && items[i].info == FirstInfo(items, n) &&
      forall j :: 0 <= j < i ==> items[j].name != n)
  {
    var prior := AllButLast(items);
    if n in Names(prior) {
      FirstInfoIsFirst(prior, n);
      var i :| 0 <= i < |prior| && prior[i].name == n && prior[i].info == FirstInfo(prior, n) &&
        forall j :: 0 <= j < i ==> prior[j].name != n;
      assert items[i] == prior[i];
    } else {
      NamesMembership(prior, n);
      assert forall j :: 0 <= j < |prior| ==> items[j] == prior[j];
    }
  }

  /** The count equals the number of items with that name, counted by a filter. */
  lemma {:induction false} OccurrencesCountsItems<T>(items: seq<Keyed<T>>, n: string)
    ensures Occurrences(items, n) == |Filter(items, (x: Keyed<T>) => x.name == n)|
  {
    if items != [] {
      var prior := AllButLast(items);
      OccurrencesCountsItems(prior, n);
      assert items == prior + [Last(items)];
      FilterAppend(prior, [Last(items)], (x: Keyed<T>) => x.name == n);
    }
  }

  function SumCounts<T>(entries: seq<Tally<T>>): nat {
    if entries == [] then 0 else SumCounts(AllButLast(entries)) + Last(entries).shootCount
  }

  function SumOccurrences<T>(items: seq<Keyed<T>>, names: seq<string>): nat {
    if names == [] then 0 else SumOccurrences(items, AllButLast(names)) + Occurrences(items, Last(names))
  }

  lemma {:induction false} SumCountsOfEntries<T>(items: seq<Keyed<T>>, names: seq<string>, entries: seq<Tally<T>>)
    requires |entries| == |names|
    requires forall i :: 0 <= i < |names| ==> entries[i].shootCount == Occurrences(items, names[i])
    ensures SumCounts(entries) == SumOccurrences(items, names)
  {
    if names != [] {
      SumCountsOfEntries(items, AllButLast(names), AllButLast(entries));
    }
  }

  /** Adding one item raises the sum over distinct names by one iff its name is among them. */
  lemma {:induction false} SumOccurrencesAppend<T>(items: seq<Keyed<T>>, x: Keyed<T>, names: seq<string>)
    requires forall i, j :: 0 <= i < j < |names| ==> names[i] != names[j]
    ensures SumOccurrences(items + [x], names) == SumOccurrences(items, names) + if x.name in names then 1 else 0
  {
    if names != [] {
      var prior := AllButLast(names);
      assert names == prior + [Last(names)];
      SumOccurrencesAppend(items, x, prior);
      assert AllButLast(items + [x]) == items;
    }
  }

  /** Every item is counted exactly once over the distinct names. */
  lemma {:induction false} SumOverNames<T>(items: seq<Keyed<T>>)
    ensures SumOccurrences(items, Names(items)) == |items|
  {
    if items != [] {
      var prior := AllButLast(items);
      var x := Last(items);
      assert items == prior + [x];
      SumOverNames(prior);
      NamesDistinct(prior);
      SumOccurrencesAppend(prior, x, Names(prior));
      if x.name !in Names(prior) {
        var names := Names(prior) + [x.name];
        assert AllButLast(names) == Names(prior);
        UnlistedNameAbsent(prior, x.name);
      }
    }
  }

  /** The shoot counts of the grouping sum to the number of named items. */
  lemma GroupedCountsSum<T>(items: seq<Keyed<T>>)
    ensures SumCounts(Grouped(items)) == |items|
  {
    SumCountsOfEntries(items, Names(items), Grouped(items));
    SumOverNames(items);
  }

  /** Everything the grouping promises, entry by entry. */
  lemma GroupedSpec<T>(items: seq<Keyed<T>>)
    ensures |Grouped(items)| == |Names(items)|
    ensures forall i :: 0 <= i < |Names(items)| ==> Grouped(items)[i].name == Names(items)[i]
    ensures forall n :: n in Names(items) <==> exists i :: 0 <= i < |items| && items[i].name == n
    ensures forall i, j :: 0 <= i < j < |Grouped(items)| ==> Grouped(items)[i].name != Grouped(items)[j].name
    ensures forall e :: e in Grouped(items) ==> e.shootCount == |Filter(items, (x: Keyed<T>) => x.name == e.name)|
    ensures forall e :: e in Grouped(items) ==> exists i :: (0 <= i < |items| && items[i].name == e.name &&
      items[i].info == e.info && forall j :: 0 <= j < i ==> items[j].name != e.name)
    ensures SumCounts(Grouped(items)) == |items|
  {
    var g := Grouped(items);
    var names := Names(items);
    forall n ensures n in names <==> exists i :: 0 <= i < |items| && items[i].name == n {
      NamesMembership(items, n);
    }
    NamesDistinct(items);
    forall e | e in g
      ensures e.shootCount == |Filter(items, (x: Keyed<T>) => x.name == e.name)|
      ensures exists i :: (0 <= i < |items| && items[i].name == e.name &&
        items[i].info == e.info && forall j :: 0 <= j < i ==> items[j].name != e.name)
    {
      OccurrencesCountsItems(items, e.name);
      FirstInfoIsFirst(items, e.name);
    }
    GroupedCountsSum(items);
  }
}

/** The client-and-property step of the booking flow: the two form schemas (client
    account and admin) as validators, the default form values, the client search,
    the selected client, the submitted booking details and the package highlight. */
module ClientPropertyForm {
  import opened Common
  import opened Text

  /** A client as the form reads it; `phone` and `company` may be absent. */
  datatype Client = Client(id: string, name: string, email: string, phone: Option<string>, company: Option<string>)

  /** The form's values. `clientId` exists only in the admin form. */
  datatype FormValues = FormValues(
    clientId: Option<string>,
    propertyAddress: string,
    propertyCity: string,
    propertyState: string,
    propertyZip: string,
    propertyType: string,
    propertyInfo: Option<string>,
    selectedPackage: string)

  /** The fields a schema checks, in schema order. */
  datatype Field = ClientId | PropertyAddress | PropertyCity | PropertyState | PropertyZip | PropertyType | SelectedPackage

  /** One validation failure: the field and its message. */
  datatype Issue = Issue(field: Field, message: string)

  datatype ParseResult = Parsed(data: FormValues) | Invalid(issues: seq<Issue>)

  /** `z.string().min(1, message)`: an empty string fails with `message`; a string of spaces passes. */
  function MinOne(field: Field, value: string, message: string): seq<Issue> {
    if |value| >= 1 then [] else [Issue(field, message)]
  }

  /** `z.enum(["residential", "commercial"])`, with the library's default message. */
  function PropertyTypeIssues(value: string): seq<Issue> {
    if value == "residential" || value == "commercial" then []
    else [Issue(PropertyType, "Invalid enum value. Expected 'residential' | 'commercial', received '" + value + "'")]
  }

  /** The issues of the fields the two schemas share, in schema order. */
  function PropertyIssues(v: FormValues): seq<Issue> {
    MinOne(PropertyAddress, v.propertyAddress, "Address is required")
      + MinOne(PropertyCity, v.propertyCity, "City is required")
      + MinOne(PropertyState, v.propertyState, "State is required")
      + MinOne(PropertyZip, v.propertyZip, "ZIP code is required")
      + PropertyTypeIssues(v.propertyType)
      + MinOne(SelectedPackage, v.selectedPackage, "Please select a package")
  }

  /** The admin schema's first field: a missing id is `Required`, an empty one asks for a client. */
  function ClientIdIssues(clientId: Option<string>): seq<Issue> {
    if clientId.None? then [Issue(ClientId, "Required")]
    else MinOne(ClientId, clientId.value, "Please select a client")
  }

  /** The schema in force: every failing field is reported; on success the parsed data
      carries only the schema's keys, so the client-account schema drops `clientId`. */
  function Parse(v: FormValues, isClientAccount: bool): (r: ParseResult)
    ensures r.Parsed? && isClientAccount ==> r.data == v.(clientId := None)
    ensures r.Parsed? && !isClientAccount ==> r.data == v
    ensures r.Invalid? ==> |r.issues| > 0
  {
    var issues := (if isClientAccount then [] else ClientIdIssues(v.clientId)) + PropertyIssues(v);
    if issues == [] then Parsed(if isClientAccount then v.(clientId := None) else v)
    else Invalid(issues)
  }

  /** The client-account schema accepts exactly the values with a non-empty address, city,
      state, ZIP and package and a type of `residential` or `commercial`. */
  lemma ClientSchemaAccepts(v: FormValues)
    ensures Parse(v, true).Parsed? <==>
      v.propertyAddress != "" && v.propertyCity != "" && v.propertyState != "" && v.propertyZip != ""
      && v.propertyType in {"residential", "commercial"} && v.selectedPackage != ""
  {
  }

  /** The admin schema accepts exactly what the client-account schema accepts with a non-empty client id. */
  lemma AdminSchemaAccepts(v: FormValues)
    ensures Parse(v, false).Parsed? <==> Parse(v, true).Parsed? && v.clientId.Some? && v.clientId.value != ""
  {
  }

  /** Each failing field is reported once, under its own message, and the admin schema
      reports the client id first. */
  lemma IssuesName(v: FormValues)
    ensures Parse(v, true).Invalid? ==> Parse(v, true).issues == PropertyIssues(v)
    ensures v.propertyAddress == "" ==> Issue(PropertyAddress, "Address is required") in PropertyIssues(v)
    ensures v.propertyCity == "" ==> Issue(PropertyCity, "City is required") in PropertyIssues(v)
    ensures v.propertyState == "" ==> Issue(PropertyState, "State is required") in PropertyIssues(v)
    ensures v.propertyZip == "" ==> Issue(PropertyZip, "ZIP code is required") in PropertyIssues(v)
    ensures v.selectedPackage == "" ==> Issue(SelectedPackage, "Please select a package") in PropertyIssues(v)
    ensures forall i :: i in PropertyIssues(v) ==> i.field != ClientId
    ensures v.clientId == Some("") ==> Parse(v, false).issues[0] == Issue(ClientId, "Please select a client")
    ensures v.clientId.None? ==> Parse(v, false).issues[0] == Issue(ClientId, "Required")
  {
  }

  // ---------------------------------------------------------------------------
  // Default values

  /** The `initialData` prop; a field the caller leaves out is `None`. */
  datatype InitialData = InitialData(
    clientId: Option<string>,
    clientName: Option<string>,
    clientEmail: Option<string>,
    clientPhone: Option<string>,
    clientCompany: Option<string>,
    propertyType: Option<string>,
    propertyAddress: Option<string>,
    propertyCity: Option<string>,
    propertyState: Option<string>,
    propertyZip: Option<string>,
    propertyInfo: Option<string>,
    selectedPackage: Option<string>)

  /** `x || ''` on a possibly missing string. */
  function OrEmpty(o: Option<string>): (r: string)
    ensures o.Some? ==> r == o.value
    ensures o.None? ==> r == ""
  {
    o.GetOr("")
  }

  /** `x || 'residential'`: a missing or empty type becomes `residential`. */
  function TypeOrResidential(o: Option<string>): (r: string)
    ensures r != ""
    ensures o.Some? && o.value != "" ==> r == o.value
    ensures o.None? || o.value == "" ==> r == "residential"
  {
    if o.Some? && o.value != "" then o.value else "residential"
  }

  /** `defaultValues`: the admin form also carries the client id. */
  function DefaultValues(init: InitialData, isClientAccount: bool): (r: FormValues)
    ensures isClientAccount <==> r.clientId.None?
    ensures r.propertyType != "" && r.propertyInfo.Some?
    ensures init.propertyAddress.Some? ==> r.propertyAddress == init.propertyAddress.value
    ensures init.selectedPackage.Some? ==> r.selectedPackage == init.selectedPackage.value
  {
    FormValues(
      if isClientAccount then None else Some(OrEmpty(init.clientId)),
      OrEmpty(init.propertyAddress),
      OrEmpty(init.propertyCity),
      OrEmpty(init.propertyState),
      OrEmpty(init.propertyZip),
      TypeOrResidential(init.propertyType),
      Some(OrEmpty(init.propertyInfo)),
      OrEmpty(init.selectedPackage))
  }

  /** Empty initial data gives a form that names no client, has the `residential` type
      and fails the schema; any complete initial data passes it unchanged. */
  lemma DefaultValuesSpec(init: InitialData, isClientAccount: bool)
    ensures var d := DefaultValues(init, isClientAccount);
      && (isClientAccount <==> d.clientId.None?)
      && (init.propertyType.None? ==> d.propertyType == "residential")
      && (init.propertyAddress.None? ==> d.propertyAddress == "" && Parse(d, isClientAccount).Invalid?)
      && (init.selectedPackage.None? ==> d.selectedPackage == "" && Parse(d, isClientAccount).Invalid?)
    ensures var d := DefaultValues(init, isClientAccount);
      Parse(d, true).Parsed? <==>
        && OrEmpty(init.propertyAddress) != "" && OrEmpty(init.propertyCity) != ""
        && OrEmpty(init.propertyState) != "" && OrEmpty(init.propertyZip) != ""
        && OrEmpty(init.selectedPackage) != ""
        && (init.propertyType.None? || init.propertyType.value in {"", "residential", "commercial"})
  {
    var d := DefaultValues(init, isClientAccount);
    ClientSchemaAccepts(d);
    AdminSchemaAccepts(d);
  }

  // ---------------------------------------------------------------------------
  // Client search and selection

  /** A client matches the search when the lower-cased query occurs in its lower-cased
      name or in its present, non-empty company. */
  predicate MatchesSearch(c: Client, query: string)
    ensures c.company.None? || c.company == Some("") ==>
      (MatchesSearch(c, query) <==> Includes(Lower(c.name), Lower(query)))
  {
    Includes(Lower(c.name), Lower(query))
    || (c.company.Some? && c.company.value != "" && Includes(Lower(c.company.value), Lower(query)))
  }

  function FilteredClients(clients: seq<Client>, query: string): (r: seq<Client>)
    ensures |r| <= |clients|
    ensures forall c :: c in r ==> c in clients && MatchesSearch(c, query)
  {
    Filter(clients, c => MatchesSearch(c, query))
  }

  /** The search keeps, in order, exactly the matching clients, and an empty query keeps everyone. */
  lemma FilteredClientsSpec(clients: seq<Client>, query: string)
    ensures IsSubsequence(FilteredClients(clients, query), clients)
    ensures forall c :: c in FilteredClients(clients, query) <==> c in clients && MatchesSearch(c, query)
    ensures query == "" ==> FilteredClients(clients, query) == clients
  {
    var p := c => MatchesSearch(c, query);
    FilterSubsequence(clients, p);
    FilterMembership(clients, p);
    if query == "" {
      forall c | c in clients ensures p(c) {
        IncludesEmpty(Lower(c.name));
      }
      FilterKeepsAll(clients, p);
    }
  }

  /** The search ignores the letter case of the query. */
  lemma SearchIgnoresCase(c: Client, a: string, b: string)
    requires Lower(a) == Lower(b)
    ensures MatchesSearch(c, a) == MatchesSearch(c, b)
  {
  }

  /** `clients.find(client => client.id === id)`: the first client with that id. */
  function Find(clients: seq<Client>, id: string): (r: Option<Client>)
    ensures r.Some? ==> r.value in clients && r.value.id == id
    ensures r.None? <==> forall c :: c in clients ==> c.id != id
  {
    if clients == [] then None
    else if clients[0].id == id then Some(clients[0])
    else Find(clients[1..], id)
  }

  /** `Find` returns the first client carrying the id. */
  lemma {:induction false} FindIsFirst(clients: seq<Client>, id: string)
    ensures Find(clients, id).Some? ==>
      exists k :: 0 <= k < |clients| && clients[k] == Find(clients, id).value
        && forall j :: 0 <= j < k ==> clients[j].id != id
  {
    if clients != [] && clients[0].id != id {
      FindIsFirst(clients[1..], id);
      if Find(clients, id).Some? {
        var k :| 0 <= k < |clients[1..]| && clients[1..][k] == Find(clients, id).value
          && forall j :: 0 <= j < k ==> clients[1..][j].id != id;
        assert clients[k + 1] == Find(clients, id).value;
      }
    } else if clients != [] {
      assert clients[0] == Find(clients, id).value;
    }
  }

  /** `selectedClient`: only the admin form selects a client, and an empty id selects nobody. */
  function SelectedClient(clients: seq<Client>, values: FormValues, isClientAccount: bool): (r: Option<Client>)
    ensures isClientAccount ==> r.None?
    ensures r.Some? ==> r.value in clients && values.clientId == Some(r.value.id)
  {
    var id := if isClientAccount then "" else OrEmpty(values.clientId);
    if id == "" then None else Find(clients, id)
  }

  // ---------------------------------------------------------------------------
  // Submission

  /** What `onComplete` receives: the parsed values and the client's details. */
  datatype BookingDetails = BookingDetails(
    clientId: Option<string>,
    clientName: Option<string>,
    clientEmail: Option<string>,
    clientPhone: Option<string>,
    clientCompany: Option<string>,
    propertyAddress: string,
    propertyCity: string,
    propertyState: string,
    propertyZip: string,
    propertyType: string,
    propertyInfo: Option<string>,
    selectedPackage: string)

  /** `handleSubmit` on parsed data; `selected` is the client chosen at the last render. */
  function HandleSubmit(data: FormValues, init: InitialData, isClientAccount: bool, selected: Option<Client>): (r: BookingDetails)
    ensures r.propertyAddress == data.propertyAddress && r.propertyCity == data.propertyCity
      && r.propertyState == data.propertyState && r.propertyZip == data.propertyZip
      && r.propertyType == data.propertyType && r.propertyInfo == data.propertyInfo
      && r.selectedPackage == data.selectedPackage
    ensures isClientAccount ==> r.clientId == init.clientId && r.clientName == init.clientName
    ensures !isClientAccount ==> r.clientId == data.clientId && r.clientName.Some? && r.clientEmail.Some?
    ensures !isClientAccount && selected.Some? ==> r.clientName == Some(selected.value.name)
  {
    var property := BookingDetails(data.clientId, None, None, None, None,
      data.propertyAddress, data.propertyCity, data.propertyState, data.propertyZip,
      data.propertyType, data.propertyInfo, data.selectedPackage);
    if isClientAccount then
      property.(clientId := init.clientId, clientName := init.clientName, clientEmail := init.clientEmail,
        clientPhone := init.clientPhone, clientCompany := init.clientCompany)
    else
      property.(
        clientName := Some(if selected.Some? then selected.value.name else ""),
        clientEmail := Some(if selected.Some? then selected.value.email else ""),
        clientPhone := Some(if selected.Some? then OrEmpty(selected.value.phone) else ""),
        clientCompany := Some(if selected.Some? then OrEmpty(selected.value.company) else ""))
  }

  /** In client-account mode the client's identity comes from `initialData` whatever the
      form holds, and the property fields come from the form. */
  lemma ClientAccountSubmit(data: FormValues, other: FormValues, init: InitialData, selected: Option<Client>)
    ensures var b := HandleSubmit(data, init, true, selected);
      && b.clientId == init.clientId && b.clientName == init.clientName && b.clientEmail == init.clientEmail
      && b.clientPhone == init.clientPhone && b.clientCompany == init.clientCompany
      && b.propertyAddress == data.propertyAddress && b.propertyCity == data.propertyCity
      && b.propertyState == data.propertyState && b.propertyZip == data.propertyZip
      && b.propertyType == data.propertyType && b.propertyInfo == data.propertyInfo
      && b.selectedPackage == data.selectedPackage
    ensures var b := HandleSubmit(data, init, true, selected);
      var c := HandleSubmit(other, init, true, None);
      b.(propertyAddress := c.propertyAddress, propertyCity := c.propertyCity, propertyState := c.propertyState,
        propertyZip := c.propertyZip, propertyType := c.propertyType, propertyInfo := c.propertyInfo,
        selectedPackage := c.selectedPackage) == c
  {
  }

  /** In admin mode the details are those of the first client with the submitted id,
      or all empty when the id is empty or no client has it. */
  lemma AdminSubmit(clients: seq<Client>, data: FormValues, init: InitialData)
    requires data.clientId.Some?
    ensures var b := HandleSubmit(data, init, false, SelectedClient(clients, data, false));
      var found := Find(clients, data.clientId.value);
      && b.clientId == data.clientId
      && (data.clientId.value != "" && found.Some? ==>
           b.clientName == Some(found.value.name) && b.clientEmail == Some(found.value.email)
           && b.clientPhone == Some(OrEmpty(found.value.phone)) && b.clientCompany == Some(OrEmpty(found.value.company)))
      && (data.clientId.value == "" || found.None? ==>
           b.clientName == Some("") && b.clientEmail == Some("") && b.clientPhone == Some("") && b.clientCompany == Some(""))
  {
  }

  // ---------------------------------------------------------------------------
  // Package highlight

  /** A highlight badge: the star's colour class and its caption. */
  datatype Highlight = Highlight(starColor: string, caption: string)

  /** `getPackageHighlight`, matched on the package's name. */
  function PackageHighlight(name: string): (r: Option<Highlight>)
    ensures r.Some? <==> name in {"Premium", "Standard"}
  {
    if name == "Premium" then Some(Highlight("text-amber-500", "Most Popular"))
    else if name == "Standard" then Some(Highlight("text-blue-500", "Best Value"))
    else None
  }

  /** The two highlighted packages carry different captions; the match is case-sensitive. */
  lemma PackageHighlightSpec()
    ensures PackageHighlight("Premium").value.caption == "Most Popular"
    ensures PackageHighlight("Standard").value.caption == "Best Value"
    ensures PackageHighlight("premium") == None && PackageHighlight("Basic") == None
  {
  }
}

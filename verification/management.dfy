/**
 * The management screen (`app/management/page.js`): the page loads the user,
 * the user's clients and the compliance table, then drives three cascading
 * selectors. Choosing a client yields its states (UFs) and picks the first;
 * a client and a UF together yield the client's units and pick the first.
 * The HTTP responses are inputs; the derivations are functions and the
 * effects and handlers are methods of `ManagementPage`.
 */
module Management {
  import opened Js
  import opened Session

  /** Shown when a failed load carries no message of its own. */
  const LoadErrorFallback := "Erro ao carregar dados. Tente novamente mais tarde."

  /** The fields of the user profile the page uses. */
  datatype UserProfile = UserProfile(cod: int, name: string)

  /** A compliance record: displayed field by field, never transformed. */
  type Row = map<string, string>

  /** One element of a client's `lc_ufs`. */
  datatype UfEntry = UfEntry(uf: string)

  /**
   * A client as the API returns it. `lcUfs` is None when `lc_ufs` is not an
   * array; `otherFields` stands for the fields the page passes through untouched.
   */
  datatype Client = Client(codcli: int, fantasia: string, lcUfs: Option<seq<UfEntry>>,
                           otherFields: map<string, string>)

  /** The option objects of the three selectors: `{value, label}`, with `label` as `text`. */
  datatype ClientOption = ClientOption(value: int, text: string)
  datatype UfOption = UfOption(value: string, text: string)
  datatype UnitOption = UnitOption(value: int, text: string)

  /** The `cadimov` object of a follow-up; each part is None when absent. */
  datatype Cadimov = Cadimov(tipo: Option<string>, nome: Option<string>)

  /** One element of `folowups`; `cadimov` is None when it is null or missing. */
  datatype Followup = Followup(codend: int, cadimov: Option<Cadimov>)

  /** A unit of the selector list; `tipo` holds the composed display label. */
  datatype Unit = Unit(codend: int, tipo: string)

  /** `response.data` of the unit lookup; `folowups` is None when it is not an array. */
  datatype UnitsBody = UnitsBody(folowups: Option<seq<Option<Followup>>>)

  /** The unit lookup: it throws, or answers with a `data` that may be null. */
  datatype UnitsResponse = UnitsThrew | UnitsResponded(data: Option<UnitsBody>)

  /** One of the loader calls: it throws with a message, or answers with `data`. */
  datatype Fetch<T> = Failed(message: string) | Fetched(data: T)

  /** The pair (`availableUfs`, `selectedUf`). */
  datatype UfSelection = UfSelection(available: seq<string>, selected: Option<string>)

  /** The pair (`unidades`, `selectedUnidade`). */
  datatype UnitSelection = UnitSelection(units: seq<Unit>, selected: Option<UnitOption>)

  const NoUfs := UfSelection([], None)
  const NoUnits := UnitSelection([], None)

  // ---------------------------------------------------------------- clients

  /** The client list after loading: each `fantasia` trimmed, all else as received. */
  function CleanClients(cs: seq<Client>): (r: seq<Client>)
    ensures |r| == |cs|
    ensures forall i :: 0 <= i < |cs| ==>
              && r[i].codcli == cs[i].codcli
              && r[i].lcUfs == cs[i].lcUfs
              && r[i].otherFields == cs[i].otherFields
              && r[i].fantasia == Trim(cs[i].fantasia)
  {
    if cs == [] then []
    else
      var rest := CleanClients(cs[1..]);
      assert forall i :: 1 <= i < |cs| ==> cs[i] == cs[1..][i - 1];
      [cs[0].(fantasia := Trim(cs[0].fantasia))] + rest
  }

  /** Cleaning an already cleaned list changes nothing. */
  lemma CleanClientsIdempotent(cs: seq<Client>)
    ensures CleanClients(CleanClients(cs)) == CleanClients(cs)
  {
  }

  /** `clients.find(c => c.codcli === codcli)`: the first client with that code. */
  function FindClient(cs: seq<Client>, codcli: int): (r: Option<Client>)
    ensures r.None? <==> forall i :: 0 <= i < |cs| ==> cs[i].codcli != codcli
    ensures r.Some? ==> r.value in cs && r.value.codcli == codcli
  {
    if cs == [] then None
    else if cs[0].codcli == codcli then Some(cs[0])
    else
      var r := FindClient(cs[1..], codcli);
      assert forall i :: 1 <= i < |cs| ==> cs[i] == cs[1..][i - 1];
      r
  }

  /** `find` returns the first client with the code, not a later one. */
  lemma {:induction false} FindClientIsFirst(cs: seq<Client>, codcli: int, i: nat)
    requires i < |cs| && cs[i].codcli == codcli
    requires forall j :: 0 <= j < i ==> cs[j].codcli != codcli
    ensures FindClient(cs, codcli) == Some(cs[i])
  {
    if i > 0 {
      assert cs[0].codcli != codcli;
      assert forall j :: 0 <= j < i - 1 ==> cs[1..][j] == cs[j + 1];
      FindClientIsFirst(cs[1..], codcli, i - 1);
    }
  }

  /** The client selector's options (lines 273-276): one per client, in order. */
  function ClientOptions(cs: seq<Client>): (r: seq<ClientOption>)
    ensures |r| == |cs|
    ensures forall i :: 0 <= i < |cs| ==> r[i].value == cs[i].codcli && r[i].text == cs[i].fantasia
  {
    seq(|cs|, i requires 0 <= i < |cs| => ClientOption(cs[i].codcli, cs[i].fantasia))
  }

  /** Every option the client selector offers finds a client with that code. */
  lemma ClientOptionsLocateClients(cs: seq<Client>, o: ClientOption)
    requires o in ClientOptions(cs)
    ensures FindClient(cs, o.value).Some? && FindClient(cs, o.value).value.codcli == o.value
  {
  }

  // -------------------------------------------------------------------- UFs

  /** `lc_ufs.map(item => item.uf)`. */
  function UfCodes(entries: seq<UfEntry>): (r: seq<string>)
    ensures |r| == |entries|
    ensures forall i :: 0 <= i < |entries| ==> r[i] == entries[i].uf
  {
    if entries == [] then [] else [entries[0].uf] + UfCodes(entries[1..])
  }

  /**
   * The UF effect (lines 143-164): the selected client's UFs, in order, with
   * the first one auto-selected; nothing when no client is selected, the
   * client is not found or its `lc_ufs` is not an array.
   */
  function DeriveUfSelection(clients: seq<Client>, selected: Option<ClientOption>): (r: UfSelection)
    // a UF is selected exactly when there are UFs, and then it is the first
    ensures r.selected.Some? <==> r.available != []
    ensures r.available != [] ==> r.selected == Some(r.available[0])
    // the client's UF codes, in order
    ensures selected.Some? && FindClient(clients, selected.value.value).Some?
            && FindClient(clients, selected.value.value).value.lcUfs.Some? ==>
              r.available == UfCodes(FindClient(clients, selected.value.value).value.lcUfs.value)
    // every missing piece resets both
    ensures selected.None? || FindClient(clients, selected.value.value).None?
            || FindClient(clients, selected.value.value).value.lcUfs.None? ==>
              r == NoUfs
  {
    if selected.None? then NoUfs
    else
      match FindClient(clients, selected.value.value)
      case None => NoUfs
      case Some(client) =>
        match client.lcUfs
        case None => NoUfs
        case Some(entries) =>
          var ufs := UfCodes(entries);
          UfSelection(ufs, if |ufs| > 0 then Some(ufs[0]) else None)
  }

  /** Trimming the client names does not change which UFs a selection yields. */
  lemma {:induction false} CleaningKeepsUfs(clients: seq<Client>, selected: Option<ClientOption>)
    ensures DeriveUfSelection(CleanClients(clients), selected) == DeriveUfSelection(clients, selected)
  {
    if selected.Some? {
      FindCleanedClient(clients, selected.value.value);
    }
  }

  /** The client found in the cleaned list is the cleaned form of the one found in the raw list. */
  lemma {:induction false} FindCleanedClient(clients: seq<Client>, codcli: int)
    ensures FindClient(CleanClients(clients), codcli) ==
      match FindClient(clients, codcli)
      case None => None
      case Some(c) => Some(c.(fantasia := Trim(c.fantasia)))
  {
    if clients != [] {
      assert CleanClients(clients)[1..] == CleanClients(clients[1..]);
      FindCleanedClient(clients[1..], codcli);
    }
  }

  /** The UF selector's options (lines 314-317): one per UF, labelled by itself. */
  function UfOptions(ufs: seq<string>): (r: seq<UfOption>)
    ensures |r| == |ufs|
    ensures forall i :: 0 <= i < |ufs| ==> r[i].value == ufs[i] && r[i].text == ufs[i]
  {
    seq(|ufs|, i requires 0 <= i < |ufs| => UfOption(ufs[i], ufs[i]))
  }

  /** The UF selector's options carry exactly the available UFs. */
  lemma UfOptionValues(ufs: seq<string>, o: UfOption)
    ensures o in UfOptions(ufs) ==> o.value in ufs && o.text == o.value
    ensures o.value in ufs && o.text == o.value ==> o in UfOptions(ufs)
  {
  }

  /** `isDisabled` of the UF selector (line 318). */
  predicate UfSelectDisabled(selectedClient: Option<ClientOption>, availableUfs: seq<string>) {
    selectedClient.None? || availableUfs == []
  }

  /** `isDisabled` of the unit selector (line 364): an empty UF counts as no UF. */
  predicate UnitSelectDisabled(selectedClient: Option<ClientOption>, selectedUf: Option<string>) {
    selectedClient.None? || !IsTruthyOpt(selectedUf)
  }

  /**
   * Once the UF effect has run for a selected client, the UF selector is
   * enabled exactly when a UF was auto-selected, and the unit selector
   * exactly when that UF is a non-empty string.
   */
  lemma UfCascadeEnablesSelectors(clients: seq<Client>, selected: Option<ClientOption>)
    ensures var d := DeriveUfSelection(clients, selected);
            && (!UfSelectDisabled(selected, d.available) <==> selected.Some? && d.selected.Some?)
            && (!UnitSelectDisabled(selected, d.selected) <==>
                  selected.Some? && d.available != [] && IsTruthy(d.available[0]))
  {
  }

  // ------------------------------------------------------------------ units

  /** `item && item.cadimov`: the filter on `folowups`. */
  predicate HasCadimov(item: Option<Followup>) {
    item.Some? && item.value.cadimov.Some?
  }

  /** The follow-ups kept by the filter, in their original order. */
  function KeepWithCadimov(items: seq<Option<Followup>>): (r: seq<Followup>)
    ensures |r| <= |items|
    ensures forall k :: 0 <= k < |r| ==> r[k].cadimov.Some? && Some(r[k]) in items
    ensures forall i :: 0 <= i < |items| && HasCadimov(items[i]) ==> items[i].value in r
  {
    if items == [] then []
    else
      var rest := KeepWithCadimov(items[1..]);
      assert forall i :: 1 <= i < |items| ==> items[i] == items[1..][i - 1];
      if HasCadimov(items[0]) then [items[0].value] + rest else rest
  }

  /** The filter works element by element: it distributes over concatenation, so order is kept. */
  lemma {:induction false} KeepWithCadimovAppend(a: seq<Option<Followup>>, b: seq<Option<Followup>>)
    ensures KeepWithCadimov(a + b) == KeepWithCadimov(a) + KeepWithCadimov(b)
  {
    if a == [] {
      assert a + b == b;
    } else {
      assert (a + b)[0] == a[0] && (a + b)[1..] == a[1..] + b;
      KeepWithCadimovAppend(a[1..], b);
    }
  }

  /** `x?.trim() || ''`: a trimmed string, empty when absent. */
  function Part(x: Option<string>): (r: string)
    ensures x.None? ==> r == ""
    ensures x.Some? ==> IsTrimOf(x.value, r)
  {
    if x.Some? then Trim(x.value) else ""
  }

  /**
   * The unit label (lines 184-186), from the trimmed `tipo` and `nome`:
   * "tipo - nome" when both are non-empty, otherwise whichever is non-empty,
   * otherwise "". It never has whitespace at either end.
   */
  function UnitLabel(c: Option<Cadimov>): (r: string)
    ensures var tipo := if c.Some? then Part(c.value.tipo) else "";
            var nome := if c.Some? then Part(c.value.nome) else "";
            && (tipo != "" && nome != "" ==> r == tipo + " - " + nome)
            && (tipo != "" && nome == "" ==> r == tipo)
            && (tipo == "" ==> r == nome)
            && (r == "" <==> tipo == "" && nome == "")
    ensures IsTrimmed(r)
  {
    var tipo := if c.Some? then Part(c.value.tipo) else "";
    var nome := if c.Some? then Part(c.value.nome) else "";
    if IsTruthy(tipo) && IsTruthy(nome) then tipo + " - " + nome else Or(tipo, nome)
  }

  /** `.map(item => ({codend, tipo: label}))` over the kept follow-ups. */
  function ToUnits(fs: seq<Followup>): (r: seq<Unit>)
    ensures |r| == |fs|
    ensures forall i :: 0 <= i < |fs| ==>
              r[i].codend == fs[i].codend && r[i].tipo == UnitLabel(fs[i].cadimov)
  {
    if fs == [] then []
    else
      var rest := ToUnits(fs[1..]);
      assert forall i :: 1 <= i < |fs| ==> fs[i] == fs[1..][i - 1];
      [Unit(fs[0].codend, UnitLabel(fs[0].cadimov))] + rest
  }

  /** The unit list built from `folowups` (lines 181-192). */
  function UnitsOf(items: seq<Option<Followup>>): (r: seq<Unit>)
    ensures |r| == |KeepWithCadimov(items)|
    ensures forall k :: 0 <= k < |r| ==> r[k].codend == KeepWithCadimov(items)[k].codend
  {
    ToUnits(KeepWithCadimov(items))
  }

  /**
   * The unit list keeps the follow-ups with a `cadimov`, in order: units of a
   * concatenation are the concatenated units, a kept follow-up gives one unit
   * with its `codend` and label, and a dropped one gives none.
   */
  lemma {:induction false} UnitsOfAppend(a: seq<Option<Followup>>, b: seq<Option<Followup>>)
    ensures UnitsOf(a + b) == UnitsOf(a) + UnitsOf(b)
  {
    KeepWithCadimovAppend(a, b);
    ToUnitsAppend(KeepWithCadimov(a), KeepWithCadimov(b));
  }

  lemma UnitsOfSingle(item: Option<Followup>)
    ensures HasCadimov(item) ==> UnitsOf([item]) == [Unit(item.value.codend, UnitLabel(item.value.cadimov))]
    ensures !HasCadimov(item) ==> UnitsOf([item]) == []
  {
  }

  lemma {:induction false} ToUnitsAppend(a: seq<Followup>, b: seq<Followup>)
    ensures ToUnits(a + b) == ToUnits(a) + ToUnits(b)
  {
    if a != [] {
      assert (a + b)[1..] == a[1..] + b;
      ToUnitsAppend(a[1..], b);
    }
  }

  /** The unit selector's options (lines 360-363): one per unit. */
  function UnitOptions(units: seq<Unit>): (r: seq<UnitOption>)
    ensures |r| == |units|
    ensures forall i :: 0 <= i < |units| ==> r[i].value == units[i].codend && r[i].text == units[i].tipo
  {
    seq(|units|, i requires 0 <= i < |units| => UnitOption(units[i].codend, units[i].tipo))
  }

  /** The auto-selected unit (lines 196-203): the first unit's option, if any. */
  function FirstUnitOption(units: seq<Unit>): (r: Option<UnitOption>)
    ensures r.Some? <==> units != []
    ensures r.Some? ==> r.value == UnitOptions(units)[0]
                        && r.value.value == units[0].codend && r.value.text == units[0].tipo
  {
    if |units| > 0 then Some(UnitOption(units[0].codend, units[0].tipo)) else None
  }

  /** Selected unit is None or one of the listed options. */
  predicate UnitsConsistent(s: UnitSelection) {
    s.selected.None? || s.selected.value in UnitOptions(s.units)
  }

  /**
   * What the unit lookup's answer makes of (`unidades`, `selectedUnidade`)
   * (lines 180-216): the units of `folowups` with the first selected, or
   * nothing when the lookup throws or `folowups` is not an array.
   */
  function UnitsFromResponse(response: UnitsResponse): (r: UnitSelection)
    ensures r.selected.Some? <==> r.units != []
    ensures r.units != [] ==> r.selected == Some(UnitOptions(r.units)[0])
    ensures UnitsConsistent(r)
    ensures response.UnitsResponded? && response.data.Some? && response.data.value.folowups.Some? ==>
              r.units == UnitsOf(response.data.value.folowups.value)
    ensures !(response.UnitsResponded? && response.data.Some? && response.data.value.folowups.Some?) ==>
              r == NoUnits
  {
    match response
    case UnitsThrew => NoUnits
    case UnitsResponded(None) => NoUnits
    case UnitsResponded(Some(UnitsBody(None))) => NoUnits
    case UnitsResponded(Some(UnitsBody(Some(items)))) =>
      var units := UnitsOf(items);
      UnitSelection(units, FirstUnitOption(units))
  }

  /** The guard of the unit effect (line 169): a client, a non-empty UF and the user. */
  predicate UnitLookupReady(client: Option<ClientOption>, uf: Option<string>, user: Option<UserProfile>) {
    client.Some? && IsTruthyOpt(uf) && user.Some?
  }

  /**
   * The unit effect (lines 166-220) on (`unidades`, `selectedUnidade`): reset
   * when a piece is missing, left as it is when the token is missing (the
   * early `return` at line 171), otherwise what the lookup answers.
   */
  function FetchUnidadesOutcome(client: Option<ClientOption>, uf: Option<string>,
                                user: Option<UserProfile>, token: Option<string>,
                                response: UnitsResponse, current: UnitSelection): (r: UnitSelection)
    ensures !UnitLookupReady(client, uf, user) ==> r == NoUnits
    ensures UnitLookupReady(client, uf, user) && !IsTruthyOpt(token) ==> r == current
    ensures UnitLookupReady(client, uf, user) && IsTruthyOpt(token) ==> r == UnitsFromResponse(response)
    ensures UnitsConsistent(current) ==> UnitsConsistent(r)
  {
    if !UnitLookupReady(client, uf, user) then NoUnits
    else if !IsTruthyOpt(token) then current
    else UnitsFromResponse(response)
  }

  /** Clearing the client empties both dependent selections, whatever else holds. */
  lemma ClearingClientResetsCascade(clients: seq<Client>, uf: Option<string>, user: Option<UserProfile>,
                                    token: Option<string>, response: UnitsResponse, current: UnitSelection)
    ensures DeriveUfSelection(clients, None) == NoUfs
    ensures FetchUnidadesOutcome(None, uf, user, token, response, current) == NoUnits
  {
  }

  // ------------------------------------------------------------------- page

  class ManagementPage {
    var userData: Option<UserProfile>
    var tableData: seq<Row>
    var clients: seq<Client>
    var selectedClient: Option<ClientOption>
    var selectedUf: Option<string>
    var availableUfs: seq<string>
    var unidades: seq<Unit>
    var selectedUnidade: Option<UnitOption>
    var loading: bool
    var error: string

    /** A selected UF is one of the available UFs; a selected unit is one of the unit options. */
    ghost predicate Valid()
      reads this
    {
      && (selectedUf.Some? ==> selectedUf.value in availableUfs)
      && UnitsConsistent(UnitSelection(unidades, selectedUnidade))
    }

    /** The `useState` initial values. */
    constructor()
      ensures Valid()
      ensures userData == None && tableData == [] && clients == []
      ensures selectedClient == None && selectedUf == None && availableUfs == []
      ensures unidades == [] && selectedUnidade == None
      ensures loading && error == ""
    {
      userData, tableData, clients := None, [], [];
      selectedClient, selectedUf, availableUfs := None, None, [];
      unidades, selectedUnidade := [], None;
      loading, error := true, "";
    }

    /**
     * `fetchData` (lines 107-141): without a stored token, go to the login
     * screen and fetch nothing; otherwise load the user, the clients (names
     * trimmed) and the table, stopping at the first loader call that throws
     * and showing its message, or the fallback when it has none. Returns the
     * number of loader calls made, counting one that throws before its request.
     */
    method FetchData(browser: Browser, user: Fetch<UserProfile>, clientList: Fetch<seq<Client>>,
                     table: Fetch<seq<Row>>) returns (calls: nat)
      requires Valid()
      modifies this`userData, this`clients, this`tableData, this`loading, this`error, browser`route
      ensures Valid()
      ensures !loading
      ensures !IsTruthyOpt(browser.accessToken) ==>
                && calls == 0 && browser.route == LoginRoute
                && userData == old(userData) && clients == old(clients)
                && tableData == old(tableData) && error == old(error)
      ensures IsTruthyOpt(browser.accessToken) ==>
                && browser.route == old(browser.route)
                && calls == (if user.Failed? then 1 else if clientList.Failed? then 2 else 3)
                && userData == (if user.Fetched? then Some(user.data) else old(userData))
                && clients == (if user.Fetched? && clientList.Fetched? then CleanClients(clientList.data)
                               else old(clients))
                && tableData == (if user.Fetched? && clientList.Fetched? && table.Fetched? then table.data
                                 else old(tableData))
                && error == (if user.Failed? then Or(user.message, LoadErrorFallback)
                             else if clientList.Failed? then Or(clientList.message, LoadErrorFallback)
                             else if table.Failed? then Or(table.message, LoadErrorFallback)
                             else old(error))
    {
      if !IsTruthyOpt(browser.accessToken) {
        browser.Push(LoginRoute);
        loading := false;
        return 0;
      }
      calls := 1;
      if user.Failed? {
        error := Or(user.message, LoadErrorFallback);
        loading := false;
        return;
      }
      userData := Some(user.data);
      calls := 2;
      if clientList.Failed? {
        error := Or(clientList.message, LoadErrorFallback);
        loading := false;
        return;
      }
      clients := CleanClients(clientList.data);
      calls := 3;
      if table.Failed? {
        error := Or(table.message, LoadErrorFallback);
        loading := false;
        return;
      }
      tableData := table.data;
      loading := false;
    }

    /** The client selector's `onChange` (line 272): an offered option, or None when cleared. */
    method SelectClient(option: Option<ClientOption>)
      requires Valid()
      requires option.None? || option.value in ClientOptions(clients)
      modifies this`selectedClient
      ensures Valid()
      ensures selectedClient == option
    {
      selectedClient := option;
    }

    /** The UF effect (lines 143-164), run after `selectedClient` or `clients` changed. */
    method UpdateUfs()
      requires Valid()
      modifies this`availableUfs, this`selectedUf
      ensures Valid()
      ensures UfSelection(availableUfs, selectedUf) == DeriveUfSelection(clients, selectedClient)
    {
      if selectedClient.Some? {
        var client := FindClient(clients, selectedClient.value.value);
        if client.Some? && client.value.lcUfs.Some? {
          var ufs := UfCodes(client.value.lcUfs.value);
          availableUfs := ufs;
          if |ufs| > 0 {
            selectedUf := Some(ufs[0]);
          } else {
            selectedUf := None;
          }
        } else {
          availableUfs := [];
          selectedUf := None;
        }
      } else {
        availableUfs := [];
        selectedUf := None;
      }
    }

    /** The UF selector's `onChange` (line 313), only while it is enabled (line 318). */
    method SelectUf(option: Option<UfOption>)
      requires Valid()
      requires !UfSelectDisabled(selectedClient, availableUfs)
      requires option.None? || option.value in UfOptions(availableUfs)
      modifies this`selectedUf
      ensures Valid()
      ensures selectedUf == if option.Some? then Some(option.value.value) else None
    {
      if option.Some? {
        UfOptionValues(availableUfs, option.value);
        selectedUf := Some(option.value.value);
      } else {
        selectedUf := None;
      }
    }

    /**
     * The unit effect (lines 166-220), run after `selectedClient`,
     * `selectedUf` or `userData` changed, with the lookup's outcome as a
     * parameter. Returns whether the lookup was requested.
     */
    method FetchUnidades(browser: Browser, response: UnitsResponse) returns (requested: bool)
      requires Valid()
      modifies this`unidades, this`selectedUnidade
      ensures Valid()
      ensures requested <==> UnitLookupReady(selectedClient, selectedUf, userData)
                             && IsTruthyOpt(browser.accessToken)
      ensures UnitSelection(unidades, selectedUnidade) ==
                FetchUnidadesOutcome(selectedClient, selectedUf, userData, browser.accessToken,
                                     response, old(UnitSelection(unidades, selectedUnidade)))
    {
      if selectedClient.Some? && IsTruthyOpt(selectedUf) && userData.Some? {
        if !IsTruthyOpt(browser.accessToken) {
          return false;
        }
        requested := true;
        match response {
          case UnitsThrew =>
            unidades := [];
            selectedUnidade := None;
          case UnitsResponded(data) =>
            if data.Some? && data.value.folowups.Some? {
              var units := UnitsOf(data.value.folowups.value);
              unidades := units;
              if |units| > 0 {
                selectedUnidade := Some(UnitOption(units[0].codend, units[0].tipo));
                assert selectedUnidade == FirstUnitOption(units);
              } else {
                selectedUnidade := None;
              }
            } else {
              unidades := [];
              selectedUnidade := None;
            }
        }
      } else {
        requested := false;
        unidades := [];
        selectedUnidade := None;
      }
    }

    /** The unit selector's `onChange` (line 359), only while it is enabled (line 364). */
    method SelectUnidade(option: Option<UnitOption>)
      requires Valid()
      requires !UnitSelectDisabled(selectedClient, selectedUf)
      requires option.None? || option.value in UnitOptions(unidades)
      modifies this`selectedUnidade
      ensures Valid()
      ensures selectedUnidade == option
    {
      selectedUnidade := option;
    }

    /** `handleLogout` (lines 222-225): forget the token and go to the login screen. */
    method Logout(browser: Browser)
      requires Valid()
      modifies browser
      ensures Valid()
      ensures browser.accessToken == None && browser.route == LoginRoute
    {
      browser.RemoveToken();
      browser.Push(LoginRoute);
    }
  }
}

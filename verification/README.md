# Login and management screens of a property-compliance back office, in Dafny

The application is a browser front end over an external HTTP API. Its own
logic is small and sequential once the HTTP answers are treated as inputs,
and this project models that logic and proves what it promises:

- **Login** (`app/page.js`, module `Login`): `handleSubmit` clears the error
  and sets `loading`, refuses empty fields without a request, stores a
  returned `access_token` and moves to `/dashboard`, shows
  `'Credenciais inválidas'` when the request throws, and always ends with
  `loading` off. `Submit` is the outcome as a function of the fields, the
  server's answer and the stored token and route. `LoginPage.HandleSubmit`
  performs the same steps as a sequence of state updates and is proved equal
  to `Submit`.
- **Management** (`app/management/page.js`, module `Management`): the page
  loads the user, the client list (each `fantasia` trimmed) and the
  compliance table, then drives three cascading selectors:
  - client → UFs: the selected client's `lc_ufs` codes, with the first
    auto-selected;
  - client + UF → units: the follow-ups that carry a `cadimov`, each labelled
    from its trimmed `tipo` and `nome`, with the first auto-selected.

  Every missing piece, and every failure, resets the dependent selections.
  The derivations are functions. The effects and event handlers are methods
  of the class `ManagementPage`, over the page's state variables (`clients`,
  `selectedClient`, `availableUfs`, `selectedUf`, `unidades`,
  `selectedUnidade`, plus `userData`, `tableData`, `loading`, `error`). Each
  method is proved to keep the page invariant `Valid()`: a selected UF is one
  of the available UFs, and a selected unit is one of the unit options.
- **Browser** (module `Session`): the `access_token` entry of `localStorage`
  and the router's current path, shared by both pages.
- **JavaScript semantics** (module `Js`): absent values (`null`/`undefined`)
  as `Option`. String truthiness, where only `''` is falsy. The string `||`.
  `String.prototype.trim`.

JavaScript truthiness is modelled where the code relies on it:
- An empty UF string counts as "no UF". The unit lookup is then skipped and
  the unit selector is disabled.
- An empty stored token counts as "no token".
- An empty error message falls back to the generic load-error text.

The unit effect returns early when the token is missing (line 171). In that
case it leaves the current units and selected unit as they are: it does not
reset them.

## Model

| member | source | states |
|---|---|---|
| `Js.Trim` | app/management/page.js:125 | `trim` returns an infix of its input. Everything it removes at either end is whitespace. The result has no whitespace at either end. It is empty exactly when the input is all whitespace. An already trimmed string is returned unchanged. |
| `Js.TrimIdempotent` | app/management/page.js:125 | Trimming twice gives the same result as trimming once. |
| `Js.Or` | app/management/page.js:186 | The string operator `or` (`a`, else `b`) gives `a` when `a` is non-empty, otherwise `b`. The result is non-empty exactly when one of the two is. |
| `Session.Browser.StoreToken` | app/page.js:31 | `localStorage.setItem('access_token', t)` leaves `t` stored. |
| `Session.Browser.RemoveToken` | app/management/page.js:223 | `localStorage.removeItem('access_token')` leaves no token. |
| `Session.Browser.Push` | app/page.js:32 | `router.push(p)` moves to `p`. |
| `Login.Submit` | app/page.js:13-39 | `loading` is off on every path. A request is made exactly when both fields are non-empty. Empty fields give `'Por favor, preencha todos os campos'` and leave the token and route as they were. A request that throws, or a null `data`, gives `'Credenciais inválidas'` and stores no token. Any other answer leaves the error empty, whatever it was before. The token and the route change only together: to a truthy `access_token` and `/dashboard`. `IssuesToken` is the test `if (response.data.access_token)` (line 30); `Throws` is reaching the `catch` (lines 34-35). |
| `Login.LoginPage.constructor` | app/page.js:7-10 | The fields start empty, with no error and `loading` off. |
| `Login.LoginPage.SetEmail` | app/page.js:66 | The email input's change handler stores the typed value. |
| `Login.LoginPage.SetPassword` | app/page.js:79 | The password input's change handler stores the typed value. |
| `Login.LoginPage.HandleSubmit` | app/page.js:13-39 | The sequence of updates sets error, loading, stored token and route exactly as `Submit` says. It reports whether the POST was made. It leaves the fields unchanged. |
| `Management.CleanClients` | app/management/page.js:123-126 | The cleaned list has the same length and order. Each `fantasia` is the trim of the original. `codcli`, `lc_ufs` and every other field are unchanged. |
| `Management.CleanClientsIdempotent` | app/management/page.js:123-126 | Cleaning an already cleaned list changes nothing. |
| `Management.FindClient` | app/management/page.js:145 | `find` gives None exactly when no client has the code. Otherwise it gives a client of the list with that code. |
| `Management.FindClientIsFirst` | app/management/page.js:145 | When several clients share the code, `find` gives the first of them. |
| `Management.ClientOptions` | app/management/page.js:273-276 | The client selector offers one option per client, in list order: value `codcli`, label the (trimmed) `fantasia`. |
| `Management.ClientOptionsLocateClients` | app/management/page.js:273-276 | Every option the client selector offers leads the UF effect to a client with that code. |
| `Management.UfCodes` | app/management/page.js:148 | The UF list has one code per `lc_ufs` entry, in order: that entry's `uf`. |
| `Management.DeriveUfSelection` | app/management/page.js:143-164 | A UF is selected exactly when the list is non-empty, and then it is the first. For a found client whose `lc_ufs` is an array, the list is exactly its `uf` codes in order. No client selected, client not found, or `lc_ufs` not an array: empty list and no UF. |
| `Management.FindCleanedClient` | app/management/page.js:123-145 | Looking a code up in the cleaned list finds the cleaned form of the client found in the raw list, or nothing in both. |
| `Management.CleaningKeepsUfs` | app/management/page.js:123-164 | Trimming client names does not change the UFs or the UF selection that a client selection yields. |
| `Management.UfOptions` | app/management/page.js:314-317 | The UF selector offers one option per available UF, in order, with the UF as both value and label. |
| `Management.UfOptionValues` | app/management/page.js:314-317 | The UF selector offers exactly the available UFs, each labelled by itself. |
| `Management.UfCascadeEnablesSelectors` | app/management/page.js:318-364 | After the UF effect with a client selected: the UF selector is enabled exactly when a UF was auto-selected. The unit selector is enabled exactly when that first UF is a non-empty string. `UfSelectDisabled` is the UF selector's `isDisabled` (line 318), `UnitSelectDisabled` the unit selector's (line 364). |
| `Management.KeepWithCadimov` | app/management/page.js:182 | The filter keeps only follow-ups that have a `cadimov`, and keeps every one of them. Each kept entry comes from the input. `HasCadimov` is the filter's test `item && item.cadimov`. |
| `Management.KeepWithCadimovAppend` | app/management/page.js:182 | The filter distributes over concatenation, so the kept follow-ups stay in their original order. |
| `Management.Part` | app/management/page.js:184-185 | `x?.trim()`, falling back to `''`, is `''` when the part is absent. Otherwise it is the trim of the part. |
| `Management.UnitLabel` | app/management/page.js:184-186 | The label is "tipo - nome" when both trimmed parts are non-empty. Otherwise it is whichever part is non-empty, or `''` when both are empty. It is empty exactly when both parts are. It never has whitespace at either end. |
| `Management.ToUnits` | app/management/page.js:183-192 | There is one unit per kept follow-up. Its `codend` is copied through and its `tipo` is the composed label. |
| `Management.ToUnitsAppend` | app/management/page.js:183-192 | The mapping distributes over concatenation. |
| `Management.UnitsOf` | app/management/page.js:181-192 | There are as many units as kept follow-ups, and each unit carries its follow-up's `codend` unchanged. |
| `Management.UnitsOfAppend` | app/management/page.js:181-192 | The units of a concatenation are the concatenated units. The unit list therefore follows the order of the `folowups` array. |
| `Management.UnitsOfSingle` | app/management/page.js:181-192 | A follow-up with a `cadimov` gives exactly one unit, with its `codend` and label. A null entry, or one without a `cadimov`, gives none. |
| `Management.UnitOptions` | app/management/page.js:360-363 | The unit selector offers one option per unit, in order: value `codend`, label `tipo`. |
| `Management.FirstUnitOption` | app/management/page.js:196-203 | A unit is auto-selected exactly when the list is non-empty. It is then `{value: first.codend, label: first.tipo}`, the first option offered. |
| `Management.UnitsFromResponse` | app/management/page.js:180-216 | With a `folowups` array the units are its unit list, and a unit is selected exactly when the list is non-empty (the first option). A lookup that throws, a null `data` or a `folowups` that is not an array gives no units and no selection. |
| `Management.FetchUnidadesOutcome` | app/management/page.js:166-220 | A missing client, UF (or empty UF) or user resets units and selection. A missing token leaves them as they were. Otherwise they are what the lookup's answer gives. The result keeps the selected unit among the options. The guard is `UnitLookupReady` (line 169). |
| `Management.ClearingClientResetsCascade` | app/management/page.js:160-211 | With no client selected, the UF effect gives no UFs and the unit effect gives no units, whatever the other inputs. |
| `Management.ManagementPage.constructor` | app/management/page.js:95-104 | The page state starts with empty lists, nothing selected, `loading` on and no error. |
| `Management.ManagementPage.FetchData` | app/management/page.js:107-141 | With no stored token: route to `/`, call no loader, change no data. Otherwise: load the user, then the clients (names trimmed), then the table. Stop at the first loader call that throws and show its message, or the fallback text when it has none. Report how many of the three loader calls were made (a loader that throws before its request still counts). `loading` ends off on every path. |
| `Management.ManagementPage.SelectClient` | app/management/page.js:272 | The client selector's change handler sets the selected client to the chosen option, or clears it. |
| `Management.ManagementPage.UpdateUfs` | app/management/page.js:143-164 | The UF effect sets the available and selected UFs to `DeriveUfSelection` and keeps the page invariant. |
| `Management.ManagementPage.SelectUf` | app/management/page.js:313 | The UF selector's change handler (only while enabled, line 318) sets the UF to the option's value, or clears it. |
| `Management.ManagementPage.FetchUnidades` | app/management/page.js:166-220 | The unit effect requests a lookup exactly when client, non-empty UF, user and token are all present. It sets units and selected unit to `FetchUnidadesOutcome` and keeps the page invariant. |
| `Management.ManagementPage.SelectUnidade` | app/management/page.js:359 | The unit selector's change handler (only while enabled, line 364) sets the selected unit to an offered option, or clears it. |
| `Management.ManagementPage.Logout` | app/management/page.js:222-225 | Logging out removes the stored token and routes to `/`. |

## Left out

- The HTTP requests, their URLs, query strings and headers: `getUserData`, `getClientes`, `getConformidades`, `getUnidades` and the login POST. Each answer is a parameter (`Fetch`, `UnitsResponse`, `LoginResponse`). The "URL not configured" throws appear only as a failed outcome carrying a message. The unit lookup's parameters (user code, client code, UF, page 1) are not modelled.
- `console.log` and `console.error` output.
- All JSX rendering: the spinner while `loading`, the error banner, react-select styles and props other than `options`, `onChange` and `isDisabled`, and the compliance table markup. The table shows the records verbatim, and `tableData` is kept as received.
- `formatDate`, because it delegates to date-fns with the ptBR locale, which is not part of this model. `formatArea`, because `Number.prototype.toFixed` is floating point.
- `app/dashboard/page.js`. It is fetch-and-render only, and its token guard and logout match the management page's. `app/layout.js` holds only static metadata.
- Scheduling of the React effects. The effect methods (`UpdateUfs`, `FetchUnidades`) run when the caller invokes them, to completion, on the current state. Races, such as a stale unit lookup answering after the selection changed, are not modelled. Neither are React's batching of state updates or the transient `loading`/`error` values while the login request is pending.
- Values of the wrong JavaScript type. A `fantasia`, `tipo` or `nome` that is not a string would make `trim` throw. So would a client list that is not an array, a null user profile or a null `lc_ufs` entry. Fields are typed here. Codes (`codcli`, `codend`) are integers compared by value, standing in for `===`.
- `Js.Trim`: the whitespace set is the ECMAScript WhiteSpace and LineTerminator code points, with category Zs as of Unicode 15. A later Unicode version that added Zs characters would not be reflected.
- `e.preventDefault()` and the login button's `disabled={loading}`, both DOM behaviour.

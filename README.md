# Meraki client VPN browser and helpers: a Dafny model

This project models three parts of the Meraki client VPN tool.

The first is `DashboardBrowser`, the stateful session that logs into the
Meraki dashboard. It handles the optional verification code, finds the
organizations an administrator can reach, fetches an organization's
networks the first time that organization is selected, and selects an
organization or a network by id or by a case-insensitive name fragment.

The second is `VpnConnection`. Before the VPN parameters reach a shell, it
stringifies each one, escapes every `$` and wraps the value in double
quotes. It also picks the platform index from the platform name.

The third is `TroubleshootVpnFailure`. It runs six pass/fail checks. Five
of them read the dashboard's appliance-status text and its Client VPN
settings text (test2 also compares with the firewall's address). test1's
verdict comes from the exit status of a ping of the appliance's dynamic DNS
name, which the model takes as a parameter.

Module layout:

| module | file | contents |
|---|---|---|
| `Wrappers` | wrappers.dfy | `Option`, `Result` and the Python exceptions the core raises |
| `PyStr` | pystr.dfy | Python `str.find`, `in`, `lower`, `replace`, `split`, slicing and `str(int)` |
| `PySort` | pysort.dfy | `sorted()` on strings: code-point order and a stable sort |
| `OrderedDict` | ordered_dict.dfy | a Python dict: distinct keys in insertion order, with a value for each |
| `Catalog` | catalog.dfy | organizations, networks and the session record, plus the read-only queries |
| `Navigation` | navigation.dfy | the dashboard as a page source, and each session transition as a function with its lemmas |
| `Dashboard` | dashboard.dfy | class `DashboardBrowser`, whose methods update its fields and are proved equal to the transitions |
| `Vpn` | vpn_connection.dfy | class `VpnConnection` over shared arrays, plus sanitizing and dispatch |
| `Troubleshoot` | troubleshoot.dfy | the checks as functions, plus class `TroubleshootVpnFailure` over a six-slot array |

### How the model is shaped

- **The remote dashboard is a value.** `Navigation.PageSource` says where
  opening a URL leads and what the page there holds: its text, its
  org-chooser links and the organizations a scrape finds on it.
- **Each operation is a transition.** It is a pure function from the source
  and a `Session` to a `Step`, which holds the new session, the URLs
  opened and a `Result`.
- **A Python exception is an `Err`.** It carries the state the code had
  already changed when it raised. For example, a `set_org_id` that fails
  after its fetch has still moved the active organization.
- **The class methods are proved to be these transitions.** Each
  `DashboardBrowser` method states its new fields as `State() ==` the
  transition's session.
- **Python's dynamic ids are a `Key`.** A key is an integer or a string.
  The initial ids are `IntKey(0)`, and an eid parsed from a URL is a
  `StrKey`.

### Quirks of the code, kept as written

- **The org-chooser test.** `org_data_setup` tests
  `url.find('org_list')` for truthiness. So the chooser branch is taken
  unless the URL starts with `org_list`, including when the text is missing
  (-1). A direct landing page with no chooser links therefore fails on
  `[0]` with IndexError (`Navigation.DirectLandingWithoutLinksFails`).
- **`set_org_id` is not all-or-nothing.** The active organization moves
  before the fetch. A scrape that lacks the organization raises KeyError,
  and an organization without networks raises IndexError; both keep the
  earlier changes.
- **`set_org_id` on an organization already fetched** only moves the
  active organization and leaves the active network where it was.
- **`set_network_name` includes templates.** It matches templates too, and
  it compares against the raw name without stripping " - appliance". A
  matched network whose id is falsy (0 or "") is reported as
  "no such network". Neither `set_network_name`
  (merlink/browsers/dashboard.py:344-352) nor `set_network_id` checks the
  template flag, so a template can become the active network; only
  `get_network_names` leaves templates out.
- **Construction always escapes for bash.** `VpnConnection` sanitizes while
  `os_index` is still 3, so it always uses the backslash. A later Windows
  run therefore receives bash escapes (`Vpn.VpnConnection.constructor`,
  `Vpn.SanitizeBothShells`).
- **Empty texts fail test0.** The troubleshooter's texts start out empty,
  and on an empty text test0 raises IndexError
  (`Troubleshoot.EmptyTextsFailAtOnce`). Here the texts are constructor
  parameters.

## Model

| member | source | states |
|---|---|---|
| Catalog.OrgNames | merlink/browsers/dashboard.py:235-238 | the organization names come out sorted and as a permutation of the names in dict order |
| Catalog.OrgNamesAreTheNames | merlink/browsers/dashboard.py:235-238 | one name per organization; a string is listed iff some organization has that name |
| Catalog.ActiveOrgName | merlink/browsers/dashboard.py:240-242 | the active organization's name, or KeyError exactly when the active id is not a key |
| Catalog.TypeFilter | merlink/browsers/dashboard.py:247-249 | an empty filter becomes the six default network types; a non-empty one is kept |
| Catalog.DisplayNameExample | merlink/browsers/dashboard.py:256 | the network name "HQ - appliance" is listed as "HQ" |
| Catalog.DisplayNameWithoutSuffix | merlink/browsers/dashboard.py:256 | a network name without " - appliance" is listed unchanged |
| Catalog.ListingMembers | merlink/browsers/dashboard.py:250-257 | a name is listed iff some network with a type in the filter, and not a template, has it as its display name |
| Catalog.ListingExcludesTemplates | merlink/browsers/dashboard.py:253-255 | no configuration template contributes a name |
| Catalog.NetworkNames | merlink/browsers/dashboard.py:244-258 | KeyError iff the active organization is missing; otherwise a sorted permutation of the listing |
| Catalog.ActiveNetworkName | merlink/browsers/dashboard.py:260-263 | the raw name of the active network; KeyError unless both ids are keys |
| Navigation.CodeAcceptedIff | merlink/browsers/dashboard.py:156-162 | a verification code is accepted iff the page nowhere contains "Invalid verification code" |
| Navigation.ChooserBranchUnlessPrefix | merlink/browsers/dashboard.py:181-183 | the chooser branch is skipped iff the URL starts with "org_list" |
| Navigation.NetworkEidFound | merlink/browsers/dashboard.py:193-195 | the eid parse succeeds iff the part of the URL before "/manage" contains "/n/", and raises IndexError otherwise |
| Navigation.NetworkEidValue | merlink/browsers/dashboard.py:193-195 | the parsed eid is the text after the first "/n/" of that part, up to the next "/n/" |
| Navigation.SetupOutcome | merlink/browsers/dashboard.py:166-219 | the chooser branch counts the links and opens the first one, the only URL setup opens; it raises IndexError with no links; otherwise the catalogue is replaced by the scrape, the first organization with networks becomes active, and the network eid comes from the URL |
| Navigation.DirectLandingWithoutLinksFails | merlink/browsers/dashboard.py:182-218 | a landing URL without "org_list" and without links raises IndexError and leaves the catalogue alone |
| Navigation.LoginClassification | merlink/browsers/dashboard.py:109-139 | the outcomes in their priority order: a caught connection error returns its own class name, any other exception from opening the login page propagates, then failed-login URL, second factor without a code, rejected code, success |
| Navigation.LoginSeedsOnlyOnSuccess | merlink/browsers/dashboard.py:109-139 | setup runs exactly when the login authenticates; an exception from opening the login page changes nothing and records no visit; every other outcome changes only the URL |
| Navigation.SetOrgIdOutcome | merlink/browsers/dashboard.py:265-290 | an unknown id raises LookupError and changes nothing; a fetched organization only becomes active; otherwise exactly one fetch of its page, and on success only its entry is replaced and its first network becomes active |
| Navigation.SetOrgIdFetchOutcome | merlink/browsers/dashboard.py:275-286 | when the organization must be fetched, the whole new session in each case: KeyError after moving the active id and the URL, IndexError that also keeps the replaced entry, or success with its first network active; the organization count and the network-admin flag never change |
| Navigation.SetOrgIdIdempotent | merlink/browsers/dashboard.py:265-290 | after a successful selection, selecting the same organization again opens nothing and changes nothing |
| Navigation.SetNetworkIdOutcome | merlink/browsers/dashboard.py:292-308 | the id becomes active iff it is a network of the active organization, and then the one URL opened is the general-settings route of the current page; otherwise LookupError or KeyError with no change |
| Navigation.SetOrgNameOutcome | merlink/browsers/dashboard.py:310-324 | no case-insensitive match raises LookupError; otherwise it selects the first match in dict order by id |
| Navigation.SetNetworkNameOutcome | merlink/browsers/dashboard.py:326-359 | an active organization that is not a key raises KeyError with no change; no match, or a falsy matched id, raises LookupError; otherwise the first network in dict order that matches and whose type is in the filter is chosen (no earlier one matches) and becomes active |
| Navigation.SetNetworkNameBeforeSetup | merlink/browsers/dashboard.py:342-344 | from the state `__init__` leaves, `set_network_name` raises KeyError and changes nothing |
| Navigation.SetNetworkNameThenId | merlink/browsers/dashboard.py:326-359 | selecting by the id that a name selection activated keeps the same network, organization and catalogue |
| Dashboard.DashboardBrowser.constructor | merlink/browsers/dashboard.py:66-90 | empty catalogue, not a network admin, one organization, both ids 0 |
| Dashboard.DashboardBrowser.Open | merlink/browsers/dashboard.py:280 | `browser.open(target)` sets only the URL, to where the dashboard sends the browser, and records the target as visited |
| Dashboard.DashboardBrowser.OpenRoute | merlink/browsers/dashboard.py:304 | `open_route(route)` opens the route URL built from the current URL and changes nothing else |
| Dashboard.DashboardBrowser.Login | merlink/browsers/dashboard.py:92-141 | the fields, the URLs opened and the outcome are those of the login transition |
| Dashboard.DashboardBrowser.TfaSubmitInfo | merlink/browsers/dashboard.py:143-162 | moves to the code page and accepts iff that page has no "Invalid verification code" |
| Dashboard.DashboardBrowser.OrgDataSetup | merlink/browsers/dashboard.py:166-196 | the fields, the URLs opened and the result are those of the setup transition |
| Dashboard.DashboardBrowser.SeedFromPage | merlink/browsers/dashboard.py:185-195 | from the page now current, the organizations are scraped, the first one with networks becomes active and the network eid is the URL piece after `/n/` (IndexError when absent), exactly as the seeding transition says; no URL is opened |
| Dashboard.DashboardBrowser.BypassOrgChoosePage | merlink/browsers/dashboard.py:198-219 | the organization count becomes the number of links; raises IndexError with none; otherwise follows the first link |
| Dashboard.DashboardBrowser.GetNetworkNames | merlink/browsers/dashboard.py:244-258 | the loop's result equals `Catalog.NetworkNames` |
| Dashboard.DashboardBrowser.SetOrgId | merlink/browsers/dashboard.py:265-290 | the fields, the URLs opened and the result are those of `SetOrgIdStep` |
| Dashboard.DashboardBrowser.SetNetworkId | merlink/browsers/dashboard.py:292-308 | the fields, the URLs opened and the result are those of `SetNetworkIdStep` |
| Dashboard.DashboardBrowser.SetOrgName | merlink/browsers/dashboard.py:310-324 | the fields, the URLs opened and the result are those of `SetOrgNameStep` |
| Dashboard.DashboardBrowser.SetNetworkName | merlink/browsers/dashboard.py:326-359 | the search loop agrees with the first-match transition `SetNetworkNameStep` |
| Vpn.EscapeChar | merlink/vpn/vpn_connection.py:80-83 | a backtick iff the index is 0, a backslash otherwise; never `$` or a quote |
| Vpn.Sanitize | merlink/vpn/vpn_connection.py:76-86 | a sanitized parameter starts and ends with a double quote |
| Vpn.SanitizeRoundTrip | merlink/vpn/vpn_connection.py:76-86 | dropping the quotes and undoing the escape gives back `str(v)` |
| Vpn.SanitizeEscapesEveryDollar | merlink/vpn/vpn_connection.py:79-84 | every `$` inside the quotes comes right after the shell's escape character |
| Vpn.SanitizeBothShells | merlink/vpn/vpn_connection.py:79-86 | the same value is escaped differently for PowerShell and for bash |
| Vpn.ConvertedElements | merlink/vpn/vpn_connection.py:107-109 | the conversion keeps the length and turns each option into `str` of it, at the same position |
| Vpn.ConversionIdempotent | merlink/vpn/vpn_connection.py:107-109 | converting already converted options changes nothing, so a second Windows attempt passes the same options as the first |
| Vpn.PlatformIndexIff | merlink/vpn/vpn_connection.py:58-70 | "win32" gives 0, "darwin" gives 1, any name starting with "linux" gives 2, all other names are unknown |
| Vpn.VpnConnection.constructor | merlink/vpn/vpn_connection.py:46-54 | keeps both lists, clears name and uuid, sets index 3, and rewrites the data with the backslash escape |
| Vpn.VpnConnection.SanitizeVariables | merlink/vpn/vpn_connection.py:74-86 | each data element becomes its sanitized string in place; the options are untouched unless they are the same list |
| Vpn.VpnConnection.AttemptWindowsVpn | merlink/vpn/vpn_connection.py:104-115 | the options become `Converted` of the old options in place, the data is untouched unless it is the same array, and the script's exit status is returned |
| Vpn.VpnConnection.AttemptVpn | merlink/vpn/vpn_connection.py:56-72 | known platforms set their index and return the script status; unknown ones return 255 and keep the index; only Windows converts the options |
| Troubleshoot.MxOnlineReadsStatus | src/modules/troubleshoot_vpn_failure.py:57-62 | on a status field as the dashboard writes it, the MX passes iff the status digit is 0, and a non-digit raises ValueError |
| Troubleshoot.MxOnlineWithoutMarker | src/modules/troubleshoot_vpn_failure.py:59 | without "status#" the check reads the character at index 8, and raises IndexError on a text that short |
| Troubleshoot.RequestIpShape | src/modules/troubleshoot_vpn_failure.py:88-90 | the extracted address holds no quote and sits right after the marker and its opening quote |
| Troubleshoot.RequestIpReadsField | src/modules/troubleshoot_vpn_failure.py:88-90 | a quoted request_ip field is read back whole |
| Troubleshoot.VpnEnabledReadsValue | src/modules/troubleshoot_vpn_failure.py:102-106 | on the field as written, the check passes iff the value starts with 't' |
| Troubleshoot.MarkerChecksSurviveContext | src/modules/troubleshoot_vpn_failure.py:118-140 | extra text around the settings text never undoes a found authentication marker or port forward |
| Troubleshoot.Record | src/modules/troubleshoot_vpn_failure.py:39-140 | a check clears only its own slot, and a pass changes nothing |
| Troubleshoot.RunTestsOnlyClears | src/modules/troubleshoot_vpn_failure.py:46-55 | a run never turns a failed slot back into a passed one |
| Troubleshoot.RunTestsVerdicts | src/modules/troubleshoot_vpn_failure.py:39-55 | from six passed slots, each slot ends at its own check's verdict; an exception in test0 or test3 stops the run |
| Troubleshoot.EmptyTextsFailAtOnce | src/modules/troubleshoot_vpn_failure.py:20-23 | on the empty status text the run raises IndexError before recording anything |
| Troubleshoot.TroubleshootVpnFailure.constructor | src/modules/troubleshoot_vpn_failure.py:17-39 | keeps the four texts and starts with six passed slots |
| Troubleshoot.TroubleshootVpnFailure.RunTests | src/modules/troubleshoot_vpn_failure.py:46-55 | the slots and the result are those of `RunTestsOn` from the current slots |
| Troubleshoot.TroubleshootVpnFailure.Test0IsMxOnline | src/modules/troubleshoot_vpn_failure.py:57-62 | raises exactly as `MxOnline` does, otherwise records its verdict in slot 0 |
| Troubleshoot.TroubleshootVpnFailure.Test1IsFwReachable | src/modules/troubleshoot_vpn_failure.py:71-82 | slot 1 fails iff the ping's exit status is not 0 |
| Troubleshoot.TroubleshootVpnFailure.Test2IsUserBehindFw | src/modules/troubleshoot_vpn_failure.py:84-94 | slot 2 fails iff the extracted address equals the firewall's |
| Troubleshoot.TroubleshootVpnFailure.Test3IsClientVpnEnabled | src/modules/troubleshoot_vpn_failure.py:102-106 | raises IndexError past the end; otherwise slot 3 fails iff the value does not start with 't' |
| Troubleshoot.TroubleshootVpnFailure.Test4IsAuthTypeMeraki | src/modules/troubleshoot_vpn_failure.py:108-122 | slot 4 fails iff neither Meraki-authentication marker occurs |
| Troubleshoot.TroubleshootVpnFailure.Test5IncompatiblePortForwards | src/modules/troubleshoot_vpn_failure.py:124-140 | slot 5 fails iff port 500 or port 4500 is forwarded |
| Troubleshoot.Start | src/modules/troubleshoot_vpn_failure.py:17-55 | construction followed by `run_tests` on six passed slots |

## Left out

- HTML parsing and mechanicalsoup: `scrape_administered_orgs`, the form filling and BeautifulSoup's `find_all` are not modelled. Each page is reduced to its text, its chooser links and the scraped organizations, all given by `PageSource`.
- Network failures after the login page: opening the login page is the only request modelled as able to fail (a caught connection error returned by its class name, or a 404 `LinkNotFoundError` or `ReadTimeout` that propagates). The form submissions and the opens in `open_route`, `bypass_org_choose_page` and `set_org_id` are modelled as always succeeding.
- `DashboardBrowser.logout`, the `url` method (`def url(self)`), and the unused fields `pagetexts`, `pagelinks` and `vpn_vars`: these are outside the modelled behaviour.
- Lower-casing of non-ASCII letters: `lower()` is modelled for ASCII letters only, because the names compared are ASCII in practice. Non-ASCII digits accepted by `int()` are likewise left out.
- The shell and subprocess parts of `VpnConnection`: the PowerShell command line, `attempt_macos_vpn`, `attempt_linux_vpn`, `disconnect`, `get_all_vpn_uuids`, `is_vpn_connected` and `get_vpn_name_by_uuid` are OS calls. `merlink/os_utils.py` (`pyinstaller_path`) is not part of this model. `AttemptVpn` takes the connect script's exit status as a parameter, so it does not model that `attempt_linux_vpn` returns a process object rather than a number.
- `sys.platform` is a parameter of `AttemptVpn`.
- test1's ping: the `system('ping …')` call and its platform-specific command line are left out, and the ping's exit status is a parameter.
- The GUI parts of `TroubleshootVpnFailure`: the `QListWidget` items, `error_dialog`, `show_results` and `enable_client_vpn` are not modelled.
- Troubleshoot.TroubleshootVpnFailure.constructor: it takes the four texts as parameters instead of starting from the empty strings, and the call to `run_tests` is `Troubleshoot.Start`. This is because a Dafny constructor cannot return the exception `run_tests` raises. The empty-text behaviour is kept in `Troubleshoot.EmptyTextsFailAtOnce`.
- `set_network_name` with a string `network_type`: its docstring documents a string, for which Python's `in` tests whether each network's own type is a substring of that string, whereas `Navigation.SetNetworkNameStep` takes a list of type names and tests list membership. A string argument is not modelled.
- Console output: every `print` call is dropped, for example the messages `set_org_id` prints before raising LookupError, `org_data_setup`'s URL print, and the report in `show_results`. None of them changes state.
- The command-line and GUI front ends, for example `src/cli/merlink_cli.py`, `src/gui/menu_bars.py` and `src/ui/modal_dialogs.py`: these are callers, not the core.

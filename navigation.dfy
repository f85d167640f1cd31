/** The session transitions of `DashboardBrowser` as functions of the page
    source and the session: login classification, catalogue seeding, the
    lazy per-organization fetch, and selection by id or by name. Each step
    returns the new session, the URLs it visited and its result; a Python
    exception is an `Err` carrying whatever state the code had already
    changed before raising. */
module Navigation {
  import opened Wrappers
  import opened PyStr
  import opened OrderedDict
  import opened Catalog

  /** What the dashboard serves at a URL, as far as the core looks at it:
      the page text, the org-chooser links (`/login/org_choose?eid=...`
      hrefs, in document order) and what `scrape_administered_orgs` returns
      on that page. */
  datatype Page = Page(text: string, orgChooseLinks: seq<string>, administeredOrgs: Dict<Key, Org>)

  /** The remote dashboard as the browser sees it.
      - `loginOpen`: what opening the login page raises, if anything;
      - `follow(u)`: the URL the browser ends up at after opening `u`;
      - `afterLogin(email, password)`, `afterCode(code)`: the URL after
        submitting the login form and the verification-code form;
      - `routeUrl(current, route)`: the URL `open_route` opens;
      - `pageAt(u)`: the page served at `u`. */
  datatype PageSource = PageSource(
    loginOpen: Option<LoginOpenError>,
    follow: string -> string,
    afterLogin: (string, string) -> string,
    afterCode: string -> string,
    routeUrl: (string, string) -> string,
    pageAt: string -> Page)

  /** An exception raised while opening the login page. `Caught` is a
      requests `ConnectionError` or one of its subclasses (`SSLError`,
      `ProxyError`, `ConnectTimeout`), which `login` catches, carrying the
      class's own name; `Raised` is any other exception, which propagates. */
  datatype LoginOpenError = Caught(exceptionName: string) | Raised(raised: PyException)

  /** The strings `login` returns; `ErrorName(n)` is `type(error).__name__`
      of a caught connection error. */
  datatype LoginOutcome = ErrorName(name: string) | AuthError | SmsAuth | AuthSuccess | AuthFailure

  datatype Step<T> = Step(session: Session, visited: seq<string>, result: Result<T, PyException>)

  const LoginPage: string := "https://account.meraki.com/login/dashboard_login"
  const AccountHost: string := "https://account.meraki.com"
  const FailedLoginMarker: string := "/login/login"
  const SecondFactorMarker: string := "sms_auth"
  const InvalidCodeMarker: string := "Invalid verification code"
  const ChooserMarker: string := "org_list"
  const GeneralRoute: string := "/configure/general"

  /** `if tfa_code:` */
  predicate CodeGiven(code: Option<string>)
  {
    code.Some? && code.value != ""
  }

  /** `tfa_submit_info`'s verdict on the page after the code was sent. */
  predicate CodeAccepted(pageText: string)
  {
    Find(pageText, InvalidCodeMarker) == -1
  }

  lemma CodeAcceptedIff(pageText: string)
    ensures CodeAccepted(pageText) <==> forall i :: !OccursAt(pageText, InvalidCodeMarker, i)
  {
  }

  /** `if self.browser.get_url().find('org_list'):` -- truthy for every
      result but 0. */
  predicate TakesChooserBranch(url: string)
  {
    Find(url, ChooserMarker) != 0
  }

  /** The chooser is bypassed unless the URL starts with "org_list": in
      particular also when "org_list" does not occur at all. */
  lemma {:induction false} ChooserBranchUnlessPrefix(url: string)
    ensures TakesChooserBranch(url) <==> !(ChooserMarker <= url)
  {
    if ChooserMarker <= url {
      assert url[0..|ChooserMarker|] == ChooserMarker;
      assert OccursAt(url, ChooserMarker, 0);
    } else {
      assert !OccursAt(url, ChooserMarker, 0);
    }
  }

  predicate HasNetworks(o: Org)
  {
    |o.nodeGroups.keys| > 0
  }

  /** `url.split('/manage')[0]`: the URL up to its first "/manage". */
  function EidBase(url: string): string
  {
    Split(url, "/manage")[0]
  }

  /** `url.split('/manage')[0].split('/n/')[1]`. */
  function NetworkEid(url: string): Result<string, PyException>
  {
    var parts := Split(EidBase(url), "/n/");
    if |parts| < 2 then Err(IndexError) else Ok(parts[1])
  }

  /** The eid is found iff "/n/" occurs before the first "/manage". */
  lemma NetworkEidFound(url: string)
    ensures EidBase(url) <= url && !Contains(EidBase(url), "/manage")
    ensures NetworkEid(url).Ok? <==> Contains(EidBase(url), "/n/")
    ensures NetworkEid(url).Err? ==> NetworkEid(url).error == IndexError
  {
    SplitHead(url, "/manage");
    SplitSecond(EidBase(url), "/n/");
  }

  /** A found eid is the text after the first "/n/", up to the next "/n/"
      or the first "/manage" or the end of the URL, and holds no "/n/". */
  lemma NetworkEidValue(url: string)
    requires NetworkEid(url).Ok?
    ensures var base := EidBase(url);
      var start := Find(base, "/n/") + 3;
      var e := NetworkEid(url).value;
      start + |e| <= |base| && base[start..start + |e|] == e && !Contains(e, "/n/") &&
      (start + |e| == |base| || OccursAt(base, "/n/", start + |e|))
  {
    var base := EidBase(url);
    SplitSecond(base, "/n/");
    var start := Find(base, "/n/") + 3;
    EidWithinBase(base, start, NetworkEid(url).value);
  }

  lemma EidWithinBase(base: string, start: int, e: string)
    requires 0 <= start <= |base|
    requires e == Split(base[start..], "/n/")[0]
    ensures start + |e| <= |base| && base[start..start + |e|] == e && !Contains(e, "/n/")
    ensures start + |e| == |base| || OccursAt(base, "/n/", start + |e|)
  {
    var rest := base[start..];
    SplitHead(rest, "/n/");
    assert rest[..|e|] == e;
    if |e| != |rest| {
      assert OccursAt(rest, "/n/", |e|);
      assert base[start + |e|..start + |e| + 3] == rest[|e|..|e| + 3];
    }
  }

  /** `'https://n' + str(shard_id) + '.meraki.com/' + 'o/' + eid +
      '/manage/organization/'`. */
  function OrgUrl(o: Org): string
  {
    "https://n" + IntToString(o.shardId) + ".meraki.com/" + "o/" + o.eid + "/manage/organization/"
  }

  // ------------------------------------------------------------ seeding

  /** The second half of `org_data_setup`, from the page now current:
      scrape the organizations, activate the first one with networks, and
      take the active network's eid from the URL. */
  function SeedStep(src: PageSource, s: Session, visited: seq<string>): Step<()>
  {
    var orgs := src.pageAt(s.url).administeredOrgs;
    var s1 := s.(orgs := orgs, activeOrgId := FirstWithNetworks(orgs, s.activeOrgId));
    match NetworkEid(s1.url)
    case Ok(eid) => Step(s1.(activeNetworkId := StrKey(eid)), visited, Ok(()))
    case Err(e) => Step(s1, visited, Err(e))
  }

  /** The id of the first organization, in dict order, whose networks are
      known, or `current` when there is none. */
  function FirstWithNetworks(orgs: Dict<Key, Org>, current: Key): Key
  {
    match FirstIndex(orgs, HasNetworks)
    case Some(i) => At(orgs, i).id
    case None => current
  }

  /** `org_data_setup`, with `bypass_org_choose_page` inlined: on the
      chooser branch the organization count becomes the number of links,
      and the first link is followed; with no link `[0]` raises. */
  function SetupStep(src: PageSource, s: Session): Step<()>
  {
    var links := src.pageAt(s.url).orgChooseLinks;
    if TakesChooserBranch(s.url) then
      var s1 := s.(orgQty := |links|);
      if |links| == 0 then Step(s1, [], Err(IndexError))
      else
        var target := AccountHost + links[0];
        SeedStep(src, s1.(url := src.follow(target)), [target])
    else SeedStep(src, s, [])
  }

  /** The URL from which the catalogue is scraped. */
  function SeedUrl(src: PageSource, s: Session): string
  {
    var links := src.pageAt(s.url).orgChooseLinks;
    if TakesChooserBranch(s.url) && |links| > 0 then src.follow(AccountHost + links[0]) else s.url
  }

  /** Seeding, case by case. */
  lemma SetupOutcome(src: PageSource, s: Session)
    ensures var st := SetupStep(src, s);
      var links := src.pageAt(s.url).orgChooseLinks;
      var orgs := src.pageAt(SeedUrl(src, s)).administeredOrgs;
      // the chooser branch counts the links; a chooser without any fails
      (TakesChooserBranch(s.url) ==> st.session.orgQty == |links|) &&
      (!TakesChooserBranch(s.url) ==> st.session.orgQty == s.orgQty) &&
      (TakesChooserBranch(s.url) && |links| == 0 ==>
        st == Step(s.(orgQty := 0), [], Err(IndexError))) &&
      // the only URL opened is the first chooser link, if the branch follows one
      (TakesChooserBranch(s.url) && |links| > 0 ==> st.visited == [AccountHost + links[0]]) &&
      (!TakesChooserBranch(s.url) ==> st.visited == []) &&
      // otherwise the whole catalogue is replaced by the scraped one
      (!TakesChooserBranch(s.url) || |links| > 0 ==>
        st.session.orgs == orgs &&
        st.session.url == SeedUrl(src, s) &&
        st.session.isNetworkAdmin == s.isNetworkAdmin &&
        (match FirstIndex(orgs, HasNetworks)
         case Some(i) => st.session.activeOrgId == At(orgs, i).id
         case None => st.session.activeOrgId == s.activeOrgId) &&
        (st.result.Ok? <==> NetworkEid(SeedUrl(src, s)).Ok?) &&
        (st.result.Ok? ==> st.session.activeNetworkId == StrKey(NetworkEid(SeedUrl(src, s)).value)) &&
        (st.result.Err? ==> st.result.error == IndexError && st.session.activeNetworkId == s.activeNetworkId))
  {
  }

  /** The single-organization landing page (no "org_list" in its URL, no
      chooser links) still takes the chooser branch and fails on `[0]`
      without touching the catalogue. */
  lemma DirectLandingWithoutLinksFails(src: PageSource, s: Session)
    requires !Contains(s.url, ChooserMarker)
    requires src.pageAt(s.url).orgChooseLinks == []
    ensures SetupStep(src, s) == Step(s.(orgQty := 0), [], Err(IndexError))
  {
  }

  // -------------------------------------------------------------- login

  /** The tail of a successful `login`: setup's exceptions propagate. */
  function AfterSetup(st: Step<()>, visited: seq<string>): Step<LoginOutcome>
  {
    Step(st.session, visited + st.visited, if st.result.Ok? then Ok(AuthSuccess) else Err(st.result.error))
  }

  /** `login(username, password, tfa_code)`. */
  function LoginStep(src: PageSource, s: Session, username: string, password: string, code: Option<string>): Step<LoginOutcome>
  {
    if src.loginOpen.Some? then
      match src.loginOpen.value
      case Caught(name) => Step(s, [], Ok(ErrorName(name)))
      case Raised(e) => Step(s, [], Err(e))
    else
      var s1 := s.(url := src.afterLogin(username, password));
      if Contains(s1.url, FailedLoginMarker) then Step(s1, [LoginPage], Ok(AuthError))
      else if Contains(s1.url, SecondFactorMarker) then
        if CodeGiven(code) then
          var s2 := s1.(url := src.afterCode(code.value));
          if CodeAccepted(src.pageAt(s2.url).text) then AfterSetup(SetupStep(src, s2), [LoginPage])
          else Step(s2, [LoginPage], Ok(AuthFailure))
        else Step(s1, [LoginPage], Ok(SmsAuth))
      else AfterSetup(SetupStep(src, s1), [LoginPage])
  }

  /** The URL the login lands on once both forms are submitted. */
  function LandingUrl(src: PageSource, username: string, password: string, code: Option<string>): string
  {
    var u := src.afterLogin(username, password);
    if !Contains(u, FailedLoginMarker) && Contains(u, SecondFactorMarker) && CodeGiven(code)
    then src.afterCode(code.value) else u
  }

  /** The login reaches the catalogue: not a failed-login URL, and on a
      second-factor URL a code was given and accepted. */
  predicate Authenticates(src: PageSource, username: string, password: string, code: Option<string>)
  {
    var u := src.afterLogin(username, password);
    src.loginOpen.None? && !Contains(u, FailedLoginMarker) &&
    (Contains(u, SecondFactorMarker) ==>
      CodeGiven(code) && CodeAccepted(src.pageAt(src.afterCode(code.value)).text))
  }

  /** The outcome classification, in its priority order. */
  lemma LoginClassification(src: PageSource, s: Session, username: string, password: string, code: Option<string>)
    ensures var r := LoginStep(src, s, username, password, code).result;
      var u := src.afterLogin(username, password);
      (forall n :: r == Ok(ErrorName(n)) <==> src.loginOpen == Some(Caught(n))) &&
      (forall e :: src.loginOpen == Some(Raised(e)) ==> r == Err(e)) &&
      (r == Ok(AuthError) <==> src.loginOpen.None? && Contains(u, FailedLoginMarker)) &&
      (r == Ok(SmsAuth) <==> src.loginOpen.None? && !Contains(u, FailedLoginMarker)
                             && Contains(u, SecondFactorMarker) && !CodeGiven(code)) &&
      (r == Ok(AuthFailure) <==> src.loginOpen.None? && !Contains(u, FailedLoginMarker)
                                 && Contains(u, SecondFactorMarker) && CodeGiven(code)
                                 && !CodeAccepted(src.pageAt(src.afterCode(code.value)).text)) &&
      (src.loginOpen.None? && (r == Ok(AuthSuccess) || r.Err?) <==> Authenticates(src, username, password, code))
  {
  }

  /** Setup runs exactly on the two success paths; every other outcome
      leaves the catalogue, the active ids and the organization count as
      they were. */
  lemma LoginSeedsOnlyOnSuccess(src: PageSource, s: Session, username: string, password: string, code: Option<string>)
    ensures var st := LoginStep(src, s, username, password, code);
      var landed := s.(url := LandingUrl(src, username, password, code));
      (Authenticates(src, username, password, code) ==>
        st == AfterSetup(SetupStep(src, landed), [LoginPage])) &&
      (src.loginOpen.Some? ==> st.session == s && st.visited == []) &&
      (src.loginOpen.None? && !Authenticates(src, username, password, code) ==>
        st.result.Ok? && st.result.value != AuthSuccess && st.session == landed)
  {
  }

  // ------------------------------------------------- selection by id

  /** `set_org_id(org_id)`. */
  function SetOrgIdStep(src: PageSource, s: Session, orgId: Key): Step<()>
  {
    if orgId !in s.orgs.entries then Step(s, [], Err(LookupError))
    else
      var s1 := s.(activeOrgId := orgId);
      var org := s.orgs.entries[orgId];
      if HasNetworks(org) then Step(s1, [], Ok(()))
      else
        var target := OrgUrl(org);
        var s2 := s1.(url := src.follow(target));
        var scraped := src.pageAt(s2.url).administeredOrgs;
        if orgId !in scraped.entries then Step(s2, [target], Err(KeyError))
        else
          var fetched := scraped.entries[orgId];
          var s3 := s2.(orgs := Update(s.orgs, orgId, fetched));
          if !HasNetworks(fetched) then Step(s3, [target], Err(IndexError))
          else Step(s3.(activeNetworkId := fetched.nodeGroups.keys[0]), [target], Ok(()))
  }

  /** What `set_org_id` does, case by case. */
  lemma SetOrgIdOutcome(src: PageSource, s: Session, orgId: Key)
    ensures var st := SetOrgIdStep(src, s, orgId);
      // an unknown id raises and changes nothing
      (orgId !in s.orgs.entries ==> st == Step(s, [], Err(LookupError))) &&
      // an organization whose networks are known: only the active id moves
      (orgId in s.orgs.entries && HasNetworks(s.orgs.entries[orgId]) ==>
        st == Step(s.(activeOrgId := orgId), [], Ok(()))) &&
      // otherwise exactly one fetch, of that organization's page
      (orgId in s.orgs.entries && !HasNetworks(s.orgs.entries[orgId]) ==>
        st.visited == [OrgUrl(s.orgs.entries[orgId])] &&
        st.session.activeOrgId == orgId &&
        st.session.url == src.follow(OrgUrl(s.orgs.entries[orgId]))) &&
      // on success the organization has networks, and a fetch replaced only its entry
      (st.result.Ok? ==>
        st.session.activeOrgId == orgId && orgId in st.session.orgs.entries &&
        HasNetworks(st.session.orgs.entries[orgId]) &&
        st.session.orgs.keys == s.orgs.keys &&
        (forall k :: k in s.orgs.entries && k != orgId ==> st.session.orgs.entries[k] == s.orgs.entries[k]) &&
        (st.visited != [] ==>
          st.session.orgs.entries[orgId] == src.pageAt(st.session.url).administeredOrgs.entries[orgId] &&
          st.session.activeNetworkId == st.session.orgs.entries[orgId].nodeGroups.keys[0]))
  {
  }

  /** The three outcomes of the fetch in `set_org_id`, each as the whole new
      session: the fetch has moved the active organization and the URL
      before the scrape is read, so the two failures keep those changes,
      and the IndexError also keeps the replaced entry. The organization
      count and the network-admin flag never change. */
  lemma SetOrgIdFetchOutcome(src: PageSource, s: Session, orgId: Key)
    requires orgId in s.orgs.entries && !HasNetworks(s.orgs.entries[orgId])
    ensures var org := s.orgs.entries[orgId];
      var u := src.follow(OrgUrl(org));
      var scraped := src.pageAt(u).administeredOrgs;
      var s2 := s.(activeOrgId := orgId, url := u);
      var st := SetOrgIdStep(src, s, orgId);
      (orgId !in scraped.entries ==> st == Step(s2, [OrgUrl(org)], Err(KeyError))) &&
      (orgId in scraped.entries && !HasNetworks(scraped.entries[orgId]) ==>
        st == Step(s2.(orgs := Update(s.orgs, orgId, scraped.entries[orgId])), [OrgUrl(org)], Err(IndexError))) &&
      (orgId in scraped.entries && HasNetworks(scraped.entries[orgId]) ==>
        st == Step(s2.(orgs := Update(s.orgs, orgId, scraped.entries[orgId]),
                       activeNetworkId := scraped.entries[orgId].nodeGroups.keys[0]),
                   [OrgUrl(org)], Ok(()))) &&
      st.session.orgQty == s.orgQty && st.session.isNetworkAdmin == s.isNetworkAdmin
  {
  }

  /** Selecting the same organization again fetches nothing and changes
      nothing. */
  lemma SetOrgIdIdempotent(src: PageSource, s: Session, orgId: Key)
    requires SetOrgIdStep(src, s, orgId).result.Ok?
    ensures var s1 := SetOrgIdStep(src, s, orgId).session;
      SetOrgIdStep(src, s1, orgId) == Step(s1, [], Ok(()))
  {
    var s1 := SetOrgIdStep(src, s, orgId).session;
    SetOrgIdOutcome(src, s, orgId);
    assert s1.(activeOrgId := orgId) == s1;
  }

  /** `set_network_id(network_id)`. */
  function SetNetworkIdStep(src: PageSource, s: Session, networkId: Key): Step<()>
  {
    if s.activeOrgId !in s.orgs.entries then Step(s, [], Err(KeyError))
    else if networkId in s.orgs.entries[s.activeOrgId].nodeGroups.entries then
      var target := src.routeUrl(s.url, GeneralRoute);
      Step(s.(activeNetworkId := networkId, url := src.follow(target)), [target], Ok(()))
    else Step(s, [], Err(LookupError))
  }

  /** The id becomes active iff it is a network of the active organization;
      otherwise the call raises and nothing changes. */
  lemma SetNetworkIdOutcome(src: PageSource, s: Session, networkId: Key)
    ensures var st := SetNetworkIdStep(src, s, networkId);
      (st.result.Ok? <==> s.activeOrgId in s.orgs.entries &&
                          networkId in s.orgs.entries[s.activeOrgId].nodeGroups.entries) &&
      (st.result.Ok? ==>
        st.session == s.(activeNetworkId := networkId, url := src.follow(src.routeUrl(s.url, GeneralRoute))) &&
        st.visited == [src.routeUrl(s.url, GeneralRoute)] &&
        ActiveNetworkName(st.session).Ok?) &&
      (st.result.Err? ==> st.session == s && st.visited == [] &&
                          st.result.error == (if s.activeOrgId in s.orgs.entries then LookupError else KeyError))
  {
  }

  // ----------------------------------------------- selection by name

  function OrgMatcher(query: string): Org -> bool
  {
    (o: Org) => ContainsIgnoringCase(o.name, query)
  }

  function NetworkMatcher(query: string, types: seq<string>): Network -> bool
  {
    (n: Network) => ContainsIgnoringCase(n.name, query) && n.networkType in types
  }

  /** `set_org_name(org_name)`: the first organization, in iteration order,
      whose lower-cased name contains the lower-cased query. */
  function SetOrgNameStep(src: PageSource, s: Session, query: string): Step<()>
  {
    match FirstIndex(s.orgs, OrgMatcher(query))
    case None => Step(s, [], Err(LookupError))
    case Some(i) => SetOrgIdStep(src, s, s.orgs.keys[i])
  }

  lemma SetOrgNameOutcome(src: PageSource, s: Session, query: string)
    ensures var st := SetOrgNameStep(src, s, query);
      ((forall i :: 0 <= i < |s.orgs.keys| ==> !ContainsIgnoringCase(At(s.orgs, i).name, query)) ==>
        st == Step(s, [], Err(LookupError))) &&
      (forall i :: (0 <= i < |s.orgs.keys| && ContainsIgnoringCase(At(s.orgs, i).name, query) &&
                    (forall j :: 0 <= j < i ==> !ContainsIgnoringCase(At(s.orgs, j).name, query))) ==>
        st == SetOrgIdStep(src, s, s.orgs.keys[i]))
  {
    forall i | 0 <= i < |s.orgs.keys| && ContainsIgnoringCase(At(s.orgs, i).name, query) &&
        (forall j :: 0 <= j < i ==> !ContainsIgnoringCase(At(s.orgs, j).name, query))
      ensures SetOrgNameStep(src, s, query) == SetOrgIdStep(src, s, s.orgs.keys[i])
    {
      FirstIndexUnique(s.orgs, OrgMatcher(query), i);
    }
  }

  /** The network chosen by name, if any. */
  function ChosenNetwork(s: Session, query: string, types: seq<string>): Option<Key>
    requires s.activeOrgId in s.orgs.entries
  {
    var ng := s.orgs.entries[s.activeOrgId].nodeGroups;
    match FirstIndex(ng, NetworkMatcher(query, TypeFilter(types)))
    case Some(i) => Some(ng.keys[i])
    case None => None
  }

  /** `set_network_name(network_name, network_type)`: the first network of
      the active organization, in iteration order, whose lower-cased raw
      name contains the lower-cased query and whose type passes the filter
      (templates included); a falsy id counts as no match. */
  function SetNetworkNameStep(src: PageSource, s: Session, query: string, types: seq<string>): Step<()>
  {
    if s.activeOrgId !in s.orgs.entries then Step(s, [], Err(KeyError))
    else
      var chosen := match ChosenNetwork(s, query, types)
        case Some(k) => k
        case None => IntKey(0);
      if !Truthy(chosen) then Step(s, [], Err(LookupError))
      else SetNetworkIdStep(src, s, chosen)
  }

  /** An active organization that is not a key raises KeyError with no
      change (`self.orgs_dict[org_id]`); otherwise no match, or a falsy
      matched id, raises LookupError, and a truthy first match becomes the
      active network. */
  lemma SetNetworkNameOutcome(src: PageSource, s: Session, query: string, types: seq<string>)
    ensures var st := SetNetworkNameStep(src, s, query, types);
      s.activeOrgId !in s.orgs.entries ==> st == Step(s, [], Err(KeyError))
    ensures var st := SetNetworkNameStep(src, s, query, types);
      s.activeOrgId in s.orgs.entries ==>
      var ng := s.orgs.entries[s.activeOrgId].nodeGroups;
      match ChosenNetwork(s, query, types)
      case None =>
        st == Step(s, [], Err(LookupError)) &&
        forall j :: 0 <= j < |ng.keys| ==>
          !(ContainsIgnoringCase(At(ng, j).name, query) && At(ng, j).networkType in TypeFilter(types))
      case Some(k) =>
        k in ng.entries &&
        ContainsIgnoringCase(ng.entries[k].name, query) && ng.entries[k].networkType in TypeFilter(types) &&
        (Truthy(k) ==> st == SetNetworkIdStep(src, s, k) && st.result.Ok? && st.session.activeNetworkId == k) &&
        (!Truthy(k) ==> st == Step(s, [], Err(LookupError)))
    ensures var st := SetNetworkNameStep(src, s, query, types);
      s.activeOrgId in s.orgs.entries ==>
      var ng := s.orgs.entries[s.activeOrgId].nodeGroups;
      var m := NetworkMatcher(query, TypeFilter(types));
      forall i :: (0 <= i < |ng.keys| && m(At(ng, i)) && (forall j :: 0 <= j < i ==> !m(At(ng, j)))) ==>
        ChosenNetwork(s, query, types) == Some(ng.keys[i]) &&
        st == (if Truthy(ng.keys[i]) then SetNetworkIdStep(src, s, ng.keys[i]) else Step(s, [], Err(LookupError)))
  {
    if s.activeOrgId in s.orgs.entries {
      var ng := s.orgs.entries[s.activeOrgId].nodeGroups;
      var m := NetworkMatcher(query, TypeFilter(types));
      forall i | 0 <= i < |ng.keys| && m(At(ng, i)) && (forall j :: 0 <= j < i ==> !m(At(ng, j)))
        ensures ChosenNetwork(s, query, types) == Some(ng.keys[i])
      {
        FirstIndexUnique(ng, m, i);
      }
    }
  }

  /** The session `__init__` leaves, with no organization fetched, makes
      `set_network_name` raise KeyError. */
  lemma SetNetworkNameBeforeSetup(src: PageSource, query: string, types: seq<string>)
    ensures SetNetworkNameStep(src, InitialSession, query, types) == Step(InitialSession, [], Err(KeyError))
  {
    SetNetworkNameOutcome(src, InitialSession, query, types);
  }

  /** Selecting by name and then by the id it activated ends on the same
      network as selecting by name alone. */
  lemma SetNetworkNameThenId(src: PageSource, s: Session, query: string, types: seq<string>)
    requires SetNetworkNameStep(src, s, query, types).result.Ok?
    ensures var s1 := SetNetworkNameStep(src, s, query, types).session;
      var st := SetNetworkIdStep(src, s1, s1.activeNetworkId);
      st.result.Ok? && st.session.activeNetworkId == s1.activeNetworkId &&
      st.session.orgs == s1.orgs && st.session.activeOrgId == s1.activeOrgId
  {
  }
}

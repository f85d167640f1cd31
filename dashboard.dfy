/** `DashboardBrowser`: the object that holds the session's fields and
    updates them in place. Every method is proved to do exactly what the
    corresponding step of module Navigation describes; the properties of
    those steps are proved there. */
module Dashboard {
  import opened Wrappers
  import opened PyStr
  import opened OrderedDict
  import opened Catalog
  import opened Navigation

  /** A proof step, not a property of the browser: regrouping the visited
      log, which the solver finds far more cheaply as a lemma call than as
      an inline assertion. */
  lemma AppendAssoc(a: seq<string>, b: seq<string>, c: seq<string>)
    ensures (a + b) + c == a + (b + c)
  {
  }

  class DashboardBrowser {
    /** The remote dashboard the browser talks to. */
    const source: PageSource

    var orgsDict: Dict<Key, Org>
    var isNetworkAdmin: bool
    var orgQty: int
    var activeOrgId: Key
    var activeNetworkId: Key
    /** `browser.get_url()`. */
    var url: string
    /** Every URL the browser was asked to open, oldest first. */
    ghost var visited: seq<string>

    function State(): Session
      reads this
    {
      Session(orgsDict, isNetworkAdmin, orgQty, activeOrgId, activeNetworkId, url)
    }

    constructor(source: PageSource)
      ensures this.source == source
      ensures State() == InitialSession && visited == []
    {
      this.source := source;
      orgsDict := RawDict([], map[]);
      isNetworkAdmin := false;
      orgQty := 1;
      activeOrgId := IntKey(0);
      activeNetworkId := IntKey(0);
      url := "";
      visited := [];
    }

    /** `browser.open(target)`: the browser ends up wherever the dashboard
        sends it. */
    method Open(target: string)
      modifies this
      ensures State() == old(State()).(url := source.follow(target))
      ensures visited == old(visited) + [target]
    {
      url := source.follow(target);
      visited := visited + [target];
    }

    /** `open_route(route)` of the page scrapers. */
    method OpenRoute(route: string)
      modifies this
      ensures State() == old(State()).(url := source.follow(source.routeUrl(old(url), route)))
      ensures visited == old(visited) + [source.routeUrl(old(url), route)]
    {
      Open(source.routeUrl(url, route));
    }

    method Login(username: string, password: string, tfaCode: Option<string>)
      returns (r: Result<LoginOutcome, PyException>)
      modifies this
      ensures State() == LoginStep(source, old(State()), username, password, tfaCode).session
      ensures r == LoginStep(source, old(State()), username, password, tfaCode).result
      ensures visited == old(visited) + LoginStep(source, old(State()), username, password, tfaCode).visited
    {
      if source.loginOpen.Some? {
        var failure := source.loginOpen.value;
        if failure.Caught? {
          return Ok(ErrorName(failure.exceptionName));
        }
        return Err(failure.raised);
      }
      ghost var s0 := State();
      ghost var v0 := visited;
      ghost var expected := LoginStep(source, s0, username, password, tfaCode);
      Open(LoginPage);
      url := source.afterLogin(username, password);
      var resultUrl := url;
      ghost var s1 := State();
      assert s1 == s0.(url := resultUrl) && visited == old(visited) + [LoginPage];
      if Find(resultUrl, FailedLoginMarker) != -1 {
        r := Ok(AuthError);
        assert expected == Step(s1, [LoginPage], r);
      } else if Find(resultUrl, SecondFactorMarker) != -1 {
        if tfaCode.Some? && tfaCode.value != "" {
          var accepted := TfaSubmitInfo(tfaCode.value);
          assert State() == s1.(url := source.afterCode(tfaCode.value));
          if accepted {
            ghost var s2 := State();
            var setup := OrgDataSetup();
            r := if setup.Ok? then Ok(AuthSuccess) else Err(setup.error);
            ghost var st := SetupStep(source, s2);
            assert expected == AfterSetup(st, [LoginPage]);
            AppendAssoc(v0, [LoginPage], st.visited);
          } else {
            r := Ok(AuthFailure);
            assert expected == Step(State(), [LoginPage], r);
          }
        } else {
          r := Ok(SmsAuth);
          assert expected == Step(s1, [LoginPage], r);
        }
      } else {
        var setup := OrgDataSetup();
        r := if setup.Ok? then Ok(AuthSuccess) else Err(setup.error);
        ghost var st := SetupStep(source, s1);
        assert expected == AfterSetup(st, [LoginPage]);
        AppendAssoc(v0, [LoginPage], st.visited);
      }
    }

    /** `tfa_submit_info(tfa_code)`: submit the code and accept unless the
        page says the code is invalid. */
    method TfaSubmitInfo(tfaCode: string) returns (accepted: bool)
      modifies this
      ensures State() == old(State()).(url := source.afterCode(tfaCode))
      ensures visited == old(visited)
      ensures accepted == CodeAccepted(source.pageAt(url).text)
    {
      url := source.afterCode(tfaCode);
      var activePage := source.pageAt(url).text;
      accepted := Find(activePage, InvalidCodeMarker) == -1;
    }

    method OrgDataSetup() returns (r: Result<(), PyException>)
      modifies this
      ensures var st := SetupStep(source, old(State()));
        State() == st.session && r == st.result && visited == old(visited) + st.visited
    {
      ghost var s0 := State();
      ghost var seedVisited: seq<string> := [];
      var page := source.pageAt(url);
      if Find(url, ChooserMarker) != 0 {
        var bypass := BypassOrgChoosePage(page);
        if bypass.Err? {
          return bypass;
        }
        seedVisited := [AccountHost + page.orgChooseLinks[0]];
      }
      ghost var landed := State();
      assert SetupStep(source, s0) == SeedStep(source, landed, seedVisited);
      r := SeedFromPage();
      assert SeedStep(source, landed, seedVisited) == SeedStep(source, landed, []).(visited := seedVisited);
    }

    /** The rest of `org_data_setup`, from the page now current: scrape the
        organizations, activate the first one with networks, and take the
        network eid from the URL. */
    method SeedFromPage() returns (r: Result<(), PyException>)
      modifies this
      ensures var st := SeedStep(source, old(State()), []);
        State() == st.session && r == st.result
      ensures visited == old(visited)
    {
      ghost var landed := State();
      var orgs := source.pageAt(url).administeredOrgs;
      orgsDict := orgs;
      ghost var scraped := State();
      var i := 0;
      while i < |orgs.keys|
        invariant 0 <= i <= |orgs.keys|
        invariant forall j :: 0 <= j < i ==> !HasNetworks(At(orgs, j))
        invariant State() == scraped
      {
        if HasNetworks(At(orgs, i)) {
          activeOrgId := At(orgs, i).id;
          FirstIndexUnique(orgs, HasNetworks, i);
          break;
        }
        i := i + 1;
      }
      assert activeOrgId == FirstWithNetworks(orgs, landed.activeOrgId);
      ghost var seeded := State();
      assert seeded == landed.(orgs := orgs, activeOrgId := FirstWithNetworks(orgs, landed.activeOrgId));
      var baseUrl := Split(url, "/manage")[0];
      var parts := Split(baseUrl, "/n/");
      assert NetworkEid(url) == if |parts| < 2 then Err(IndexError) else Ok(parts[1]);
      if |parts| < 2 {
        return Err(IndexError);
      }
      activeNetworkId := StrKey(parts[1]);
      r := Ok(());
    }

    /** `bypass_org_choose_page(page)`: count the chooser links and follow
        the first. */
    method BypassOrgChoosePage(page: Page) returns (r: Result<(), PyException>)
      modifies this
      ensures orgQty == |page.orgChooseLinks|
      ensures page.orgChooseLinks == [] ==>
        r == Err(IndexError) && State() == old(State()).(orgQty := 0) && visited == old(visited)
      ensures page.orgChooseLinks != [] ==>
        var target := AccountHost + page.orgChooseLinks[0];
        r == Ok(()) && visited == old(visited) + [target] &&
        State() == old(State()).(orgQty := |page.orgChooseLinks|, url := source.follow(target))
    {
      var orgHrefLines := page.orgChooseLinks;
      orgQty := |orgHrefLines|;
      if |orgHrefLines| == 0 {
        return Err(IndexError);
      }
      var bootstrapUrl := AccountHost + orgHrefLines[0];
      Open(bootstrapUrl);
      r := Ok(());
    }

    /** `get_network_names(network_types)`. */
    method GetNetworkNames(networkTypes: seq<string>) returns (r: Result<seq<string>, PyException>)
      ensures r == NetworkNames(State(), networkTypes)
    {
      var types := TypeFilter(networkTypes);
      if activeOrgId !in orgsDict.entries {
        return Err(KeyError);
      }
      var networks := orgsDict.entries[activeOrgId].nodeGroups;
      var networkList := [];
      for i := 0 to |networks.keys|
        invariant networkList == ListingUpTo(networks, types, i)
      {
        var network := At(networks, i);
        var isDesiredType := network.networkType in types;
        var isTemplate := network.isConfigTemplate;
        if isDesiredType && !isTemplate {
          networkList := networkList + [Replace(network.name, ApplianceSuffix, "")];
        }
      }
      r := Ok(PySort.Sort(networkList));
    }

    method SetOrgId(orgId: Key) returns (r: Result<(), PyException>)
      modifies this
      ensures var st := SetOrgIdStep(source, old(State()), orgId);
        State() == st.session && r == st.result && visited == old(visited) + st.visited
    {
      if orgId in orgsDict.entries {
        activeOrgId := orgId;
        // networks are fetched once per organization
        if !HasNetworks(orgsDict.entries[activeOrgId]) {
          var orgEid := orgsDict.entries[activeOrgId].eid;
          var shardId := IntToString(orgsDict.entries[activeOrgId].shardId);
          var base := "https://n" + shardId + ".meraki.com/";
          var newOrgUrl := base + "o/" + orgEid + "/manage/organization/";
          Open(newOrgUrl);
          var scraped := source.pageAt(url).administeredOrgs;
          if activeOrgId !in scraped.entries {
            return Err(KeyError);
          }
          var newOrgDict := scraped.entries[activeOrgId];
          orgsDict := Update(orgsDict, activeOrgId, newOrgDict);
          var networkIds := orgsDict.entries[orgId].nodeGroups.keys;
          if |networkIds| == 0 {
            return Err(IndexError);
          }
          activeNetworkId := networkIds[0];
        }
        r := Ok(());
      } else {
        r := Err(LookupError);
      }
    }

    method SetNetworkId(networkId: Key) returns (r: Result<(), PyException>)
      modifies this
      ensures var st := SetNetworkIdStep(source, old(State()), networkId);
        State() == st.session && r == st.result && visited == old(visited) + st.visited
    {
      var orgId := activeOrgId;
      if orgId !in orgsDict.entries {
        return Err(KeyError);
      }
      var networkIdList := orgsDict.entries[orgId].nodeGroups.entries.Keys;
      if networkId in networkIdList {
        activeNetworkId := networkId;
        // a route every network type has
        OpenRoute(GeneralRoute);
        r := Ok(());
      } else {
        r := Err(LookupError);
      }
    }

    method SetOrgName(orgName: string) returns (r: Result<(), PyException>)
      modifies this
      ensures var st := SetOrgNameStep(source, old(State()), orgName);
        State() == st.session && r == st.result && visited == old(visited) + st.visited
    {
      var first := FirstIndex(orgsDict, OrgMatcher(orgName));
      if first.None? {
        return Err(LookupError);
      }
      r := SetOrgId(orgsDict.keys[first.value]);
    }

    method SetNetworkName(networkName: string, networkType: seq<string>) returns (r: Result<(), PyException>)
      modifies this
      ensures var st := SetNetworkNameStep(source, old(State()), networkName, networkType);
        State() == st.session && r == st.result && visited == old(visited) + st.visited
    {
      var types := TypeFilter(networkType);
      var orgId := activeOrgId;
      if orgId !in orgsDict.entries {
        return Err(KeyError);
      }
      var chosenNetworkId := IntKey(0);
      var netDict := orgsDict.entries[orgId].nodeGroups;
      var i := 0;
      while i < |netDict.keys|
        invariant 0 <= i <= |netDict.keys|
        invariant forall j :: 0 <= j < i ==> !NetworkMatcher(networkName, types)(At(netDict, j))
        invariant chosenNetworkId == IntKey(0)
      {
        var ntwkName := Lower(At(netDict, i).name);
        var desiredNetworkType := At(netDict, i).networkType in types;
        if Contains(ntwkName, Lower(networkName)) && desiredNetworkType {
          chosenNetworkId := netDict.keys[i];
          FirstIndexUnique(netDict, NetworkMatcher(networkName, types), i);
          break;
        }
        i := i + 1;
      }
      if !Truthy(chosenNetworkId) {
        return Err(LookupError);
      }
      r := SetNetworkId(chosenNetworkId);
    }
  }
}

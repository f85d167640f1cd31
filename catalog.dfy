/** The dashboard's in-memory catalogue of organizations and networks and
    the read-only queries over it (`get_org_names`, `get_active_org_name`,
    `get_network_names`, `get_active_network_name`). */
module Catalog {
  import opened Wrappers
  import opened PyStr
  import opened PySort
  import opened OrderedDict

  /** Identifiers are whatever the scraped JSON holds or the URL yields:
      integers, or strings such as the network eid parsed from a URL. */
  datatype Key = IntKey(n: int) | StrKey(s: string)

  /** Python truthiness of an identifier: `0` and `''` are false. */
  predicate Truthy(k: Key)
  {
    match k
    case IntKey(n) => n != 0
    case StrKey(s) => s != ""
  }

  /** One entry of an organization's `node_groups`: keys `n`,
      `network_type` and `is_config_template`. */
  datatype Network = Network(name: string, networkType: string, isConfigTemplate: bool)

  /** One entry of `orgs_dict`: keys `id`, `name`, `eid`, `shard_id` and
      `node_groups`, the last keyed by network id in page order. */
  datatype Org = Org(id: Key, name: string, eid: string, shardId: int, nodeGroups: Dict<Key, Network>)

  /** The fields of `DashboardBrowser` that the core reads and writes, with
      the browser's current URL. */
  datatype Session = Session(
    orgs: Dict<Key, Org>,
    isNetworkAdmin: bool,
    orgQty: int,
    activeOrgId: Key,
    activeNetworkId: Key,
    url: string)

  /** What `__init__` sets up, before any page is opened. */
  const InitialSession: Session := Session(RawDict([], map[]), false, 1, IntKey(0), IntKey(0), "")

  // ----------------------------------------------------- organization names

  /** `[orgs_dict[i]['name'] for i in orgs_dict]`. */
  function OrgNamesInOrder(orgs: Dict<Key, Org>): (r: seq<string>)
    ensures |r| == |orgs.keys|
    ensures forall i :: 0 <= i < |r| ==> r[i] == At(orgs, i).name
  {
    seq(|orgs.keys|, i requires 0 <= i < |orgs.keys| => At(orgs, i).name)
  }

  /** `get_org_names`: the names of all organizations, sorted. */
  function OrgNames(s: Session): (r: seq<string>)
    ensures Sorted(r)
    ensures multiset(r) == multiset(OrgNamesInOrder(s.orgs))
  {
    Sort(OrgNamesInOrder(s.orgs))
  }

  /** Exactly one name per organization, and a string is listed iff some
      organization carries it. */
  lemma OrgNamesAreTheNames(s: Session, x: string)
    ensures |OrgNames(s)| == |s.orgs.keys|
    ensures x in OrgNames(s) <==> exists k :: k in s.orgs.entries && s.orgs.entries[k].name == x
  {
    var names := OrgNamesInOrder(s.orgs);
    assert x in OrgNames(s) <==> x in multiset(names);
    if x in names {
      var i :| 0 <= i < |names| && names[i] == x;
      assert s.orgs.keys[i] in s.orgs.entries;
    }
    if exists k :: k in s.orgs.entries && s.orgs.entries[k].name == x {
      var k :| k in s.orgs.entries && s.orgs.entries[k].name == x;
      var i :| 0 <= i < |s.orgs.keys| && s.orgs.keys[i] == k;
      assert names[i] == x;
    }
  }

  /** `get_active_org_name`: a `KeyError` when the active id is no key. */
  function ActiveOrgName(s: Session): (r: Result<string, PyException>)
    ensures r.Ok? <==> s.activeOrgId in s.orgs.entries
    ensures r.Ok? ==> r.value == s.orgs.entries[s.activeOrgId].name
    ensures r.Err? ==> r.error == KeyError
  {
    if s.activeOrgId in s.orgs.entries then Ok(s.orgs.entries[s.activeOrgId].name) else Err(KeyError)
  }

  // ---------------------------------------------------------- network names

  /** The filter used when none, or an empty one, is given. */
  const DefaultNetworkTypes: seq<string> := ["wired", "switch", "wireless", "camera", "systems_manager", "phone"]

  /** `if not network_types: network_types = [...]`. */
  function TypeFilter(types: seq<string>): (r: seq<string>)
    ensures r != []
    ensures types == [] ==> r == DefaultNetworkTypes
    ensures types != [] ==> r == types
  {
    if types == [] then DefaultNetworkTypes else types
  }

  const ApplianceSuffix: string := " - appliance"

  /** A network name as listed: every " - appliance" removed. */
  function DisplayName(name: string): string
  {
    Replace(name, ApplianceSuffix, "")
  }

  lemma DisplayNameExample()
    ensures DisplayName("HQ - appliance") == "HQ"
  {
    var s := "HQ - appliance";
    assert s[0] != ApplianceSuffix[0] && s[1] != ApplianceSuffix[0];
    assert s[1..] == "Q - appliance" && s[2..] == ApplianceSuffix;
    assert ApplianceSuffix[|ApplianceSuffix|..] == [];
    calc {
      DisplayName(s);
      ['H'] + Replace(s[1..], ApplianceSuffix, "");
      ['H'] + (['Q'] + Replace(s[2..], ApplianceSuffix, ""));
      ['H'] + (['Q'] + ("" + Replace([], ApplianceSuffix, "")));
    }
  }

  /** A name without the suffix is listed as it is. */
  lemma DisplayNameWithoutSuffix(name: string)
    requires !Contains(name, ApplianceSuffix)
    ensures DisplayName(name) == name
  {
    ReplaceAbsent(name, ApplianceSuffix, "");
  }

  /** A network is listed when its type passes the filter and it is not a
      configuration template. */
  predicate Listed(n: Network, types: seq<string>)
  {
    n.networkType in types && !n.isConfigTemplate
  }

  /** The list `get_network_names` has built after its loop has visited the
      first `i` networks. */
  function ListingUpTo(ng: Dict<Key, Network>, types: seq<string>, i: nat): (r: seq<string>)
    requires i <= |ng.keys|
    ensures |r| <= i
  {
    if i == 0 then []
    else
      var n := At(ng, i - 1);
      ListingUpTo(ng, types, i - 1) + (if Listed(n, types) then [DisplayName(n.name)] else [])
  }

  function Listing(ng: Dict<Key, Network>, types: seq<string>): seq<string>
  {
    ListingUpTo(ng, types, |ng.keys|)
  }

  /** A name is in the listing iff some listed network (non-template, type in
      the filter) has it as display name. */
  lemma {:induction false} ListingMembers(ng: Dict<Key, Network>, types: seq<string>, i: nat, x: string)
    requires i <= |ng.keys|
    ensures x in ListingUpTo(ng, types, i) <==>
      exists j :: 0 <= j < i && Listed(At(ng, j), types) && DisplayName(At(ng, j).name) == x
  {
    if i > 0 {
      ListingMembers(ng, types, i - 1, x);
      var n := At(ng, i - 1);
      assert Listed(n, types) && DisplayName(n.name) == x ==> x in ListingUpTo(ng, types, i);
    }
  }

  /** No template network contributes to the listing. */
  lemma ListingExcludesTemplates(ng: Dict<Key, Network>, types: seq<string>, x: string)
    requires x in Listing(ng, types)
    ensures exists j :: (0 <= j < |ng.keys| && !At(ng, j).isConfigTemplate
                         && At(ng, j).networkType in types && DisplayName(At(ng, j).name) == x)
  {
    ListingMembers(ng, types, |ng.keys|, x);
  }

  /** `get_network_names`: the active organization's listed networks,
      sorted; a `KeyError` when the active id is no key. */
  function NetworkNames(s: Session, types: seq<string>): (r: Result<seq<string>, PyException>)
    ensures r.Ok? <==> s.activeOrgId in s.orgs.entries
    ensures r.Err? ==> r.error == KeyError
    ensures r.Ok? ==> (Sorted(r.value) &&
      multiset(r.value) == multiset(Listing(s.orgs.entries[s.activeOrgId].nodeGroups, TypeFilter(types))))
  {
    if s.activeOrgId !in s.orgs.entries then Err(KeyError)
    else Ok(Sort(Listing(s.orgs.entries[s.activeOrgId].nodeGroups, TypeFilter(types))))
  }

  /** `get_active_network_name`: the raw name (not stripped) of the active
      network; a `KeyError` when either id is not a key. */
  function ActiveNetworkName(s: Session): (r: Result<string, PyException>)
    ensures r.Ok? <==> (s.activeOrgId in s.orgs.entries &&
      s.activeNetworkId in s.orgs.entries[s.activeOrgId].nodeGroups.entries)
    ensures r.Err? ==> r.error == KeyError
    ensures r.Ok? ==> r.value == s.orgs.entries[s.activeOrgId].nodeGroups.entries[s.activeNetworkId].name
  {
    if s.activeOrgId !in s.orgs.entries then Err(KeyError)
    else
      var ng := s.orgs.entries[s.activeOrgId].nodeGroups;
      if s.activeNetworkId !in ng.entries then Err(KeyError) else Ok(ng.entries[s.activeNetworkId].name)
  }
}

/**
 * Inventory resolution of the Jinn inventory client (infraninja/inventory/jinn.py):
 * the distinct groups and tags of an inventory response, the project name, one attempt
 * at the group and tag prompts, the group/active and tag filters, and the assembly of
 * the `(hostname, attributes)` list handed to the deploy executor.
 */
module Jinn {
  import opened Values
  import opened Text
  import opened Seqs
  import opened SortedStrings

  /** One element of the response's "result" list: a decoded JSON object. */
  type Server = map<string, Value>

  /** The decoded inventory response; `result` is None when the key is missing. */
  datatype InventoryData = InventoryData(result: Option<seq<Server>>)

  /** One entry of the host list: `(server["ssh_hostname"], attrs)`. */
  datatype Host = Host(hostname: Value, attrs: map<string, Value>)

  /** `f"{base_url.rstrip('/')}{endpoint}"`: the base URL without its trailing slashes, then the endpoint. */
  function Endpoint(baseUrl: string, endpoint: string): (url: string)
    ensures |endpoint| <= |url| <= |baseUrl| + |endpoint|
    ensures url[|url| - |endpoint|..] == endpoint
    ensures url[..|url| - |endpoint|] == baseUrl[..|url| - |endpoint|]
    ensures forall k :: |url| - |endpoint| <= k < |baseUrl| ==> baseUrl[k] == '/'
    ensures |url| > |endpoint| ==> url[|url| - |endpoint| - 1] != '/'
  {
    TrimSlashes(baseUrl) + endpoint
  }

  /** A trailing slash on the configured base URL does not change any endpoint URL. */
  lemma EndpointIgnoresTrailingSlash(baseUrl: string, endpoint: string)
    ensures Endpoint(baseUrl + "/", endpoint) == Endpoint(baseUrl, endpoint)
  {
    assert (baseUrl + "/")[..|baseUrl|] == baseUrl;
  }

  /** `data.get("result", [])` */
  function Servers(data: InventoryData): seq<Server> {
    match data.result
    case None => []
    case Some(ss) => ss
  }

  /** `server.get("group", {})` */
  function GroupOf(s: Server): map<string, Value> {
    if "group" in s && s["group"].Object? then s["group"].fields else map[]
  }

  /** `server.get("group", {}).get("name_en")`, Null when missing. */
  function GroupName(s: Server): Value {
    GetOr(GroupOf(s), "name_en", Null)
  }

  /** The group name `get_groups_from_data` collects: a non-empty string. */
  function NamedGroup(s: Server): Option<string> {
    if GroupName(s).Str? && GroupName(s).s != "" then Some(GroupName(s).s) else None
  }

  /** `server.get("tags", [])` */
  function Tags(s: Server): seq<Value> {
    if "tags" in s && s["tags"].List? then s["tags"].items else []
  }

  /** A tag `get_tags_from_data` keeps: `tag and not tag.isspace()`. */
  function KeptTag(v: Value): Option<string> {
    if v.Str? && v.s != "" && !IsBlank(v.s) then Some(v.s) else None
  }

  /** `server.get("is_active", False)`, read as a condition. */
  predicate IsActive(s: Server) {
    Truthy(GetOr(s, "is_active", Bool(false)))
  }

  // ---------------------------------------------------------------- groups and tags

  /** The group name `get_groups_from_data` adds for one server, if any. */
  function ServerGroup(s: Server): set<string> {
    if NamedGroup(s).Some? then {NamedGroup(s).value} else {}
  }

  /** The set `get_groups_from_data` builds from the first servers. */
  function GroupSet(ss: seq<Server>): set<string> {
    Union(ss, ServerGroup)
  }

  /** The groups listed by `get_groups_from_data`. */
  function Groups(data: InventoryData): seq<string> {
    SortedOf(GroupSet(Servers(data)))
  }

  /** `get_groups_from_data`: the distinct non-empty group names, sorted. */
  method GroupsFromData(data: InventoryData) returns (groups: seq<string>)
    ensures groups == Groups(data)
    ensures StrictlySorted(groups)
    ensures forall g :: g in groups <==>
              exists i :: 0 <= i < |Servers(data)| && NamedGroup(Servers(data)[i]) == Some(g)
  {
    var ss := Servers(data);
    var names: set<string> := {};
    var i := 0;
    while i < |ss|
      invariant 0 <= i <= |ss|
      invariant names == GroupSet(ss[..i])
    {
      var group := NamedGroup(ss[i]);
      if group.Some? {
        names := names + {group.value};
      }
      assert ss[..i + 1][..i] == ss[..i];
      i := i + 1;
    }
    assert ss[..i] == ss;
    forall g ensures g in GroupSet(ss) <==> exists i :: 0 <= i < |ss| && g in ServerGroup(ss[i]) {
      UnionMember(ss, ServerGroup, g);
    }
    groups := SortedOf(names);
  }

  /** The tags of one server that `get_tags_from_data` keeps, from its first entries. */
  function KeptTags(ts: seq<Value>): set<string> {
    if ts == [] then {}
    else
      var last := KeptTag(ts[|ts| - 1]);
      KeptTags(ts[..|ts| - 1]) + (if last.Some? then {last.value} else {})
  }

  /** The tags `get_tags_from_data` keeps from one server. */
  function ServerTags(s: Server): set<string> {
    KeptTags(Tags(s))
  }

  /** The set `get_tags_from_data` builds from the first servers. */
  function TagSet(ss: seq<Server>): set<string> {
    Union(ss, ServerTags)
  }

  lemma {:induction false} KeptTagsMembers(ts: seq<Value>)
    ensures forall t :: t in KeptTags(ts) <==> exists j :: 0 <= j < |ts| && KeptTag(ts[j]) == Some(t)
  {
    if ts != [] {
      var init := ts[..|ts| - 1];
      KeptTagsMembers(init);
      forall t ensures t in KeptTags(ts) <==> exists j :: 0 <= j < |ts| && KeptTag(ts[j]) == Some(t) {
        if exists j :: 0 <= j < |init| && KeptTag(init[j]) == Some(t) {
          var j :| 0 <= j < |init| && KeptTag(init[j]) == Some(t);
          assert ts[j] == init[j];
        }
        if exists j :: 0 <= j < |ts| && KeptTag(ts[j]) == Some(t) {
          var j :| 0 <= j < |ts| && KeptTag(ts[j]) == Some(t);
          if j < |init| {
            assert init[j] == ts[j];
          }
        }
      }
    }
  }

  /** `s` carries the tag `t` as a non-blank string. */
  predicate CarriesTag(s: Server, t: string) {
    exists j :: 0 <= j < |Tags(s)| && KeptTag(Tags(s)[j]) == Some(t)
  }

  /** The tags listed by `get_tags_from_data`. */
  function TagsOf(ss: seq<Server>): seq<string> {
    SortedOf(TagSet(ss))
  }

  /** `get_tags_from_data`: the distinct tags of all servers, blank ones skipped, sorted. */
  method TagsFromData(servers: seq<Server>) returns (tags: seq<string>)
    ensures tags == TagsOf(servers)
    ensures StrictlySorted(tags)
    ensures forall t :: t in tags <==> exists i :: 0 <= i < |servers| && CarriesTag(servers[i], t)
  {
    var seen: set<string> := {};
    var i := 0;
    while i < |servers|
      invariant 0 <= i <= |servers|
      invariant seen == TagSet(servers[..i])
    {
      var ts := Tags(servers[i]);
      var j := 0;
      while j < |ts|
        invariant 0 <= j <= |ts|
        invariant seen == TagSet(servers[..i]) + KeptTags(ts[..j])
      {
        var tag := KeptTag(ts[j]);
        if tag.Some? {
          seen := seen + {tag.value};
        }
        assert ts[..j + 1][..j] == ts[..j];
        j := j + 1;
      }
      assert ts[..j] == ts;
      assert servers[..i + 1][..i] == servers[..i];
      i := i + 1;
    }
    assert servers[..i] == servers;
    forall t ensures t in TagSet(servers) <==> exists i :: 0 <= i < |servers| && t in ServerTags(servers[i]) {
      UnionMember(servers, ServerTags, t);
    }
    forall i | 0 <= i < |servers| ensures forall t :: t in KeptTags(Tags(servers[i])) <==> CarriesTag(servers[i], t) {
      KeptTagsMembers(Tags(servers[i]));
    }
    tags := SortedOf(seen);
  }

  // ---------------------------------------------------------------- project name

  /** The project name a server carries: `group.project.name_en`, when it is a non-empty string. */
  function ProjectOf(s: Server): Option<string> {
    var project := GetOr(GroupOf(s), "project", Object(map[]));
    if project.Object? && "name_en" in project.fields && project.fields["name_en"].Str?
       && project.fields["name_en"].s != ""
    then Some(project.fields["name_en"].s)
    else None
  }

  /** The first project name in list order, if any. */
  function FirstProject(ss: seq<Server>): Option<string> {
    if ss == [] then None
    else if ProjectOf(ss[0]).Some? then ProjectOf(ss[0])
    else FirstProject(ss[1..])
  }

  /** `get_project_name` */
  function ProjectName(data: InventoryData): (name: string)
    ensures Servers(data) == [] ==> name == "default"
  {
    match FirstProject(Servers(data))
    case Some(n) => n
    case None => "default"
  }

  /** The first server with a project decides the project name. */
  lemma {:induction false} ProjectNameIsFirst(data: InventoryData, i: nat)
    requires i < |Servers(data)| && ProjectOf(Servers(data)[i]).Some?
    requires forall j :: 0 <= j < i ==> ProjectOf(Servers(data)[j]).None?
    ensures ProjectName(data) == ProjectOf(Servers(data)[i]).value
  {
    FirstProjectAt(Servers(data), i);
  }

  lemma {:induction false} FirstProjectAt(ss: seq<Server>, i: nat)
    requires i < |ss| && ProjectOf(ss[i]).Some?
    requires forall j :: 0 <= j < i ==> ProjectOf(ss[j]).None?
    ensures FirstProject(ss) == ProjectOf(ss[i])
  {
    if i > 0 {
      FirstProjectAt(ss[1..], i - 1);
    }
  }

  /** Without any server carrying a project, the name is "default". */
  lemma {:induction false} ProjectNameDefault(data: InventoryData)
    requires forall j :: 0 <= j < |Servers(data)| ==> ProjectOf(Servers(data)[j]).None?
    ensures ProjectName(data) == "default"
  {
    NoProject(Servers(data));
  }

  lemma {:induction false} NoProject(ss: seq<Server>)
    requires forall j :: 0 <= j < |ss| ==> ProjectOf(ss[j]).None?
    ensures FirstProject(ss) == None
  {
    if ss != [] {
      NoProject(ss[1..]);
    }
  }

  // ---------------------------------------------------------------- the prompts

  /** The text one prompt works on: a non-empty environment value wins over what was typed; both are stripped. */
  function ChoiceText(env: Option<string>, typed: string): string {
    Strip(if env.Some? && env.value != "" then env.value else typed)
  }

  /** `[int(x) for x in tokens]`; None where one `int()` raises ValueError. */
  function ParseIndices(tokens: seq<string>): (r: Option<seq<int>>)
    ensures r.Some? <==> forall k :: 0 <= k < |tokens| ==> ParseInt(tokens[k]).Some?
    ensures r.Some? ==> |r.value| == |tokens| && forall k :: 0 <= k < |tokens| ==> ParseInt(tokens[k]) == Some(r.value[k])
  {
    if tokens == [] then Some([])
    else
      var rest := ParseIndices(tokens[1..]);
      if ParseInt(tokens[0]).None? then None
      else if rest.None? then
        var k :| 0 <= k < |tokens[1..]| && ParseInt(tokens[1..][k]).None?;
        assert tokens[k + 1] == tokens[1..][k];
        None
      else Some([ParseInt(tokens[0]).value] + rest.value)
  }

  /** `all(1 <= x <= len(groups) for x in choices)` */
  predicate AllInRange(ns: seq<int>, count: int) {
    forall k :: 0 <= k < |ns| ==> 1 <= ns[k] <= count
  }

  /**
   * One pass of the group prompt on the stripped choice: "*" or "" selects every group,
   * space-separated 1-based indices select those groups in the order given, duplicates kept;
   * None where the source warns and prompts again.
   */
  function ParseGroupChoice(choice: string, groups: seq<string>): (r: Option<seq<string>>)
    ensures choice == "*" || choice == "" ==> r == Some(groups)
    ensures choice != "*" && choice != "" ==> r == GroupsAt(ParseIndices(Split(choice)), groups)
  {
    if choice == "*" || choice == "" then Some(groups) else GroupsAt(ParseIndices(Split(choice)), groups)
  }

  /** `[groups[i - 1] for i in choices]` once every index is checked to be in range; None otherwise. */
  function GroupsAt(ns: Option<seq<int>>, groups: seq<string>): (r: Option<seq<string>>)
    ensures r.Some? <==> ns.Some? && AllInRange(ns.value, |groups|)
    ensures r.Some? ==> (|r.value| == |ns.value| &&
              forall k :: 0 <= k < |ns.value| ==> r.value[k] == groups[ns.value[k] - 1])
  {
    if ns.Some? && AllInRange(ns.value, |groups|) then
      Some(seq(|ns.value|, k requires 0 <= k < |ns.value| => groups[ns.value[k] - 1]))
    else None
  }

  /** The space-separated decimal indices a user types. */
  function IndexText(ks: seq<nat>): string {
    JoinSpaced(seq(|ks|, k requires 0 <= k < |ks| => Decimal(ks[k])))
  }

  lemma IndexTextTokens(ks: seq<nat>)
    requires |ks| > 0
    ensures Split(IndexText(ks)) == seq(|ks|, k requires 0 <= k < |ks| => Decimal(ks[k]))
    ensures IndexText(ks) != "" && IndexText(ks) != "*"
  {
    var ws := seq(|ks|, k requires 0 <= k < |ks| => Decimal(ks[k]));
    forall k | 0 <= k < |ws| ensures IsToken(ws[k]) {
      assert IsDigit(ws[k][0]);
    }
    SplitJoin(ws);
  }

  lemma ParseDecimals(ks: seq<nat>)
    ensures ParseIndices(seq(|ks|, k requires 0 <= k < |ks| => Decimal(ks[k]))) == Some(ks)
  {
    var ws := seq(|ks|, k requires 0 <= k < |ks| => Decimal(ks[k]));
    forall k | 0 <= k < |ks| ensures ParseInt(ws[k]) == Some(ks[k]) {
      ParseDecimal(ks[k]);
    }
    var r := ParseIndices(ws);
    assert r.value == ks;
  }

  /** Typing valid indices selects `groups[i - 1]` for each index `i`, in the order typed. */
  lemma SelectGroupsByIndex(ks: seq<nat>, groups: seq<string>)
    requires |ks| > 0 && forall k :: 0 <= k < |ks| ==> 1 <= ks[k] <= |groups|
    ensures ParseGroupChoice(IndexText(ks), groups) == Some(seq(|ks|, k requires 0 <= k < |ks| => groups[ks[k] - 1]))
  {
    IndexTextTokens(ks);
    ParseDecimals(ks);
    assert ParseIndices(Split(IndexText(ks))) == Some(ks);
    assert AllInRange(ks, |groups|);
  }

  /** One index out of `1..len(groups)` rejects the whole choice. */
  lemma OutOfRangeIndexRejected(ks: seq<nat>, groups: seq<string>, k: nat)
    requires k < |ks| && (ks[k] == 0 || ks[k] > |groups|)
    ensures ParseGroupChoice(IndexText(ks), groups) == None
  {
    IndexTextTokens(ks);
    ParseDecimals(ks);
  }

  /**
   * While JINN_GROUPS holds a non-empty value, what is typed never matters: every pass of
   * the prompt loop sees the same choice, so a rejected value is rejected on every pass.
   */
  lemma EnvGroupChoiceIsSticky(env: string, typed1: string, typed2: string, groups: seq<string>)
    requires env != ""
    ensures ParseGroupChoice(ChoiceText(Some(env), typed1), groups)
         == ParseGroupChoice(ChoiceText(Some(env), typed2), groups)
  {
  }

  /** `selected_groups`: the caller's group, or one pass of the prompt over the listed groups. */
  function SelectGroups(data: InventoryData, selectedGroup: Option<string>, choice: string): (r: Option<seq<string>>)
    ensures selectedGroup.Some? ==> r == Some([selectedGroup.value])
    ensures selectedGroup.None? && (choice == "*" || choice == "") ==> r == Some(Groups(data))
    ensures selectedGroup.None? && choice != "*" && choice != "" ==> r == GroupsAt(ParseIndices(Split(choice)), Groups(data))
  {
    if selectedGroup.Some? then Some([selectedGroup.value]) else ParseGroupChoice(choice, Groups(data))
  }

  // ---------------------------------------------------------------- filters

  /** `server.get("group", {}).get("name_en") in selected_groups` */
  predicate InGroups(s: Server, selected: seq<string>) {
    GroupName(s).Str? && GroupName(s).s in selected
  }

  /** The group/active filter: servers of a selected group whose `is_active` is truthy, in response order. */
  function ActiveInGroups(ss: seq<Server>, selected: seq<string>): (r: seq<Server>)
    ensures IsSubsequence(r, ss)
    ensures forall s :: s in r <==> s in ss && InGroups(s, selected) && IsActive(s)
    ensures forall s :: multiset(r)[s] == if InGroups(s, selected) && IsActive(s) then multiset(ss)[s] else 0
  {
    FilterSubsequence(ss, ActiveIn(selected));
    FilterMembers(ss, ActiveIn(selected));
    FilterCount(ss, ActiveIn(selected));
    Filter(ss, ActiveIn(selected))
  }

  /** The condition of the group/active filter. */
  function ActiveIn(selected: seq<string>): Server -> bool {
    s => InGroups(s, selected) && IsActive(s)
  }

  /** `{tags[i] for i in selected_indices if 0 <= i < len(tags)}`, with the indices still 1-based. */
  function SelectedTags(ns: seq<int>, tags: seq<string>): (sel: set<string>)
    ensures forall t :: t in sel <==> exists k :: 0 <= k < |ns| && 1 <= ns[k] <= |tags| && tags[ns[k] - 1] == t
  {
    set k | 0 <= k < |ns| && 1 <= ns[k] <= |tags| :: tags[ns[k] - 1]
  }

  /** `any(tag in selected_tags for tag in server.get("tags", []))` */
  predicate HasSelectedTag(s: Server, sel: set<string>) {
    exists j :: 0 <= j < |Tags(s)| && Tags(s)[j].Str? && Tags(s)[j].s in sel
  }

  /** The condition of the tag filter. */
  function TaggedWith(sel: set<string>): Server -> bool {
    s => HasSelectedTag(s, sel)
  }

  /**
   * The tag step on the group-filtered servers, with the stripped tag choice: skipped when
   * no tag is listed, for "" and "*", and when a token is not an integer; otherwise the
   * servers carrying one of the tags picked by in-range indices, in order.
   */
  function FilterByTags(ss: seq<Server>, choice: string): (r: seq<Server>)
    ensures IsSubsequence(r, ss)
    ensures forall s :: s in r ==> s in ss
    ensures TagsOf(ss) == [] || choice == "" || choice == "*" || ParseIndices(Split(choice)).None? ==> r == ss
    ensures TagsOf(ss) != [] && choice != "" && choice != "*" && ParseIndices(Split(choice)).Some? ==>
              var sel := SelectedTags(ParseIndices(Split(choice)).value, TagsOf(ss));
              && (forall s :: s in r <==> s in ss && HasSelectedTag(s, sel))
              && (forall s :: multiset(r)[s] == if HasSelectedTag(s, sel) then multiset(ss)[s] else 0)
  {
    var tags := TagsOf(ss);
    if tags == [] || choice == "" || choice == "*" then
      SubsequenceOfSelf(ss);
      ss
    else match ParseIndices(Split(choice))
      case None =>
        SubsequenceOfSelf(ss);
        ss
      case Some(ns) =>
        var sel := SelectedTags(ns, tags);
        FilterSubsequence(ss, TaggedWith(sel));
        FilterMembers(ss, TaggedWith(sel));
        FilterCount(ss, TaggedWith(sel));
        Filter(ss, TaggedWith(sel))
  }

  /** Whether the tag step keeps a server of `ss`: always when the step is skipped, otherwise when it carries a picked tag. */
  predicate TagStepKeeps(s: Server, ss: seq<Server>, choice: string) {
    || TagsOf(ss) == [] || choice == "" || choice == "*" || ParseIndices(Split(choice)).None?
    || HasSelectedTag(s, SelectedTags(ParseIndices(Split(choice)).value, TagsOf(ss)))
  }

  /** The tag step keeps every copy of a server it keeps, and drops every copy of one it does not. */
  lemma FilterByTagsCount(ss: seq<Server>, choice: string)
    ensures forall s :: multiset(FilterByTags(ss, choice))[s] == if TagStepKeeps(s, ss, choice) then multiset(ss)[s] else 0
  {
    if TagsOf(ss) != [] && choice != "" && choice != "*" && ParseIndices(Split(choice)).Some? {
      var sel := SelectedTags(ParseIndices(Split(choice)).value, TagsOf(ss));
      assert forall s :: TagStepKeeps(s, ss, choice) == HasSelectedTag(s, sel);
    }
  }

  lemma {:induction false} SubsequenceOfSelf(s: seq<Server>)
    ensures IsSubsequence(s, s)
  {
    if s != [] {
      SubsequenceOfSelf(s[1..]);
    }
  }

  /** When every typed index is out of range, no server survives the tag step. */
  lemma AllTagIndicesOutOfRange(ss: seq<Server>, choice: string)
    requires TagsOf(ss) != [] && choice != "" && choice != "*"
    requires ParseIndices(Split(choice)).Some?
    requires forall k :: 0 <= k < |ParseIndices(Split(choice)).value| ==>
               var n := ParseIndices(Split(choice)).value[k]; n < 1 || n > |TagsOf(ss)|
    ensures FilterByTags(ss, choice) == []
  {
    var sel := SelectedTags(ParseIndices(Split(choice)).value, TagsOf(ss));
    assert sel == {};
    FilterNone(ss, TaggedWith(sel));
  }

  // ---------------------------------------------------------------- the host list

  /** Keys of a server that are not copied into the attributes as they are. */
  const Reserved: set<string> := {"attributes", "ssh_user", "is_active", "group", "tags"}

  /** `server.get("attributes", {})` */
  function Attributes(s: Server): map<string, Value> {
    if "attributes" in s && s["attributes"].Object? then s["attributes"].fields else map[]
  }

  /**
   * The attributes of one host: the server's "attributes" first, then ssh_user, is_active
   * (default False), group_name and tags (default []), then every other top-level key.
   * A later source overrides an earlier one.
   */
  function HostAttrs(s: Server): map<string, Value> {
    var explicit := map["ssh_user" := GetOr(s, "ssh_user", Null),
                        "is_active" := GetOr(s, "is_active", Bool(false)),
                        "group_name" := GroupName(s),
                        "tags" := GetOr(s, "tags", List([]))];
    var rest := map k | k in s && k !in Reserved :: s[k];
    Attributes(s) + explicit + rest
  }

  /** A host's attribute names: the server's "attributes", the four explicit keys, and the unreserved top-level keys. */
  lemma HostAttrsKeys(s: Server)
    ensures HostAttrs(s).Keys == Attributes(s).Keys + {"ssh_user", "is_active", "group_name", "tags"} + (s.Keys - Reserved)
  {
  }

  /**
   * The four explicit keys: ssh_user, is_active (default False) and tags (default []) come
   * from the server; group_name is the group's name unless a top-level "group_name" replaces it.
   */
  lemma HostAttrsExplicit(s: Server)
    ensures HostAttrs(s)["ssh_user"] == GetOr(s, "ssh_user", Null)
    ensures HostAttrs(s)["is_active"] == GetOr(s, "is_active", Bool(false))
    ensures HostAttrs(s)["tags"] == GetOr(s, "tags", List([]))
    ensures HostAttrs(s)["group_name"] == if "group_name" in s then s["group_name"] else GroupName(s)
  {
  }

  /**
   * Every top-level key other than the five reserved ones wins over both other layers, and
   * the server's "attributes" supply whatever neither of them sets.
   */
  lemma HostAttrsLayers(s: Server)
    ensures forall k :: k in s && k !in Reserved ==> k in HostAttrs(s) && HostAttrs(s)[k] == s[k]
    ensures forall k :: (k in Attributes(s) && k !in {"ssh_user", "is_active", "group_name", "tags"}
                         && (k !in s || k in Reserved)) ==> k in HostAttrs(s) && HostAttrs(s)[k] == Attributes(s)[k]
  {
  }

  /** The host list; None where `server["ssh_hostname"]` raises KeyError for some server. */
  function BuildHosts(ss: seq<Server>): (r: Option<seq<Host>>)
    ensures r.Some? <==> forall k :: 0 <= k < |ss| ==> "ssh_hostname" in ss[k]
    ensures r.Some? ==> (|r.value| == |ss| &&
              forall k :: 0 <= k < |ss| ==> r.value[k] == Host(ss[k]["ssh_hostname"], HostAttrs(ss[k])))
  {
    if forall k :: 0 <= k < |ss| ==> "ssh_hostname" in ss[k] then
      Some(seq(|ss|, k requires 0 <= k < |ss| => Host(ss[k]["ssh_hostname"], HostAttrs(ss[k]))))
    else None
  }

  /** How many times a server occurs in a list. */
  function Occurrences(s: Server, ss: seq<Server>): nat {
    multiset(ss)[s]
  }

  /** Whether both filters keep a server: in a selected group, active, and kept by the tag step. */
  predicate Resolves(s: Server, data: InventoryData, selected: seq<string>, tagChoice: string) {
    InGroups(s, selected) && IsActive(s) && TagStepKeeps(s, ActiveInGroups(Servers(data), selected), tagChoice)
  }

  /** The servers left after the group/active filter and the tag step, in response order. */
  function ResolvedServers(data: InventoryData, selected: seq<string>, tagChoice: string): (r: seq<Server>)
    ensures IsSubsequence(r, Servers(data))
    ensures forall s :: s in r ==> s in Servers(data) && InGroups(s, selected) && IsActive(s)
    ensures forall s :: Occurrences(s, r) == if Resolves(s, data, selected, tagChoice) then Occurrences(s, Servers(data)) else 0
    ensures forall s :: s in r <==> s in Servers(data) && Resolves(s, data, selected, tagChoice)
  {
    var active := ActiveInGroups(Servers(data), selected);
    var r := FilterByTags(active, tagChoice);
    SubsequenceTransitive(r, active, Servers(data));
    FilterByTagsCount(active, tagChoice);
    r
  }

  /** What the environment holds and what the user types, at the group prompt and at the tag prompt. */
  datatype Answers = Answers(groupsEnv: Option<string>, groupsTyped: string, tagsEnv: Option<string>, tagsTyped: string)

  /**
   * The part of `fetch_servers` after the response is decoded, with one pass of each prompt:
   * None where the group prompt rejects the choice (the source prompts again); a missing
   * "ssh_hostname" gives the source's fallback `([], "default")`.
   */
  function FetchServers(data: InventoryData, selectedGroup: Option<string>, answers: Answers)
    : (r: Option<(seq<Host>, string)>)
    ensures r.Some? <==> SelectGroups(data, selectedGroup, ChoiceText(answers.groupsEnv, answers.groupsTyped)).Some?
    ensures r.Some? ==>
              var selected := SelectGroups(data, selectedGroup, ChoiceText(answers.groupsEnv, answers.groupsTyped)).value;
              var resolved := ResolvedServers(data, selected, ChoiceText(answers.tagsEnv, answers.tagsTyped));
              if forall k :: 0 <= k < |resolved| ==> "ssh_hostname" in resolved[k]
              then r.value.1 == ProjectName(data) && |r.value.0| == |resolved|
                   && forall k :: 0 <= k < |resolved| ==>
                        r.value.0[k] == Host(resolved[k]["ssh_hostname"], HostAttrs(resolved[k]))
              else r.value == ([], "default")
  {
    match SelectGroups(data, selectedGroup, ChoiceText(answers.groupsEnv, answers.groupsTyped))
    case None => None
    case Some(selected) =>
      var resolved := ResolvedServers(data, selected, ChoiceText(answers.tagsEnv, answers.tagsTyped));
      var built := BuildHosts(resolved);
      if built.None? then Some(([], "default")) else Some((built.value, ProjectName(data)))
  }

  /** Hosts built from active servers carry a truthy "is_active" attribute. */
  lemma BuiltHostsAreActive(ss: seq<Server>)
    requires forall k :: 0 <= k < |ss| ==> IsActive(ss[k])
    requires BuildHosts(ss).Some?
    ensures forall k :: 0 <= k < |BuildHosts(ss).value| ==>
              "is_active" in BuildHosts(ss).value[k].attrs && Truthy(BuildHosts(ss).value[k].attrs["is_active"])
  {
    forall k | 0 <= k < |ss|
      ensures HostAttrs(ss[k])["is_active"] == GetOr(ss[k], "is_active", Bool(false))
    {
      HostAttrsExplicit(ss[k]);
    }
  }

  /**
   * Every resolved host is built from an active server of a selected group, taken from the
   * response in order, and its attributes carry that server's truthy `is_active`.
   */
  lemma FetchedHostsAreActive(data: InventoryData, selectedGroup: Option<string>, answers: Answers)
    requires FetchServers(data, selectedGroup, answers).Some?
    ensures var hosts := FetchServers(data, selectedGroup, answers).value.0;
      var selected := SelectGroups(data, selectedGroup, ChoiceText(answers.groupsEnv, answers.groupsTyped)).value;
      var resolved := ResolvedServers(data, selected, ChoiceText(answers.tagsEnv, answers.tagsTyped));
      && (forall k :: 0 <= k < |hosts| ==> "is_active" in hosts[k].attrs && Truthy(hosts[k].attrs["is_active"]))
      && (hosts != [] ==> |hosts| == |resolved| && forall k :: 0 <= k < |hosts| ==>
            InGroups(resolved[k], selected) && hosts[k] == Host(resolved[k]["ssh_hostname"], HostAttrs(resolved[k])))
  {
    var selected := SelectGroups(data, selectedGroup, ChoiceText(answers.groupsEnv, answers.groupsTyped)).value;
    var resolved := ResolvedServers(data, selected, ChoiceText(answers.tagsEnv, answers.tagsTyped));
    assert FetchServers(data, selectedGroup, answers).value.0 ==
           if BuildHosts(resolved).Some? then BuildHosts(resolved).value else [];
    forall k | 0 <= k < |resolved| ensures IsActive(resolved[k]) && InGroups(resolved[k], selected) {
      assert resolved[k] in resolved;
    }
    if BuildHosts(resolved).Some? {
      BuiltHostsAreActive(resolved);
    }
  }
}

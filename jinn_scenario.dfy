/**
 * A worked inventory: two groups "prod" and "staging", five active servers, two of the
 * "prod" servers tagged "db". Picking group 1 and then tag 1 yields exactly those two
 * servers' hostnames, in response order.
 */
module JinnScenario {
  import opened Values
  import opened Text
  import opened Seqs
  import opened SortedStrings
  import opened Jinn

  /** An active server of `group` with hostname `host` and the single tag `tag` (none when `tag` is ""). */
  predicate Shaped(s: Server, host: string, group: string, tag: string) {
    && NamedGroup(s) == Some(group) && GroupName(s) == Str(group)
    && IsActive(s)
    && "ssh_hostname" in s && s["ssh_hostname"] == Str(host)
    && Tags(s) == (if tag == "" then [] else [Str(tag)])
  }

  /** The five servers of the worked inventory. */
  predicate Inventory(s1: Server, s2: Server, s3: Server, s4: Server, s5: Server) {
    && Shaped(s1, "db-1", "prod", "db")
    && Shaped(s2, "db-2", "staging", "db")
    && Shaped(s3, "web-1", "prod", "web")
    && Shaped(s4, "db-3", "prod", "db")
    && Shaped(s5, "web-2", "staging", "")
  }

  /** A token splits into itself. */
  lemma SplitToken(w: string)
    requires IsToken(w)
    ensures Split(w) == [w]
  {
    SplitCons(w, "");
    assert w + "" == w;
  }

  /** A token typed at a prompt, with nothing in the environment, is the choice as it is. */
  lemma TokenChoice(w: string)
    requires IsToken(w)
    ensures ChoiceText(None, w) == w
  {
    StripToken(w);
  }

  /** A token that `int()` accepts is a single index. */
  lemma SingleIndex(w: string, n: int)
    requires IsToken(w) && ParseInt(w) == Some(n)
    ensures ParseIndices(Split(w)) == Some([n])
  {
    SplitToken(w);
    var r := ParseIndices([w]);
    assert r.Some? && |r.value| == 1 && r.value[0] == n;
    assert r.value == [n];
  }

  /** Typing "1" at a prompt is the single index 1. */
  lemma OneIndex()
    ensures ChoiceText(None, "1") == "1"
    ensures ParseIndices(Split("1")) == Some([1])
  {
    assert IsToken("1");
    TokenChoice("1");
    assert ParseInt("1") == Some(1) by {
      assert Decimal(1) == "1" by {
        assert DigitChar(1) == '1';
      }
      ParseDecimal(1);
    }
    SingleIndex("1", 1);
  }

  lemma GroupNames(ss: seq<Server>, g: string)
    requires |ss| == 5 && Inventory(ss[0], ss[1], ss[2], ss[3], ss[4])
    ensures g in GroupSet(ss) <==> g == "prod" || g == "staging"
  {
    UnionMember(ss, ServerGroup, g);
    if g == "prod" {
      assert g in ServerGroup(ss[0]);
    }
    if g == "staging" {
      assert g in ServerGroup(ss[1]);
    }
  }

  lemma ScenarioGroups(ss: seq<Server>)
    requires |ss| == 5 && Inventory(ss[0], ss[1], ss[2], ss[3], ss[4])
    ensures Groups(InventoryData(Some(ss))) == ["prod", "staging"]
  {
    var data := InventoryData(Some(ss));
    forall g ensures g in Groups(data) <==> g in ["prod", "staging"] {
      GroupNames(ss, g);
    }
    assert Less("prod", "staging");
    StrictlySortedUnique(Groups(data), ["prod", "staging"]);
  }

  /** The filter looks at the head, then filters the tail. */
  lemma FilterCons(x: Server, rest: seq<Server>, keep: Server -> bool)
    ensures Filter([x] + rest, keep) == (if keep(x) then [x] else []) + Filter(rest, keep)
  {
    assert ([x] + rest)[1..] == rest;
    if !keep(x) {
      assert [] + Filter(rest, keep) == Filter(rest, keep);
    }
  }

  lemma FilterFive(a: Server, b: Server, c: Server, d: Server, e: Server, keep: Server -> bool)
    requires keep(a) && !keep(b) && keep(c) && keep(d) && !keep(e)
    ensures Filter([a, b, c, d, e], keep) == [a, c, d]
  {
    assert Filter([e], keep) == [] by {
      FilterCons(e, [], keep);
      assert [e] + [] == [e];
    }
    assert Filter([d, e], keep) == [d] by {
      FilterCons(d, [e], keep);
      assert [d] + [e] == [d, e];
    }
    assert Filter([c, d, e], keep) == [c, d] by {
      FilterCons(c, [d, e], keep);
      assert [c] + [d, e] == [c, d, e];
    }
    assert Filter([b, c, d, e], keep) == [c, d] by {
      FilterCons(b, [c, d, e], keep);
      assert [b] + [c, d, e] == [b, c, d, e];
    }
    FilterCons(a, [b, c, d, e], keep);
    assert [a] + [b, c, d, e] == [a, b, c, d, e];
  }

  lemma FilterThree(a: Server, b: Server, c: Server, keep: Server -> bool)
    requires keep(a) && !keep(b) && keep(c)
    ensures Filter([a, b, c], keep) == [a, c]
  {
    FilterCons(c, [], keep);
    assert Filter([c], keep) == [c] by {
      assert [c] + [] == [c];
    }
    FilterCons(b, [c], keep);
    assert Filter([b, c], keep) == [c] by {
      assert [b] + [c] == [b, c];
    }
    FilterCons(a, [b, c], keep);
    assert [a] + [b, c] == [a, b, c];
  }

  lemma ScenarioActive(s1: Server, s2: Server, s3: Server, s4: Server, s5: Server)
    requires Inventory(s1, s2, s3, s4, s5)
    ensures ActiveInGroups([s1, s2, s3, s4, s5], ["prod"]) == [s1, s3, s4]
  {
    var keep := ActiveIn(["prod"]);
    assert keep(s1) && !keep(s2) && keep(s3) && keep(s4) && !keep(s5);
    FilterFive(s1, s2, s3, s4, s5, keep);
  }

  lemma KeptTagsOne(v: string)
    requires v != "" && !IsBlank(v)
    ensures forall t :: t in KeptTags([Str(v)]) <==> t == v
  {
    KeptTagsMembers([Str(v)]);
  }

  lemma TagNames(ss: seq<Server>, t: string)
    requires |ss| == 3 && Shaped(ss[0], "db-1", "prod", "db") && Shaped(ss[1], "web-1", "prod", "web")
    requires Shaped(ss[2], "db-3", "prod", "db")
    ensures t in TagSet(ss) <==> t == "db" || t == "web"
  {
    UnionMember(ss, ServerTags, t);
    assert "db"[0] == 'd' && "web"[0] == 'w';
    KeptTagsOne("db");
    KeptTagsOne("web");
    if t == "db" {
      assert t in KeptTags(Tags(ss[0]));
    }
    if t == "web" {
      assert t in KeptTags(Tags(ss[1]));
    }
  }

  lemma ScenarioTags(s1: Server, s3: Server, s4: Server)
    requires Shaped(s1, "db-1", "prod", "db") && Shaped(s3, "web-1", "prod", "web") && Shaped(s4, "db-3", "prod", "db")
    ensures TagsOf([s1, s3, s4]) == ["db", "web"]
  {
    var ss := [s1, s3, s4];
    var tags := TagsOf(ss);
    assert forall t :: t in tags <==> t in ["db", "web"] by {
      forall t ensures t in tags <==> t in ["db", "web"] {
        TagNames(ss, t);
      }
    }
    assert StrictlySorted(["db", "web"]) by {
      assert Less("db", "web");
    }
    StrictlySortedUnique(tags, ["db", "web"]);
  }

  lemma SelectedDb()
    ensures SelectedTags([1], ["db", "web"]) == {"db"}
  {
    var ns: seq<int> := [1];
    var tags := ["db", "web"];
    assert 1 <= ns[0] <= |tags| && tags[ns[0] - 1] == "db";
    assert "db" in SelectedTags(ns, tags);
  }

  /** A server with the single tag `tag` passes the filter for {"db"} exactly when `tag` is "db". */
  lemma OneTag(s: Server, tag: string)
    requires Tags(s) == [Str(tag)]
    ensures TaggedWith({"db"})(s) <==> tag == "db"
  {
    assert Tags(s)[0] == Str(tag);
  }

  /** A choice that parses, over a non-empty tag list, filters by the tags it picks. */
  lemma TagChoiceFilters(ss: seq<Server>, choice: string, ns: seq<int>)
    requires TagsOf(ss) != [] && choice != "" && choice != "*" && ParseIndices(Split(choice)) == Some(ns)
    ensures FilterByTags(ss, choice) == Filter(ss, TaggedWith(SelectedTags(ns, TagsOf(ss))))
  {
  }

  lemma ScenarioTagFilter(s1: Server, s3: Server, s4: Server)
    requires Shaped(s1, "db-1", "prod", "db") && Shaped(s3, "web-1", "prod", "web") && Shaped(s4, "db-3", "prod", "db")
    ensures FilterByTags([s1, s3, s4], "1") == [s1, s4]
  {
    var ss := [s1, s3, s4];
    assert TagsOf(ss) == ["db", "web"] by {
      ScenarioTags(s1, s3, s4);
    }
    assert ParseIndices(Split("1")) == Some([1]) by {
      OneIndex();
    }
    TagChoiceFilters(ss, "1", [1]);
    assert SelectedTags([1], ["db", "web"]) == {"db"} by {
      SelectedDb();
    }
    assert Filter(ss, TaggedWith({"db"})) == [s1, s4] by {
      OneTag(s1, "db");
      OneTag(s3, "web");
      OneTag(s4, "db");
      assert "web" != "db" by {
        assert |"web"| != |"db"|;
      }
      FilterThree(s1, s3, s4, TaggedWith({"db"}));
    }
  }

  lemma ScenarioGroupChoice(groups: seq<string>)
    requires groups == ["prod", "staging"]
    ensures ParseGroupChoice("1", groups) == Some(["prod"])
  {
    assert ParseIndices(Split("1")) == Some([1]) by {
      OneIndex();
    }
    assert GroupsAt(Some([1]), groups) == Some(["prod"]) by {
      assert AllInRange([1], |groups|);
      var r := GroupsAt(Some([1]), groups);
      assert |r.value| == 1 && r.value[0] == "prod";
      assert r.value == ["prod"];
    }
  }

  lemma ScenarioResolved(s1: Server, s2: Server, s3: Server, s4: Server, s5: Server)
    requires Inventory(s1, s2, s3, s4, s5)
    ensures SelectGroups(InventoryData(Some([s1, s2, s3, s4, s5])), None, "1") == Some(["prod"])
    ensures ResolvedServers(InventoryData(Some([s1, s2, s3, s4, s5])), ["prod"], "1") == [s1, s4]
  {
    var data := InventoryData(Some([s1, s2, s3, s4, s5]));
    assert SelectGroups(data, None, "1") == Some(["prod"]) by {
      ScenarioGroups([s1, s2, s3, s4, s5]);
      ScenarioGroupChoice(Groups(data));
    }
    assert ActiveInGroups(Servers(data), ["prod"]) == [s1, s3, s4] by {
      ScenarioActive(s1, s2, s3, s4, s5);
    }
    assert FilterByTags([s1, s3, s4], "1") == [s1, s4] by {
      ScenarioTagFilter(s1, s3, s4);
    }
  }

  lemma ScenarioHosts(s1: Server, s4: Server)
    requires "ssh_hostname" in s1 && s1["ssh_hostname"] == Str("db-1")
    requires "ssh_hostname" in s4 && s4["ssh_hostname"] == Str("db-3")
    ensures BuildHosts([s1, s4]) == Some([Host(Str("db-1"), HostAttrs(s1)), Host(Str("db-3"), HostAttrs(s4))])
  {
    var hosts := BuildHosts([s1, s4]);
    assert hosts.Some? && |hosts.value| == 2;
    assert hosts.value == [Host(Str("db-1"), HostAttrs(s1)), Host(Str("db-3"), HostAttrs(s4))];
  }

  /** Group 1 ("prod") and tag 1 ("db") resolve to the two "prod" database servers, in order. */
  lemma ScenarioFetch(s1: Server, s2: Server, s3: Server, s4: Server, s5: Server)
    requires Inventory(s1, s2, s3, s4, s5)
    ensures var r := FetchServers(InventoryData(Some([s1, s2, s3, s4, s5])), None, Answers(None, "1", None, "1"));
      && r.Some?
      && |r.value.0| == 2 && r.value.0[0].hostname == Str("db-1") && r.value.0[1].hostname == Str("db-3")
  {
    var data := InventoryData(Some([s1, s2, s3, s4, s5]));
    var hosts := [Host(Str("db-1"), HostAttrs(s1)), Host(Str("db-3"), HostAttrs(s4))];
    assert ChoiceText(None, "1") == "1" by {
      OneIndex();
    }
    assert BuildHosts(ResolvedServers(data, ["prod"], "1")) == Some(hosts) by {
      ScenarioResolved(s1, s2, s3, s4, s5);
      ScenarioHosts(s1, s4);
    }
    assert SelectGroups(data, None, "1") == Some(["prod"]) by {
      ScenarioResolved(s1, s2, s3, s4, s5);
    }
    assert FetchServers(data, None, Answers(None, "1", None, "1")) == Some((hosts, ProjectName(data)));
  }
}

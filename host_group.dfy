/**
 * A Nagios host group: a class whose host list grows in place, its value snapshot
 * (`GroupNode`), its object definition, and both `areEquivalent` comparisons.
 */
module HostGroup {
  import opened Wrappers
  import opened JavaString
  import opened ObjectFormat
  import LE = ListEquivalence
  import H = Host

  /** What a group holds at one moment: name, alias and its hosts' snapshots in list order. */
  datatype GroupNode = GroupNode(name: string, alias: string, hosts: seq<H.HostNode>)

  /** The snapshots of the given hosts, in order. */
  function Nodes(hosts: seq<H.Host>): (r: seq<H.HostNode>)
    reads hosts
    ensures |r| == |hosts|
    ensures forall i :: 0 <= i < |hosts| ==> r[i] == hosts[i].Node()
  {
    if |hosts| == 0 then [] else Nodes(hosts[..|hosts| - 1]) + [hosts[|hosts| - 1].Node()]
  }

  /** Adding a host at the end adds its snapshot at the end. */
  lemma NodesSnoc(hosts: seq<H.Host>, host: H.Host)
    ensures Nodes(hosts + [host]) == Nodes(hosts) + [host.Node()]
  {
    assert (hosts + [host])[..|hosts|] == hosts;
  }

  class HostGroup {
    const name: string
    const alias: string
    var hosts: seq<H.Host>

    function Node(): GroupNode
      reads this, hosts
    {
      GroupNode(name, alias, Nodes(hosts))
    }

    /** The constructor: a null alias is stored as ""; the group starts without hosts. */
    constructor(name: string, alias: Option<string>)
      ensures this.name == name
      ensures this.alias == (if alias.None? then "" else alias.value)
      ensures hosts == []
    {
      this.name := name;
      if alias.None? {
        this.alias := "";
      } else {
        this.alias := alias.value;
      }
      hosts := [];
    }

    /** `addHost` appends at the end of the list and changes nothing else. */
    method AddHost(host: H.Host)
      modifies this
      ensures hosts == old(hosts) + [host]
    {
      hosts := hosts + [host];
    }

    /** `getObjectDefinitions()`: the group block, then each host's definitions in list order. */
    method ObjectDefinitions() returns (text: string)
      ensures text == Definitions(Node())
    {
      var node := Node();
      text := Render(GroupDefinition(node));
      assert text == RenderAll([GroupDefinition(node)] + HostsDefinitions(node.hosts[..0])) by {
        assert [GroupDefinition(node)] + [] == [GroupDefinition(node)];
        assert RenderAll([GroupDefinition(node)]) == Render(GroupDefinition(node)) + RenderAll([]);
      }
      var i := 0;
      while i < |hosts|
        invariant 0 <= i <= |hosts|
        invariant text == RenderAll([GroupDefinition(node)] + HostsDefinitions(node.hosts[..i]))
      {
        var hostText := hosts[i].ObjectDefinitions();
        HostsDefinitionsSnoc([GroupDefinition(node)], node.hosts, i);
        text := text + hostText;
        i := i + 1;
      }
      assert node.hosts[..i] == node.hosts;
    }
  }

  // ---------------------------------------------------------------- object definition

  function HostNames(hosts: seq<H.HostNode>): seq<string> {
    seq(|hosts|, i requires 0 <= i < |hosts| => hosts[i].name)
  }

  const Keys: seq<string> := ["hostgroup_name", "alias", "members"]

  /** Name, alias, and the host names joined with ',' in list order. */
  function Values(g: GroupNode): seq<string> {
    [g.name, g.alias, Join(HostNames(g.hosts), ",")]
  }

  function GroupDefinition(g: GroupNode): Definition {
    Definition("hostgroup", Zip(Keys, Values(g)))
  }

  /** Every host's definitions, host after host. */
  function HostsDefinitions(hosts: seq<H.HostNode>): seq<Definition> {
    if |hosts| == 0 then []
    else HostsDefinitions(hosts[..|hosts| - 1]) + H.AllDefinitions(hosts[|hosts| - 1])
  }

  function AllDefinitions(g: GroupNode): seq<Definition> {
    [GroupDefinition(g)] + HostsDefinitions(g.hosts)
  }

  function Definitions(g: GroupNode): string {
    RenderAll(AllDefinitions(g))
  }

  lemma HostsDefinitionsSnoc(head: seq<Definition>, hosts: seq<H.HostNode>, i: int)
    requires 0 <= i < |hosts|
    ensures RenderAll(head + HostsDefinitions(hosts[..i + 1]))
         == RenderAll(head + HostsDefinitions(hosts[..i])) + H.Definitions(hosts[i])
  {
    assert hosts[..i + 1][..i] == hosts[..i];
    var before := head + HostsDefinitions(hosts[..i]);
    assert head + HostsDefinitions(hosts[..i + 1]) == before + H.AllDefinitions(hosts[i]);
    RenderAllAppend(before, H.AllDefinitions(hosts[i]));
  }

  predicate Printable(g: GroupNode) {
    && '\n' !in g.name && '\n' !in g.alias
    && forall i :: 0 <= i < |g.hosts| ==> H.Printable(g.hosts[i])
  }

  lemma {:induction false} PlainHostsDefinitions(hosts: seq<H.HostNode>)
    requires forall i :: 0 <= i < |hosts| ==> H.Printable(hosts[i])
    ensures AllPlain(HostsDefinitions(hosts))
  {
    if |hosts| > 0 {
      PlainHostsDefinitions(hosts[..|hosts| - 1]);
      H.PlainDefinitions(hosts[|hosts| - 1]);
    }
  }

  /** No key of the definition holds a tab. */
  lemma KeysHaveNoTab()
    ensures NoTab(Keys)
  {
  }

  /**
   * Reading the text back gives the group definition, whose members line lists the host names
   * in insertion order, followed by every host's definitions.
   */
  lemma ReadBack(g: GroupNode)
    requires Printable(g)
    ensures ParseAll(Definitions(g)) == Some(AllDefinitions(g))
    ensures AllDefinitions(g)[0].fields[2] == Field("members", Join(HostNames(g.hosts), ","))
  {
    KeysHaveNoTab();
    assert NoNewline(Values(g)) by {
      forall i | 0 <= i < |g.hosts| ensures '\n' !in HostNames(g.hosts)[i] {
        assert H.Printable(g.hosts[i]);
      }
      JoinExcludes(HostNames(g.hosts), ",", '\n');
    }
    PlainZip("hostgroup", Keys, Values(g));
    PlainHostsDefinitions(g.hosts);
    ParseAllOfRenderAll(AllDefinitions(g));
  }

  // ---------------------------------------------------------------- equivalence

  /** `areEquivalent(hostGroup1, hostGroup2)`: same name, same alias, equivalent host lists. */
  predicate AreEquivalent(group1: GroupNode, group2: GroupNode) {
    if group1.name != group2.name then false
    else if group1.alias != group2.alias then false
    else LE.ListsEquivalent(group1.hosts, group2.hosts, H.AreEquivalent)
  }

  /** Exactly: equal names, equal aliases, and every host of the first matched among as many hosts in the second. */
  lemma EquivalentIff(group1: GroupNode, group2: GroupNode)
    ensures AreEquivalent(group1, group2) <==>
      && group1.name == group2.name && group1.alias == group2.alias
      && |group1.hosts| == |group2.hosts|
      && forall x :: x in group1.hosts ==> exists y :: y in group2.hosts && H.AreEquivalent(x, y)
  {
    LE.ListsEquivalentByMembership(group1.hosts, group2.hosts, H.AreEquivalent);
  }

  lemma Reflexive(g: GroupNode)
    ensures AreEquivalent(g, g)
  {
    H.ListsReflexive(g.hosts);
  }

  /**
   * `areEquivalent(hostGroup1, hostGroup2)` as the code runs it: the host lists are compared
   * with the host comparison as written, whose NullPointerException passes through.
   */
  function AreEquivalentAsWritten(group1: GroupNode, group2: GroupNode): Result<bool> {
    if group1.name != group2.name then Ok(false)
    else if group1.alias != group2.alias then Ok(false)
    else H.ListsAsWritten(group1.hosts, group2.hosts)
  }

  /**
   * When the group comparison returns, its verdict is the null-safe one, and it returns
   * whenever every host of the first group has an address.
   */
  lemma AsWrittenAgrees(group1: GroupNode, group2: GroupNode)
    ensures AreEquivalentAsWritten(group1, group2).Ok? ==>
      AreEquivalentAsWritten(group1, group2).value == AreEquivalent(group1, group2)
    ensures H.Addressed(group1.hosts) ==> AreEquivalentAsWritten(group1, group2) == Ok(AreEquivalent(group1, group2))
  {
    H.ListsAsWrittenAgree(group1.hosts, group2.hosts);
  }

  /** Every host of every group of the list has an address. */
  predicate Addressed(groups: seq<GroupNode>) {
    forall i :: 0 <= i < |groups| ==> H.Addressed(groups[i].hosts)
  }

  /** `areEquivalent(hostGroups1, hostGroups2)` as the code runs it, an exception leaving both loops. */
  function ListsAsWritten(groups1: seq<GroupNode>, groups2: seq<GroupNode>): Result<bool> {
    LE.ListsEquivalentOrThrow(groups1, groups2, AreEquivalentAsWritten)
  }

  /**
   * When the group-list comparison returns, its verdict is the null-safe one, and it returns
   * whenever every host of the first list's groups has an address.
   */
  lemma ListsAsWrittenAgree(groups1: seq<GroupNode>, groups2: seq<GroupNode>)
    ensures ListsAsWritten(groups1, groups2).Ok? ==>
      ListsAsWritten(groups1, groups2).value == LE.ListsEquivalent(groups1, groups2, AreEquivalent)
    ensures Addressed(groups1) ==> ListsAsWritten(groups1, groups2) == Ok(LE.ListsEquivalent(groups1, groups2, AreEquivalent))
  {
    forall x, y ensures AreEquivalentAsWritten(x, y).Ok? ==> AreEquivalentAsWritten(x, y).value == AreEquivalent(x, y) {
      AsWrittenAgrees(x, y);
    }
    LE.OrThrowAgrees(groups1, groups2, AreEquivalentAsWritten, AreEquivalent);
    if Addressed(groups1) {
      forall x, y | x in groups1 ensures AreEquivalentAsWritten(x, y) == Ok(AreEquivalent(x, y)) {
        AsWrittenAgrees(x, y);
      }
      LE.OrThrowWithoutException(groups1, groups2, AreEquivalentAsWritten, AreEquivalent);
    }
  }

  /**
   * A group whose first host has no address cannot be compared with itself: the comparison of
   * the one-group list with itself throws.
   */
  lemma AddresslessGroupThrows(g: GroupNode)
    requires |g.hosts| > 0 && g.hosts[0].address.None?
    ensures ListsAsWritten([g], [g]) == Err(NullPointer)
  {
    assert g.hosts == [g.hosts[0]] + g.hosts[1..];
    H.ListNullAddressThrows(g.hosts[0], g.hosts[1..]);
    assert LE.FindOrThrow(g, [g], AreEquivalentAsWritten) == Err(NullPointer);
  }

  /**
   * `areEquivalent(hostGroups1, hostGroups2)`: same size, and each group of the first has a
   * match in the second; a NullPointerException from a host comparison escapes it.
   */
  method AreEquivalentLists(groups1: seq<GroupNode>, groups2: seq<GroupNode>) returns (r: Result<bool>)
    ensures r == ListsAsWritten(groups1, groups2)
    ensures r.Ok? ==> r.value == LE.ListsEquivalent(groups1, groups2, AreEquivalent)
    ensures Addressed(groups1) ==> r == Ok(LE.ListsEquivalent(groups1, groups2, AreEquivalent))
    ensures |groups1| != |groups2| ==> r == Ok(false)
  {
    r := LE.AreEquivalentOrThrow(groups1, groups2, AreEquivalentAsWritten);
    ListsAsWrittenAgree(groups1, groups2);
  }

  lemma ListsReflexive(l: seq<GroupNode>)
    ensures LE.ListsEquivalent(l, l, AreEquivalent)
  {
    forall g ensures AreEquivalent(g, g) { Reflexive(g); }
    LE.Reflexive(l, AreEquivalent);
  }

  /** Reordering either group list never changes the outcome. */
  lemma ListsIgnoreOrder(l1: seq<GroupNode>, p1: seq<GroupNode>, l2: seq<GroupNode>, p2: seq<GroupNode>)
    requires multiset(l1) == multiset(p1) && multiset(l2) == multiset(p2)
    ensures LE.ListsEquivalent(l1, l2, AreEquivalent) == LE.ListsEquivalent(p1, p2, AreEquivalent)
  {
    LE.PermutationInvariant(l1, p1, l2, p2, AreEquivalent);
  }

  /** Group lists are one-directional like the lower levels: [a, a] matches [a, b], not conversely. */
  lemma ListsOneDirectional(a: GroupNode, b: GroupNode)
    requires a.name != b.name
    ensures LE.ListsEquivalent([a, a], [a, b], AreEquivalent)
    ensures !LE.ListsEquivalent([a, b], [a, a], AreEquivalent)
  {
    Reflexive(a);
    LE.OneDirectional(a, b, AreEquivalent);
  }
}

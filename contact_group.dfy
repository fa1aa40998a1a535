/**
 * `ContactGroup`: a named set of contact names. The member set is an object of its own, since
 * the three-argument constructor keeps the caller's set rather than a copy, and `addMember`
 * changes that shared set.
 */
module ContactGroup {
  import opened Wrappers
  import opened JavaString
  import opened ObjectFormat

  /** A `Set<String>` object that more than one holder may refer to. */
  class MemberSet {
    var elements: StringSet

    constructor(elements: StringSet)
      ensures this.elements == elements
    {
      this.elements := elements;
    }
  }

  class ContactGroup {
    const name: string
    const alias: string
    const members: MemberSet

    /** `ContactGroup(name, alias)`: a fresh, empty member set. */
    constructor(name: string, alias: string)
      ensures this.name == name && this.alias == alias
      ensures fresh(members) && members.elements == []
    {
      this.name := name;
      this.alias := alias;
      members := new MemberSet([]);
    }

    /** `ContactGroup(name, alias, members)`: the caller's set itself, not a copy. */
    constructor WithMembers(name: string, alias: string, members: MemberSet)
      ensures this.name == name && this.alias == alias && this.members == members
    {
      this.name := name;
      this.alias := alias;
      this.members := members;
    }

    /** `addMember(contactName)`: inserts the name; an existing member changes nothing. */
    method AddMember(contactName: string)
      modifies members
      ensures contactName in old(members.elements) ==> members.elements == old(members.elements)
      ensures contactName !in old(members.elements) ==> members.elements == old(members.elements) + [contactName]
    {
      members.elements := Add(members.elements, contactName);
    }

    /** `getObjectDefinitions()`: one `define contactgroup{ ... }` block. */
    function ObjectDefinitions(): (text: string)
      reads members
      ensures StartsWith(text, "define contactgroup{\n") && EndsWith(text, "}\n\n")
    {
      RenderFrame(GroupDefinition(name, alias, members.elements));
      Render(GroupDefinition(name, alias, members.elements))
    }
  }

  /** A group whose member set came from the caller: adding through the group changes the caller's set. */
  method AddThroughGroup(callersSet: MemberSet, contactName: string) returns (group: ContactGroup)
    modifies callersSet
    ensures group.members == callersSet
    ensures contactName in callersSet.elements
    ensures forall x :: x in old(callersSet.elements) ==> x in callersSet.elements
  {
    group := new ContactGroup.WithMembers("group", "Group", callersSet);
    group.AddMember(contactName);
  }

  const Keys: seq<string> := ["contactgroup_name", "alias", "members"]

  function Values(name: string, alias: string, members: StringSet): (values: seq<string>)
    ensures |values| == |Keys|
  {
    [name, alias, Join(members, ",")]
  }

  /** The name, the alias and the members joined with ','. */
  function GroupDefinition(name: string, alias: string, members: StringSet): Definition {
    Definition("contactgroup", Zip(Keys, Values(name, alias, members)))
  }

  /** No key of the definition holds a tab. */
  lemma KeysHaveNoTab()
    ensures NoTab(Keys)
  {
  }

  /**
   * With no newline in the name, the alias or any member, the definition reads back, and its
   * members field splits on ',' into the members in order.
   */
  lemma ReadBack(name: string, alias: string, members: StringSet)
    requires '\n' !in name && '\n' !in alias
    requires forall i :: 0 <= i < |members| ==> '\n' !in members[i] && ',' !in members[i]
    ensures ParseAll(Render(GroupDefinition(name, alias, members))) == Some([GroupDefinition(name, alias, members)])
    ensures |members| >= 1 ==> Pieces(GroupDefinition(name, alias, members).fields[2].value, ",") == members
  {
    KeysHaveNoTab();
    assert NoNewline(Values(name, alias, members)) by {
      JoinExcludes(members, ",", '\n');
    }
    PlainZip("contactgroup", Keys, Values(name, alias, members));
    ReadBackOne(GroupDefinition(name, alias, members));
    if |members| >= 1 {
      PiecesOfJoin(members, ',');
    }
  }
}

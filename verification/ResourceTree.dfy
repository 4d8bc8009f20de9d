/** The declared set of backends a consumer holds per-resource tokens for. */
module ResourceTrees {
  import opened Common

  datatype Resource = Resource(name: string, indicator: string, scopes: seq<string>)

  datatype ResourceTree = ResourceTree(ordered: seq<Resource>, index: map<string, Resource>) {

    /** Every entry is filed under its own name, and declared once. */
    ghost predicate Named() {
      && (forall i, j :: 0 <= i < j < |ordered| ==> ordered[i].name != ordered[j].name)
      && (forall name :: name in index ==> index[name].name == name)
      && (forall name :: name in index <==> name in NamesOf(ordered))
      && (forall name :: Lookup(name) == Find(ordered, name))
    }

    /** The resource filed under `name` in the index, if any. */
    function Lookup(name: string): Option<Resource> {
      if name in index then Some(index[name]) else None
    }

    /** The index and a linear search of the declarations agree: they find something exactly for
        the declared names, and then the declaration that carries the name. */
    lemma LookupIsLinearSearch(name: string)
      requires Named()
      ensures Lookup(name) == Find(ordered, name)
      ensures Lookup(name).Some? <==> exists i :: 0 <= i < |ordered| && ordered[i].name == name
      ensures forall i :: 0 <= i < |ordered| && ordered[i].name == name ==>
        Lookup(name) == Some(ordered[i]) && Require(name) == Ok(ordered[i])
      ensures Lookup(name).None? ==> Require(name) == Err(ResourceUnregistered)
    {
      FindFindsNames(ordered, name);
      forall i | 0 <= i < |ordered| && ordered[i].name == name ensures Find(ordered, name) == Some(ordered[i]) {
        FindIsTheOne(ordered, i);
      }
    }

    /** The resource declared under `name`, or the problem an undeclared name raises. */
    function Require(name: string): Result<Resource> {
      if name in index then Ok(index[name]) else Err(ResourceUnregistered)
    }

    method Names() returns (names: seq<string>)
      ensures names == NamesOf(ordered)
    {
      names := [];
      for i := 0 to |ordered|
        invariant names == NamesOf(ordered[..i])
      {
        assert ordered[..i + 1][..i] == ordered[..i];
        names := names + [ordered[i].name];
      }
      assert ordered[..|ordered|] == ordered;
    }
  }

  /** Why a declaration is refused. */
  datatype Fault = BlankName | BlankIndicator(name: string) | DuplicateName(name: string)

  datatype Declared = Tree(tree: ResourceTree) | Refused(fault: Fault)

  function NamesOf(resources: seq<Resource>): (names: seq<string>)
    ensures |names| == |resources|
    ensures forall i :: 0 <= i < |names| ==> names[i] == resources[i].name
  {
    if resources == [] then [] else NamesOf(resources[..|resources| - 1]) + [resources[|resources| - 1].name]
  }

  /** The code points `strings.TrimSpace` removes. */
  predicate Space(c: char) {
    c in "\t\n\U{0B}\U{0C}\r \U{85}\U{A0}\U{1680}\U{2028}\U{2029}\U{202F}\U{205F}\U{3000}"
    || '\U{2000}' <= c <= '\U{200A}'
  }

  predicate Blank(text: string) {
    forall i :: 0 <= i < |text| ==> Space(text[i])
  }

  /** The text without the spaces it begins and ends with. */
  function TrimSpace(text: string): string {
    if text == [] then []
    else if Space(text[0]) then TrimSpace(text[1..])
    else if Space(text[|text| - 1]) then TrimSpace(text[..|text| - 1])
    else text
  }

  /** Unicode's white space, as code points. */
  const SPACES: set<int> := {9, 10, 11, 12, 13, 32, 133, 160, 5760, 8192, 8193, 8194, 8195, 8196, 8197, 8198, 8199,
    8200, 8201, 8202, 8232, 8233, 8239, 8287, 12288}

  /** A text is blank exactly when trimming leaves nothing of it, which is when every character of
      it is white space; so the empty text is. */
  lemma {:induction false} BlankMeansTrimmed(text: string)
    ensures Blank(text) <==> TrimSpace(text) == []
    ensures Blank(text) <==> forall i :: 0 <= i < |text| ==> text[i] as int in SPACES
  {
    forall c ensures Space(c) <==> c as int in SPACES {
      SpacesAreKnown(c);
    }
    if text != [] && Space(text[0]) {
      BlankMeansTrimmed(text[1..]);
      assert forall i :: 0 < i < |text| ==> text[i] == text[1..][i - 1];
    } else if text != [] && Space(text[|text| - 1]) {
      BlankMeansTrimmed(text[..|text| - 1]);
      assert text[..|text| - 1] != [] ==> text[..|text| - 1][0] == text[0];
    }
  }

  lemma SpacesAreKnown(c: char)
    ensures Space(c) <==> c as int in SPACES
  {
  }

  /** The fault of the entry at position i, judged against the entries before it. */
  function FaultAt(resources: seq<Resource>, i: nat): Option<Fault>
    requires i < |resources|
  {
    if Blank(resources[i].name) then Some(BlankName)
    else if Blank(resources[i].indicator) then Some(BlankIndicator(resources[i].name))
    else if Find(resources[..i], resources[i].name).Some? then Some(DuplicateName(resources[i].name))
    else None
  }

  /** Some entry before position i carries the name. */
  ghost predicate DeclaredBefore(resources: seq<Resource>, i: nat, name: string)
    requires i <= |resources|
  {
    exists j :: 0 <= j < i && resources[j].name == name
  }

  /** Why an entry is at fault: a name that trims to nothing, then such an indicator, then a name some
      earlier entry carries. */
  lemma FaultsAreNamed(resources: seq<Resource>, i: nat)
    requires i < |resources|
    ensures var resource, fault := resources[i], FaultAt(resources, i);
      if TrimSpace(resource.name) == "" then fault == Some(BlankName)
      else if TrimSpace(resource.indicator) == "" then fault == Some(BlankIndicator(resource.name))
      else if DeclaredBefore(resources, i, resource.name) then fault == Some(DuplicateName(resource.name))
      else fault == None
  {
    var resource := resources[i];
    BlankMeansTrimmed(resource.name);
    BlankMeansTrimmed(resource.indicator);
    FindFindsNames(resources[..i], resource.name);
    if j :| 0 <= j < i && resources[j].name == resource.name {
      assert resources[..i][j].name == resource.name;
    }
  }

  /** Linear search: the first resource with the name. */
  function Find(resources: seq<Resource>, name: string): Option<Resource> {
    if resources == [] then None
    else if resources[0].name == name then Some(resources[0])
    else Find(resources[1..], name)
  }

  lemma {:induction false} FindSnoc(resources: seq<Resource>, last: Resource, name: string)
    ensures Find(resources + [last], name) ==
            if Find(resources, name).Some? then Find(resources, name)
            else if last.name == name then Some(last) else None
  {
    if resources != [] {
      assert (resources + [last])[1..] == resources[1..] + [last];
      FindSnoc(resources[1..], last, name);
    }
  }

  lemma {:induction false} FindFindsNames(resources: seq<Resource>, name: string)
    ensures Find(resources, name).Some? <==> exists i :: 0 <= i < |resources| && resources[i].name == name
  {
    if resources != [] {
      FindFindsNames(resources[1..], name);
      if i :| 0 <= i < |resources| && resources[i].name == name {
        assert i == 0 || resources[1..][i - 1].name == name;
      }
      if i :| 0 <= i < |resources[1..]| && resources[1..][i].name == name {
        assert resources[i + 1].name == name;
      }
    }
  }

  lemma {:induction false} FindIsTheOne(resources: seq<Resource>, i: nat)
    requires i < |resources| && forall j, k :: 0 <= j < k < |resources| ==> resources[j].name != resources[k].name
    ensures Find(resources, resources[i].name) == Some(resources[i])
  {
    if i > 0 {
      FindIsTheOne(resources[1..], i - 1);
    }
  }

  /** Every name and indicator is set, and no name is declared twice. */
  ghost predicate Declarable(resources: seq<Resource>) {
    && (forall i :: 0 <= i < |resources| ==> !Blank(resources[i].name) && !Blank(resources[i].indicator))
    && (forall i, j :: 0 <= i < j < |resources| ==> resources[i].name != resources[j].name)
  }

  lemma DeclarableMeansNoFault(resources: seq<Resource>)
    ensures Declarable(resources) <==> forall i :: 0 <= i < |resources| ==> FaultAt(resources, i).None?
  {
    forall i | 0 <= i < |resources|
      ensures FaultAt(resources, i).None? <==>
        && !Blank(resources[i].name) && !Blank(resources[i].indicator)
        && forall j :: 0 <= j < i ==> resources[j].name != resources[i].name
    {
      FindFindsNames(resources[..i], resources[i].name);
      assert forall j :: 0 <= j < i ==> resources[..i][j] == resources[j];
    }
    if forall i :: 0 <= i < |resources| ==> FaultAt(resources, i).None? {
      forall i, j | 0 <= i < j < |resources| ensures resources[i].name != resources[j].name {
        assert FaultAt(resources, j).None?;
      }
    }
  }

  /** The entry at position i is the first one at fault. */
  ghost predicate FirstFault(resources: seq<Resource>, i: nat, fault: Fault) {
    && i < |resources|
    && FaultAt(resources, i) == Some(fault)
    && forall j :: 0 <= j < i ==> FaultAt(resources, j).None?
  }

  /** The index answers as linear search does, and files each entry under its own name. */
  ghost predicate Indexes(index: map<string, Resource>, ordered: seq<Resource>) {
    && (forall name :: name in index <==> Find(ordered, name).Some?)
    && (forall name :: name in index ==> Find(ordered, name) == Some(index[name]))
    && (forall name :: name in index ==> index[name].name == name)
  }

  method FileEntry(ghost ordered: seq<Resource>, index: map<string, Resource>, entry: Resource)
    returns (more: map<string, Resource>)
    requires Indexes(index, ordered) && entry.name !in index
    ensures more == index[entry.name := entry] && Indexes(more, ordered + [entry])
  {
    forall name { FindSnoc(ordered, entry, name); }
    more := index[entry.name := entry];
  }

  lemma FoundAreNamed(ordered: seq<Resource>)
    ensures forall name :: Find(ordered, name).Some? <==> name in NamesOf(ordered)
  {
    forall name ensures Find(ordered, name).Some? <==> name in NamesOf(ordered) {
      FindFindsNames(ordered, name);
    }
  }

  /** The tree of these declarations, in their order, answering as a linear search of them does. */
  ghost predicate TreeOf(tree: ResourceTree, resources: seq<Resource>) {
    tree.ordered == resources && (forall name :: tree.Lookup(name) == Find(resources, name)) && tree.Named()
  }

  lemma IndexesMakeTree(ordered: seq<Resource>, index: map<string, Resource>)
    requires Indexes(index, ordered) && Declarable(ordered)
    ensures TreeOf(ResourceTree(ordered, index), ordered)
  {
    FoundAreNamed(ordered);
  }

  /** Declares the tree: it succeeds exactly on declarable lists, keeps their order, and answers
      as linear search does; otherwise it reports the first entry at fault. */
  method NewResourceTree(resources: seq<Resource>) returns (declared: Declared)
    ensures declared.Tree? <==> Declarable(resources)
    ensures declared.Tree? ==> TreeOf(declared.tree, resources)
    ensures declared.Refused? ==> exists i :: FirstFault(resources, i, declared.fault)
  {
    DeclarableMeansNoFault(resources);
    var ordered: seq<Resource> := [];
    var index: map<string, Resource> := map[];
    for i := 0 to |resources|
      invariant ordered == resources[..i]
      invariant Indexes(index, ordered)
      invariant forall j :: 0 <= j < i ==> FaultAt(resources, j).None?
    {
      var resource := resources[i];
      if Blank(resource.name) {
        assert FirstFault(resources, i, BlankName);
        return Refused(BlankName);
      }
      if Blank(resource.indicator) {
        assert FirstFault(resources, i, BlankIndicator(resource.name));
        return Refused(BlankIndicator(resource.name));
      }
      if resource.name in index {
        assert FirstFault(resources, i, DuplicateName(resource.name));
        return Refused(DuplicateName(resource.name));
      }
      var entry := Resource(resource.name, resource.indicator, resource.scopes);
      index := FileEntry(ordered, index, entry);
      ordered := ordered + [entry];
    }
    IndexesMakeTree(ordered, index);
    return Tree(ResourceTree(ordered, index));
  }
}

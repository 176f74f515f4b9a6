/** The main window's stack registry (mantidimaging/gui/windows/main/model.py):
    a dictionary from stack id to the dock widget showing the stack, a
    name-sorted listing of it, and the choice of a fresh name for a newly
    loaded stack. */
module MainModel {
  import opened Wrappers
  import opened PyRuntime
  import opened PyText

  /** `uuid.UUID`; ids are supplied by the caller instead of generated. */
  type StackUuid = nat

  /** The missing key a KeyError reports: the id, written in decimal. */
  function UuidKey(id: StackUuid): string
  {
    IntToString(id)
  }

  /** The dock widget holding a stack visualiser; the model only reads its
      window title, which is the stack's name. */
  datatype DockWidget = DockWidget(windowTitle: string)

  /** `StackId = namedtuple('StackId', ['id', 'name'])` */
  datatype StackId = StackId(id: StackUuid, name: string)

  // ---------------------------------------------------------------------
  // os.path.splitext (POSIX)
  // ---------------------------------------------------------------------

  /** No position of s in [lo, hi) holds c. */
  predicate Absent(s: string, c: char, lo: int, hi: int)
  {
    forall j :: lo <= j < hi && 0 <= j < |s| ==> s[j] != c
  }

  /** The index of the last c in s, or -1. */
  function LastIndexOf(s: string, c: char): (r: int)
    ensures -1 <= r < |s|
    ensures r >= 0 ==> s[r] == c
    ensures Absent(s, c, r + 1, |s|)
    decreases |s|
  {
    if |s| == 0 then -1
    else if s[|s| - 1] == c then |s| - 1
    else LastIndexOf(s[..|s| - 1], c)
  }

  /** p has an extension starting at dot d: d is the last '.', it lies in
      the last path component, and that component has a character other
      than '.' before it (so ".bashrc" has none). */
  predicate ExtensionAt(p: string, d: int)
  {
    && 0 <= d < |p| && p[d] == '.'
    && Absent(p, '.', d + 1, |p|) && Absent(p, '/', d, |p|)
    && exists k :: 0 <= k < d && p[k] != '.' && Absent(p, '/', k, d)
  }

  /** `os.path.splitext(p)[0]`: p without its extension, if it has one. */
  function SplitExtRoot(p: string): (root: string)
    ensures root == p <==> forall d :: !ExtensionAt(p, d)
    ensures root != p ==> ExtensionAt(p, |root|) && root == p[..|root|]
  {
    var sep := LastIndexOf(p, '/');
    var dot := LastIndexOf(p, '.');
    if dot > sep && exists k :: sep + 1 <= k < dot && p[k] != '.' then
      assert ExtensionAt(p, dot);
      p[..dot]
    else
      p
  }

  // ---------------------------------------------------------------------
  // Sorting the listing by name
  // ---------------------------------------------------------------------

  /** Ascending by name, in Python's str order. */
  predicate SortedByName(s: seq<StackId>)
  {
    forall i, j :: 0 <= i < j < |s| ==> StrLessEq(s[i].name, s[j].name)
  }

  /** Inserts x before the first element whose name is not smaller. */
  function InsertByName(x: StackId, s: seq<StackId>): (r: seq<StackId>)
    requires SortedByName(s)
    ensures SortedByName(r)
    ensures multiset(r) == multiset(s) + multiset{x}
  {
    if |s| == 0 then [x]
    else if StrLessEq(x.name, s[0].name) then
      InsertAtFront(x, s);
      [x] + s
    else
      var rest := InsertByName(x, s[1..]);
      InsertBehindHead(x, s, rest);
      [s[0]] + rest
  }

  /** An element no larger than the head of a sorted list may lead it. */
  lemma InsertAtFront(x: StackId, s: seq<StackId>)
    requires SortedByName(s) && |s| > 0 && StrLessEq(x.name, s[0].name)
    ensures SortedByName([x] + s)
  {
    forall j | 0 <= j < |s| ensures StrLessEq(x.name, s[j].name) {
      if j > 0 { StrLessEqTransitive(x.name, s[0].name, s[j].name); }
    }
  }

  /** The head of a sorted list stays ahead of x inserted into its tail. */
  lemma InsertBehindHead(x: StackId, s: seq<StackId>, rest: seq<StackId>)
    requires SortedByName(s) && |s| > 0 && !StrLessEq(x.name, s[0].name)
    requires SortedByName(rest) && multiset(rest) == multiset(s[1..]) + multiset{x}
    ensures SortedByName([s[0]] + rest)
    ensures multiset([s[0]] + rest) == multiset(s) + multiset{x}
  {
    assert StrLessEq(s[0].name, x.name) by {
      if StrLess(x.name, s[0].name) {
        StrLessTransitive(s[0].name, x.name, s[0].name);
        StrLessIrreflexive(s[0].name);
      }
    }
    forall j | 0 <= j < |rest| ensures StrLessEq(s[0].name, rest[j].name) {
      assert rest[j] in multiset(rest);
      if rest[j] != x {
        assert rest[j] in multiset(s[1..]);
        var m :| 0 <= m < |s[1..]| && s[1..][m] == rest[j];
        assert s[1..][m] == s[m + 1];
      }
    }
    assert s == [s[0]] + s[1..];
  }

  /** The elements of s named n, in their order in s. */
  function WithName(s: seq<StackId>, n: string): seq<StackId>
  {
    if |s| == 0 then [] else (if s[0].name == n then [s[0]] else []) + WithName(s[1..], n)
  }

  /** x goes in ahead of the elements that share its name. */
  lemma {:induction false} InsertByNameStable(x: StackId, s: seq<StackId>, n: string)
    requires SortedByName(s)
    ensures WithName(InsertByName(x, s), n) == if x.name == n then [x] + WithName(s, n) else WithName(s, n)
  {
    if |s| > 0 && !StrLessEq(x.name, s[0].name) {
      StrLessIrreflexive(x.name);
      assert s[0].name != x.name;
      InsertByNameStable(x, s[1..], n);
    }
  }

  /** The first element named n in s is the head of `WithName(s, n)`. */
  lemma {:induction false} FirstWithName(s: seq<StackId>, n: string, i: nat)
    requires i < |s| && s[i].name == n
    requires forall j :: 0 <= j < i ==> s[j].name != n
    ensures |WithName(s, n)| > 0 && WithName(s, n)[0] == s[i]
  {
    if i > 0 {
      FirstWithName(s[1..], n, i - 1);
    }
  }

  /** `sorted(stacks, key=lambda x: x.name)`: ascending by name, a
      permutation of its input, and stable: the elements sharing a name
      keep their input order. */
  function SortByName(s: seq<StackId>): (r: seq<StackId>)
    ensures SortedByName(r)
    ensures multiset(r) == multiset(s)
    ensures forall n :: WithName(r, n) == WithName(s, n)
  {
    if |s| == 0 then []
    else
      assert s == [s[0]] + s[1..];
      var rest := SortByName(s[1..]);
      forall n ensures WithName(InsertByName(s[0], rest), n) == WithName(s, n) {
        InsertByNameStable(s[0], rest, n);
      }
      InsertByName(s[0], rest)
  }

  /** Two permutations of each other hold the same elements. */
  lemma SameElements(a: seq<StackId>, b: seq<StackId>)
    requires multiset(a) == multiset(b)
    ensures forall s :: s in a <==> s in b
  {
    forall s ensures s in a <==> s in b {
      assert s in a <==> s in multiset(a);
      assert s in b <==> s in multiset(b);
    }
  }

  /** The candidate name `create_name` tries in round num: the root itself
      first, then root_2, root_3, ... */
  function Candidate(root: string, num: nat): string
  {
    if num <= 1 then root else root + "_" + IntToString(num)
  }

  /** Different rounds try different names. */
  lemma CandidatesDistinct(root: string, j: nat, k: nat)
    requires 1 <= j < k
    ensures Candidate(root, j) != Candidate(root, k)
  {
    if j > 1 && Candidate(root, j) == Candidate(root, k) {
      var prefix := root + "_";
      assert Candidate(root, j)[|prefix|..] == IntToString(j);
      assert Candidate(root, k)[|prefix|..] == IntToString(k);
      IntToStringInjective(j, k);
    }
  }

  /** The names `create_name` has tried before round num. */
  ghost function Tried(root: string, num: nat): set<string>
  {
    if num <= 1 then {} else Tried(root, num - 1) + {Candidate(root, num - 1)}
  }

  /** Each round tries a name no earlier round tried. */
  lemma {:induction false} NotYetTried(root: string, num: nat)
    requires num >= 1
    ensures Candidate(root, num) !in Tried(root, num)
    ensures forall k: nat :: 1 <= k < num ==> Candidate(root, k) in Tried(root, num)
  {
    if num > 1 {
      NotYetTried(root, num - 1);
      forall k: nat | 1 <= k < num ensures Candidate(root, k) != Candidate(root, num) {
        CandidatesDistinct(root, k, num);
      }
      TriedAreEarlierCandidates(root, num - 1);
    }
  }

  lemma {:induction false} TriedAreEarlierCandidates(root: string, num: nat)
    ensures forall t :: t in Tried(root, num) ==> exists k: nat :: 1 <= k < num && t == Candidate(root, k)
  {
    if num > 1 {
      TriedAreEarlierCandidates(root, num - 1);
    }
  }

  /** A taken candidate joins the tried names, so fewer taken names remain
      untried. */
  lemma TriedGrows(root: string, num: nat, names: set<string>)
    requires num >= 1 && Tried(root, num) <= names && Candidate(root, num) in names
    ensures Tried(root, num + 1) <= names
    ensures names - Tried(root, num + 1) < names - Tried(root, num)
  {
    NotYetTried(root, num);
    assert Candidate(root, num) in names - Tried(root, num);
  }

  /** The loop of `create_name`: tries root, root_2, root_3, ... until
      one is not among the current names. */
  method FirstFreeCandidate(root: string, currentNames: seq<string>) returns (name: string)
    ensures name !in currentNames
    ensures root !in currentNames ==> name == root
    ensures exists num: nat :: num >= 1 && name == Candidate(root, num)
              && forall k: nat :: 1 <= k < num ==> Candidate(root, k) in currentNames
  {
    ghost var namesSet := set n | n in currentNames;
    name := root;
    var num: nat := 1;
    while name in currentNames
      invariant num >= 1 && name == Candidate(root, num)
      invariant forall k: nat :: 1 <= k < num ==> Candidate(root, k) in currentNames
      invariant Tried(root, num) <= namesSet
      decreases namesSet - Tried(root, num)
    {
      TriedGrows(root, num, namesSet);
      num := num + 1;
      name := root + "_" + IntToString(num);
    }
  }

  /** `MainWindowModel`: `active_stacks`, a dict kept here as its keys in
      insertion order plus the mapping itself. */
  class MainWindowModel {
    var stackOrder: seq<StackUuid>
    var activeStacks: map<StackUuid, DockWidget>

    /** The order lists every key exactly once. */
    ghost predicate Valid()
      reads this
    {
      && (forall i, j :: 0 <= i < j < |stackOrder| ==> stackOrder[i] != stackOrder[j])
      && (forall id :: id in activeStacks <==> id in stackOrder)
    }

    constructor ()
      ensures Valid() && activeStacks == map[] && stackOrder == []
    {
      stackOrder := [];
      activeStacks := map[];
    }

    /** The dict's items as (id, window title), in insertion order. */
    function Items(): (items: seq<StackId>)
      reads this
      requires Valid()
      ensures |items| == |stackOrder|
      ensures forall i :: 0 <= i < |items| ==> items[i] == StackId(stackOrder[i], activeStacks[stackOrder[i]].windowTitle)
    {
      seq(|stackOrder|, i reads this requires Valid() && 0 <= i < |stackOrder| =>
        StackId(stackOrder[i], activeStacks[stackOrder[i]].windowTitle))
    }

    /** Every active stack appears among the items, with its window title,
        and nothing else does. */
    lemma ItemsHoldActiveStacks()
      requires Valid()
      ensures forall s :: s in Items() <==> s.id in activeStacks && s.name == activeStacks[s.id].windowTitle
    {
      var items := Items();
      forall s: StackId | s.id in activeStacks && s.name == activeStacks[s.id].windowTitle
        ensures s in items
      {
        var i :| 0 <= i < |stackOrder| && stackOrder[i] == s.id;
        assert items[i] == s;
      }
    }

    /** `stack_list`: sorted by name, one entry per active stack, each
        carrying that stack's window title. */
    function StackList(): (list: seq<StackId>)
      reads this
      requires Valid()
      ensures SortedByName(list)
      ensures |list| == |stackOrder|
      ensures forall s :: s in list <==> s.id in activeStacks && s.name == activeStacks[s.id].windowTitle
      ensures forall n :: WithName(list, n) == WithName(Items(), n)
    {
      var items := Items();
      var list := SortByName(items);
      assert |list| == |multiset(list)| == |multiset(items)| == |items|;
      SameElements(list, items);
      ItemsHoldActiveStacks();
      list
    }

    /** `stack_names`: the names of `stack_list`, in its order. */
    function StackNames(): (names: seq<string>)
      reads this
      requires Valid()
      ensures |names| == |stackOrder|
      ensures forall i :: 0 <= i < |names| ==> names[i] == StackList()[i].name
    {
      var list := StackList();
      seq(|list|, i requires 0 <= i < |list| => list[i].name)
    }

    /** The names listed are exactly the titles of the open stacks. */
    lemma StackNamesAreTitles()
      requires Valid()
      ensures forall n :: n in StackNames() <==> exists id :: id in activeStacks && activeStacks[id].windowTitle == n
    {
      var list := StackList();
      var names := StackNames();
      forall n | n in names ensures exists id :: id in activeStacks && activeStacks[id].windowTitle == n {
        var i :| 0 <= i < |names| && names[i] == n;
        assert list[i] in list;
      }
      forall n, id | id in activeStacks && activeStacks[id].windowTitle == n ensures n in names {
        var s := StackId(id, n);
        assert s in list;
        var i :| 0 <= i < |list| && list[i] == s;
        assert names[i] == n;
      }
    }

    /** `create_name`: the file name without its extension, or, when a
        stack already has that name, the first of name_2, name_3, ... that
        no stack has. */
    method CreateName(filename: string) returns (name: string)
      requires Valid()
      ensures name !in StackNames()
      ensures SplitExtRoot(filename) !in StackNames() ==> name == SplitExtRoot(filename)
      ensures exists num: nat :: num >= 1 && name == Candidate(SplitExtRoot(filename), num)
                && forall k: nat :: 1 <= k < num ==> Candidate(SplitExtRoot(filename), k) in StackNames()
    {
      name := FirstFreeCandidate(SplitExtRoot(filename), StackNames());
    }

    /** `add_stack`: stores the widget under the supplied id; the other
        entries keep their widgets and their order. */
    method AddStack(stackUuid: StackUuid, widget: DockWidget)
      requires Valid()
      modifies this
      ensures Valid()
      ensures activeStacks == old(activeStacks)[stackUuid := widget]
      ensures stackUuid in old(activeStacks) ==> stackOrder == old(stackOrder)
      ensures stackUuid !in old(activeStacks) ==> stackOrder == old(stackOrder) + [stackUuid]
    {
      if stackUuid !in activeStacks {
        stackOrder := stackOrder + [stackUuid];
      }
      activeStacks := activeStacks[stackUuid := widget];
    }

    /** `get_stack`: KeyError for an unknown id. */
    function GetStack(stackUuid: StackUuid): (r: Result<DockWidget, PyError>)
      reads this
      ensures r.Failure? <==> stackUuid !in activeStacks
      ensures r.Failure? ==> r.error == KeyError(UuidKey(stackUuid))
      ensures r.Success? ==> r.value == activeStacks[stackUuid]
    {
      if stackUuid in activeStacks then Success(activeStacks[stackUuid]) else Failure(KeyError(UuidKey(stackUuid)))
    }

    /** `get_stack_by_name`: walks `stack_list` and returns the widget of
        the first entry with that name, None when no stack has it. */
    method GetStackByName(searchName: string) returns (r: Option<DockWidget>)
      requires Valid()
      ensures r.None? <==> forall id :: id in activeStacks ==> activeStacks[id].windowTitle != searchName
      ensures r.Some? ==> exists i :: 0 <= i < |StackList()| && StackList()[i].name == searchName
                            && (forall j :: 0 <= j < i ==> StackList()[j].name != searchName)
                            && r.value == activeStacks[StackList()[i].id]
      ensures r.Some? ==> r.value.windowTitle == searchName
      ensures r.Some? ==> |WithName(Items(), searchName)| > 0 && WithName(Items(), searchName)[0].id in activeStacks
                            && r.value == activeStacks[WithName(Items(), searchName)[0].id]
    {
      var list := StackList();
      var i := 0;
      while i < |list|
        invariant 0 <= i <= |list|
        invariant forall j :: 0 <= j < i ==> list[j].name != searchName
      {
        if list[i].name == searchName {
          assert list[i] in list;
          FirstWithName(list, searchName, i);
          assert WithName(list, searchName) == WithName(Items(), searchName);
          return Some(activeStacks[list[i].id]);
        }
        i := i + 1;
      }
      forall id | id in activeStacks ensures activeStacks[id].windowTitle != searchName {
        assert StackId(id, activeStacks[id].windowTitle) in list;
      }
      r := None;
    }

    /** `do_remove_stack`: deletes that key only; KeyError when absent. */
    method DoRemoveStack(stackUuid: StackUuid) returns (outcome: Outcome<PyError>)
      requires Valid()
      modifies this
      ensures Valid()
      ensures stackUuid !in old(activeStacks) ==> outcome == Fail(KeyError(UuidKey(stackUuid))) && activeStacks == old(activeStacks)
      ensures stackUuid in old(activeStacks) ==> outcome == Pass && activeStacks == old(activeStacks) - {stackUuid}
      ensures stackUuid !in old(activeStacks) ==> stackOrder == old(stackOrder)
      ensures stackUuid in old(activeStacks) ==> exists k :: 0 <= k < |old(stackOrder)| && old(stackOrder)[k] == stackUuid
                                                   && stackOrder == old(stackOrder)[..k] + old(stackOrder)[k + 1..]
    {
      if stackUuid !in activeStacks {
        return Fail(KeyError(UuidKey(stackUuid)));
      }
      var k :| 0 <= k < |stackOrder| && stackOrder[k] == stackUuid;
      stackOrder := stackOrder[..k] + stackOrder[k + 1..];
      activeStacks := activeStacks - {stackUuid};
      outcome := Pass;
    }

    /** `have_active_stacks` */
    function HaveActiveStacks(): (r: bool)
      reads this
      ensures r <==> activeStacks != map[]
    {
      |activeStacks| > 0
    }
  }
}

/**
 Copying a page element breadth first within a byte budget: the copy is the recursively pruned element,
 and the running count is the size of what was copied.
 */
module PageCapture {
  import opened Text

  const MAX_CAPTURE_SAFETY_NODES: nat := 100000

  /** A page node. `shell` is the markup of the element without its children. */
  datatype Source =
    | Element(localName: string, shell: string, children: seq<Source>, shadow: seq<Source>)
    | TextNode(text: string)
    | OtherNode

  datatype Tree = ElementTree(shell: string, children: seq<Tree>) | TextTree(text: string)

  function LowerCase(s: string): string {
    if s == "" then "" else [LowerAscii(s[0])] + LowerCase(s[1..])
  }

  predicate IsRemovedName(name: string) {
    name in ["script", "style", "noscript", "template", "object", "embed", "canvas", "svg", "form", "input", "textarea",
             "select", "button"]
  }

  /** Elements and text are copied; removed elements and other nodes are not. */
  predicate IsKept(node: Source): (kept: bool)
    ensures kept ==> !node.OtherNode?
  {
    node.TextNode? || (node.Element? && !IsRemovedName(LowerCase(node.localName)))
  }

  /** Light children first, then those of the shadow root. */
  function Kids(element: Source): seq<Source>
    requires element.Element?
  {
    element.children + element.shadow
  }

  function Kept(nodes: seq<Source>): seq<Source> {
    if nodes == [] then [] else (if IsKept(nodes[0]) then [nodes[0]] else []) + Kept(nodes[1..])
  }

  // Sizes

  function CharBytes(c: char): nat {
    if c < '\U{80}' then 1 else if c < '\U{800}' then 2 else if c < '\U{10000}' then 3 else 4
  }

  function ByteLength(s: string): nat {
    if s == "" then 0 else CharBytes(s[0]) + ByteLength(s[1..])
  }

  function EscapedChar(c: char): string {
    if c == '&' then "&amp;" else if c == '<' then "&lt;" else if c == '>' then "&gt;" else [c]
  }

  function EscapedText(s: string): string {
    if s == "" then "" else EscapedChar(s[0]) + EscapedText(s[1..])
  }

  /** What a node adds to the count itself. */
  function OwnBytes(node: Source): nat {
    match node
    case Element(_, shell, _, _) => ByteLength(shell)
    case TextNode(text) => ByteLength(EscapedText(text))
    case OtherNode => 0
  }

  // The recursive prune

  function Prune(node: Source): Tree
    requires !node.OtherNode?
  {
    match node
    case TextNode(text) => TextTree(text)
    case Element(_, shell, children, shadow) => ElementTree(shell, PruneAll(children) + PruneAll(shadow))
  }

  function PruneAll(nodes: seq<Source>): seq<Tree> {
    if nodes == [] then [] else (if IsKept(nodes[0]) then [Prune(nodes[0])] else []) + PruneAll(nodes[1..])
  }

  function TreeBytes(tree: Tree): nat {
    match tree
    case TextTree(text) => ByteLength(EscapedText(text))
    case ElementTree(shell, children) => ByteLength(shell) + TreesBytes(children)
  }

  function TreesBytes(trees: seq<Tree>): nat {
    if trees == [] then 0 else TreeBytes(trees[0]) + TreesBytes(trees[1..])
  }

  /** How many looks the copy takes: one at each copied element and one at each of its children. */
  function Looks(node: Source): nat {
    if node.Element? then 1 + |node.children| + |node.shadow| + LooksAll(node.children) + LooksAll(node.shadow) else 0
  }

  function LooksAll(nodes: seq<Source>): nat {
    if nodes == [] then 0 else (if IsKept(nodes[0]) then Looks(nodes[0]) else 0) + LooksAll(nodes[1..])
  }

  lemma {:induction false} PrunedConcat(a: seq<Source>, b: seq<Source>)
    ensures PruneAll(a + b) == PruneAll(a) + PruneAll(b)
  {
    hide PruneAll;
    if a == [] {
      NothingPruned();
      assert a + b == b;
      assert [] + PruneAll(b) == PruneAll(b);
    } else {
      assert (a + b)[0] == a[0] && (a + b)[1..] == a[1..] + b;
      PrunedConcat(a[1..], b);
      FirstPruned(a);
      FirstPruned(a + b);
      var first := PrunedFirst(a[0]);
      assert first + PruneAll(a[1..]) + PruneAll(b) == first + (PruneAll(a[1..]) + PruneAll(b));
    }
  }

  function PrunedFirst(node: Source): seq<Tree> {
    if IsKept(node) then [Prune(node)] else []
  }

  lemma NothingPruned()
    ensures PruneAll([]) == []
  {
  }

  lemma FirstPruned(nodes: seq<Source>)
    requires nodes != []
    ensures PruneAll(nodes) == PrunedFirst(nodes[0]) + PruneAll(nodes[1..])
  {
  }

  lemma {:induction false} LooksConcat(a: seq<Source>, b: seq<Source>)
    ensures LooksAll(a + b) == LooksAll(a) + LooksAll(b)
  {
    hide Prune, Looks, IsKept;
    if a == [] {
      assert a + b == b;
    } else {
      assert (a + b)[0] == a[0] && (a + b)[1..] == a[1..] + b;
      LooksConcat(a[1..], b);
    }
  }

  lemma {:induction false} KeptConcat(a: seq<Source>, b: seq<Source>)
    ensures Kept(a + b) == Kept(a) + Kept(b)
  {
    hide Prune, Looks, IsKept;
    if a == [] {
      assert a + b == b;
    } else {
      assert (a + b)[0] == a[0] && (a + b)[1..] == a[1..] + b;
      KeptConcat(a[1..], b);
    }
  }

  lemma PruneAllConcat(a: seq<Source>, b: seq<Source>)
    ensures PruneAll(a + b) == PruneAll(a) + PruneAll(b)
    ensures LooksAll(a + b) == LooksAll(a) + LooksAll(b)
    ensures Kept(a + b) == Kept(a) + Kept(b)
  {
    PrunedConcat(a, b);
    LooksConcat(a, b);
    KeptConcat(a, b);
  }

  lemma {:induction false} TreesBytesConcat(a: seq<Tree>, b: seq<Tree>)
    ensures TreesBytes(a + b) == TreesBytes(a) + TreesBytes(b)
  {
    if a == [] {
      assert a + b == b;
    } else {
      assert (a + b)[1..] == a[1..] + b;
      TreesBytesConcat(a[1..], b);
    }
  }

  lemma {:induction false} PruneAllIsPruneOfKept(nodes: seq<Source>)
    ensures |PruneAll(nodes)| == |Kept(nodes)|
    ensures forall i :: 0 <= i < |Kept(nodes)| ==> IsKept(Kept(nodes)[i]) && PruneAll(nodes)[i] == Prune(Kept(nodes)[i])
  {
    hide Prune, IsKept;
    if nodes != [] {
      PruneAllIsPruneOfKept(nodes[1..]);
    }
  }

  // Copies

  class ElementNode {
    const shell: string
    var children: seq<Node>

    constructor (shell: string)
      ensures this.shell == shell && children == []
    {
      this.shell, children := shell, [];
    }
  }

  datatype Node = ElementChild(element: ElementNode) | TextChild(text: string)

  datatype Item = Item(source: Source, clone: ElementNode)

  /** The copy, and everything below it, looks like the tree. */
  ghost predicate Shows(clone: ElementNode, tree: Tree, all: set<ElementNode>)
    reads all
    decreases tree
  {
    && tree.ElementTree? && clone in all && clone.shell == tree.shell && |clone.children| == |tree.children|
    && forall i :: 0 <= i < |tree.children| ==>
         match tree.children[i]
         case TextTree(text) => clone.children[i] == TextChild(text)
         case ElementTree(_, _) =>
           clone.children[i].ElementChild? && Shows(clone.children[i].element, tree.children[i], all)
  }

  /** The direct children of a copy are those of its source that are kept, in order. */
  ghost predicate Fits(children: seq<Node>, kept: seq<Source>, plan: map<ElementNode, Source>) {
    && |children| == |kept|
    && forall i :: 0 <= i < |kept| ==>
         match kept[i]
         case TextNode(text) => children[i] == TextChild(text)
         case Element(_, shell, _, _) =>
           children[i].ElementChild? && children[i].element in plan && plan[children[i].element] == kept[i]
         case OtherNode => false
  }

  /** A copy of a kept element, finished as far as its own children go. */
  ghost predicate IsFinished(clone: ElementNode, plan: map<ElementNode, Source>)
    requires clone in plan
    reads clone
  {
    plan[clone].Element? && clone.shell == plan[clone].shell && Fits(clone.children, Kept(Kids(plan[clone])), plan)
  }

  lemma {:induction false} KeptAreSmaller(element: Source, i: nat)
    requires element.Element? && i < |Kept(Kids(element))|
    ensures Kept(Kids(element))[i] < element
  {
    KeptAreMembers(Kids(element));
    var kid := Kept(Kids(element))[i];
    assert kid in Kids(element);
    assert kid in element.children || kid in element.shadow;
  }

  lemma {:induction false} KeptAreMembers(nodes: seq<Source>)
    ensures forall i :: 0 <= i < |Kept(nodes)| ==> Kept(nodes)[i] in nodes && IsKept(Kept(nodes)[i])
  {
    if nodes != [] {
      KeptAreMembers(nodes[1..]);
    }
  }

  /** When every copy is finished, the first one shows the pruned element. */
  lemma {:induction false} FinishedShows(clone: ElementNode, plan: map<ElementNode, Source>)
    requires clone in plan && plan[clone].Element?
    requires forall n :: n in plan ==> IsFinished(n, plan)
    ensures Shows(clone, Prune(plan[clone]), plan.Keys)
    decreases plan[clone]
  {
    hide IsRemovedName, LowerCase;
    var element := plan[clone];
    assert IsFinished(clone, plan);
    var tree := Prune(element);
    var kept := Kept(Kids(element));
    PruneAllConcat(element.children, element.shadow);
    PruneAllIsPruneOfKept(Kids(element));
    KeptAreMembers(Kids(element));
    forall i | 0 <= i < |kept| && kept[i].Element?
      ensures Shows(clone.children[i].element, tree.children[i], plan.Keys)
    {
      KeptAreSmaller(element, i);
      FinishedShows(clone.children[i].element, plan);
    }
  }

  // What is still to be done

  /** The bytes below an element, without its own. */
  function BytesBelow(source: Source): nat {
    if source.Element? then TreesBytes(PruneAll(source.children) + PruneAll(source.shadow)) else 0
  }

  function QueueBytes(queue: seq<Item>): nat {
    if queue == [] then 0 else BytesBelow(queue[0].source) + QueueBytes(queue[1..])
  }

  function QueueLooks(queue: seq<Item>): nat {
    if queue == [] then 0 else Looks(queue[0].source) + QueueLooks(queue[1..])
  }

  lemma {:induction false} QueueAppend(a: seq<Item>, b: seq<Item>)
    ensures QueueBytes(a + b) == QueueBytes(a) + QueueBytes(b)
    ensures QueueLooks(a + b) == QueueLooks(a) + QueueLooks(b)
  {
    hide BytesBelow, Looks;
    if a == [] {
      assert a + b == b;
    } else {
      assert (a + b)[1..] == a[1..] + b;
      QueueAppend(a[1..], b);
    }
  }

  /** What one node adds to the size of the copy. */
  lemma KeptBytes(node: Source)
    requires !node.OtherNode?
    ensures TreeBytes(Prune(node)) == OwnBytes(node) + BytesBelow(node)
  {
  }

  lemma NextKid(kids: seq<Source>, i: nat)
    requires i < |kids|
    ensures TreesBytes(PruneAll(kids[i..]))
         == (if IsKept(kids[i]) then OwnBytes(kids[i]) + BytesBelow(kids[i]) else 0) + TreesBytes(PruneAll(kids[i + 1..]))
    ensures LooksAll(kids[i..]) == (if IsKept(kids[i]) then Looks(kids[i]) else 0) + LooksAll(kids[i + 1..])
    ensures Kept(kids[..i + 1]) == Kept(kids[..i]) + if IsKept(kids[i]) then [kids[i]] else []
  {
    hide Prune, Looks, IsKept, OwnBytes, BytesBelow;
    assert kids[i..][1..] == kids[i + 1..];
    assert kids[..i + 1] == kids[..i] + [kids[i]];
    PruneAllConcat(kids[..i], [kids[i]]);
    assert Kept([kids[i]]) == (if IsKept(kids[i]) then [kids[i]] else []) + Kept([kids[i]][1..]);
    assert [] + PruneAll(kids[i + 1..]) == PruneAll(kids[i + 1..]);
    if IsKept(kids[i]) {
      KeptBytes(kids[i]);
      TreesBytesConcat([Prune(kids[i])], PruneAll(kids[i + 1..]));
      assert TreesBytes([Prune(kids[i])]) == TreeBytes(Prune(kids[i])) + TreesBytes([Prune(kids[i])][1..]);
    }
  }

  // The copy

  datatype Outcome = Copied | TooLarge | Incomplete

  ghost predicate AreNew(added: seq<Item>, plan: map<ElementNode, Source>)
    reads set item | item in added :: item.clone
  {
    forall i :: 0 <= i < |added| ==>
      && added[i].clone in plan && plan[added[i].clone] == added[i].source && added[i].clone.children == []
      && added[i].source.Element? && added[i].clone.shell == added[i].source.shell
  }

  ghost function Clones(items: seq<Item>): set<ElementNode> {
    set item | item in items :: item.clone
  }

  ghost predicate Extends(plan: map<ElementNode, Source>, plan': map<ElementNode, Source>, more: set<ElementNode>) {
    && plan'.Keys == plan.Keys + more
    && forall n :: n in plan ==> plan'[n] == plan[n]
  }

  ghost predicate DistinctClones(items: seq<Item>) {
    forall i, j :: 0 <= i < j < |items| ==> items[i].clone != items[j].clone
  }

  lemma FitsMore(children: seq<Node>, kept: seq<Source>, plan: map<ElementNode, Source>, plan': map<ElementNode, Source>,
                 more: set<ElementNode>)
    requires Fits(children, kept, plan) && Extends(plan, plan', more)
    ensures Fits(children, kept, plan')
  {
  }

  /** Copies the children of one element below its copy, and lists the element children for later. */
  method CopyKids(clone: ElementNode, kids: seq<Source>, maxBytes: int, inspected0: nat, bytes0: nat,
                  ghost plan0: map<ElementNode, Source>)
    returns (outcome: Outcome, added: seq<Item>, inspected: nat, bytes: nat, ghost plan: map<ElementNode, Source>)
    requires clone.children == [] && clone in plan0
    modifies clone
    ensures outcome == Copied ==>
              && Fits(clone.children, Kept(kids), plan) && AreNew(added, plan) && DistinctClones(added)
              && Extends(plan0, plan, Clones(added)) && fresh(Clones(added)) && Clones(added) !! plan0.Keys
    ensures outcome == Copied ==>
              && bytes + QueueBytes(added) == bytes0 + TreesBytes(PruneAll(kids))
              && (if Kept(kids) == [] then bytes == bytes0 else bytes <= maxBytes)
    ensures outcome == Copied ==>
              && inspected == inspected0 + |kids| && QueueLooks(added) == LooksAll(kids)
              && (kids == [] || inspected <= MAX_CAPTURE_SAFETY_NODES)
    ensures outcome == TooLarge ==> Kept(kids) != [] && bytes0 + TreesBytes(PruneAll(kids)) > maxBytes
    ensures outcome == Incomplete ==> inspected0 + |kids| > MAX_CAPTURE_SAFETY_NODES
  {
    hide IsRemovedName, LowerCase, OwnBytes, BytesBelow, Looks, PruneAll, Kept, TreesBytes, LooksAll, QueueBytes, QueueLooks;
    outcome, added, inspected, bytes, plan := Copied, [], inspected0, bytes0, plan0;
    NoKids();
    assert kids[0..] == kids && kids[..0] == [];
    var i := 0;
    while i < |kids| && outcome == Copied
      invariant i <= |kids| && outcome != TooLarge && outcome != Incomplete
      invariant Fits(clone.children, Kept(kids[..i]), plan) && AreNew(added, plan) && DistinctClones(added)
      invariant Extends(plan0, plan, Clones(added)) && fresh(Clones(added)) && Clones(added) !! plan0.Keys
      invariant bytes + QueueBytes(added) + TreesBytes(PruneAll(kids[i..])) == bytes0 + TreesBytes(PruneAll(kids))
      invariant if Kept(kids[..i]) == [] then bytes == bytes0 else bytes <= maxBytes
      invariant inspected == inspected0 + i && QueueLooks(added) + LooksAll(kids[i..]) == LooksAll(kids)
      invariant i == 0 || inspected <= MAX_CAPTURE_SAFETY_NODES
    {
      if inspected >= MAX_CAPTURE_SAFETY_NODES {
        outcome := Incomplete;
        return;
      }
      var kid := kids[i];
      NextKid(kids, i);
      inspected := inspected + 1;
      if IsKept(kid) {
        if bytes + OwnBytes(kid) > maxBytes {
          KeptSome(kids, i);
          outcome := TooLarge;
          return;
        }
        bytes := bytes + OwnBytes(kid);
        if kid.Element? {
          var copy := new ElementNode(kid.shell);
          QueueAppend(added, [Item(kid, copy)]);
          OneItem(kid, copy);
          ghost var before := plan;
          plan := plan[copy := kid];
          FitsMore(clone.children, Kept(kids[..i]), before, plan, {copy});
          clone.children := clone.children + [ElementChild(copy)];
          added := added + [Item(kid, copy)];
        } else {
          TextBelow(kid);
          clone.children := clone.children + [TextChild(kid.text)];
        }
      }
      i := i + 1;
    }
    assert kids[..|kids|] == kids && kids[|kids|..] == [];
  }

  lemma NoKids()
    ensures Kept([]) == [] && PruneAll([]) == [] && TreesBytes([]) == 0 && LooksAll([]) == 0
    ensures QueueBytes([]) == 0 && QueueLooks([]) == 0
  {
  }

  lemma OneItem(kid: Source, copy: ElementNode)
    ensures QueueBytes([Item(kid, copy)]) == BytesBelow(kid) && QueueLooks([Item(kid, copy)]) == Looks(kid)
  {
    hide BytesBelow, Looks;
    assert [Item(kid, copy)][1..] == [];
  }

  lemma TextBelow(kid: Source)
    requires kid.TextNode?
    ensures BytesBelow(kid) == 0 && Looks(kid) == 0
  {
  }

  lemma KeptSome(kids: seq<Source>, i: nat)
    requires i < |kids| && IsKept(kids[i])
    ensures Kept(kids) != []
  {
    hide IsKept;
    PruneAllConcat(kids[..i], kids[i..]);
    assert kids == kids[..i] + kids[i..];
    assert kids[i..][0] == kids[i];
  }

  // The whole copy

  /** Every copy is either waiting in the queue, still without children, or finished. */
  ghost predicate Progress(queue: seq<Item>, plan: map<ElementNode, Source>)
    reads plan.Keys
  {
    && AreNewIn(queue, plan)
    && forall n :: n in plan ==> n in Clones(queue) || IsFinished(n, plan)
  }

  ghost predicate AreNewIn(queue: seq<Item>, plan: map<ElementNode, Source>)
    reads plan.Keys
  {
    forall i :: 0 <= i < |queue| ==>
      && queue[i].clone in plan && plan[queue[i].clone] == queue[i].source && queue[i].clone.children == []
      && queue[i].source.Element? && queue[i].clone.shell == queue[i].source.shell
  }

  /** The copies that wait after a round: the others in the queue, and behind them the new ones. */
  lemma StillWaiting(queue: seq<Item>, added: seq<Item>, plan: map<ElementNode, Source>, next: map<ElementNode, Source>)
    requires queue != [] && AreNewIn(queue[1..], plan) && DistinctClones(queue) && Clones(queue) <= plan.Keys
    requires Extends(plan, next, Clones(added)) && Clones(added) !! plan.Keys && AreNew(added, next) && DistinctClones(added)
    ensures AreNewIn(queue[1..] + added, next) && DistinctClones(queue[1..] + added)
  {
    hide IsKept;
    assert forall i :: 0 <= i < |queue[1..]| ==> queue[1..][i] == queue[i + 1];
    assert forall i :: 0 <= i < |added| ==> added[i].clone in Clones(added);
    assert forall i :: 0 <= i < |queue| ==> queue[i].clone in Clones(queue);
  }

  /** After the children of the first waiting copy are in place, every copy that does not wait is finished. */
  lemma OthersFinished(queue: seq<Item>, added: seq<Item>, plan: map<ElementNode, Source>, next: map<ElementNode, Source>)
    requires queue != [] && queue[0].clone in plan && plan[queue[0].clone] == queue[0].source && queue[0].source.Element?
    requires queue[0].clone.shell == queue[0].source.shell
    requires forall n :: n in plan ==> n in Clones(queue) || IsFinished(n, plan)
    requires Extends(plan, next, Clones(added))
    requires Fits(queue[0].clone.children, Kept(Kids(queue[0].source)), next)
    ensures forall n :: n in next ==> n in Clones(queue[1..] + added) || IsFinished(n, next)
  {
    hide IsKept, Kept, Fits;
    var clone := queue[0].clone;
    var waiting := queue[1..] + added;
    forall n | n in next
      ensures n in Clones(waiting) || IsFinished(n, next)
    {
      if n in Clones(added) {
        var item :| item in added && item.clone == n;
        assert item in waiting;
      } else if n != clone {
        if n in Clones(queue) {
          var item :| item in queue && item.clone == n;
          assert item in queue[1..];
          assert item in waiting;
        } else {
          FitsMore(n.children, Kept(Kids(plan[n])), plan, next, Clones(added));
        }
      }
    }
  }

  lemma FirstWaits(queue: seq<Item>, plan: map<ElementNode, Source>)
    requires queue != [] && Progress(queue, plan)
    ensures queue[0].clone in plan && plan[queue[0].clone] == queue[0].source && queue[0].clone.children == []
    ensures queue[0].source.Element? && queue[0].clone.shell == queue[0].source.shell
    ensures Clones(queue) <= plan.Keys
  {
    hide IsKept;
  }

  lemma ShellBytes(element: Source)
    requires element.Element?
    ensures OwnBytes(element) == ByteLength(element.shell)
  {
  }

  lemma FirstInQueue(queue: seq<Item>)
    requires queue != []
    ensures QueueBytes(queue) == BytesBelow(queue[0].source) + QueueBytes(queue[1..])
    ensures QueueLooks(queue) == Looks(queue[0].source) + QueueLooks(queue[1..])
  {
  }

  lemma LooksOf(element: Source)
    requires element.Element?
    ensures Looks(element) == 1 + |Kids(element)| + LooksAll(Kids(element))
    ensures BytesBelow(element) == TreesBytes(PruneAll(Kids(element)))
  {
    PruneAllConcat(element.children, element.shadow);
  }

  lemma {:induction false} NoneKeptNoLooks(kids: seq<Source>)
    requires Kept(kids) == []
    ensures LooksAll(kids) == 0
  {
    if kids != [] {
      NoneKeptNoLooks(kids[1..]);
    }
  }

  lemma QueueHasLooks(queue: seq<Item>)
    requires forall i :: 0 <= i < |queue| ==> queue[i].source.Element?
    ensures queue == [] <==> QueueLooks(queue) == 0
  {
    if queue != [] {
      assert queue[0].source.Element?;
    }
  }

  /** Without kept children nothing is added to the queue. */
  lemma NothingAdded(kids: seq<Source>, added: seq<Item>)
    requires QueueLooks(added) == LooksAll(kids)
    requires forall i :: 0 <= i < |added| ==> added[i].source.Element?
    ensures Kept(kids) == [] ==> added == []
  {
    QueueHasLooks(added);
    if Kept(kids) == [] {
      NoneKeptNoLooks(kids);
    }
  }

  /** One round of the loop: the first waiting copy gets its children. */
  method CopyFirst(queue: seq<Item>, maxBytes: int, inspected0: nat, bytes0: nat, ghost plan: map<ElementNode, Source>)
    returns (outcome: Outcome, queue': seq<Item>, inspected: nat, bytes: nat, ghost plan': map<ElementNode, Source>)
    requires queue != [] && Progress(queue, plan) && DistinctClones(queue)
    modifies queue[0].clone
    ensures outcome == Copied ==>
              && Progress(queue', plan') && DistinctClones(queue')
              && plan.Keys <= plan'.Keys && fresh(plan'.Keys - plan.Keys) && forall n :: n in plan ==> plan'[n] == plan[n]
    ensures outcome == Copied ==>
              && bytes + QueueBytes(queue') == bytes0 + QueueBytes(queue)
              && (if Kept(Kids(queue[0].source)) == [] then bytes == bytes0 && queue' == queue[1..] else bytes <= maxBytes)
    ensures outcome == Copied ==>
              && inspected + QueueLooks(queue') == inspected0 + QueueLooks(queue)
              && QueueLooks(queue') < QueueLooks(queue) && inspected <= MAX_CAPTURE_SAFETY_NODES
    ensures outcome == TooLarge ==> Kept(Kids(queue[0].source)) != [] && bytes0 + QueueBytes(queue) > maxBytes
    ensures outcome == Incomplete ==> inspected0 + QueueLooks(queue) > MAX_CAPTURE_SAFETY_NODES
  {
    hide IsRemovedName, LowerCase, PruneAll, Kept, TreesBytes, LooksAll, QueueBytes, QueueLooks, ByteLength, IsFinished,
      Fits, IsKept, BytesBelow, Looks, OwnBytes;
    var current := queue[0];
    var kids := Kids(current.source);
    FirstInQueue(queue);
    LooksOf(current.source);
    outcome, queue', inspected, bytes, plan' := Incomplete, queue, inspected0, bytes0, plan;
    if inspected0 < MAX_CAPTURE_SAFETY_NODES {
      FirstWaits(queue, plan);
      var added;
      outcome, added, inspected, bytes, plan' := CopyKids(current.clone, kids, maxBytes, inspected0 + 1, bytes0, plan);
      if outcome == Copied {
        QueueAppend(queue[1..], added);
        StillWaiting(queue, added, plan, plan');
        OthersFinished(queue, added, plan, plan');
        NothingAdded(kids, added);
        assert queue[1..] + [] == queue[1..];
        queue' := queue[1..] + added;
      }
    }
  }

  /**
   On success the copy is the pruned element, whatever the name of the root itself. It succeeds exactly
   when the looks stay within the safety limit and the copy within the byte budget, except that an
   element without any kept child always fits.
   */
  method CloneElementWithinByteBudget(root: Source, maxBytes: int)
    returns (outcome: Outcome, rootClone: ElementNode, bytes: nat, ghost all: set<ElementNode>)
    requires root.Element?
    ensures outcome == Copied ==> Shows(rootClone, Prune(root), all) && fresh(all) && bytes == TreeBytes(Prune(root))
    ensures outcome == Copied <==>
              && Looks(root) <= MAX_CAPTURE_SAFETY_NODES
              && (TreeBytes(Prune(root)) <= maxBytes || Kept(Kids(root)) == [])
    ensures outcome == TooLarge ==> TreeBytes(Prune(root)) > maxBytes && Kept(Kids(root)) != []
    ensures outcome == Incomplete ==> Looks(root) > MAX_CAPTURE_SAFETY_NODES
  {
    hide IsRemovedName, LowerCase, PruneAll, Kept, TreesBytes, LooksAll, QueueBytes, QueueLooks, ByteLength, IsFinished,
      TreeBytes, Shows, Fits, IsKept, BytesBelow, Looks, OwnBytes, AreNew, Prune;
    rootClone := new ElementNode(root.shell);
    ghost var plan := map[rootClone := root];
    var queue := [Item(root, rootClone)];
    outcome := Copied;
    bytes := ByteLength(root.shell);
    var inspected := 0;
    OneItem(root, rootClone);
    KeptBytes(root);
    ShellBytes(root);
    ghost var started := false;
    while queue != [] && outcome == Copied
      invariant outcome == Copied ==> rootClone in plan && plan[rootClone] == root && forall n :: n in plan ==> fresh(n)
      invariant outcome == Copied ==> Progress(queue, plan) && DistinctClones(queue)
      invariant outcome == Copied ==> bytes + QueueBytes(queue) == TreeBytes(Prune(root))
      invariant outcome == Copied ==> inspected + QueueLooks(queue) == Looks(root)
      invariant outcome == Copied && started ==> inspected <= MAX_CAPTURE_SAFETY_NODES
      invariant outcome == Copied ==>
                  if started && Kept(Kids(root)) != [] then bytes <= maxBytes else bytes == OwnBytes(root)
      invariant !started ==> queue == [Item(root, rootClone)]
      invariant started && Kept(Kids(root)) == [] && outcome == Copied ==> queue == []
      invariant outcome == TooLarge ==> TreeBytes(Prune(root)) > maxBytes && Kept(Kids(root)) != []
      invariant outcome == Incomplete ==> Looks(root) > MAX_CAPTURE_SAFETY_NODES
      decreases if outcome == Copied then 1 else 0, QueueLooks(queue)
    {
      outcome, queue, inspected, bytes, plan := CopyFirst(queue, maxBytes, inspected, bytes, plan);
      started := true;
    }
    all := {};
    if outcome == Copied {
      all := set n | n in plan;
      assert all == plan.Keys;
      NothingWaits();
      AllFinished(plan);
      FinishedShows(rootClone, plan);
    }
  }

  lemma NothingWaits()
    ensures QueueBytes([]) == 0 && QueueLooks([]) == 0
  {
  }

  lemma AllFinished(plan: map<ElementNode, Source>)
    requires Progress([], plan)
    ensures forall n :: n in plan ==> IsFinished(n, plan)
  {
    hide IsFinished;
  }
}

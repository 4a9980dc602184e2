/**
 * The project-tree page: a tree of projects, branches and tasks, the recursive
 * task count shown in the header, and the page state (which nodes are expanded
 * and which project is selected) with its click rule.
 */
module Projects {
  import opened Wrappers
  import opened Seqs

  datatype NodeKind = ProjectNode | Branch | Task
  datatype NodeStatus = Todo | InProgress | Completed

  /** A node of the tree; an absent `children` is the empty sequence. */
  datatype Node = Node(id: string, name: string, kind: NodeKind, status: NodeStatus, children: seq<Node>)

  /** `countTasks`: one for a task, plus the children's counts summed with `reduce` from 0. */
  function CountTasks(node: Node): (n: nat)
    ensures IsTask(node) ==> n >= 1
    decreases node, 1
  {
    (if node.kind == Task then 1 else 0) + FoldTasks(0, node.children)
  }

  /** `nodes.reduce((sum, n) => sum + countTasks(n), acc)`. */
  function FoldTasks(acc: nat, nodes: seq<Node>): (r: nat)
    ensures r >= acc
    ensures nodes != [] ==> r >= acc + CountTasks(nodes[0])
    decreases nodes, 0
  {
    if nodes == [] then acc
    else FoldTasks(acc + CountTasks(nodes[0]), nodes[1..])
  }

  /** The reference reading: every node of the tree, in pre-order. */
  function Preorder(node: Node): (r: seq<Node>)
    ensures |r| >= 1 && r[0] == node
    decreases node, 1
  {
    [node] + PreorderAll(node.children)
  }

  function PreorderAll(nodes: seq<Node>): seq<Node>
    decreases nodes, 0
  {
    if nodes == [] then [] else Preorder(nodes[0]) + PreorderAll(nodes[1..])
  }

  function IsTask(n: Node): bool { n.kind == Task }

  /** The count is the number of tasks anywhere in the tree. */
  lemma {:induction false} CountTasksIsTasksInTree(node: Node)
    ensures CountTasks(node) == Count(Preorder(node), IsTask)
    decreases node, 1
  {
    FoldTasksIsTasksInForest(0, node.children);
    FilterAppend([node], PreorderAll(node.children), IsTask);
  }

  lemma {:induction false} FoldTasksIsTasksInForest(acc: nat, nodes: seq<Node>)
    ensures FoldTasks(acc, nodes) == acc + Count(PreorderAll(nodes), IsTask)
    decreases nodes, 0
  {
    if nodes != [] {
      CountTasksIsTasksInTree(nodes[0]);
      FoldTasksIsTasksInForest(acc + CountTasks(nodes[0]), nodes[1..]);
      FilterAppend(Preorder(nodes[0]), PreorderAll(nodes[1..]), IsTask);
    }
  }

  /** A node without children counts one exactly when it is a task. */
  lemma LeafCount(node: Node)
    requires node.children == []
    ensures CountTasks(node) == (if node.kind == Task then 1 else 0)
  {
  }

  /** The header's total: the counts of the top-level projects, summed from 0. */
  function TotalTasks(projects: seq<Node>): (n: nat)
    ensures n == Count(PreorderAll(projects), IsTask)
  {
    FoldTasksIsTasksInForest(0, projects);
    FoldTasks(0, projects)
  }

  function Leaf(id: string, name: string, status: NodeStatus): Node {
    Node(id, name, Task, status, [])
  }

  /** The page's literal data: two top-level projects, "tedx" and "blead". */
  function BecProjects(): (r: seq<Node>)
    ensures |r| == 2 && r[0].id == "tedx" && r[1].id == "blead"
    ensures forall i :: 0 <= i < |r| ==> r[i].kind == ProjectNode && |r[i].children| > 0
  {
    [ Node("tedx", "TEDx FTU2 2024", ProjectNode, InProgress, [
        Node("content", "Content Branch", Branch, InProgress, [
          Leaf("speaker-research", "Speaker Research & Outreach", Completed),
          Leaf("content-curation", "Content Curation", InProgress),
          Leaf("script-writing", "Script Writing", Todo)]),
        Node("ea", "Event & Administration Branch", Branch, InProgress, [
          Leaf("venue-booking", "Venue Booking", Completed),
          Leaf("logistics", "Event Logistics Planning", InProgress),
          Leaf("registration", "Registration System", Todo)]),
        Node("marketing", "Marketing Branch", Branch, Todo, [
          Leaf("social-media", "Social Media Campaign", InProgress),
          Leaf("poster-design", "Poster & Banner Design", Todo)])]),
      Node("blead", "Blead Program 2024", ProjectNode, InProgress, [
        Node("curriculum", "Curriculum Development", Branch, InProgress, [
          Leaf("business-modules", "Business Communication Workshops", InProgress),
          Leaf("case-studies", "English Presentation Skills Training", Todo)]),
        Node("mentorship", "Mentorship Program", Branch, Todo, [
          Leaf("mentor-recruitment", "Business Leader Guest Speakers", Todo)])]) ]
  }

  /** The literal tree holds eight tasks under "tedx" and three under "blead". */
  lemma BecProjectsTaskTotal()
    ensures CountTasks(BecProjects()[0]) == 8
    ensures CountTasks(BecProjects()[1]) == 3
    ensures TotalTasks(BecProjects()) == 11
  {
    TedxTasks(BecProjects()[0]);
    BleadTasks(BecProjects()[1]);
    SumOfCounts(BecProjects());
  }

  lemma TedxTasks(tedx: Node)
    requires tedx == BecProjects()[0]
    ensures CountTasks(tedx) == 8
  {
    var c := tedx.children;
    AllLeaves(c[0].children);
    AllLeaves(c[1].children);
    AllLeaves(c[2].children);
    SumOfCounts(c);
  }

  lemma BleadTasks(blead: Node)
    requires blead == BecProjects()[1]
    ensures CountTasks(blead) == 3
  {
    var c := blead.children;
    AllLeaves(c[0].children);
    AllLeaves(c[1].children);
    SumOfCounts(c);
  }

  /** Summing from `acc` is `acc` more than summing from 0. */
  lemma {:induction false} FoldTasksShift(acc: nat, nodes: seq<Node>)
    ensures FoldTasks(acc, nodes) == acc + FoldTasks(0, nodes)
    decreases |nodes|
  {
    if nodes != [] {
      FoldTasksShift(acc + CountTasks(nodes[0]), nodes[1..]);
      FoldTasksShift(CountTasks(nodes[0]), nodes[1..]);
    }
  }

  /** Childless tasks count one each. */
  lemma {:induction false} AllLeaves(nodes: seq<Node>)
    requires forall i :: 0 <= i < |nodes| ==> nodes[i].kind == Task && nodes[i].children == []
    ensures FoldTasks(0, nodes) == |nodes|
    decreases |nodes|
  {
    if nodes != [] {
      assert CountTasks(nodes[0]) == 1 + FoldTasks(0, []);
      AllLeaves(nodes[1..]);
      FoldTasksShift(1, nodes[1..]);
    }
  }

  /** The sum over two or three nodes, one count at a time. */
  lemma SumOfCounts(nodes: seq<Node>)
    requires 2 <= |nodes| <= 3
    ensures |nodes| == 2 ==> FoldTasks(0, nodes) == CountTasks(nodes[0]) + CountTasks(nodes[1])
    ensures |nodes| == 3 ==>
      FoldTasks(0, nodes) == CountTasks(nodes[0]) + CountTasks(nodes[1]) + CountTasks(nodes[2])
  {
    FoldTasksShift(CountTasks(nodes[0]), nodes[1..]);
    FoldTasksShift(CountTasks(nodes[1]), nodes[2..]);
    if |nodes| == 3 {
      FoldTasksShift(CountTasks(nodes[2]), nodes[3..]);
    }
  }

  /** `toggleNode` on a copy of the set: remove the id if present, add it otherwise. */
  function Toggled(expanded: set<string>, id: string): (r: set<string>)
    ensures id in r <==> id !in expanded
    ensures forall other :: other != id ==> (other in r <==> other in expanded)
  {
    if id in expanded then expanded - {id} else expanded + {id}
  }

  /** Toggling the same id twice restores the set. */
  lemma ToggledTwice(expanded: set<string>, id: string)
    ensures Toggled(Toggled(expanded, id), id) == expanded
  {
  }

  function HasChildren(node: Node): bool { |node.children| > 0 }

  function IdIs(id: string): Node -> bool { (n: Node) => n.id == id }

  /** The page's state: the expanded node ids and the selected project id. */
  class ProjectsView {
    var expanded: set<string>
    var selected: string
    const projects: seq<Node>

    constructor()
      ensures expanded == {"tedx", "blead"} && selected == "tedx"
      ensures projects == BecProjects()
    {
      expanded := {"tedx", "blead"};
      selected := "tedx";
      projects := BecProjects();
    }

    method ToggleNode(id: string)
      modifies this`expanded
      ensures expanded == Toggled(old(expanded), id)
    {
      var copy := expanded;
      if id in copy {
        copy := copy - {id};
      } else {
        copy := copy + {id};
      }
      expanded := copy;
    }

    /** A click on a node's row: nodes with children toggle, projects become selected. */
    method Click(node: Node)
      modifies this
      ensures expanded == if HasChildren(node) then Toggled(old(expanded), node.id) else old(expanded)
      ensures selected == if node.kind == ProjectNode then node.id else old(selected)
    {
      if HasChildren(node) {
        ToggleNode(node.id);
      }
      if node.kind == ProjectNode {
        selected := node.id;
      }
    }

    /** A click on the chevron, shown only for nodes with children, toggles without selecting. */
    method ChevronClick(node: Node)
      requires HasChildren(node)
      modifies this`expanded
      ensures expanded == Toggled(old(expanded), node.id)
    {
      ToggleNode(node.id);
    }

    /** `becProjects.find(p => p.id === selectedProject)`: the first top-level node with that id. */
    function SelectedProject(): (r: Option<Node>)
      reads this
      ensures r.None? <==> forall i :: 0 <= i < |projects| ==> projects[i].id != selected
      ensures r.Some? ==> r.value.id == selected
      ensures r.Some? ==>
        exists i :: 0 <= i < |projects| && projects[i] == r.value &&
          forall j :: 0 <= j < i ==> projects[j].id != selected
    {
      Find(projects, IdIs(selected))
    }
  }
}

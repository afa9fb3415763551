/**
 * The project registry: an ordered list of projects and a current project.
 * Projects are identified by their object reference (`ref`); lookup by the
 * UUID string `id` is separate.
 */
module ProjectManagers {
  import opened Wrappers
  import opened PaperSizes
  import opened Projects

  datatype ProjectManager = ProjectManager(projects: seq<Project>, current: Ref)

  const FirstProjectName: string := "My First Project"

  /** The position of the first project that is the object `r`, or -1. */
  function IndexOf(ps: seq<Project>, r: Ref): (k: int)
    ensures -1 <= k < |ps|
    ensures k >= 0 ==> ps[k].ref == r
    ensures forall j :: 0 <= j < |ps| && (k < 0 || j < k) ==> ps[j].ref != r
    decreases |ps|
  {
    if ps == [] then -1
    else if ps[0].ref == r then 0
    else
      var k := IndexOf(ps[1..], r);
      if k < 0 then -1 else k + 1
  }

  predicate Contains(ps: seq<Project>, r: Ref)
  {
    IndexOf(ps, r) >= 0
  }

  /** No object appears twice in the list: each `new Project()` is a distinct object. */
  predicate Distinct(ps: seq<Project>)
  {
    forall i, j :: 0 <= i < |ps| && 0 <= j < |ps| && ps[i].ref == ps[j].ref ==> i == j
  }

  /**
   * The list is never empty, holds each object at most once, and the current
   * project is one of its members.
   */
  predicate Valid(m: ProjectManager)
  {
    |m.projects| >= 1 && Distinct(m.projects) && Contains(m.projects, m.current)
  }

  /** The largest reference in the list, or 0 for an empty list. */
  function MaxRef(ps: seq<Project>): (r: Ref)
    ensures forall k :: 0 <= k < |ps| ==> ps[k].ref <= r
    decreases |ps|
  {
    if ps == [] then 0
    else
      var rest := MaxRef(ps[1..]);
      if ps[0].ref >= rest then ps[0].ref else rest
  }

  /** A reference no listed project has: what `new` yields for a fresh object. */
  function FreshRef(ps: seq<Project>): (r: Ref)
    ensures !Contains(ps, r)
  {
    MaxRef(ps) + 1
  }

  /** Every project's paper size agrees with its content's. */
  predicate AllCoherent(m: ProjectManager)
  {
    forall k :: 0 <= k < |m.projects| ==> Coherent(m.projects[k])
  }

  /** A fresh registry: one A4 project named "My First Project", which is current. */
  function New(ref: Ref, id: string): (m: ProjectManager)
    ensures |m.projects| == 1
    ensures m.projects[0].name == FirstProjectName && m.projects[0].paperSize == A4
    ensures m.projects[0].ref == m.current == ref && m.projects[0].id == id
    ensures Valid(m) && AllCoherent(m)
  {
    var first := NewNamed(ref, id, FirstProjectName, A4);
    ProjectManager([first], first.ref)
  }

  /** The current project. */
  function CurrentProject(m: ProjectManager): (p: Project)
    requires Valid(m)
    ensures p.ref == m.current
    ensures p in m.projects
  {
    m.projects[IndexOf(m.projects, m.current)]
  }

  /** createProject(): a default project for the fresh object `ref`, appended at the end. */
  function CreateProject(m: ProjectManager, ref: Ref, id: string): (r: (ProjectManager, Project))
    requires !Contains(m.projects, ref)
    ensures r.0.projects == m.projects + [r.1]
    ensures r.0.current == m.current
    ensures r.1 == NewDefault(ref, id)
    ensures Valid(m) ==> Valid(r.0)
    ensures AllCoherent(m) ==> AllCoherent(r.0)
  {
    Add(m, NewDefault(ref, id))
  }

  /** createProject(name, size): a named project for the fresh object `ref`, appended at the end. */
  function CreateNamedProject(m: ProjectManager, ref: Ref, id: string, name: string, size: PaperSize)
    : (r: (ProjectManager, Project))
    requires !Contains(m.projects, ref)
    ensures r.0.projects == m.projects + [r.1]
    ensures r.0.current == m.current
    ensures r.1 == NewNamed(ref, id, name, size)
    ensures Valid(m) ==> Valid(r.0)
    ensures AllCoherent(m) ==> AllCoherent(r.0)
  {
    Add(m, NewNamed(ref, id, name, size))
  }

  function Add(m: ProjectManager, p: Project): (r: (ProjectManager, Project))
    requires Coherent(p)
    requires !Contains(m.projects, p.ref)
    ensures r.0.projects == m.projects + [p] && r.1 == p
    ensures r.0.current == m.current
    ensures Valid(m) ==> Valid(r.0)
    ensures AllCoherent(m) ==> AllCoherent(r.0)
  {
    var ps := m.projects + [p];
    assert Contains(m.projects, m.current) ==> Contains(ps, m.current) by {
      if Contains(m.projects, m.current) {
        assert ps[IndexOf(m.projects, m.current)].ref == m.current;
      }
    }
    (m.(projects := ps), p)
  }

  /** The list without its position `k`. */
  function RemoveAt(ps: seq<Project>, k: nat): (r: seq<Project>)
    requires k < |ps|
    ensures |r| == |ps| - 1
    ensures forall j :: 0 <= j < k ==> r[j] == ps[j]
    ensures forall j :: k <= j < |r| ==> r[j] == ps[j + 1]
  {
    ps[..k] + ps[k + 1..]
  }

  /**
   * deleteProject: refuses (false, nothing changes) when at most one project
   * is left or the object is not in the list; otherwise removes its first
   * occurrence and, if it was current, makes the new first project current.
   */
  function DeleteProject(m: ProjectManager, r: Ref): (res: (ProjectManager, bool))
    ensures res.1 <==> |m.projects| > 1 && Contains(m.projects, r)
    ensures !res.1 ==> res.0 == m
    ensures res.1 ==> res.0.projects == RemoveAt(m.projects, IndexOf(m.projects, r))
    ensures res.1 && r == m.current ==> res.0.current == res.0.projects[0].ref
    ensures res.1 && r != m.current ==> res.0.current == m.current
    ensures |m.projects| >= 1 ==> |res.0.projects| >= 1
    ensures Valid(m) ==> Valid(res.0)
    ensures AllCoherent(m) ==> AllCoherent(res.0)
  {
    if |m.projects| <= 1 then (m, false)
    else
      var k := IndexOf(m.projects, r);
      if k < 0 then (m, false)
      else
        var ps := RemoveAt(m.projects, k);
        if r == m.current then
          assert IndexOf(ps, ps[0].ref) >= 0;
          (ProjectManager(ps, ps[0].ref), true)
        else
          assert Contains(m.projects, m.current) ==> Contains(ps, m.current) by {
            if Contains(m.projects, m.current) {
              var j := IndexOf(m.projects, m.current);
              assert j != k;
              if j < k { assert ps[j].ref == m.current; }
              else { assert ps[j - 1].ref == m.current; }
            }
          }
          (m.(projects := ps), true)
  }

  /** setCurrentProject: takes effect only for a member of the list. */
  function SetCurrentProject(m: ProjectManager, r: Ref): (res: ProjectManager)
    ensures Contains(m.projects, r) ==> res.current == r
    ensures !Contains(m.projects, r) ==> res == m
    ensures res.projects == m.projects
    ensures Valid(m) ==> Valid(res)
  {
    if Contains(m.projects, r) then m.(current := r) else m
  }

  /**
   * updateProject: renames the object `r` and sets its paper size through the
   * restricted setter, which leaves its content untouched. A project not in
   * the list is not part of the registry's state.
   */
  function UpdateProject(m: ProjectManager, r: Ref, name: string, size: PaperSize): (res: ProjectManager)
    ensures |res.projects| == |m.projects| && res.current == m.current
    ensures forall k :: 0 <= k < |m.projects| && m.projects[k].ref != r ==> res.projects[k] == m.projects[k]
    ensures forall k :: 0 <= k < |m.projects| && m.projects[k].ref == r ==>
      res.projects[k] == m.projects[k].(name := name, paperSize := size)
    ensures Valid(m) ==> Valid(res)
  {
    var ps := seq(|m.projects|, k requires 0 <= k < |m.projects| =>
      var p := m.projects[k];
      if p.ref == r then SetPaperSize(SetName(p, name), size) else p);
    assert forall k :: 0 <= k < |ps| ==> ps[k].ref == m.projects[k].ref;
    assert Contains(m.projects, m.current) ==> Contains(ps, m.current) by {
      if Contains(m.projects, m.current) {
        assert ps[IndexOf(m.projects, m.current)].ref == m.current;
      }
    }
    ProjectManager(ps, m.current)
  }

  /**
   * updateProject is the one public path that can make a project's paper size
   * disagree with its content: starting from coherent projects, it keeps them
   * all coherent exactly when the new size is the content size of the updated
   * object.
   */
  lemma UpdateCoherence(m: ProjectManager, r: Ref, name: string, size: PaperSize)
    requires AllCoherent(m)
    ensures AllCoherent(UpdateProject(m, r, name, size)) <==>
      forall k :: 0 <= k < |m.projects| && m.projects[k].ref == r ==> m.projects[k].content.paperSize == size
  {
    var res := UpdateProject(m, r, name, size);
    if !AllCoherent(res) {
      var j :| 0 <= j < |res.projects| && !Coherent(res.projects[j]);
      assert m.projects[j].ref == r;
    }
  }

  /** getProject(id): the first project with that id, or nothing. */
  method GetProject(m: ProjectManager, id: string) returns (r: Option<Project>)
    ensures r.None? <==> forall k :: 0 <= k < |m.projects| ==> m.projects[k].id != id
    ensures r.Some? ==> r.value.id == id && exists k :: (0 <= k < |m.projects| && m.projects[k] == r.value
      && forall j :: 0 <= j < k ==> m.projects[j].id != id)
  {
    var i := 0;
    while i < |m.projects|
      invariant 0 <= i <= |m.projects|
      invariant forall j :: 0 <= j < i ==> m.projects[j].id != id
    {
      if m.projects[i].id == id {
        return Some(m.projects[i]);
      }
      i := i + 1;
    }
    return None;
  }

  /** The registry's own operations; a creation allocates a fresh object. */
  datatype Command =
    | Create(id: string)
    | CreateNamed(id: string, name: string, size: PaperSize)
    | Delete(ref: Ref)
    | Select(ref: Ref)
    | Update(ref: Ref, name: string, size: PaperSize)

  function Apply(m: ProjectManager, c: Command): ProjectManager
  {
    match c
    case Create(id) => CreateProject(m, FreshRef(m.projects), id).0
    case CreateNamed(id, name, size) => CreateNamedProject(m, FreshRef(m.projects), id, name, size).0
    case Delete(ref) => DeleteProject(m, ref).0
    case Select(ref) => SetCurrentProject(m, ref)
    case Update(ref, name, size) => UpdateProject(m, ref, name, size)
  }

  function ApplyAll(m: ProjectManager, cs: seq<Command>): ProjectManager
    decreases |cs|
  {
    if cs == [] then m else ApplyAll(Apply(m, cs[0]), cs[1..])
  }

  /**
   * Whatever the registry's own operations do, the list is never emptied,
   * never holds an object twice, and the current project stays a member of it; without updates every project
   * also stays coherent.
   */
  lemma {:induction false} OperationsKeepValid(m: ProjectManager, cs: seq<Command>)
    requires Valid(m)
    ensures Valid(ApplyAll(m, cs))
    ensures AllCoherent(m) && (forall i :: 0 <= i < |cs| ==> !cs[i].Update?) ==>
      AllCoherent(ApplyAll(m, cs))
    decreases |cs|
  {
    if cs != [] {
      OperationsKeepValid(Apply(m, cs[0]), cs[1..]);
      if AllCoherent(m) && !cs[0].Update? {
        assert AllCoherent(Apply(m, cs[0]));
      }
    }
  }
}

/**
 * A sketch project: identity, name, paper size and drawing content. The
 * creation and modification timestamps are not modelled.
 */
module Projects {
  import opened PaperSizes
  import opened DrawOperations
  import C = ProjectContents

  /**
   * Stands for the Java object reference: Project does not override equals, so
   * two projects are "the same" exactly when they are the same object.
   */
  type Ref = nat

  datatype Project = Project(
    ref: Ref,
    id: string,
    name: string,
    paperSize: PaperSize,
    content: C.ProjectContent)

  const UntitledName: string := "Untitled Project"

  /** The project's paper size agrees with the paper size its content was made for. */
  predicate Coherent(p: Project)
  {
    p.paperSize == p.content.paperSize
  }

  /**
   * The default project, for a fresh object `ref` with the random UUID `id`:
   * untitled, A4, with an empty A4 drawing.
   */
  function NewDefault(ref: Ref, id: string): (p: Project)
    ensures p.ref == ref && p.id == id
    ensures p.name == UntitledName
    ensures p.paperSize == A4 && p.content.paperSize == A4
    ensures p.content.operations == []
  {
    Project(ref, id, UntitledName, A4, C.New(A4))
  }

  /**
   * A project with a given name and paper size: built as the default project,
   * then given the name, the size and a new content of that size.
   */
  function NewNamed(ref: Ref, id: string, name: string, size: PaperSize): (p: Project)
    ensures p.ref == ref && p.id == id
    ensures p.name == name
    ensures p.paperSize == size && p.content.paperSize == size
    ensures p.content.operations == []
  {
    var p := NewDefault(ref, id);
    p.(name := name, paperSize := size, content := C.New(size))
  }

  function SetName(p: Project, name: string): (r: Project)
    ensures r.name == name
    ensures r.ref == p.ref && r.id == p.id && r.paperSize == p.paperSize && r.content == p.content
  {
    p.(name := name)
  }

  /**
   * The restricted setter: changes the recorded paper size but not the content,
   * so the project stays coherent only when the size is the content's own.
   */
  function SetPaperSize(p: Project, size: PaperSize): (r: Project)
    ensures r.paperSize == size
    ensures r.ref == p.ref && r.id == p.id && r.name == p.name && r.content == p.content
    ensures Coherent(r) <==> size == p.content.paperSize
  {
    p.(paperSize := size)
  }

  function AddDrawOperation(p: Project, op: DrawOperation): (r: Project)
    ensures r.content.operations == p.content.operations + [op]
    ensures r.content.paperSize == p.content.paperSize
    ensures r.ref == p.ref && r.id == p.id && r.name == p.name && r.paperSize == p.paperSize
  {
    p.(content := C.AddOperation(p.content, op))
  }

  function ClearContent(p: Project): (r: Project)
    ensures r.content.operations == []
    ensures r.content.paperSize == p.content.paperSize
    ensures r.ref == p.ref && r.id == p.id && r.name == p.name && r.paperSize == p.paperSize
  {
    p.(content := C.Clear(p.content))
  }

  /** A project is shown by its name. */
  function ToString(p: Project): string
  {
    p.name
  }

  lemma ToStringShowsLatestName(p: Project, name: string)
    ensures ToString(SetName(p, name)) == name
    ensures ToString(NewNamed(p.ref, p.id, name, p.paperSize)) == name
  {
  }

  /** The public operations of a project (the restricted paper-size setter is not one). */
  datatype Change = Rename(name: string) | Append(op: DrawOperation) | ClearDrawing

  function ApplyChange(p: Project, c: Change): Project
  {
    match c
    case Rename(name) => SetName(p, name)
    case Append(op) => AddDrawOperation(p, op)
    case ClearDrawing => ClearContent(p)
  }

  function ApplyChanges(p: Project, cs: seq<Change>): Project
    decreases |cs|
  {
    if cs == [] then p else ApplyChanges(ApplyChange(p, cs[0]), cs[1..])
  }

  /**
   * Both constructors give a coherent project, and no sequence of public
   * operations breaks coherence, nor changes the identity or paper size.
   */
  lemma {:induction false} PublicOperationsKeepCoherence(p: Project, cs: seq<Change>)
    requires Coherent(p)
    ensures Coherent(ApplyChanges(p, cs))
    ensures ApplyChanges(p, cs).ref == p.ref && ApplyChanges(p, cs).id == p.id
    ensures ApplyChanges(p, cs).paperSize == p.paperSize
    decreases |cs|
  {
    if cs != [] {
      PublicOperationsKeepCoherence(ApplyChange(p, cs[0]), cs[1..]);
    }
  }

  lemma ConstructorsAreCoherent(ref: Ref, id: string, name: string, size: PaperSize)
    ensures Coherent(NewDefault(ref, id))
    ensures Coherent(NewNamed(ref, id, name, size))
  {
  }
}

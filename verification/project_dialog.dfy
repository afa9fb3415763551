/**
 * The result converter of the create/edit project dialog: which project, if
 * any, the dialog yields for the button pressed, and the rule that a blank
 * name becomes "Untitled Project".
 */
module ProjectDialogs {
  import opened Wrappers
  import opened PaperSizes
  import P = Projects

  /** The confirming button ("Create" or "Save"), or any other way of closing. */
  datatype Button = Confirm | Dismiss

  /** Java's String.trim: every character at or below U+0020 counts as blank. */
  predicate IsBlankChar(ch: char)
  {
    ch <= ' '
  }

  predicate IsBlank(s: string)
  {
    forall i :: 0 <= i < |s| ==> IsBlankChar(s[i])
  }

  /** Drops the leading blank characters. */
  function TrimStart(s: string): (r: string)
    ensures |r| <= |s| && r == s[|s| - |r|..]
    ensures r == [] || !IsBlankChar(r[0])
    ensures forall i :: 0 <= i < |s| - |r| ==> IsBlankChar(s[i])
    decreases |s|
  {
    if |s| > 0 && IsBlankChar(s[0]) then TrimStart(s[1..]) else s
  }

  /** Drops the trailing blank characters. */
  function TrimEnd(s: string): (r: string)
    ensures |r| <= |s| && r == s[..|r|]
    ensures r == [] || !IsBlankChar(r[|r| - 1])
    ensures forall i :: |r| <= i < |s| ==> IsBlankChar(s[i])
    decreases |s|
  {
    if |s| > 0 && IsBlankChar(s[|s| - 1]) then TrimEnd(s[..|s| - 1]) else s
  }

  function Trim(s: string): string
  {
    TrimEnd(TrimStart(s))
  }

  /** A string trims to nothing exactly when all of its characters are blank. */
  lemma TrimEmptyIffBlank(s: string)
    ensures Trim(s) == [] <==> IsBlank(s)
  {
    var t := TrimStart(s);
    if Trim(s) == [] {
      forall i | 0 <= i < |s|
        ensures IsBlankChar(s[i])
      {
        if i >= |s| - |t| {
          assert s[i] == t[i - (|s| - |t|)];
        }
      }
    }
  }

  /** The name the dialog uses: the field's text verbatim, or the default when blank. */
  function ChosenName(text: string): (name: string)
    ensures IsBlank(text) ==> name == P.UntitledName
    ensures !IsBlank(text) ==> name == text
  {
    TrimEmptyIffBlank(text);
    if Trim(text) == [] then P.UntitledName else text
  }

  /**
   * The result converter. `editing` is the project being edited, or None when
   * the dialog creates a project; `selected` is the paper size chosen in the
   * combo box (A4 unless the user picked another); `ref` and `id` stand for
   * the fresh object and its random UUID when a project is created.
   */
  function ConvertResult(button: Button, editing: Option<P.Project>, text: string,
                         selected: PaperSize, ref: P.Ref, id: string): (r: Option<P.Project>)
    ensures button == Dismiss ==> r == None
    ensures button == Confirm ==> r.Some? && r.value.name == ChosenName(text)
    ensures button == Confirm && editing.None? ==>
      r.value.ref == ref && r.value.id == id && r.value.paperSize == selected
      && r.value.content.paperSize == selected && r.value.content.operations == []
    ensures button == Confirm && editing.Some? ==>
      r.value.ref == editing.value.ref && r.value.id == editing.value.id
      && r.value.paperSize == editing.value.paperSize && r.value.content == editing.value.content
  {
    match button
    case Dismiss => None
    case Confirm =>
      match editing
      case None => Some(P.NewNamed(ref, id, ChosenName(text), selected))
      case Some(project) => Some(P.SetName(project, ChosenName(text)))
  }

  /** The combo box starts on A4, so accepting the defaults creates an A4 project. */
  const DefaultSelection: PaperSize := A4

  lemma CreateWithDefaults(text: string, ref: P.Ref, id: string)
    ensures ConvertResult(Confirm, None, text, DefaultSelection, ref, id).value.paperSize == A4
    ensures IsBlank(text) ==>
      ConvertResult(Confirm, None, text, DefaultSelection, ref, id).value.name == P.UntitledName
  {
  }

  /** A non-blank name with surrounding spaces is kept as typed, not trimmed. */
  lemma NameNotTrimmed()
    ensures ChosenName(" My Sketch ") == " My Sketch "
    ensures ChosenName(" \t ") == P.UntitledName
  {
    assert !IsBlankChar(" My Sketch "[1]);
  }
}

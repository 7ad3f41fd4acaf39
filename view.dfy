/** `get_view` of stock.picking: in a form view, the creation context of
    the `move_ids_without_package` field gets a `default_sequence` entry
    ahead of its existing entries, so rows added in the form continue the
    numbering from `max_line_sequence`. The arch is taken as already
    parsed: the field elements of the document in document order. */
module PickingView {
  import opened Records

  datatype Element = Element(tag: string, attrs: map<string, string>)

  /** What the base `get_view` returns: the parsed arch (None when the
      result has no arch or an empty one) and the other entries. */
  datatype ViewResult = ViewResult(arch: Option<seq<Element>>, rest: map<string, string>)

  const MoveField := "move_ids_without_package"

  /** The text put in front of the existing context entries. It names the
      picking's `max_line_sequence` field, which the web client evaluates
      against the record. */
  const DefaultSequenceEntry := "{'default_sequence': max_line_sequence, "

  /** Matches `//field[@name='move_ids_without_package']`. */
  predicate IsMoveField(e: Element)
  {
    e.tag == "field" && "name" in e.attrs && e.attrs["name"] == MoveField
  }

  /** The element's `context` attribute, `{}` when it has none. */
  function ContextOf(e: Element): string
  {
    if "context" in e.attrs then e.attrs["context"] else "{}"
  }

  /** Drop the first character of the context (its opening brace) and
      put the default-sequence entry in its place. */
  function SpliceContext(c: string): (r: string)
    ensures |r| == |DefaultSequenceEntry| + (if c == [] then 0 else |c| - 1)
    ensures r[..|DefaultSequenceEntry|] == DefaultSequenceEntry
    ensures forall j :: 1 <= j < |c| ==> r[|DefaultSequenceEntry| + j - 1] == c[j]
  {
    DefaultSequenceEntry + (if c == [] then [] else c[1..])
  }

  /** Inverse of the splice on contexts written as a dictionary display:
      remove the entry and give back the opening brace. Used only to state
      that the splice loses nothing. */
  function StripDefaultSequence(r: string): (c: Option<string>)
    ensures c.Some? ==> |c.value| > 0 && c.value[0] == '{'
    ensures c.None? <==>
      !(|r| >= |DefaultSequenceEntry| && r[..|DefaultSequenceEntry|] == DefaultSequenceEntry)
  {
    var n := |DefaultSequenceEntry|;
    if |r| >= n && r[..n] == DefaultSequenceEntry then Some("{" + r[n..]) else None
  }

  lemma {:induction false} SpliceRoundTrip(c: string)
    requires |c| > 0 && c[0] == '{'
    ensures StripDefaultSequence(SpliceContext(c)) == Some(c)
  {
    var r := SpliceContext(c);
    assert r[|DefaultSequenceEntry|..] == c[1..];
    assert "{" + c[1..] == c;
  }

  /** Index of the first element the XPath lookup finds, if any. */
  function FirstMoveField(arch: seq<Element>): (r: Option<nat>)
    ensures r.Some? ==> r.value < |arch| && IsMoveField(arch[r.value])
    ensures r.Some? ==> forall j :: 0 <= j < r.value ==> !IsMoveField(arch[j])
    ensures r.None? ==> forall j :: 0 <= j < |arch| ==> !IsMoveField(arch[j])
  {
    if arch == [] then None
    else if IsMoveField(arch[0]) then Some(0)
    else
      match FirstMoveField(arch[1..])
      case None => None
      case Some(k) => Some(k + 1)
  }

  function PatchElement(e: Element): Element
  {
    e.(attrs := e.attrs["context" := SpliceContext(ContextOf(e))])
  }

  /** The view after the override: patched only for a form view with an
      arch in which the move list field is found. */
  function GetView(res: ViewResult, viewType: string): (r: ViewResult)
    ensures r.rest == res.rest
    ensures viewType != "form" || res.arch.None? ==> r == res
    ensures viewType == "form" && res.arch.Some? && FirstMoveField(res.arch.value).None? ==> r == res
    ensures viewType == "form" && res.arch.Some? && FirstMoveField(res.arch.value).Some? ==>
      var a, i := res.arch.value, FirstMoveField(res.arch.value).value;
      r.arch.Some? && |r.arch.value| == |a| &&
      (forall j :: 0 <= j < |a| && j != i ==> r.arch.value[j] == a[j]) &&
      r.arch.value[i].tag == a[i].tag &&
      r.arch.value[i].attrs.Keys == a[i].attrs.Keys + {"context"} &&
      (forall k :: k in a[i].attrs && k != "context" ==> r.arch.value[i].attrs[k] == a[i].attrs[k]) &&
      r.arch.value[i].attrs["context"] == SpliceContext(ContextOf(a[i]))
  {
    if viewType == "form" && res.arch.Some? then
      match FirstMoveField(res.arch.value)
      case None => res
      case Some(i) => res.(arch := Some(res.arch.value[i := PatchElement(res.arch.value[i])]))
    else res
  }

  /** In a patched form view the lookup still finds the same element, and
      its context now opens with the default-sequence entry; for a field
      without a context this is the entry followed by the closing brace. */
  lemma {:induction false} GetViewInjectsDefault(res: ViewResult)
    requires res.arch.Some? && FirstMoveField(res.arch.value).Some?
    ensures GetView(res, "form").arch.Some?
    ensures FirstMoveField(GetView(res, "form").arch.value) == FirstMoveField(res.arch.value)
    ensures var e := GetView(res, "form").arch.value[FirstMoveField(res.arch.value).value];
      "context" in e.attrs && e.attrs["context"][..|DefaultSequenceEntry|] == DefaultSequenceEntry
    ensures var i := FirstMoveField(res.arch.value).value;
      "context" !in res.arch.value[i].attrs ==>
      GetView(res, "form").arch.value[i].attrs["context"] == DefaultSequenceEntry + "}"
  {
    var a := res.arch.value;
    var i := FirstMoveField(a).value;
    var a' := GetView(res, "form").arch.value;
    assert IsMoveField(a'[i]);
    FirstMoveFieldAt(a', i);
    if "context" !in a[i].attrs {
      assert "{}"[1..] == "}";
    }
  }

  /** The lookup finds the first matching element, and no other. */
  lemma {:induction false} FirstMoveFieldAt(arch: seq<Element>, i: nat)
    requires i < |arch| && IsMoveField(arch[i])
    requires forall j :: 0 <= j < i ==> !IsMoveField(arch[j])
    ensures FirstMoveField(arch) == Some(i)
  {
    if i > 0 {
      FirstMoveFieldAt(arch[1..], i - 1);
    }
  }
}

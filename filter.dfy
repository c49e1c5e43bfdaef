/** The pandoc filter of the theme: a per-node rewrite that turns an
    admonition block (a Div whose first class names one of four
    categories) into a LaTeX environment around the block's children.

    Pandoc elements are modelled as a small closed datatype; the tree walk
    and the JSON (de)serialisation of the host library are not part of
    this model. */
module Filter {

  datatype Option<T> = None | Some(value: T)

  /** Block elements, as far as the rewrite can tell them apart. */
  datatype Node =
    | Div(classes: seq<string>, content: seq<Node>)
    | RawBlock(text: string, format: string)
    | Other(kind: string)

  /** The enclosing document the host passes along; the rewrite ignores it. */
  datatype Doc = Doc(blocks: seq<Node>)

  /** The exception the Python code raises on an empty class list. */
  datatype Exception = IndexError

  /** What the rewrite hands back to the host for one node:
      `Keep` is Python's `None` (leave the node alone), `Replace` a list
      of blocks spliced in its place, `Raised` an exception. */
  datatype Outcome =
    | Keep
    | Replace(blocks: seq<Node>)
    | Raised(error: Exception)

  /** The admonition categories: note, tips, warning, definition. */
  const Admonitions: set<string> := {"remarque", "conseils", "attention", "definition"}

  const Latex: string := "latex"

  const BeginPrefix: string := "\\begin{"
  const EndPrefix: string := "\\end{"

  /** Opening marker of the LaTeX environment named `c`. */
  function Begin(c: string): (t: string)
    ensures |t| == |c| + 8 && t[|t| - 1] == '}'
    ensures t[..7] == BeginPrefix && t[7..|t| - 1] == c
  {
    BeginPrefix + c + "}"
  }

  /** Closing marker of the LaTeX environment named `c`. */
  function End(c: string): (t: string)
    ensures |t| == |c| + 6 && t[|t| - 1] == '}'
    ensures t[..5] == EndPrefix && t[5..|t| - 1] == c
  {
    EndPrefix + c + "}"
  }

  /** The filter's `action`. The test evaluates the Div check before the
      index, as Python's `and` does, so only a Div can raise. */
  function Action(elem: Node, doc: Doc): (r: Outcome)
    ensures r.Raised? <==> elem.Div? && elem.classes == []
    ensures r.Replace? <==> elem.Div? && elem.classes != [] && elem.classes[0] in Admonitions
    ensures r.Replace? ==>
      var c := elem.classes[0];
      && |r.blocks| == |elem.content| + 2
      && r.blocks[0] == RawBlock(Begin(c), Latex)
      && r.blocks[1..|r.blocks| - 1] == elem.content
      && r.blocks[|r.blocks| - 1] == RawBlock(End(c), Latex)
  {
    if elem.Div? then
      if |elem.classes| == 0 then Raised(IndexError)
      else
        var c := elem.classes[0];
        if c in Admonitions then
          Replace([RawBlock(Begin(c), Latex)] + elem.content + [RawBlock(End(c), Latex)])
        else Keep
    else Keep
  }

  /** Reads a replacement back: the environment name and the children it
      wraps, if `blocks` is a begin marker, any blocks, and the matching end
      marker. The inverse of a successful `Action`. */
  function Unwrap(blocks: seq<Node>): (r: Option<(string, seq<Node>)>)
    ensures r.Some? ==> |blocks| == |r.value.1| + 2 && blocks[1..|blocks| - 1] == r.value.1
  {
    if |blocks| < 2 then None
    else
      match blocks[0]
      case RawBlock(t, f) =>
        if f == Latex && |t| >= 8 && t[..7] == BeginPrefix && t[|t| - 1] == '}' then
          var c := t[7..|t| - 1];
          if blocks[|blocks| - 1] == RawBlock(End(c), Latex) then
            Some((c, blocks[1..|blocks| - 1]))
          else None
        else None
      case _ => None
  }

  /** Different names give different markers, and an opening marker is
      never a closing one. */
  lemma MarkersDistinct(a: string, b: string)
    ensures Begin(a) == Begin(b) ==> a == b
    ensures End(a) == End(b) ==> a == b
    ensures Begin(a) != End(b)
  {
    assert Begin(a)[1] == 'b' && End(b)[1] == 'e';
  }

  /** The `doc` argument has no influence on the rewrite. */
  lemma ActionIgnoresDoc(elem: Node, d1: Doc, d2: Doc)
    ensures Action(elem, d1) == Action(elem, d2)
  {
  }

  /** Only the first class is consulted: two Divs with the same children
      and the same first class are rewritten alike, whatever follows. */
  lemma OnlyFirstClassMatters(c: string, rest1: seq<string>, rest2: seq<string>, content: seq<Node>, doc: Doc)
    ensures Action(Div([c] + rest1, content), doc) == Action(Div([c] + rest2, content), doc)
    ensures c !in Admonitions ==> Action(Div([c] + rest1, content), doc) == Keep
  {
  }

  /** Round trip: the category and the untouched children of an admonition
      can be read back from its replacement. */
  lemma UnwrapAction(c: string, rest: seq<string>, content: seq<Node>, doc: Doc)
    requires c in Admonitions
    ensures Action(Div([c] + rest, content), doc).Replace?
    ensures Unwrap(Action(Div([c] + rest, content), doc).blocks) == Some((c, content))
  {
  }

  /** Converse round trip: whatever `Unwrap` accepts with an admonition
      name is exactly what `Action` produces for a Div of that category. */
  lemma {:induction false} ActionUnwrap(blocks: seq<Node>, rest: seq<string>, doc: Doc)
    requires Unwrap(blocks).Some? && Unwrap(blocks).value.0 in Admonitions
    ensures
      var (c, content) := Unwrap(blocks).value;
      Action(Div([c] + rest, content), doc) == Replace(blocks)
  {
    var (c, content) := Unwrap(blocks).value;
    var t := blocks[0].text;
    assert t == t[..7] + t[7..|t| - 1] + [t[|t| - 1]];
    assert t == Begin(c);
    var r := Action(Div([c] + rest, content), doc).blocks;
    assert |r| == |blocks|;
    forall i | 0 <= i < |r|
      ensures r[i] == blocks[i]
    {
      if 0 < i < |r| - 1 {
        assert r[i] == r[1..|r| - 1][i - 1];
        assert blocks[i] == blocks[1..|blocks| - 1][i - 1];
      }
    }
  }

  /** A Div with an empty class list is an error, not a silent no-match;
      every node that is not a Div is kept as it is. */
  lemma ErrorOnlyOnEmptyDiv(elem: Node, doc: Doc)
    ensures !elem.Div? ==> Action(elem, doc) == Keep
    ensures elem.Div? && elem.classes == [] ==> Action(elem, doc) == Raised(IndexError)
  {
  }
}

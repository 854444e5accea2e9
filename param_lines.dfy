/**
 * The parameter block shared by the two streaming routes' instruction
 * builders: the `addParam(label, value)` closure appends `- label: value\n`
 * for a truthy value, and the block is introduced by a fixed heading only
 * when it is non-empty. A parser reads the block back, so that what the
 * builders emit can be stated as the list of (label, value) pairs it encodes.
 */
module ParamLines {
  import opened Wrappers
  import opened JsStrings
  import opened Options

  /** One `addParam(label, options.key)` call. */
  datatype Field = Field(caption: string, key: string)

  /** The heading that introduces the mode's task sentence. */
  const TaskHeading: string := "\n\n### Task\n"

  /** The heading that introduces the parameter block. */
  const ParamsHeading: string := "\n\n### Parameters to Incorporate\n"

  /** The text of one parameter line. */
  function Line(caption: string, value: string): string {
    "- " + caption + ": " + value + "\n"
  }

  /** The `addParam` closure: `acc` is `paramsToIncorporate` before the call. */
  function AddParam(acc: string, caption: string, value: Option<string>): string {
    if Truthy(value) then acc + Line(caption, value.value) else acc
  }

  /** `paramsToIncorporate` after one `addParam` call per field, in order. */
  function Lines(o: OptionMap, fs: seq<Field>): string
    decreases |fs|
  {
    if |fs| == 0 then ""
    else AddParam(Lines(o, fs[..|fs| - 1]), fs[|fs| - 1].caption, Get(o, fs[|fs| - 1].key))
  }

  /**
   * Reference definition: the (caption, value) pairs of the fields whose
   * option value is truthy, in field order.
   */
  function Incorporated(o: OptionMap, fs: seq<Field>): seq<(string, string)>
    decreases |fs|
  {
    if |fs| == 0 then []
    else
      var f := fs[|fs| - 1];
      Incorporated(o, fs[..|fs| - 1]) + (if Truthy(Get(o, f.key)) then [(f.caption, o[f.key])] else [])
  }

  /** `if (paramsToIncorporate) instruction += heading + paramsToIncorporate`. */
  function Section(lines: string): string {
    if lines != "" then ParamsHeading + lines else ""
  }

  /** Reference rendering: one parameter line per pair, in order. */
  function Render(ps: seq<(string, string)>): string
    decreases |ps|
  {
    if |ps| == 0 then "" else Render(ps[..|ps| - 1]) + Line(ps[|ps| - 1].0, ps[|ps| - 1].1)
  }

  // ---------------------------------------------------------------------
  // Reading a parameter block back
  // ---------------------------------------------------------------------

  /** `- caption: value` without its newline; the caption is what precedes the first colon. */
  function ParseLine(line: string): Option<(string, string)> {
    if |line| >= 2 && line[..2] == "- " then
      var rest := line[2..];
      match IndexOf(rest, ':')
      case None => None
      case Some(i) =>
        if i + 1 < |rest| && rest[i + 1] == ' ' then Some((rest[..i], rest[i + 2..])) else None
    else None
  }

  /** A sequence of newline-terminated parameter lines. */
  function ParseLines(s: string): Option<seq<(string, string)>>
    decreases |s|
  {
    if s == "" then Some([])
    else if '\n' !in s then None
    else
      var i := IndexOf(s, '\n').value;
      var first := ParseLine(s[..i]);
      var rest := ParseLines(s[i + 1..]);
      if first.Some? && rest.Some? then Some([first.value] + rest.value) else None
  }

  /** What follows the task sentence: nothing, or the heading and the lines. */
  function ParseSection(tail: string): Option<seq<(string, string)>> {
    if tail == "" then Some([])
    else if ParamsHeading <= tail then ParseLines(tail[|ParamsHeading|..])
    else None
  }

  /** Labels are fixed texts without a colon or a newline. */
  predicate PlainLabels(fs: seq<Field>) {
    forall i :: 0 <= i < |fs| ==> ':' !in fs[i].caption && '\n' !in fs[i].caption
  }

  /** The options these fields read hold no newline. */
  predicate SingleLineValues(o: OptionMap, fs: seq<Field>) {
    forall i :: 0 <= i < |fs| ==> fs[i].key in o ==> '\n' !in o[fs[i].key]
  }

  /** No two fields share a label. */
  predicate DistinctLabels(fs: seq<Field>) {
    forall i, j :: 0 <= i < j < |fs| ==> fs[i].caption != fs[j].caption
  }

  /** Two option maps agree on every key these fields read. */
  predicate AgreeOn(o1: OptionMap, o2: OptionMap, fs: seq<Field>) {
    forall i :: 0 <= i < |fs| ==> Get(o1, fs[i].key) == Get(o2, fs[i].key)
  }

  lemma ParseOneLine(caption: string, value: string)
    requires ':' !in caption && '\n' !in caption && '\n' !in value
    ensures ParseLine(Line(caption, value)[..|Line(caption, value)| - 1]) == Some((caption, value))
  {
    var line := Line(caption, value)[..|Line(caption, value)| - 1];
    assert line == "- " + caption + ": " + value;
    var rest := line[2..];
    assert rest == caption + (": " + value);
    IndexOfAfter(caption, ':', ": " + value);
    assert IndexOf(rest, ':') == Some(|caption|);
    assert rest[..|caption|] == caption;
    assert rest[|caption| + 2..] == value;
  }

  /** One step of `ParseLines`, as an equation. */
  lemma ParseLinesStep(s: string, i: nat, p: (string, string), qs: seq<(string, string)>)
    requires s != "" && IndexOf(s, '\n') == Some(i)
    requires ParseLine(s[..i]) == Some(p) && ParseLines(s[i + 1..]) == Some(qs)
    ensures ParseLines(s) == Some([p] + qs)
  {
  }

  /** A non-empty parseable block starts with one parseable line. */
  lemma ParseLinesFirst(s: string, ps: seq<(string, string)>) returns (i: nat, p: (string, string), qs: seq<(string, string)>)
    requires s != "" && ParseLines(s) == Some(ps)
    ensures IndexOf(s, '\n') == Some(i) && i < |s|
    ensures ParseLine(s[..i]) == Some(p) && ParseLines(s[i + 1..]) == Some(qs)
    ensures ps == [p] + qs
  {
    i := IndexOf(s, '\n').value;
    p := ParseLine(s[..i]).value;
    qs := ParseLines(s[i + 1..]).value;
  }

  /** A single line parses to its pair. */
  lemma ParseSingleLine(caption: string, value: string)
    requires ':' !in caption && '\n' !in caption && '\n' !in value
    ensures ParseLines(Line(caption, value)) == Some([(caption, value)])
  {
    var l := Line(caption, value);
    var body := "- " + caption + ": " + value;
    assert '\n' !in body;
    assert l == body + "\n";
    IndexOfAfter(body, '\n', "\n");
    assert l[..|l| - 1] == body;
    ParseOneLine(caption, value);
    assert l[|l| - 1 + 1..] == "";
    assert ParseLines(l[|l| - 1 + 1..]) == Some([]);
    assert ParseLine(l[..|l| - 1]) == Some((caption, value));
    ParseLinesStep(l, |l| - 1, (caption, value), []);
    assert [(caption, value)] + [] == [(caption, value)];
  }

  lemma ConsAppend(p: (string, string), qs: seq<(string, string)>, ts: seq<(string, string)>)
    ensures [p] + (qs + ts) == ([p] + qs) + ts
  {
  }

  /** Two parseable blocks side by side parse to both lists of pairs. */
  lemma {:induction false} ParseLinesAppend(s: string, ps: seq<(string, string)>, t: string, ts: seq<(string, string)>)
    requires ParseLines(s) == Some(ps) && ParseLines(t) == Some(ts)
    ensures ParseLines(s + t) == Some(ps + ts)
    decreases |s|
  {
    if s == "" {
      assert ps == [];
      assert s + t == t;
      assert ps + ts == ts;
    } else {
      var i, p, qs := ParseLinesFirst(s, ps);
      IndexOfBefore(s, '\n', t);
      SliceConcat(s, t, i);
      SliceConcat(s, t, i + 1);
      ParseLinesAppend(s[i + 1..], qs, t, ts);
      ParseLinesStep(s + t, i, p, qs + ts);
      ConsAppend(p, qs, ts);
    }
  }

  /** The parameter lines read back as exactly the incorporated pairs. */
  lemma {:induction false} LinesRoundTrip(o: OptionMap, fs: seq<Field>)
    requires PlainLabels(fs) && SingleLineValues(o, fs)
    ensures ParseLines(Lines(o, fs)) == Some(Incorporated(o, fs))
    decreases |fs|
  {
    if |fs| > 0 {
      var init := fs[..|fs| - 1];
      var f := fs[|fs| - 1];
      assert forall i :: 0 <= i < |init| ==> init[i] == fs[i];
      LinesRoundTrip(o, init);
      assert SingleLineValues(o, init) && PlainLabels(init);
      if Truthy(Get(o, f.key)) {
        assert Lines(o, fs) == Lines(o, init) + Line(f.caption, o[f.key]);
        assert Incorporated(o, fs) == Incorporated(o, init) + [(f.caption, o[f.key])];
        assert ':' !in f.caption && '\n' !in f.caption && '\n' !in o[f.key];
        ParseSingleLine(f.caption, o[f.key]);
        ParseLinesAppend(Lines(o, init), Incorporated(o, init), Line(f.caption, o[f.key]), [(f.caption, o[f.key])]);
      } else {
        assert Lines(o, fs) == Lines(o, init);
        assert Incorporated(o, fs) == Incorporated(o, init) + [];
        assert Incorporated(o, init) + [] == Incorporated(o, init);
      }
    }
  }

  /** The block is empty exactly when no field's value is truthy. */
  lemma {:induction false} LinesEmptyIff(o: OptionMap, fs: seq<Field>)
    ensures Lines(o, fs) == "" <==> Incorporated(o, fs) == []
    ensures Lines(o, fs) == "" <==> forall i :: 0 <= i < |fs| ==> !Truthy(Get(o, fs[i].key))
    decreases |fs|
  {
    if |fs| > 0 {
      var init := fs[..|fs| - 1];
      assert forall i :: 0 <= i < |init| ==> init[i] == fs[i];
      LinesEmptyIff(o, init);
      var f := fs[|fs| - 1];
      if Truthy(Get(o, f.key)) {
        assert |Lines(o, fs)| >= |Line(f.caption, o[f.key])| > 0;
        assert Truthy(Get(o, fs[|fs| - 1].key));
      } else {
        assert Lines(o, fs) == Lines(o, init);
        assert (forall i :: 0 <= i < |fs| ==> !Truthy(Get(o, fs[i].key)))
           <==> (forall i :: 0 <= i < |init| ==> !Truthy(Get(o, init[i].key)));
      }
    }
  }

  /**
   * A pair appears exactly when its field's value is truthy, and then with
   * that value (labels are distinct within a field list).
   */
  lemma {:induction false} IncorporatedIff(o: OptionMap, fs: seq<Field>, k: nat, v: string)
    requires k < |fs|
    requires DistinctLabels(fs)
    ensures (fs[k].caption, v) in Incorporated(o, fs) <==> Get(o, fs[k].key) == Some(v) && v != ""
    decreases |fs|
  {
    var init := fs[..|fs| - 1];
    var f := fs[|fs| - 1];
    assert forall i :: 0 <= i < |init| ==> init[i] == fs[i];
    var tailPart := if Truthy(Get(o, f.key)) then [(f.caption, o[f.key])] else [];
    assert Incorporated(o, fs) == Incorporated(o, init) + tailPart;
    if k < |fs| - 1 {
      IncorporatedIff(o, init, k, v);
      assert fs[k].caption != f.caption;
      assert (fs[k].caption, v) !in tailPart;
    } else {
      LabelsOfIncorporated(o, init);
      assert forall i :: 0 <= i < |init| ==> init[i].caption != f.caption;
      assert (f.caption, v) !in Incorporated(o, init);
    }
  }

  /** Every incorporated pair carries the caption of one of the fields. */
  lemma {:induction false} LabelsOfIncorporated(o: OptionMap, fs: seq<Field>)
    ensures forall p :: p in Incorporated(o, fs) ==> exists i :: 0 <= i < |fs| && fs[i].caption == p.0
    decreases |fs|
  {
    if |fs| > 0 {
      var init := fs[..|fs| - 1];
      assert forall i :: 0 <= i < |init| ==> init[i] == fs[i];
      LabelsOfIncorporated(o, init);
    }
  }

  /** The block depends only on the options the fields read. */
  lemma {:induction false} LinesOnlyRead(o1: OptionMap, o2: OptionMap, fs: seq<Field>)
    requires AgreeOn(o1, o2, fs)
    ensures Lines(o1, fs) == Lines(o2, fs)
    decreases |fs|
  {
    if |fs| > 0 {
      var init := fs[..|fs| - 1];
      assert forall i :: 0 <= i < |init| ==> init[i] == fs[i];
      LinesOnlyRead(o1, o2, init);
    }
  }

  lemma RenderAppend(ps: seq<(string, string)>, qs: seq<(string, string)>)
    ensures Render(ps + qs) == Render(ps) + Render(qs)
    decreases |qs|
  {
    if |qs| == 0 {
      assert ps + qs == ps;
    } else {
      var init := qs[..|qs| - 1];
      assert (ps + qs)[..|ps + qs| - 1] == ps + init;
      RenderAppend(ps, init);
    }
  }

  /** The `addParam` fold renders exactly the truthy (label, value) pairs, in field order. */
  lemma {:induction false} LinesRender(o: OptionMap, fs: seq<Field>)
    ensures Lines(o, fs) == Render(Incorporated(o, fs))
    decreases |fs|
  {
    if |fs| > 0 {
      var init := fs[..|fs| - 1];
      var f := fs[|fs| - 1];
      LinesRender(o, init);
      var extra := if Truthy(Get(o, f.key)) then [(f.caption, o[f.key])] else [];
      RenderAppend(Incorporated(o, init), extra);
      if Truthy(Get(o, f.key)) {
        assert Render(extra) == Line(f.caption, o[f.key]) by {
          assert extra[..0] == [];
        }
      } else {
        assert Render(extra) == "";
      }
    }
  }

  /** The fold over the first k + 1 fields is one `addParam` call after the fold over the first k. */
  lemma LinesPrefix(o: OptionMap, fs: seq<Field>, k: nat)
    requires k < |fs|
    ensures Lines(o, fs[..k + 1]) == AddParam(Lines(o, fs[..k]), fs[k].caption, Get(o, fs[k].key))
  {
    assert fs[..k + 1][..k] == fs[..k];
  }

  /** The section reads back as the incorporated pairs, and is empty exactly when there are none. */
  lemma SectionRoundTrip(o: OptionMap, fs: seq<Field>)
    requires PlainLabels(fs) && SingleLineValues(o, fs)
    ensures ParseSection(Section(Lines(o, fs))) == Some(Incorporated(o, fs))
    ensures Section(Lines(o, fs)) == "" <==> Incorporated(o, fs) == []
  {
    LinesRoundTrip(o, fs);
    LinesEmptyIff(o, fs);
    var ls := Lines(o, fs);
    if ls != "" {
      assert (ParamsHeading + ls)[|ParamsHeading|..] == ls;
    }
  }
}

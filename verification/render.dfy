/** The canonical text rendering of sensors and annotations that the
    list-equality oracle compares. */
module Render {
  import opened SensorTypes

  const KeyTag := "< Annotation key="
  const ValueTag := " value="
  const UuidTag := "< Sensor uuid="

  /** The text of one annotation: its key and value between fixed tags. */
  function AnnotationString(a: Annotation): string
  {
    KeyTag + a.key + ValueTag + a.value + " >"
  }

  /** The key and the value can be read back from their positions in the
      text of an annotation. */
  lemma AnnotationStringLayout(a: Annotation)
    ensures var r := AnnotationString(a);
      && |r| == |KeyTag| + |a.key| + |ValueTag| + |a.value| + 2
      && r[..|KeyTag|] == KeyTag
      && r[|KeyTag|..|KeyTag| + |a.key|] == a.key
      && r[|KeyTag| + |a.key|..|KeyTag| + |a.key| + |ValueTag|] == ValueTag
      && r[|KeyTag| + |a.key| + |ValueTag|..|r| - 2] == a.value
      && r[|r| - 2..] == " >"
  {
  }

  /** Two annotations whose keys have the same length render alike only if
      they are equal. */
  lemma AnnotationStringDetermines(a: Annotation, b: Annotation)
    requires |a.key| == |b.key|
    requires AnnotationString(a) == AnnotationString(b)
    ensures a == b
  {
    AnnotationStringLayout(a);
    AnnotationStringLayout(b);
    var r := AnnotationString(a);
    assert a.key == r[|KeyTag|..|KeyTag| + |a.key|] == b.key;
    assert a.value == r[|KeyTag| + |a.key| + |ValueTag|..|r| - 2] == b.value;
  }

  /** Joins the parts with the separator between consecutive parts, as the
      standard string join does. */
  function Join(parts: seq<string>, sep: string): string
  {
    if |parts| == 0 then ""
    else if |parts| == 1 then parts[0]
    else parts[0] + sep + Join(parts[1..], sep)
  }

  /** The rendering of each annotation, in the given order. */
  function RenderEach(a: seq<Annotation>): (r: seq<string>)
    ensures |r| == |a|
    ensures forall k :: 0 <= k < |a| ==> r[k] == AnnotationString(a[k])
  {
    if a == [] then [] else [AnnotationString(a[0])] + RenderEach(a[1..])
  }

  /** Every part preceded by the separator, in the given order. */
  function PrefixEach(parts: seq<string>, sep: string): string
  {
    if parts == [] then "" else sep + parts[0] + PrefixEach(parts[1..], sep)
  }

  /** The text of an annotation list: unsorted, every entry preceded by ", ",
      so a non-empty list starts with ", " and an empty one leaves two
      blanks between the tags. */
  function AnnoListText(a: seq<Annotation>): string
  {
    "<AnnoList " + PrefixEach(RenderEach(a), ", ") + " >"
  }

  /** A non-empty join is its first part followed by every other part
      preceded by the separator. */
  lemma {:induction false} JoinFirstThenPrefixed(parts: seq<string>, sep: string)
    requires parts != []
    ensures Join(parts, sep) == parts[0] + PrefixEach(parts[1..], sep)
  {
    if |parts| == 1 {
      assert parts[1..] == [];
    } else {
      var rest := parts[1..];
      JoinFirstThenPrefixed(rest, sep);
      assert rest[1..] == parts[2..];
      var p0, p1, tail := parts[0], parts[1], PrefixEach(parts[2..], sep);
      assert Join(parts, sep) == p0 + sep + (p1 + tail);
      assert PrefixEach(rest, sep) == sep + p1 + tail;
      assert p0 + sep + (p1 + tail) == p0 + (sep + p1 + tail);
    }
  }

  /** Joining a leading empty part with the others is the same as prefixing
      every other part with the separator. */
  lemma JoinedParts(parts: seq<string>, sep: string)
    ensures Join([""] + parts, sep) == PrefixEach(parts, sep)
  {
    var all := [""] + parts;
    if parts == [] {
      assert Join(all, sep) == "";
    } else {
      assert all[1..] == parts;
      JoinFirstThenPrefixed(all, sep);
    }
  }

  /** Builds the annotation list text as the service does: a list of parts
      that starts with one empty string, one more part appended per
      annotation, then joined with ", ". */
  method AnnotationsString(a: seq<Annotation>) returns (r: string)
    ensures r == AnnoListText(a)
  {
    var parts: seq<string> := [""];
    for k := 0 to |a|
      invariant |parts| == k + 1 && parts[0] == ""
      invariant forall m :: 0 <= m < k ==> parts[m + 1] == AnnotationString(a[m])
    {
      parts := parts + [AnnotationString(a[k])];
    }
    assert parts == [""] + RenderEach(a);
    r := "<AnnoList " + Join(parts, ", ") + " >";
    JoinedParts(RenderEach(a), ", ");
  }

  /** The shape of an annotation list's text: "<AnnoList  >" when empty,
      otherwise a leading ", " before the joined entries. */
  lemma AnnoListShape(a: seq<Annotation>)
    ensures a == [] ==> AnnoListText(a) == "<AnnoList  >"
    ensures a != [] ==> AnnoListText(a) == "<AnnoList , " + Join(RenderEach(a), ", ") + " >"
  {
    var r := RenderEach(a);
    if a != [] {
      JoinFirstThenPrefixed(r, ", ");
      var joined := Join(r, ", ");
      assert PrefixEach(r, ", ") == ", " + joined;
      assert "<AnnoList " + (", " + joined) == "<AnnoList , " + joined;
    } else {
      assert PrefixEach(r, ", ") == "";
    }
  }

  /** The annotation list is rendered in the order given, not sorted: the
      same two annotations in the other order give a different text. */
  lemma AnnoListOrderMatters()
    ensures AnnoListText([Annotation("a", "1"), Annotation("b", "2")])
         != AnnoListText([Annotation("b", "2"), Annotation("a", "1")])
  {
    var x := AnnoListText([Annotation("a", "1"), Annotation("b", "2")]);
    var y := AnnoListText([Annotation("b", "2"), Annotation("a", "1")]);
    assert x[29] == 'a';
    assert y[29] == 'b';
  }

  /** The rendering of a sensor's annotation field: nothing for a nil list,
      the list text for any other list, even an empty one. */
  function AnnotationsField(annotations: Option<seq<Annotation>>): string
  {
    match annotations
    case None => ""
    case Some(a) => AnnoListText(a)
  }

  /** The canonical text of a sensor: uuid, collection, name, unit, ingress
      and the annotation field, in that order, between fixed tags. */
  function SensorString(s: Sensor): string
  {
    UuidTag + s.uuid + " collection=" + s.collection + " name=" + s.name
    + " unit=" + s.unit + " ingress=" + s.ingress
    + " annotations=" + AnnotationsField(s.annotations) + " >"
  }

  /** Where the fields sit in a sensor's text: the uuid right after the
      leading tag, the annotation field right before the closing " >", and
      the total length fixed by the field lengths. */
  lemma SensorStringLayout(s: Sensor)
    ensures var r := SensorString(s);
      && |r| == 62 + |s.uuid| + |s.collection| + |s.name| + |s.unit| + |s.ingress|
                 + |AnnotationsField(s.annotations)|
      && r[..|UuidTag|] == UuidTag
      && r[|UuidTag|..|UuidTag| + |s.uuid|] == s.uuid
      && r[|r| - 2 - |AnnotationsField(s.annotations)|..|r| - 2] == AnnotationsField(s.annotations)
      && r[|r| - 2..] == " >"
  {
  }

  /** A nil annotation list and an empty one render differently. */
  lemma NilAndEmptyAnnotationsDiffer(s: Sensor)
    ensures SensorString(s.(annotations := None)) != SensorString(s.(annotations := Some([])))
  {
    SensorStringLayout(s.(annotations := None));
    SensorStringLayout(s.(annotations := Some([])));
    AnnoListShape([]);
  }
}

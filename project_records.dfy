/**
 * The cleaning of the project records and of the language list received
 * from the server (src/api/projects.ts). Records are taken as already
 * parsed: the JSON parsing of a response sent as text is not modelled.
 */
module ProjectRecords {
  import opened Js

  /** A field that holds an array of `T`, or any other JavaScript value. */
  datatype ArrayField<T> = ArrayOf(items: seq<T>) | NotArray(v: JsValue)

  /** A tag inside a project record; `other` holds its remaining fields. */
  datatype Tag = Tag(name: JsValue, description: JsValue, other: map<string, JsValue>)

  /**
   * A project record as received; `other` holds every field the cleaning
   * does not touch.
   */
  datatype ProjectSummary = ProjectSummary(
    summaryShort: JsValue, summaryLong: JsValue,
    tags: ArrayField<Tag>, videoLinks: ArrayField<JsValue>,
    other: map<string, JsValue>)

  /** A sanitised text, or null when nothing is left of it (`value ? value : null`). */
  function TextOrNull(s: string): (r: JsValue)
    ensures r == Null <==> Sanitize(s) == []
    ensures r != Null ==> r == Str(Sanitize(s)) && r.s != [] && IsClean(r.s)
  {
    SanitizeFixedPoint(s);
    var value := Sanitize(s);
    if value != [] then Str(value) else Null
  }

  /** A string is sanitised; any other value is kept as it is. */
  function SanitizeIfString(v: JsValue): (r: JsValue)
    ensures v.Str? <==> r.Str?
    ensures v.Str? ==> r == Str(Sanitize(v.s))
    ensures r.Str? ==> IsClean(r.s)
    ensures !v.Str? ==> r == v
  {
    SanitizeFixedPoint(if v.Str? then v.s else []);
    if v.Str? then Str(Sanitize(v.s)) else v
  }

  /** A summary: a string is sanitised and becomes null when empty; any other value is kept. */
  function CleanSummary(v: JsValue): (r: JsValue)
    ensures !v.Str? ==> r == v
    ensures v.Str? ==> r == TextOrNull(v.s)
  {
    if v.Str? then TextOrNull(v.s) else v
  }

  /**
   * The cleaning of one tag: the name is sanitised (and stays a string, even
   * an empty one); a string description is sanitised and becomes null when
   * empty, an undefined one becomes null, and other values are kept.
   */
  function CleanTag(tag: Tag): (r: Tag)
    ensures r.other == tag.other
    ensures r.name == SanitizeIfString(tag.name)
    ensures tag.description.Str? ==> r.description == TextOrNull(tag.description.s)
    ensures !tag.description.Str? ==> r.description == if Nullish(tag.description) then Null else tag.description
  {
    Tag(SanitizeIfString(tag.name),
        if tag.description.Str? then TextOrNull(tag.description.s)
        else if tag.description == Undefined then Null else tag.description,
        tag.other)
  }

  /** `array.map(...)` over the tags. */
  function CleanTags(tags: seq<Tag>): (r: seq<Tag>)
    ensures |r| == |tags|
    ensures forall i | 0 <= i < |tags| :: r[i] == CleanTag(tags[i])
  {
    seq(|tags|, i requires 0 <= i < |tags| => CleanTag(tags[i]))
  }

  /** `array.map(...)` sanitising the string elements and keeping the others. */
  function CleanStrings(items: seq<JsValue>): (r: seq<JsValue>)
    ensures |r| == |items|
    ensures forall i | 0 <= i < |items| :: r[i] == SanitizeIfString(items[i])
  {
    seq(|items|, i requires 0 <= i < |items| => SanitizeIfString(items[i]))
  }

  /** The cleaned record, field by field. */
  function Normalized(p: ProjectSummary): ProjectSummary {
    p.(summaryShort := CleanSummary(p.summaryShort),
       summaryLong := CleanSummary(p.summaryLong),
       tags := if p.tags.ArrayOf? then ArrayOf(CleanTags(p.tags.items)) else p.tags,
       videoLinks := if p.videoLinks.ArrayOf? then ArrayOf(CleanStrings(p.videoLinks.items)) else p.videoLinks)
  }

  /**
   * normalizeProjectSummary on an already parsed record: a copy whose four
   * cleaned fields are reassigned one after the other.
   */
  method NormalizeProjectSummary(project: ProjectSummary) returns (cleaned: ProjectSummary)
    ensures cleaned == Normalized(project)
  {
    cleaned := project;
    if cleaned.summaryShort.Str? {
      var value := Sanitize(cleaned.summaryShort.s);
      cleaned := cleaned.(summaryShort := if value != [] then Str(value) else Null);
    }
    if cleaned.summaryLong.Str? {
      var value := Sanitize(cleaned.summaryLong.s);
      cleaned := cleaned.(summaryLong := if value != [] then Str(value) else Null);
    }
    if cleaned.tags.ArrayOf? {
      cleaned := cleaned.(tags := ArrayOf(CleanTags(cleaned.tags.items)));
    }
    if cleaned.videoLinks.ArrayOf? {
      cleaned := cleaned.(videoLinks := ArrayOf(CleanStrings(cleaned.videoLinks.items)));
    }
  }

  /** Every string the cleaning touches is clean, and the summaries are never empty strings. */
  predicate CleanRecord(p: ProjectSummary) {
    && (p.summaryShort.Str? ==> p.summaryShort.s != [] && IsClean(p.summaryShort.s))
    && (p.summaryLong.Str? ==> p.summaryLong.s != [] && IsClean(p.summaryLong.s))
    && (p.tags.ArrayOf? ==> forall t | t in p.tags.items ::
          && (t.name.Str? ==> IsClean(t.name.s))
          && (t.description.Str? ==> t.description.s != [] && IsClean(t.description.s))
          && t.description != Undefined)
    && (p.videoLinks.ArrayOf? ==> forall v | v in p.videoLinks.items :: v.Str? ==> IsClean(v.s))
  }

  /**
   * The cleaning leaves every other field as it was, keeps the arrays'
   * lengths and the tags' other fields, turns no string name into a
   * non-string, and produces a clean record.
   */
  lemma NormalizedSpec(p: ProjectSummary)
    ensures var r := Normalized(p);
      && r.other == p.other
      && r.tags.ArrayOf? == p.tags.ArrayOf?
      && (!p.tags.ArrayOf? ==> r.tags == p.tags)
      && (p.tags.ArrayOf? ==>
            && |r.tags.items| == |p.tags.items|
            && forall i | 0 <= i < |p.tags.items| ::
                 && r.tags.items[i].other == p.tags.items[i].other
                 && (r.tags.items[i].name.Str? <==> p.tags.items[i].name.Str?))
      && r.videoLinks.ArrayOf? == p.videoLinks.ArrayOf?
      && (!p.videoLinks.ArrayOf? ==> r.videoLinks == p.videoLinks)
      && (p.videoLinks.ArrayOf? ==> |r.videoLinks.items| == |p.videoLinks.items|)
      && CleanRecord(r)
  {
  }

  /** A clean record is its own cleaning; so cleaning twice is cleaning once. */
  lemma NormalizedIdempotent(p: ProjectSummary)
    ensures CleanRecord(p) ==> Normalized(p) == p
    ensures Normalized(Normalized(p)) == Normalized(p)
  {
    NormalizedSpec(p);
    CleanRecordFixed(p);
    CleanRecordFixed(Normalized(p));
  }

  lemma CleanRecordFixed(p: ProjectSummary)
    ensures CleanRecord(p) ==> Normalized(p) == p
  {
    if CleanRecord(p) {
      if p.summaryShort.Str? { SanitizeFixedPoint(p.summaryShort.s); }
      if p.summaryLong.Str? { SanitizeFixedPoint(p.summaryLong.s); }
      if p.tags.ArrayOf? {
        var tags := p.tags.items;
        forall i | 0 <= i < |tags| ensures CleanTag(tags[i]) == tags[i] {
          assert tags[i] in tags;
          if tags[i].name.Str? { SanitizeFixedPoint(tags[i].name.s); }
          if tags[i].description.Str? { SanitizeFixedPoint(tags[i].description.s); }
        }
        assert CleanTags(tags) == tags;
      }
      if p.videoLinks.ArrayOf? {
        var links := p.videoLinks.items;
        forall i | 0 <= i < |links| ensures SanitizeIfString(links[i]) == links[i] {
          assert links[i] in links;
          if links[i].Str? { SanitizeFixedPoint(links[i].s); }
        }
        assert CleanStrings(links) == links;
      }
    }
  }

  /**
   * listProjectLanguages on an already parsed payload: the string elements of
   * an array are sanitised (an empty result stays an empty string), other
   * elements are kept, and anything but an array gives the empty list.
   */
  function ListProjectLanguages(data: ArrayField<JsValue>): (r: seq<JsValue>)
    ensures data.NotArray? ==> r == []
    ensures data.ArrayOf? ==> |r| == |data.items|
    ensures data.ArrayOf? ==> forall i | 0 <= i < |r| ::
      && (r[i].Str? <==> data.items[i].Str?)
      && (r[i].Str? ==> IsClean(r[i].s))
      && (!data.items[i].Str? ==> r[i] == data.items[i])
    ensures data.ArrayOf? ==> forall i | 0 <= i < |r| :: r[i] == SanitizeIfString(data.items[i])
  {
    if data.ArrayOf? then CleanStrings(data.items) else []
  }
}

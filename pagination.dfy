/** components/Pagination.js: the range text and one clickable target per
    page link. The component holds no state; clicking a target hands that
    link's URL, null included, to the screen's page handler. */
module Pagination {
  import opened Wrappers
  import opened Decimal
  import opened JsStrings
  import opened Api

  /** What a target shows: a right chevron, a left chevron or the label text. */
  datatype Glyph = ChevronRight | ChevronLeft | Label(text: string)

  /** One `<a>` of the navigation bar. */
  datatype Target = Target(glyph: Glyph, highlighted: bool, url: Option<string>)

  /** The label test of the component: "Next" is looked for before "Previous". */
  function GlyphFor(caption: string): Glyph {
    if Contains(caption, "Next") then ChevronRight
    else if Contains(caption, "Previous") then ChevronLeft
    else Label(caption)
  }

  function Render(link: PageLink): Target {
    Target(GlyphFor(link.caption), link.active, link.url)
  }

  /** `paginationLinks.map(...)`: one target per link, in the links' order. */
  function Targets(links: seq<PageLink>): (ts: seq<Target>)
    ensures |ts| == |links|
    ensures forall i :: 0 <= i < |links| ==>
      ts[i].url == links[i].url && ts[i].highlighted == links[i].active && ts[i].glyph == GlyphFor(links[i].caption)
  {
    if links == [] then [] else [Render(links[0])] + Targets(links[1..])
  }

  /** The calls a sequence of clicks makes to `onPageClick`: one call per
      click, carrying the clicked link's URL as it is, null included. */
  function Dispatched(links: seq<PageLink>, clicks: seq<nat>): (calls: seq<Option<string>>)
    requires forall j :: 0 <= j < |clicks| ==> clicks[j] < |links|
    ensures |calls| == |clicks|
    ensures forall j :: 0 <= j < |clicks| ==> calls[j] == links[clicks[j]].url
  {
    if clicks == [] then []
    else [Targets(links)[clicks[0]].url] + Dispatched(links, clicks[1..])
  }

  /** The glyph of a label is decided by where "Next" and "Previous" occur in
      it, and "Next" wins when both occur. */
  lemma GlyphClassification(caption: string)
    ensures GlyphFor(caption) == ChevronRight <==> exists k :: OccursAt(caption, "Next", k)
    ensures GlyphFor(caption) == ChevronLeft <==>
      (!exists k :: OccursAt(caption, "Next", k)) && exists k :: OccursAt(caption, "Previous", k)
    ensures GlyphFor(caption).Label? <==>
      (!exists k :: OccursAt(caption, "Next", k)) && !exists k :: OccursAt(caption, "Previous", k)
    ensures GlyphFor(caption).Label? ==> GlyphFor(caption).text == caption
  {
    ContainsIffOccurs(caption, "Next");
    ContainsIffOccurs(caption, "Previous");
  }

  /** The labels a Laravel paginator sends: the arrows become chevrons and a
      page number is shown as it is. */
  lemma PreviousLabel(s: string)
    requires s == "&laquo; Previous"
    ensures GlyphFor(s) == ChevronLeft
  {
    assert !Contains(s, "Next") by {
      AbsentHeadNotContained(s, "Next");
    }
    assert Contains(s, "Previous") by {
      assert s[8..16] == "Previous";
      OccurrenceContained(s, "Previous", 8);
    }
  }

  lemma NextLabel()
    ensures GlyphFor("Next &raquo;") == ChevronRight
  {
    assert "Next" <= "Next &raquo;";
  }

  lemma PageNumberLabel()
    ensures GlyphFor("2") == Label("2")
  {
    AbsentHeadNotContained("2", "Next");
    AbsentHeadNotContained("2", "Previous");
  }

  /** How JSX prints `{value}`: a number as its decimal text, undefined as nothing. */
  function Shown(v: Option<int>): string {
    if v.Some? then IntText(v.value) else ""
  }

  /** The `from`, `to` and `total` that the component reads from the meta slot
      (all undefined in `{}`). */
  function RangeOf(meta: Meta): (r: (Option<int>, Option<int>, Option<int>))
    ensures meta.NoMeta? ==> r == (None, None, None)
  {
    match meta
    case NoMeta => (None, None, None)
    case PageMeta(from, to, _, _, total, _) => (Some(from), Some(to), Some(total))
    case RawMeta(m) => (Some(m.from), Some(m.to), Some(m.total))
  }

  /** "Showing {from} to {to} of {total} results". */
  function RangeText(meta: Meta): string {
    var (from, to, total) := RangeOf(meta);
    "Showing " + Shown(from) + " to " + Shown(to) + " of " + Shown(total) + " results"
  }

  /** The range text shows from, to and total, in that order, and it reads the
      same whether the screen renamed the server's meta or stored it as sent. */
  lemma RangeTextOfServerMeta(m: ServerMeta)
    ensures RangeText(Normalise(m)) == RangeText(RawMeta(m))
    ensures RangeText(RawMeta(m)) ==
      "Showing " + IntText(m.from) + " to " + IntText(m.to) + " of " + IntText(m.total) + " results"
  {
  }
}

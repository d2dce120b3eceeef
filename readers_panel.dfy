/** The owner's reader list of src/components/dashboard/ReadersPanel.tsx:
    the readers grouped by document, in the order documents first appear,
    each group headed by its first record's title and a reader count. */
module ReadersPanel {
  import opened Text
  import opened DocumentService

  /** The records of one document, in input order. */
  function ByDoc(rs: seq<ReaderSnapshot>, id: string): (g: seq<ReaderSnapshot>)
    ensures |g| <= |rs|
    ensures forall k :: 0 <= k < |g| ==> g[k].documentId == id && g[k] in rs
  {
    if rs == [] then []
    else ByDoc(rs[..|rs| - 1], id) + (if rs[|rs| - 1].documentId == id then [rs[|rs| - 1]] else [])
  }

  /** The document ids in order of first appearance. */
  function DocOrder(rs: seq<ReaderSnapshot>): (ids: seq<string>)
    ensures forall k :: 0 <= k < |ids| ==> exists j :: 0 <= j < |rs| && rs[j].documentId == ids[k]
  {
    if rs == [] then []
    else
      var front := DocOrder(rs[..|rs| - 1]);
      var id := rs[|rs| - 1].documentId;
      assert forall k :: 0 <= k < |front| ==> exists j :: 0 <= j < |rs| && rs[j].documentId == front[k] by {
        forall k | 0 <= k < |front|
          ensures exists j :: 0 <= j < |rs| && rs[j].documentId == front[k]
        {
          var j :| 0 <= j < |rs| - 1 && rs[..|rs| - 1][j].documentId == front[k];
          assert rs[j].documentId == front[k];
        }
      }
      if id in front then front else front + [id]
  }

  /** Every reader lands in the group of its own document, and nowhere
      else: a record with another id is never in the group. */
  lemma {:induction false} EachReaderInItsGroup(rs: seq<ReaderSnapshot>, j: nat)
    requires j < |rs|
    ensures rs[j] in ByDoc(rs, rs[j].documentId)
    decreases |rs|
  {
    var init := rs[..|rs| - 1];
    if j < |rs| - 1 {
      EachReaderInItsGroup(init, j);
      assert init[j] == rs[j];
    }
  }

  /** Each group is non-empty, and each document id is listed once. */
  lemma {:induction false} OrderListsEachDocOnce(rs: seq<ReaderSnapshot>)
    ensures forall a, b :: 0 <= a < b < |DocOrder(rs)| ==> DocOrder(rs)[a] != DocOrder(rs)[b]
    ensures forall j :: 0 <= j < |rs| ==> rs[j].documentId in DocOrder(rs)
    decreases |rs|
  {
    if rs != [] {
      var init := rs[..|rs| - 1];
      OrderListsEachDocOnce(init);
      forall j | 0 <= j < |rs|
        ensures rs[j].documentId in DocOrder(rs)
      {
        if j < |rs| - 1 {
          assert init[j] == rs[j];
        }
      }
    }
  }

  lemma {:induction false} GroupNonEmpty(rs: seq<ReaderSnapshot>, id: string)
    requires id in DocOrder(rs)
    ensures ByDoc(rs, id) != []
    decreases |rs|
  {
    var init := rs[..|rs| - 1];
    if id in DocOrder(init) {
      GroupNonEmpty(init, id);
    }
  }

  /** `{records.length} reader{records.length > 1 ? "s" : ""}` */
  function CountLabel(n: nat): (s: string)
    ensures n == 1 ==> s == "1 reader"
    ensures n > 1 ==> s == NatText(n) + " readers"
  {
    assert NatText(1) == "1";
    NatText(n) + " reader" + (if n > 1 then "s" else "")
  }

  datatype Section = Section(documentId: string, title: string, countLabel: string, records: seq<ReaderSnapshot>)

  datatype Panel = Placeholder | Sections(sections: seq<Section>)

  /** The `reduce`: push each reader onto its document's array, creating
      the array on first sight. */
  method Group(readers: seq<ReaderSnapshot>) returns (groups: map<string, seq<ReaderSnapshot>>, order: seq<string>)
    ensures order == DocOrder(readers)
    ensures forall id :: id in groups <==> id in order
    ensures forall id :: id in groups ==> groups[id] == ByDoc(readers, id)
  {
    groups := map[];
    order := [];
    var i := 0;
    while i < |readers|
      invariant 0 <= i <= |readers|
      invariant order == DocOrder(readers[..i])
      invariant forall id :: id in groups <==> id in order
      invariant forall id :: id in groups ==> groups[id] == ByDoc(readers[..i], id)
    {
      var r := readers[i];
      assert readers[..i + 1][..i] == readers[..i];
      assert readers[..i + 1][i] == r;
      if r.documentId !in groups {
        groups := groups[r.documentId := []];
        order := order + [r.documentId];
        assert ByDoc(readers[..i], r.documentId) == [] by {
          NotListedEmpty(readers[..i], r.documentId);
        }
      }
      groups := groups[r.documentId := groups[r.documentId] + [r]];
      i := i + 1;
    }
    assert readers[..i] == readers;
  }

  /** A document that is not listed has no records. */
  lemma {:induction false} NotListedEmpty(rs: seq<ReaderSnapshot>, id: string)
    requires id !in DocOrder(rs)
    ensures ByDoc(rs, id) == []
    decreases |rs|
  {
    if rs != [] {
      var init := rs[..|rs| - 1];
      NotListedEmpty(init, id);
    }
  }

  /** `records` under their document's header: the first record's title
      and the count label. */
  function SectionFromGroup(id: string, records: seq<ReaderSnapshot>): (s: Section)
    requires records != []
    ensures s.documentId == id && s.records == records
    ensures s.title == records[0].documentTitle && s.countLabel == CountLabel(|records|)
  {
    Section(id, records[0].documentTitle, CountLabel(|records|), records)
  }

  /** The panel: the placeholder when nobody has verified, otherwise one
      section per document, in order of first appearance, each holding
      exactly that document's records in input order. */
  method Render(readers: seq<ReaderSnapshot>) returns (p: Panel)
    ensures p == Placeholder <==> readers == []
    ensures p.Sections? ==> |p.sections| == |DocOrder(readers)|
    ensures p.Sections? ==> forall k :: 0 <= k < |p.sections| ==>
      && p.sections[k].documentId == DocOrder(readers)[k]
      && p.sections[k].records == ByDoc(readers, DocOrder(readers)[k])
      && p.sections[k].records != []
      && p.sections[k].title == p.sections[k].records[0].documentTitle
      && p.sections[k].countLabel == CountLabel(|p.sections[k].records|)
  {
    if |readers| == 0 {
      return Placeholder;
    }
    var groups, order := Group(readers);
    forall id | id in groups
      ensures groups[id] != []
    {
      GroupNonEmpty(readers, id);
    }
    return Sections(seq(|order|, k requires 0 <= k < |order| => SectionFromGroup(order[k], groups[order[k]])));
  }
}

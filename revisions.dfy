/**
 * The two revisions of the normaliser side by side: where the earlier script
 * succeeds with a layout the current chooser also picks, the current code
 * produces the same table; and the two choose layouts from different parts of
 * the index page.
 */
module Revisions {
  import opened Wrappers
  import opened Collections
  import opened Json
  import opened Base
  import opened Extract
  import V60
  import Legacy

  /** Both revisions give a layout the same default schema, column for column. */
  lemma SchemasAgree(shape: Shape)
    ensures Legacy.ClassSchema(shape) == V60.SchemaFor(shape, None)
  {
    var a, b := Legacy.ClassSchema(shape), V60.SchemaFor(shape, None);
    V60.SchemaDefaults(shape, []);
    assert |a| == |b|;
    forall i | 0 <= i < |a|
      ensures a[i] == b[i]
    {
      assert a[i].0 == Columns(a)[i] == Columns(b)[i] == b[i].0;
    }
  }

  /** A page the earlier script reads is read the same way by the current one. */
  lemma PageRowsAgree(shape: Shape, payload: JSON)
    requires PageRows(Legacy, shape, payload).Success?
    ensures PageRows(Current, shape, payload) == PageRows(Legacy, shape, payload)
  {
    match shape
    case HostScan => HostRevisions(payload);
    case WebScan => WebRevisions(payload);
  }

  /**
   * When the earlier script succeeds and the current chooser picks the layout
   * the earlier detector's template stands for, both produce the same table.
   */
  lemma MergesAgree(index: JSON, pages: seq<JSON>, t: Legacy.TemplateType)
    requires Legacy.Detect(index) == Success(t)
    requires V60.Choose(index) == Success(Legacy.ParserType(t))
    requires Legacy.MergeAll(index, pages).Success?
    ensures V60.Merge(index, pages) == Legacy.MergeAll(index, pages)
  {
    var shape := Legacy.ParserType(t);
    assert PagesRows(Legacy, shape, pages).Success?;
    MapAllSuccess(p => PageRows(Legacy, shape, p), pages);
    forall i | 0 <= i < |pages|
      ensures PageRows(Current, shape, pages[i]) == PageRows(Legacy, shape, pages[i])
    {
      PageRowsAgree(shape, pages[i]);
    }
    MapAllCongruence(p => PageRows(Current, shape, p), p => PageRows(Legacy, shape, p), pages);
    SchemasAgree(shape);
  }

  /** An index page whose template name says host scan while its section titles say web scan. */
  const MixedTemplate: JSON := JObject([("vulnTemplate", JStr("全部漏洞扫描"))])
  const MixedChild: JSON := JObject([("data", MixedTemplate)])
  const MixedFirst: JSON := JObject([("title", JStr("站点列表")), ("children", JArray([MixedChild]))])
  const MixedSecond: JSON := JObject([("title", JStr("漏洞列表"))])
  const MixedIndex: JSON := JObject([("categories", JArray([MixedFirst, MixedSecond]))])

  /** The section titles of the mixed index page. */
  lemma TitlesOfMixed()
    ensures TitlesOf(MixedIndex) == Success([JStr("站点列表"), JStr("漏洞列表")])
  {
    var items := [MixedFirst, MixedSecond];
    assert Get(MixedIndex, "categories") == Success(JArray(items));
    assert MixedFirst.fields[..1] == [("title", JStr("站点列表"))];
    assert "children" != "title";
    assert Lookup([("title", JStr("站点列表"))], "title") == Success(JStr("站点列表"));
    assert Get(MixedFirst, "title") == Success(JStr("站点列表"));
    assert Get(MixedSecond, "title") == Success(JStr("漏洞列表"));
    MapAllValues(item => Get(item, "title"), items, [JStr("站点列表"), JStr("漏洞列表")]);
  }

  /** The template name of the mixed index page. */
  lemma TemplateOfMixed()
    ensures TemplateOf(MixedIndex) == Success(JStr("全部漏洞扫描"))
  {
    assert Get(MixedIndex, "categories") == Success(JArray([MixedFirst, MixedSecond]));
    assert At(JArray([MixedFirst, MixedSecond]), 0) == Success(MixedFirst);
    assert Get(MixedFirst, "children") == Success(JArray([MixedChild]));
    assert At(JArray([MixedChild]), 0) == Success(MixedChild);
    assert Get(MixedChild, "data") == Success(MixedTemplate);
  }

  /**
   * The earlier detector trusts the template name and the current chooser the
   * section titles, so the same index page can select different parsers.
   */
  lemma ChoosersDisagree()
    ensures Legacy.Detect(MixedIndex) == Success(Legacy.ALL)
    ensures Legacy.ParserType(Legacy.ALL) == HostScan
    ensures V60.Choose(MixedIndex) == Success(WebScan)
  {
    TitlesOfMixed();
    TemplateOfMixed();
    var titles := [JStr("站点列表"), JStr("漏洞列表")];
    assert V60.HasWebSections(titles) && !V60.HasHostSections(titles);
  }
}

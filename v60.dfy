/**
 * The current revision of the report normaliser: the template chooser, the two
 * page parsers as classes whose `Parse` fills `rows` in place, the page parser
 * entry point and the merge of all pages into one table.
 */
module V60 {
  import opened Wrappers
  import opened Collections
  import opened Json
  import opened Base
  import opened Records
  import opened Extract

  // ---------------------------------------------------------------------------
  // The template chooser

  predicate HasWebSections(titles: seq<JSON>) {
    JStr("站点列表") in titles && JStr("漏洞列表") in titles
  }

  predicate HasHostSections(titles: seq<JSON>) {
    JStr("主机信息") in titles && JStr("漏洞信息") in titles
  }

  /**
   * The layout of a report, from its section titles: web when it has the site
   * and vulnerability lists but not the host and vulnerability information,
   * host in the opposite case, and none when it has both pairs or neither.
   */
  function Classify(titles: seq<JSON>): (r: Option<Shape>)
    ensures r == Some(WebScan) <==> HasWebSections(titles) && !HasHostSections(titles)
    ensures r == Some(HostScan) <==> HasHostSections(titles) && !HasWebSections(titles)
    ensures r == None <==> (HasWebSections(titles) <==> HasHostSections(titles))
  {
    if HasWebSections(titles) && !HasHostSections(titles) then Some(WebScan)
    else if HasHostSections(titles) && !HasWebSections(titles) then Some(HostScan)
    else None
  }

  /**
   * `_temparser_chooser` on the decoded index page. The template name is read
   * before the titles are classified, so the chooser needs it even when it
   * does not report it.
   */
  function Choose(index: JSON): Result<Shape, Error> {
    var titles :- TitlesOf(index);
    var template :- TemplateOf(index);
    match Classify(titles)
    case Some(shape) => Success(shape)
    case None => Failure(UnsupportedTemplate(template))
  }

  /**
   * With the titles and the template readable, the chooser returns the
   * classification, and otherwise an error carrying the template's name.
   */
  lemma ChooseOutcome(index: JSON, titles: seq<JSON>, template: JSON)
    requires TitlesOf(index) == Success(titles) && TemplateOf(index) == Success(template)
    ensures Choose(index) == Success(WebScan) <==> HasWebSections(titles) && !HasHostSections(titles)
    ensures Choose(index) == Success(HostScan) <==> HasHostSections(titles) && !HasWebSections(titles)
    ensures Choose(index).Failure? <==> (HasWebSections(titles) <==> HasHostSections(titles))
    ensures Choose(index).Failure? ==> Choose(index).error == UnsupportedTemplate(template)
  {
  }

  /** An index page without a readable template name is refused whatever its titles say. */
  lemma ChooseNeedsTemplate(index: JSON)
    requires TemplateOf(index).Failure?
    ensures Choose(index).Failure?
  {
  }

  // ---------------------------------------------------------------------------
  // Schemas

  /** `output_keys if output_keys else default`: None and the empty list both select the default. */
  function KeysOrDefault(outputKeys: Option<seq<string>>, default: seq<string>): seq<string> {
    if outputKeys.Some? && outputKeys.value != [] then outputKeys.value else default
  }

  /** `SCHEMA(output_keys)` of the parser for a layout. */
  function SchemaFor(shape: Shape, outputKeys: Option<seq<string>>): Schema {
    SchemaOf(KeysOrDefault(outputKeys, ShapeKeys(shape)))
  }

  /**
   * Without output keys, or with an empty list, a parser's schema is its
   * built-in column list in order: 15 host columns or 16 web columns, all text.
   * Given keys, the schema has their distinct values in first-occurrence order.
   */
  lemma SchemaDefaults(shape: Shape, keys: seq<string>)
    ensures SchemaFor(shape, None) == SchemaFor(shape, Some([]))
    ensures Columns(SchemaFor(shape, None)) == ShapeKeys(shape)
    ensures |SchemaFor(shape, None)| == (if shape == HostScan then 15 else 16)
    ensures forall i :: 0 <= i < |SchemaFor(shape, None)| ==> SchemaFor(shape, None)[i].1 == Utf8
    ensures keys != [] ==> Columns(SchemaFor(shape, Some(keys))) == Dedupe(keys)
  {
    KeysDistinct();
    SchemaOfDistinct(ShapeKeys(shape));
    SchemaOrder(keys);
  }

  // ---------------------------------------------------------------------------
  // The page parsers

  /** `_AllTemparser`: the host-scan page parser. */
  class AllTemparser {
    /** The rows to be written, one dict per finding. */
    var rows: seq<Row>

    /** `self.rows = []`, before any parsing. */
    constructor()
      ensures rows == []
    {
      rows := [];
    }

    /**
     * `_parse`: appends one row per finding of the page to `rows`; a page it
     * cannot read raises.
     */
    method Parse(payload: JSON) returns (o: Outcome<Error>)
      modifies this
      ensures o == OutcomeOf(HostRecords(Current, payload))
      ensures o.Pass? ==> rows == old(rows) + Map(HostRow, HostRecords(Current, payload).value)
    {
      var page := HostPage(payload);
      if page.Failure? {
        return Fail(page.error);
      }
      var ctx, mainInfo := page.value.0, page.value.1;
      assert HostRecords(Current, payload) == HostWalk(Current, ctx, mainInfo);
      var groupList := HostGroupList(mainInfo);
      if groupList.Failure? {
        return Fail(groupList.error);
      }
      var groups := groupList.value;
      var i := 0;
      while i < |groups|
        invariant i <= |groups|
        invariant HostGroupsRecords(Current, ctx, groups[..i]).Success?
        invariant rows == old(rows) + Map(HostRow, Flatten(HostGroupsRecords(Current, ctx, groups[..i]).value))
      {
        ghost var prev := HostGroupsRecords(Current, ctx, groups[..i]).value;
        var group := ParseGroup(ctx, groups[i]);
        if group.Fail? {
          HostWalkStops(Current, ctx, mainInfo, groups, i);
          return group;
        }
        HostWalkStep(Current, ctx, groups, i);
        AppendAssociative(old(rows), Map(HostRow, Flatten(prev)), Map(HostRow, HostGroupRecords(Current, ctx, groups[i]).value));
        i := i + 1;
      }
      HostWalkDone(Current, ctx, mainInfo, groups);
      return Pass;
    }

    /** One pass of the outer loop of `_parse`: a row per entry of the group's `vuls`. */
    method ParseGroup(ctx: PageContext, g: JSON) returns (o: Outcome<Error>)
      modifies this
      ensures o == OutcomeOf(HostGroupRecords(Current, ctx, g))
      ensures o.Pass? ==> rows == old(rows) + Map(HostRow, HostGroupRecords(Current, ctx, g).value)
    {
      var vulList := VulList(g);
      if vulList.Failure? {
        return Fail(vulList.error);
      }
      var vs := vulList.value;
      var k := 0;
      while k < |vs|
        invariant k <= |vs|
        invariant CurrentOccurrences(ctx, g, vs[..k]).Success?
        invariant rows == old(rows) + Map(HostRow, CurrentOccurrences(ctx, g, vs[..k]).value)
      {
        var rec := CurrentOccurrence(ctx, g, vs[k]);
        if rec.Failure? {
          CurrentGroupStops(ctx, g, vs, k);
          return Fail(rec.error);
        }
        CurrentGroupStep(ctx, g, vs, k);
        AppendAssociative(old(rows), Map(HostRow, CurrentOccurrences(ctx, g, vs[..k]).value), [HostRow(rec.value)]);
        rows := rows + [HostRow(rec.value)];
        k := k + 1;
      }
      CurrentGroupDone(ctx, g, vs);
      return Pass;
    }
  }

  /** `_WebTemparser`: the web-scan page parser. */
  class WebTemparser {
    /** The rows to be written, one dict per page of every finding. */
    var rows: seq<Row>

    /** `self.rows = []`, before any parsing. */
    constructor()
      ensures rows == []
    {
      rows := [];
    }

    /**
     * `_parse`: appends one row per page of every finding group to `rows`; a
     * page it cannot read raises.
     */
    method Parse(payload: JSON) returns (o: Outcome<Error>)
      modifies this
      ensures o == OutcomeOf(WebRecords(Current, payload))
      ensures o.Pass? ==> rows == old(rows) + Map(WebRow, WebRecords(Current, payload).value)
    {
      var page := WebPage(payload);
      if page.Failure? {
        return Fail(page.error);
      }
      var ctx, mainInfo := page.value.0, page.value.1;
      assert WebRecords(Current, payload) == WebWalk(Current, ctx, mainInfo);
      var groupList := Items(mainInfo);
      if groupList.Failure? {
        return Fail(groupList.error);
      }
      var groups := groupList.value;
      var i := 0;
      while i < |groups|
        invariant i <= |groups|
        invariant WebGroupsRecords(Current, ctx, groups[..i]).Success?
        invariant rows == old(rows) + Map(WebRow, Flatten(WebGroupsRecords(Current, ctx, groups[..i]).value))
      {
        ghost var prev := WebGroupsRecords(Current, ctx, groups[..i]).value;
        var group := ParseGroup(ctx, groups[i]);
        if group.Fail? {
          WebWalkStops(Current, ctx, mainInfo, groups, i);
          return group;
        }
        WebWalkStep(Current, ctx, groups, i);
        AppendAssociative(old(rows), Map(WebRow, Flatten(prev)), Map(WebRow, WebGroupRecords(Current, ctx, groups[i]).value));
        i := i + 1;
      }
      WebWalkDone(Current, ctx, mainInfo, groups);
      return Pass;
    }

    /** One pass of the outer loop of `_parse`: the group's shared fields, then a row per page. */
    method ParseGroup(ctx: PageContext, g: JSON) returns (o: Outcome<Error>)
      modifies this
      ensures o == OutcomeOf(WebGroupRecords(Current, ctx, g))
      ensures o.Pass? ==> rows == old(rows) + Map(WebRow, WebGroupRecords(Current, ctx, g).value)
    {
      var groupInfo := WebGroupInfo(g);
      if groupInfo.Failure? {
        return Fail(groupInfo.error);
      }
      var info := groupInfo.value;
      var pageList := PageList(g);
      if pageList.Failure? {
        return Fail(pageList.error);
      }
      var pages := pageList.value;
      var k := 0;
      while k < |pages|
        invariant k <= |pages|
        invariant WebOccurrences(Current, ctx, info, pages[..k]).Success?
        invariant rows == old(rows) + Map(WebRow, WebOccurrences(Current, ctx, info, pages[..k]).value)
      {
        var rec := WebOccurrence(Current, ctx, info, pages[k]);
        if rec.Failure? {
          WebGroupStops(Current, ctx, g, info, pages, k);
          return Fail(rec.error);
        }
        WebGroupStep(Current, ctx, info, pages, k);
        AppendAssociative(old(rows), Map(WebRow, WebOccurrences(Current, ctx, info, pages[..k]).value), [WebRow(rec.value)]);
        rows := rows + [WebRow(rec.value)];
        k := k + 1;
      }
      WebGroupDone(Current, ctx, g, info, pages);
      return Pass;
    }
  }

  /**
   * `parser_map`: builds the layout's parser on one page and returns its rows,
   * which are exactly the rows its parse appended to the empty list.
   */
  method ParserMap(payload: JSON, shape: Shape) returns (r: Result<seq<Row>, Error>)
    ensures r == PageRows(Current, shape, payload)
  {
    match shape
    case HostScan =>
      var parser := new AllTemparser();
      var o := parser.Parse(payload);
      if o.Fail? {
        return Failure(o.error);
      }
      AppendEmpty(Map(HostRow, HostRecords(Current, payload).value));
      return Success(parser.rows);
    case WebScan =>
      var parser := new WebTemparser();
      var o := parser.Parse(payload);
      if o.Fail? {
        return Failure(o.error);
      }
      AppendEmpty(Map(WebRow, WebRecords(Current, payload).value));
      return Success(parser.rows);
  }

  // ---------------------------------------------------------------------------
  // The merge

  /** What `parse` returns for the index page and the host pages, in order. */
  function Merge(index: JSON, pages: seq<JSON>): Result<Table, Error> {
    var shape :- Choose(index);
    var dfs :- PagesRows(Current, shape, pages);
    Success(Table(SchemaFor(shape, None), Flatten(dfs)))
  }

  /** `parse`: chooses the layout, parses every page in order and concatenates their rows. */
  method Parse(index: JSON, pages: seq<JSON>) returns (r: Result<Table, Error>)
    ensures r == Merge(index, pages)
  {
    var chosen := Choose(index);
    if chosen.Failure? {
      return Failure(chosen.error);
    }
    var shape := chosen.value;
    var dfs: seq<seq<Row>> := [];
    var i := 0;
    while i < |pages|
      invariant i <= |pages|
      invariant PagesRows(Current, shape, pages[..i]) == Success(dfs)
    {
      var pageRows := ParserMap(pages[i], shape);
      if pageRows.Failure? {
        PagesRowsFail(Current, shape, pages, i);
        return Failure(pageRows.error);
      }
      MapAllExtend(p => PageRows(Current, shape, p), pages, i);
      dfs := dfs + [pageRows.value];
      i := i + 1;
    }
    assert pages[..i] == pages;
    return Success(Table(SchemaFor(shape, None), Flatten(dfs)));
  }

  /**
   * The merged table has the layout's default schema and the pages' rows,
   * each page's rows contiguous and in extraction order, in page order; it
   * has as many rows as the pages together, and every row has the schema's
   * columns in the schema's order.
   */
  lemma MergeRows(index: JSON, pages: seq<JSON>, shape: Shape)
    requires Choose(index) == Success(shape)
    requires Merge(index, pages).Success?
    ensures PagesRows(Current, shape, pages).Success?
    ensures var t := Merge(index, pages).value;
            var dfs := PagesRows(Current, shape, pages).value;
            t.schema == SchemaFor(shape, None) &&
            t.rows == Flatten(dfs) &&
            |dfs| == |pages| &&
            (forall i :: 0 <= i < |pages| ==> PageRows(Current, shape, pages[i]) == Success(dfs[i])) &&
            (forall i :: 0 <= i < |pages| ==> t.rows == Flatten(dfs[..i]) + dfs[i] + Flatten(dfs[i + 1..])) &&
            |t.rows| == SumLengths(dfs) &&
            (forall row :: row in t.rows ==> Conforms(row, t.schema))
  {
    PagesRowsFlatten(Current, shape, pages);
    SchemaDefaults(shape, []);
  }

  /** A failing page fails the whole merge with the error of the first page that fails. */
  lemma MergeFails(index: JSON, pages: seq<JSON>, shape: Shape, i: nat)
    requires Choose(index) == Success(shape)
    requires i < |pages|
    requires PagesRows(Current, shape, pages[..i]).Success? && PageRows(Current, shape, pages[i]).Failure?
    ensures Merge(index, pages) == Failure(PageRows(Current, shape, pages[i]).error)
  {
    PagesRowsFail(Current, shape, pages, i);
  }
}

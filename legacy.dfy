/**
 * The earlier revision of the normaliser, kept in one script: the template
 * detector, which matches the exact template name, the two page parsers as
 * classes whose construction reads the page and fills `rows`, and the merge
 * of all pages into one table.
 */
module Legacy {
  import opened Wrappers
  import opened Collections
  import opened Json
  import opened Base
  import opened Records
  import opened Extract

  // ---------------------------------------------------------------------------
  // The template detector

  /** The scan templates the script knows. */
  datatype TemplateType = WEB | AUTO | ALL

  /** The value of each template member: the template name a report carries. */
  function TemplateName(t: TemplateType): string {
    match t
    case WEB => "Web全部应用漏洞"
    case AUTO => "自动匹配扫描"
    case ALL => "全部漏洞扫描"
  }

  /** `TEMPLATE_TYPE(value)`: the member whose value equals `value`, if there is one. */
  function TemplateTypeOf(value: JSON): (r: Option<TemplateType>)
    ensures forall t :: r == Some(t) <==> value == JStr(TemplateName(t))
  {
    if value == JStr("Web全部应用漏洞") then Some(WEB)
    else if value == JStr("自动匹配扫描") then Some(AUTO)
    else if value == JStr("全部漏洞扫描") then Some(ALL)
    else None
  }

  /** `temp_type_detector` on the decoded index page; an unknown template ends the run. */
  function Detect(index: JSON): Result<TemplateType, Error> {
    var template :- TemplateOf(index);
    match TemplateTypeOf(template)
    case Some(t) => Success(t)
    case None => Failure(UnknownTemplate(template))
  }

  /**
   * The detector succeeds exactly when the template name is the value of a
   * member, and then returns that member; any other name is refused.
   */
  lemma DetectOutcome(index: JSON, template: JSON)
    requires TemplateOf(index) == Success(template)
    ensures forall t :: Detect(index) == Success(t) <==> template == JStr(TemplateName(t))
    ensures Detect(index).Failure? <==> forall t :: template != JStr(TemplateName(t))
    ensures Detect(index).Failure? ==> Detect(index).error == UnknownTemplate(template)
  {
    if Detect(index).Failure? {
      forall t
        ensures template != JStr(TemplateName(t))
      {
        assert TemplateTypeOf(template) != Some(t);
      }
    } else {
      assert template == JStr(TemplateName(Detect(index).value));
    }
  }

  /** `PARSER_TYPE`: the web template has the web parser, the other two the host parser. */
  function ParserType(t: TemplateType): (shape: Shape)
    ensures shape == WebScan <==> t == WEB
    ensures shape == HostScan <==> t == ALL || t == AUTO
  {
    match t
    case WEB => WebScan
    case ALL => HostScan
    case AUTO => HostScan
  }

  /** The `SCHEMA` dict literal of each parser: its columns in order, each of text type. */
  function ClassSchema(shape: Shape): (s: Schema)
    ensures Columns(s) == ShapeKeys(shape)
    ensures forall i :: 0 <= i < |s| ==> s[i].1 == Utf8
  {
    var s := Map(k => (k, Utf8), ShapeKeys(shape));
    assert Columns(s) == ShapeKeys(shape);
    s
  }

  // ---------------------------------------------------------------------------
  // The page parsers

  /** `AllTemparser`: the host-scan page parser. */
  class AllTemparser {
    var rows: seq<Row>
    var ipAddr: JSON
    var scanStartTime: JSON
    var scanEndTime: JSON
    /** `self.__main_info`: the page's host section. */
    var mainInfo: JSON

    constructor()
      ensures rows == []
    {
      rows := [];
      ipAddr, scanStartTime, scanEndTime, mainInfo := JNull, JNull, JNull, JNull;
    }

    /** The page-level fields the rows copy. */
    function Context(): PageContext
      reads this`ipAddr, this`scanStartTime, this`scanEndTime
    {
      PageContext(ipAddr, scanStartTime, scanEndTime)
    }

    /**
     * `__init__` from the decoded page on: empties `rows`, reads the host
     * section and the page fields, then parses. On success `rows` holds
     * exactly the page's rows.
     */
    method Init(payload: JSON) returns (o: Outcome<Error>)
      modifies this
      ensures o == OutcomeOf(HostRecords(Legacy, payload))
      ensures o.Pass? ==> rows == Map(HostRow, HostRecords(Legacy, payload).value)
      ensures HostPage(payload).Success? ==>
                Context() == HostPage(payload).value.0 && mainInfo == HostPage(payload).value.1
    {
      rows := [];
      var page := HostPage(payload);
      if page.Failure? {
        return Fail(page.error);
      }
      mainInfo := page.value.1;
      ipAddr := page.value.0.target;
      scanStartTime := page.value.0.timeStart;
      scanEndTime := page.value.0.timeEnd;
      o := ParseVulns();
    }

    /**
     * `__parse`: for every group, reads its port, service and protocol, then
     * appends one row per entry of its `vuls` list.
     */
    method ParseVulns() returns (o: Outcome<Error>)
      modifies this`rows
      ensures o == OutcomeOf(HostWalk(Legacy, old(Context()), old(mainInfo)))
      ensures o.Pass? ==> rows == old(rows) + Map(HostRow, HostWalk(Legacy, old(Context()), old(mainInfo)).value)
    {
      var ctx, main := Context(), mainInfo;
      var groupList := HostGroupList(main);
      if groupList.Failure? {
        return Fail(groupList.error);
      }
      var groups := groupList.value;
      var i := 0;
      while i < |groups|
        invariant i <= |groups|
        invariant HostGroupsRecords(Legacy, ctx, groups[..i]).Success?
        invariant rows == old(rows) + Map(HostRow, Flatten(HostGroupsRecords(Legacy, ctx, groups[..i]).value))
      {
        ghost var prev := HostGroupsRecords(Legacy, ctx, groups[..i]).value;
        var group := ParseGroup(ctx, groups[i]);
        if group.Fail? {
          HostWalkStops(Legacy, ctx, main, groups, i);
          return group;
        }
        HostWalkStep(Legacy, ctx, groups, i);
        AppendAssociative(old(rows), Map(HostRow, Flatten(prev)), Map(HostRow, HostGroupRecords(Legacy, ctx, groups[i]).value));
        i := i + 1;
      }
      HostWalkDone(Legacy, ctx, main, groups);
      return Pass;
    }

    /** One pass of the outer loop of `__parse`: the group's fields, then a row per entry of `vuls`. */
    method ParseGroup(ctx: PageContext, g: JSON) returns (o: Outcome<Error>)
      modifies this`rows
      ensures o == OutcomeOf(HostGroupRecords(Legacy, ctx, g))
      ensures o.Pass? ==> rows == old(rows) + Map(HostRow, HostGroupRecords(Legacy, ctx, g).value)
    {
      var port := Get(g, "port");
      if port.Failure? {
        LegacyGroupFieldStops(ctx, g, port);
        return Fail(port.error);
      }
      var service := Get(g, "service");
      if service.Failure? {
        LegacyGroupFieldStops(ctx, g, service);
        return Fail(service.error);
      }
      var protocol := Get(g, "protocol");
      if protocol.Failure? {
        LegacyGroupFieldStops(ctx, g, protocol);
        return Fail(protocol.error);
      }
      var vulList := VulList(g);
      if vulList.Failure? {
        return Fail(vulList.error);
      }
      var vs := vulList.value;
      o := ParseOccurrences(ctx, port.value, service.value, protocol.value, vs);
    }

    /** The inner loop of `__parse`: a row per entry of a group's `vuls`, with the group's fields. */
    method ParseOccurrences(ctx: PageContext, port: JSON, service: JSON, protocol: JSON, vs: seq<JSON>)
      returns (o: Outcome<Error>)
      modifies this`rows
      ensures o == OutcomeOf(LegacyOccurrences(ctx, port, service, protocol, vs))
      ensures o.Pass? ==> rows == old(rows) + Map(HostRow, LegacyOccurrences(ctx, port, service, protocol, vs).value)
    {
      var k := 0;
      while k < |vs|
        invariant k <= |vs|
        invariant LegacyOccurrences(ctx, port, service, protocol, vs[..k]).Success?
        invariant rows == old(rows) + Map(HostRow, LegacyOccurrences(ctx, port, service, protocol, vs[..k]).value)
      {
        var rec := LegacyOccurrence(ctx, port, service, protocol, vs[k]);
        if rec.Failure? {
          LegacyOccurrencesStop(ctx, port, service, protocol, vs, k);
          return Fail(rec.error);
        }
        LegacyGroupStep(ctx, port, service, protocol, vs, k);
        AppendAssociative(old(rows), Map(HostRow, LegacyOccurrences(ctx, port, service, protocol, vs[..k]).value), [HostRow(rec.value)]);
        rows := rows + [HostRow(rec.value)];
        k := k + 1;
      }
      assert vs[..k] == vs;
      return Pass;
    }
  }

  /** `WebTemparser`: the web-scan page parser. */
  class WebTemparser {
    var rows: seq<Row>
    var ipAddr: JSON
    var scanStartTime: JSON
    var scanEndTime: JSON
    /** `self.__main_info`: the page's list of finding groups. */
    var mainInfo: JSON

    constructor()
      ensures rows == []
    {
      rows := [];
      ipAddr, scanStartTime, scanEndTime, mainInfo := JNull, JNull, JNull, JNull;
    }

    function Context(): PageContext
      reads this`ipAddr, this`scanStartTime, this`scanEndTime
    {
      PageContext(ipAddr, scanStartTime, scanEndTime)
    }

    /**
     * `__init__` from the decoded page on: empties `rows`, reads the list of
     * finding groups and the page fields, then parses.
     */
    method Init(payload: JSON) returns (o: Outcome<Error>)
      modifies this
      ensures o == OutcomeOf(WebRecords(Legacy, payload))
      ensures o.Pass? ==> rows == Map(WebRow, WebRecords(Legacy, payload).value)
      ensures WebPage(payload).Success? ==>
                Context() == WebPage(payload).value.0 && mainInfo == WebPage(payload).value.1
    {
      rows := [];
      var page := WebPage(payload);
      if page.Failure? {
        return Fail(page.error);
      }
      mainInfo := page.value.1;
      ipAddr := page.value.0.target;
      scanStartTime := page.value.0.timeStart;
      scanEndTime := page.value.0.timeEnd;
      o := ParseVulns();
    }

    /**
     * `__parse`: for every group, reads its shared fields, then appends one
     * row per page, reading `raw_data[0]` of every page.
     */
    method ParseVulns() returns (o: Outcome<Error>)
      modifies this`rows
      ensures o == OutcomeOf(WebWalk(Legacy, old(Context()), old(mainInfo)))
      ensures o.Pass? ==> rows == old(rows) + Map(WebRow, WebWalk(Legacy, old(Context()), old(mainInfo)).value)
    {
      var ctx, main := Context(), mainInfo;
      var groupList := Items(main);
      if groupList.Failure? {
        return Fail(groupList.error);
      }
      var groups := groupList.value;
      var i := 0;
      while i < |groups|
        invariant i <= |groups|
        invariant WebGroupsRecords(Legacy, ctx, groups[..i]).Success?
        invariant rows == old(rows) + Map(WebRow, Flatten(WebGroupsRecords(Legacy, ctx, groups[..i]).value))
      {
        ghost var prev := WebGroupsRecords(Legacy, ctx, groups[..i]).value;
        var group := ParseGroup(ctx, groups[i]);
        if group.Fail? {
          WebWalkStops(Legacy, ctx, main, groups, i);
          return group;
        }
        WebWalkStep(Legacy, ctx, groups, i);
        AppendAssociative(old(rows), Map(WebRow, Flatten(prev)), Map(WebRow, WebGroupRecords(Legacy, ctx, groups[i]).value));
        i := i + 1;
      }
      WebWalkDone(Legacy, ctx, main, groups);
      return Pass;
    }

    /** One pass of the outer loop of `__parse`: the group's shared fields, then a row per page. */
    method ParseGroup(ctx: PageContext, g: JSON) returns (o: Outcome<Error>)
      modifies this`rows
      ensures o == OutcomeOf(WebGroupRecords(Legacy, ctx, g))
      ensures o.Pass? ==> rows == old(rows) + Map(WebRow, WebGroupRecords(Legacy, ctx, g).value)
    {
      var groupInfo := WebGroupInfo(g);
      if groupInfo.Failure? {
        return Fail(groupInfo.error);
      }
      var info := groupInfo.value;
      var pageList := PageList(g);
      if pageList.Failure? {
        return Fail(pageList.error);
      }
      var pages := pageList.value;
      var k := 0;
      while k < |pages|
        invariant k <= |pages|
        invariant WebOccurrences(Legacy, ctx, info, pages[..k]).Success?
        invariant rows == old(rows) + Map(WebRow, WebOccurrences(Legacy, ctx, info, pages[..k]).value)
      {
        var rec := WebOccurrence(Legacy, ctx, info, pages[k]);
        if rec.Failure? {
          WebGroupStops(Legacy, ctx, g, info, pages, k);
          return Fail(rec.error);
        }
        WebGroupStep(Legacy, ctx, info, pages, k);
        AppendAssociative(old(rows), Map(WebRow, WebOccurrences(Legacy, ctx, info, pages[..k]).value), [WebRow(rec.value)]);
        rows := rows + [WebRow(rec.value)];
        k := k + 1;
      }
      WebGroupDone(Legacy, ctx, g, info, pages);
      return Pass;
    }
  }

  /** `parse_host`: builds the template's parser on one page and returns its rows. */
  method ParseHost(payload: JSON, t: TemplateType) returns (r: Result<seq<Row>, Error>)
    ensures r == PageRows(Legacy, ParserType(t), payload)
  {
    match ParserType(t)
    case HostScan =>
      var parser := new AllTemparser();
      var o := parser.Init(payload);
      if o.Fail? {
        return Failure(o.error);
      }
      return Success(parser.rows);
    case WebScan =>
      var parser := new WebTemparser();
      var o := parser.Init(payload);
      if o.Fail? {
        return Failure(o.error);
      }
      return Success(parser.rows);
  }

  // ---------------------------------------------------------------------------
  // The merge

  /** The table `run_main` hands to the spreadsheet writer. */
  function MergeAll(index: JSON, pages: seq<JSON>): Result<Table, Error> {
    var t :- Detect(index);
    var dfs :- PagesRows(Legacy, ParserType(t), pages);
    Success(Table(ClassSchema(ParserType(t)), Flatten(dfs)))
  }

  /**
   * `run_main` between the archive and the spreadsheet: detects the template,
   * parses every page in order, and builds the table under the schema of the
   * parser the template detected a second time selects.
   */
  method RunMain(index: JSON, pages: seq<JSON>) returns (r: Result<Table, Error>)
    ensures r == MergeAll(index, pages)
  {
    var detected := Detect(index);
    if detected.Failure? {
      return Failure(detected.error);
    }
    var t := detected.value;
    var dfs: seq<seq<Row>> := [];
    var i := 0;
    while i < |pages|
      invariant i <= |pages|
      invariant PagesRows(Legacy, ParserType(t), pages[..i]) == Success(dfs)
    {
      var pageRows := ParseHost(pages[i], t);
      if pageRows.Failure? {
        PagesRowsFail(Legacy, ParserType(t), pages, i);
        return Failure(pageRows.error);
      }
      MapAllExtend(p => PageRows(Legacy, ParserType(t), p), pages, i);
      dfs := dfs + [pageRows.value];
      i := i + 1;
    }
    assert pages[..i] == pages;
    var again := Detect(index);
    return Success(Table(ClassSchema(ParserType(again.value)), Flatten(dfs)));
  }

  /**
   * The merged table has the detected parser's schema and the pages' rows,
   * each page's rows contiguous, in page order, as many as the pages have
   * together, and every row has the schema's columns in order.
   */
  lemma MergeAllRows(index: JSON, pages: seq<JSON>, t: TemplateType)
    requires Detect(index) == Success(t)
    requires MergeAll(index, pages).Success?
    ensures PagesRows(Legacy, ParserType(t), pages).Success?
    ensures var table := MergeAll(index, pages).value;
            var dfs := PagesRows(Legacy, ParserType(t), pages).value;
            table.schema == ClassSchema(ParserType(t)) &&
            table.rows == Flatten(dfs) &&
            |dfs| == |pages| &&
            (forall i :: 0 <= i < |pages| ==> PageRows(Legacy, ParserType(t), pages[i]) == Success(dfs[i])) &&
            (forall i :: 0 <= i < |pages| ==> table.rows == Flatten(dfs[..i]) + dfs[i] + Flatten(dfs[i + 1..])) &&
            |table.rows| == SumLengths(dfs) &&
            (forall row :: row in table.rows ==> Conforms(row, table.schema))
  {
    PagesRowsFlatten(Legacy, ParserType(t), pages);
  }
}

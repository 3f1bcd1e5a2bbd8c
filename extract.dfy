/**
 * The walk both report extractors make over a decoded page payload, from the
 * page lookups to the finding records, in both revisions of the code. Every
 * lookup happens in the order the Python evaluates it, so that a payload with
 * several defects fails with the exception Python raises first.
 *
 * The two revisions differ in two places only:
 * - the old host extractor reads a group's port, service and protocol once,
 *   before its occurrences; the current one reads them again for every
 *   occurrence, after the occurrence's message;
 * - the current web extractor gives a page with an empty `raw_data` list an
 *   empty request and response; the old one indexes `raw_data[0]` regardless.
 */
module Extract {
  import opened Wrappers
  import opened Collections
  import opened Json
  import opened Base
  import opened Records

  datatype Revision = Legacy | Current

  /** The two report layouts: a host scan and a web application scan. */
  datatype Shape = HostScan | WebScan

  // ---------------------------------------------------------------------------
  // Page lookups

  /** `categories[0]['data']`: the scan target and the scan times every row carries. */
  function ContextOf(categories: JSON): Result<PageContext, Error> {
    var first :- At(categories, 0);
    var data :- Get(first, "data");
    var target :- Get(data, "target");
    var timeStart :- Get(data, "timeStart");
    var timeEnd :- Get(data, "timeEnd");
    Success(PageContext(target, timeStart, timeEnd))
  }

  /** `categories[1]['children'][1]['data']`: the host section of a page. */
  function HostSection(categories: JSON): Result<JSON, Error> {
    var section :- At(categories, 1);
    var children :- Get(section, "children");
    var child :- At(children, 1);
    Get(child, "data")
  }

  /** `categories[2]['children'][1]['data']['risk_distribution']['web_scan_vuls_list']`. */
  function WebSection(categories: JSON): Result<JSON, Error> {
    var section :- At(categories, 2);
    var children :- Get(section, "children");
    var child :- At(children, 1);
    var data :- Get(child, "data");
    var distribution :- Get(data, "risk_distribution");
    Get(distribution, "web_scan_vuls_list")
  }

  /** A host page: its context and its host section; the section is read first. */
  function HostPage(payload: JSON): Result<(PageContext, JSON), Error> {
    var categories :- Get(payload, "categories");
    var mainInfo :- HostSection(categories);
    var ctx :- ContextOf(categories);
    Success((ctx, mainInfo))
  }

  /** A web page: its context and its list of finding groups; the list is read first. */
  function WebPage(payload: JSON): Result<(PageContext, JSON), Error> {
    var categories :- Get(payload, "categories");
    var mainInfo :- WebSection(categories);
    var ctx :- ContextOf(categories);
    Success((ctx, mainInfo))
  }

  /** `[item['title'] for item in categories]`. */
  function TitlesOf(index: JSON): Result<seq<JSON>, Error> {
    var categories :- Get(index, "categories");
    var items :- Items(categories);
    MapAll(item => Get(item, "title"), items)
  }

  /** `categories[0]['children'][0]['data']['vulnTemplate']`: the scan template's name. */
  function TemplateOf(index: JSON): Result<JSON, Error> {
    var categories :- Get(index, "categories");
    var first :- At(categories, 0);
    var children :- Get(first, "children");
    var child :- At(children, 0);
    var data :- Get(child, "data");
    Get(data, "vulnTemplate")
  }

  // ---------------------------------------------------------------------------
  // The host walk

  /** The fields a host row takes from an occurrence `v` and its message `msg`, in row order. */
  function HostFinding(ctx: PageContext, port: JSON, service: JSON, protocol: JSON, v: JSON, msg: JSON)
    : Result<HostRecord, Error>
  {
    var name :- Get(msg, "i18n_name");
    var code :- Get(v, "vul_level");
    var level :- LevelLabel(code);
    var descriptionFragments :- Get(msg, "i18n_description");
    var description :- JoinFragments(descriptionFragments);
    var solutionFragments :- Get(msg, "i18n_solution");
    var solution :- JoinFragments(solutionFragments);
    var points :- Get(msg, "severity_points");
    var flag :- Get(msg, "is_dangerous");
    var dangerous :- DangerLabel(flag);
    var dateFound :- Get(msg, "date_found");
    var cve :- Get(msg, "cve_id");
    var vulId :- Get(v, "vul_id");
    Success(HostRecord(ctx.target, port, service, protocol, name, JStr(level), JStr(description),
                       JStr(solution), points, JStr(dangerous), dateFound, cve, ctx.timeStart,
                       ctx.timeEnd, vulId))
  }

  /** An occurrence in the current revision: its message, then the group's port, service and protocol. */
  function CurrentOccurrence(ctx: PageContext, g: JSON, v: JSON): Result<HostRecord, Error> {
    var msg :- Get(v, "vul_msg");
    var port :- Get(g, "port");
    var service :- Get(g, "service");
    var protocol :- Get(g, "protocol");
    HostFinding(ctx, port, service, protocol, v, msg)
  }

  /** An occurrence in the old revision, with the group's fields already read. */
  function LegacyOccurrence(ctx: PageContext, port: JSON, service: JSON, protocol: JSON, v: JSON)
    : Result<HostRecord, Error>
  {
    var msg :- Get(v, "vul_msg");
    HostFinding(ctx, port, service, protocol, v, msg)
  }

  /** The inner loop of the current revision over the occurrences `vs` of group `g`. */
  function CurrentOccurrences(ctx: PageContext, g: JSON, vs: seq<JSON>): Result<seq<HostRecord>, Error> {
    MapAll(v => CurrentOccurrence(ctx, g, v), vs)
  }

  /** The inner loop of the old revision over the occurrences `vs` of a group. */
  function LegacyOccurrences(ctx: PageContext, port: JSON, service: JSON, protocol: JSON, vs: seq<JSON>)
    : Result<seq<HostRecord>, Error>
  {
    MapAll(v => LegacyOccurrence(ctx, port, service, protocol, v), vs)
  }

  /** What `for inner_dict in outer_dict['vuls']` visits. */
  function VulList(g: JSON): Result<seq<JSON>, Error> {
    var vuls :- Get(g, "vuls");
    Items(vuls)
  }

  /** The rows of one host group (one open port), one per entry of its `vuls`. */
  function HostGroupRecords(rev: Revision, ctx: PageContext, g: JSON): Result<seq<HostRecord>, Error> {
    match rev
    case Current =>
      var vs :- VulList(g);
      CurrentOccurrences(ctx, g, vs)
    case Legacy =>
      var port :- Get(g, "port");
      var service :- Get(g, "service");
      var protocol :- Get(g, "protocol");
      var vs :- VulList(g);
      LegacyOccurrences(ctx, port, service, protocol, vs)
  }

  /** The outer loop over the host groups: one block of rows per group. */
  function HostGroupsRecords(rev: Revision, ctx: PageContext, groups: seq<JSON>): Result<seq<seq<HostRecord>>, Error> {
    MapAll(g => HostGroupRecords(rev, ctx, g), groups)
  }

  /** What `for outer_dict in main_info['vul_items']` visits. */
  function HostGroupList(mainInfo: JSON): Result<seq<JSON>, Error> {
    var vulItems :- Get(mainInfo, "vul_items");
    Items(vulItems)
  }

  /** The rows the host loops append, from a page's context and host section. */
  function HostWalk(rev: Revision, ctx: PageContext, mainInfo: JSON): Result<seq<HostRecord>, Error> {
    var groups :- HostGroupList(mainInfo);
    var blocks :- HostGroupsRecords(rev, ctx, groups);
    Success(Flatten(blocks))
  }

  /** The rows a host page yields. */
  function HostRecords(rev: Revision, payload: JSON): Result<seq<HostRecord>, Error> {
    var page :- HostPage(payload);
    HostWalk(rev, page.0, page.1)
  }

  // ---------------------------------------------------------------------------
  // The web walk

  /** The fields shared by every row of one web group, as the outer loop reads them. */
  datatype GroupInfo = GroupInfo(
    name: JSON, points: JSON, level: string, cvss: JSON, description: JSON, solution: JSON,
    dangerous: string)

  /** The group-level lookups, in source order. */
  function WebGroupInfo(g: JSON): Result<GroupInfo, Error> {
    var name :- Get(g, "i18n_name");
    var points :- Get(g, "severity_points");
    var risk :- Get(g, "risk_level");
    var level :- LevelLabel(risk);
    var vulnInfo :- Get(g, "web_vuln_obj");
    var cvss :- Get(vulnInfo, "cvss");
    var description :- Get(vulnInfo, "i18n_description");
    var solution :- Get(vulnInfo, "i18n_solution");
    var flag :- Get(vulnInfo, "is_dangerous");
    var dangerous :- DangerLabel(flag);
    Success(GroupInfo(name, points, level, cvss, description, solution, dangerous))
  }

  /** The request and response text of `raw_data[0]`; both are read before either text is built. */
  function FirstExchange(rawData: JSON): (r: Result<(string, string), Error>)
    ensures r.Success? ==> r.value.0 != "" && r.value.1 != ""
  {
    var first :- At(rawData, 0);
    ExchangeText(first)
  }

  /** The texts of one item of `raw_data`: both lookups first, then the request text, then the response text. */
  function ExchangeText(item: JSON): (r: Result<(string, string), Error>)
    ensures r.Success? ==> r.value.0 != "" && r.value.1 != ""
  {
    var request :- Get(item, "request");
    var response :- Get(item, "response");
    var requestText :- RequestText(request);
    var responseText :- ResponseText(response);
    Success((requestText, responseText))
  }

  /** The raw request and response of a page. */
  function RawExchange(rev: Revision, page: JSON): Result<(string, string), Error> {
    var rawData :- Get(page, "raw_data");
    match rev
    case Current =>
      var n :- Length(rawData);
      if n == 0 then Success(("", "")) else FirstExchange(rawData)
    case Legacy =>
      FirstExchange(rawData)
  }

  /** One page of a web group: the raw exchange first, then the page's own fields. */
  function WebOccurrence(rev: Revision, ctx: PageContext, info: GroupInfo, page: JSON): Result<WebRecord, Error> {
    var raw :- RawExchange(rev, page);
    var url :- Get(page, "url");
    var httpMethod :- GetOr(page, "method", JStr(""));
    var param :- GetOr(page, "param", JStr(""));
    var verification :- GetOr(page, "verification", JStr(""));
    Success(WebRecord(ctx.target, url, httpMethod, param, verification, info.name, info.points,
                      JStr(info.level), info.cvss, info.description, info.solution, JStr(info.dangerous),
                      JStr(raw.0), JStr(raw.1), ctx.timeStart, ctx.timeEnd))
  }

  /** The inner loop over the pages of one group. */
  function WebOccurrences(rev: Revision, ctx: PageContext, info: GroupInfo, pages: seq<JSON>)
    : Result<seq<WebRecord>, Error>
  {
    MapAll(p => WebOccurrence(rev, ctx, info, p), pages)
  }

  /** What `for inner_dict in outer_dict['pages']` visits. */
  function PageList(g: JSON): Result<seq<JSON>, Error> {
    var pages :- Get(g, "pages");
    Items(pages)
  }

  /** The rows of one web group, one per page. */
  function WebGroupRecords(rev: Revision, ctx: PageContext, g: JSON): Result<seq<WebRecord>, Error> {
    var info :- WebGroupInfo(g);
    var pages :- PageList(g);
    WebOccurrences(rev, ctx, info, pages)
  }

  function WebGroupsRecords(rev: Revision, ctx: PageContext, groups: seq<JSON>): Result<seq<seq<WebRecord>>, Error> {
    MapAll(g => WebGroupRecords(rev, ctx, g), groups)
  }

  /** The rows the web loops append, from a page's context and its list of groups. */
  function WebWalk(rev: Revision, ctx: PageContext, mainInfo: JSON): Result<seq<WebRecord>, Error> {
    var groups :- Items(mainInfo);
    var blocks :- WebGroupsRecords(rev, ctx, groups);
    Success(Flatten(blocks))
  }

  /** The rows a web page yields. */
  function WebRecords(rev: Revision, payload: JSON): Result<seq<WebRecord>, Error> {
    var page :- WebPage(payload);
    WebWalk(rev, page.0, page.1)
  }

  // ---------------------------------------------------------------------------
  // Rows of a page, and of a list of pages

  /** The columns of a layout. */
  function ShapeKeys(shape: Shape): seq<string> {
    match shape
    case HostScan => HostKeys
    case WebScan => WebKeys
  }

  /** The rows one page appends, as dicts keyed by the layout's columns. */
  function PageRows(rev: Revision, shape: Shape, payload: JSON): (r: Result<seq<Row>, Error>)
    ensures r.Success? ==> forall i :: 0 <= i < |r.value| ==> Columns(r.value[i]) == ShapeKeys(shape)
  {
    match shape
    case HostScan =>
      var recs :- HostRecords(rev, payload);
      Success(Map(HostRow, recs))
    case WebScan =>
      var recs :- WebRecords(rev, payload);
      Success(Map(WebRow, recs))
  }

  /** `pool.map` of the page parser over the pages, in page order. */
  function PagesRows(rev: Revision, shape: Shape, pages: seq<JSON>): Result<seq<seq<Row>>, Error> {
    MapAll(p => PageRows(rev, shape, p), pages)
  }

  /**
   * The flattened rows of several pages: each page's rows, unchanged and
   * contiguous, in page order, as many as all pages have together, and every
   * row keyed by the layout's columns.
   */
  lemma PagesRowsFlatten(rev: Revision, shape: Shape, pages: seq<JSON>)
    requires PagesRows(rev, shape, pages).Success?
    ensures |PagesRows(rev, shape, pages).value| == |pages|
    ensures forall i :: 0 <= i < |pages| ==> PageRows(rev, shape, pages[i]) == Success(PagesRows(rev, shape, pages).value[i])
    ensures forall i :: 0 <= i < |pages| ==>
              var dfs := PagesRows(rev, shape, pages).value;
              Flatten(dfs) == Flatten(dfs[..i]) + dfs[i] + Flatten(dfs[i + 1..])
    ensures |Flatten(PagesRows(rev, shape, pages).value)| == SumLengths(PagesRows(rev, shape, pages).value)
    ensures forall row :: row in Flatten(PagesRows(rev, shape, pages).value) ==> Columns(row) == ShapeKeys(shape)
  {
    var dfs := PagesRows(rev, shape, pages).value;
    MapAllSuccess(p => PageRows(rev, shape, p), pages);
    forall i | 0 <= i < |pages|
      ensures Flatten(dfs) == Flatten(dfs[..i]) + dfs[i] + Flatten(dfs[i + 1..])
    {
      FlattenSplit(dfs, i);
    }
    FlattenLength(dfs);
    forall row | row in Flatten(dfs)
      ensures Columns(row) == ShapeKeys(shape)
    {
      FlattenMember(dfs, row);
    }
  }

  /** The first failing page decides: the pages before it succeeded, and its error is the result. */
  lemma PagesRowsFail(rev: Revision, shape: Shape, pages: seq<JSON>, i: nat)
    requires i < |pages|
    requires PagesRows(rev, shape, pages[..i]).Success? && PageRows(rev, shape, pages[i]).Failure?
    ensures PagesRows(rev, shape, pages) == Failure(PageRows(rev, shape, pages[i]).error)
  {
    MapAllStops(p => PageRows(rev, shape, p), pages, i);
  }

  // ---------------------------------------------------------------------------
  // The loops one iteration at a time

  /** An occurrence that fails ends its group with its error. */
  lemma CurrentGroupStops(ctx: PageContext, g: JSON, vs: seq<JSON>, k: nat)
    requires VulList(g) == Success(vs) && k < |vs|
    requires CurrentOccurrences(ctx, g, vs[..k]).Success? && CurrentOccurrence(ctx, g, vs[k]).Failure?
    ensures HostGroupRecords(Current, ctx, g) == Failure(CurrentOccurrence(ctx, g, vs[k]).error)
  {
    MapAllStops(v => CurrentOccurrence(ctx, g, v), vs, k);
  }

  /** A legacy group whose port, service, protocol or `vuls` lookup fails ends with that lookup's error. */
  lemma LegacyGroupFieldStops(ctx: PageContext, g: JSON, failed: Result<JSON, Error>)
    requires failed.Failure?
    requires Get(g, "port") == failed ||
             (Get(g, "port").Success? && Get(g, "service") == failed) ||
             (Get(g, "port").Success? && Get(g, "service").Success? && Get(g, "protocol") == failed)
    ensures HostGroupRecords(Legacy, ctx, g) == Failure(failed.error)
  {
  }

  /** An occurrence that fails ends the old revision's inner loop with its error. */
  lemma LegacyOccurrencesStop(ctx: PageContext, port: JSON, service: JSON, protocol: JSON, vs: seq<JSON>, k: nat)
    requires k < |vs|
    requires LegacyOccurrences(ctx, port, service, protocol, vs[..k]).Success?
    requires LegacyOccurrence(ctx, port, service, protocol, vs[k]).Failure?
    ensures LegacyOccurrences(ctx, port, service, protocol, vs) ==
              Failure(LegacyOccurrence(ctx, port, service, protocol, vs[k]).error)
  {
    MapAllStops(v => LegacyOccurrence(ctx, port, service, protocol, v), vs, k);
  }

  /** A group that fails ends the host walk with its error. */
  lemma HostWalkStops(rev: Revision, ctx: PageContext, mainInfo: JSON, groups: seq<JSON>, i: nat)
    requires HostGroupList(mainInfo) == Success(groups) && i < |groups|
    requires HostGroupsRecords(rev, ctx, groups[..i]).Success? && HostGroupRecords(rev, ctx, groups[i]).Failure?
    ensures HostWalk(rev, ctx, mainInfo) == Failure(HostGroupRecords(rev, ctx, groups[i]).error)
  {
    MapAllStops(g => HostGroupRecords(rev, ctx, g), groups, i);
  }

  /** A group that succeeds appends its block to the rows of the groups before it. */
  lemma HostWalkStep(rev: Revision, ctx: PageContext, groups: seq<JSON>, i: nat)
    requires i < |groups|
    requires HostGroupsRecords(rev, ctx, groups[..i]).Success? && HostGroupRecords(rev, ctx, groups[i]).Success?
    ensures HostGroupsRecords(rev, ctx, groups[..i + 1]).Success?
    ensures Map(HostRow, Flatten(HostGroupsRecords(rev, ctx, groups[..i + 1]).value)) ==
              Map(HostRow, Flatten(HostGroupsRecords(rev, ctx, groups[..i]).value)) +
              Map(HostRow, HostGroupRecords(rev, ctx, groups[i]).value)
  {
    var prev := HostGroupsRecords(rev, ctx, groups[..i]).value;
    var block := HostGroupRecords(rev, ctx, groups[i]).value;
    MapAllExtend(g => HostGroupRecords(rev, ctx, g), groups, i);
    FlattenSnoc(prev, block);
    MapAppend(HostRow, Flatten(prev), block);
  }

  /** The host walk once every group is done. */
  lemma HostWalkDone(rev: Revision, ctx: PageContext, mainInfo: JSON, groups: seq<JSON>)
    requires HostGroupList(mainInfo) == Success(groups)
    requires HostGroupsRecords(rev, ctx, groups[..|groups|]).Success?
    ensures HostWalk(rev, ctx, mainInfo) == Success(Flatten(HostGroupsRecords(rev, ctx, groups[..|groups|]).value))
  {
    assert groups[..|groups|] == groups;
  }

  /** An occurrence that succeeds appends its row. */
  lemma CurrentGroupStep(ctx: PageContext, g: JSON, vs: seq<JSON>, k: nat)
    requires k < |vs|
    requires CurrentOccurrences(ctx, g, vs[..k]).Success? && CurrentOccurrence(ctx, g, vs[k]).Success?
    ensures CurrentOccurrences(ctx, g, vs[..k + 1]).Success?
    ensures Map(HostRow, CurrentOccurrences(ctx, g, vs[..k + 1]).value) ==
              Map(HostRow, CurrentOccurrences(ctx, g, vs[..k]).value) + [HostRow(CurrentOccurrence(ctx, g, vs[k]).value)]
  {
    MapAllExtend(v => CurrentOccurrence(ctx, g, v), vs, k);
    MapAppend(HostRow, CurrentOccurrences(ctx, g, vs[..k]).value, [CurrentOccurrence(ctx, g, vs[k]).value]);
  }

  /** The current group once every occurrence is done. */
  lemma CurrentGroupDone(ctx: PageContext, g: JSON, vs: seq<JSON>)
    requires VulList(g) == Success(vs)
    requires CurrentOccurrences(ctx, g, vs[..|vs|]).Success?
    ensures HostGroupRecords(Current, ctx, g) == CurrentOccurrences(ctx, g, vs[..|vs|])
  {
    assert vs[..|vs|] == vs;
  }

  lemma LegacyGroupStep(ctx: PageContext, port: JSON, service: JSON, protocol: JSON, vs: seq<JSON>, k: nat)
    requires k < |vs|
    requires LegacyOccurrences(ctx, port, service, protocol, vs[..k]).Success?
    requires LegacyOccurrence(ctx, port, service, protocol, vs[k]).Success?
    ensures LegacyOccurrences(ctx, port, service, protocol, vs[..k + 1]).Success?
    ensures Map(HostRow, LegacyOccurrences(ctx, port, service, protocol, vs[..k + 1]).value) ==
              Map(HostRow, LegacyOccurrences(ctx, port, service, protocol, vs[..k]).value) +
              [HostRow(LegacyOccurrence(ctx, port, service, protocol, vs[k]).value)]
  {
    MapAllExtend(v => LegacyOccurrence(ctx, port, service, protocol, v), vs, k);
    MapAppend(HostRow, LegacyOccurrences(ctx, port, service, protocol, vs[..k]).value,
              [LegacyOccurrence(ctx, port, service, protocol, vs[k]).value]);
  }

  lemma WebGroupStops(rev: Revision, ctx: PageContext, g: JSON, info: GroupInfo, pages: seq<JSON>, k: nat)
    requires WebGroupInfo(g) == Success(info) && PageList(g) == Success(pages) && k < |pages|
    requires WebOccurrences(rev, ctx, info, pages[..k]).Success? && WebOccurrence(rev, ctx, info, pages[k]).Failure?
    ensures WebGroupRecords(rev, ctx, g) == Failure(WebOccurrence(rev, ctx, info, pages[k]).error)
  {
    MapAllStops(p => WebOccurrence(rev, ctx, info, p), pages, k);
  }

  lemma WebGroupStep(rev: Revision, ctx: PageContext, info: GroupInfo, pages: seq<JSON>, k: nat)
    requires k < |pages|
    requires WebOccurrences(rev, ctx, info, pages[..k]).Success? && WebOccurrence(rev, ctx, info, pages[k]).Success?
    ensures WebOccurrences(rev, ctx, info, pages[..k + 1]).Success?
    ensures Map(WebRow, WebOccurrences(rev, ctx, info, pages[..k + 1]).value) ==
              Map(WebRow, WebOccurrences(rev, ctx, info, pages[..k]).value) +
              [WebRow(WebOccurrence(rev, ctx, info, pages[k]).value)]
  {
    MapAllExtend(p => WebOccurrence(rev, ctx, info, p), pages, k);
    MapAppend(WebRow, WebOccurrences(rev, ctx, info, pages[..k]).value, [WebOccurrence(rev, ctx, info, pages[k]).value]);
  }

  lemma WebGroupDone(rev: Revision, ctx: PageContext, g: JSON, info: GroupInfo, pages: seq<JSON>)
    requires WebGroupInfo(g) == Success(info) && PageList(g) == Success(pages)
    requires WebOccurrences(rev, ctx, info, pages[..|pages|]).Success?
    ensures WebGroupRecords(rev, ctx, g) == WebOccurrences(rev, ctx, info, pages[..|pages|])
  {
    assert pages[..|pages|] == pages;
  }

  lemma WebWalkStops(rev: Revision, ctx: PageContext, mainInfo: JSON, groups: seq<JSON>, i: nat)
    requires Items(mainInfo) == Success(groups) && i < |groups|
    requires WebGroupsRecords(rev, ctx, groups[..i]).Success? && WebGroupRecords(rev, ctx, groups[i]).Failure?
    ensures WebWalk(rev, ctx, mainInfo) == Failure(WebGroupRecords(rev, ctx, groups[i]).error)
  {
    MapAllStops(g => WebGroupRecords(rev, ctx, g), groups, i);
  }

  lemma WebWalkStep(rev: Revision, ctx: PageContext, groups: seq<JSON>, i: nat)
    requires i < |groups|
    requires WebGroupsRecords(rev, ctx, groups[..i]).Success? && WebGroupRecords(rev, ctx, groups[i]).Success?
    ensures WebGroupsRecords(rev, ctx, groups[..i + 1]).Success?
    ensures Map(WebRow, Flatten(WebGroupsRecords(rev, ctx, groups[..i + 1]).value)) ==
              Map(WebRow, Flatten(WebGroupsRecords(rev, ctx, groups[..i]).value)) +
              Map(WebRow, WebGroupRecords(rev, ctx, groups[i]).value)
  {
    var prev := WebGroupsRecords(rev, ctx, groups[..i]).value;
    var block := WebGroupRecords(rev, ctx, groups[i]).value;
    MapAllExtend(g => WebGroupRecords(rev, ctx, g), groups, i);
    FlattenSnoc(prev, block);
    MapAppend(WebRow, Flatten(prev), block);
  }

  lemma WebWalkDone(rev: Revision, ctx: PageContext, mainInfo: JSON, groups: seq<JSON>)
    requires Items(mainInfo) == Success(groups)
    requires WebGroupsRecords(rev, ctx, groups[..|groups|]).Success?
    ensures WebWalk(rev, ctx, mainInfo) == Success(Flatten(WebGroupsRecords(rev, ctx, groups[..|groups|]).value))
  {
    assert groups[..|groups|] == groups;
  }

  // ---------------------------------------------------------------------------
  // Host rows: count, order and provenance

  /** What a host row records of the occurrence `v` it was built from, field by field. */
  predicate DescribesOccurrence(r: HostRecord, v: JSON) {
    Get(v, "vul_msg").Success? &&
    (var msg := Get(v, "vul_msg").value;
     Get(msg, "i18n_name") == Success(r.name) &&
     Get(v, "vul_level").Success? && r.level.JStr? &&
     LevelLabel(Get(v, "vul_level").value) == Success(r.level.s) &&
     Get(msg, "i18n_description").Success? && r.description.JStr? &&
     JoinFragments(Get(msg, "i18n_description").value) == Success(r.description.s) &&
     Get(msg, "i18n_solution").Success? && r.solution.JStr? &&
     JoinFragments(Get(msg, "i18n_solution").value) == Success(r.solution.s) &&
     Get(msg, "severity_points") == Success(r.points) &&
     Get(msg, "is_dangerous").Success? && r.dangerous.JStr? &&
     DangerLabel(Get(msg, "is_dangerous").value) == Success(r.dangerous.s) &&
     Get(msg, "date_found") == Success(r.dateFound) &&
     Get(msg, "cve_id") == Success(r.cve) &&
     Get(v, "vul_id") == Success(r.vulId))
  }

  /** A host row built from occurrence `v` of group `g` on a page with context `ctx`. */
  predicate HostRowOf(r: HostRecord, ctx: PageContext, g: JSON, v: JSON) {
    r.ip == ctx.target && r.scanStart == ctx.timeStart && r.scanEnd == ctx.timeEnd &&
    Get(g, "port") == Success(r.port) && Get(g, "service") == Success(r.service) &&
    Get(g, "protocol") == Success(r.protocol) &&
    DescribesOccurrence(r, v)
  }

  lemma HostFindingOf(ctx: PageContext, g: JSON, v: JSON, msg: JSON)
    requires Get(v, "vul_msg") == Success(msg)
    requires Get(g, "port").Success? && Get(g, "service").Success? && Get(g, "protocol").Success?
    requires HostFinding(ctx, Get(g, "port").value, Get(g, "service").value, Get(g, "protocol").value, v, msg).Success?
    ensures HostRowOf(HostFinding(ctx, Get(g, "port").value, Get(g, "service").value, Get(g, "protocol").value, v, msg).value, ctx, g, v)
  {
    // the lookups succeed one after the other
    assert Get(msg, "i18n_name").Success?;
    assert Get(v, "vul_level").Success?;
    assert LevelLabel(Get(v, "vul_level").value).Success?;
    assert Get(msg, "i18n_description").Success?;
    assert JoinFragments(Get(msg, "i18n_description").value).Success?;
    assert Get(msg, "i18n_solution").Success?;
    assert JoinFragments(Get(msg, "i18n_solution").value).Success?;
    assert Get(msg, "severity_points").Success?;
    assert Get(msg, "is_dangerous").Success?;
    assert DangerLabel(Get(msg, "is_dangerous").value).Success?;
    assert Get(msg, "date_found").Success?;
    assert Get(msg, "cve_id").Success?;
    assert Get(v, "vul_id").Success?;
  }

  /**
   * A host group yields one row per entry of its `vuls` list, in list order;
   * row `k` carries the page's target and scan times, the group's port,
   * service and protocol, and the fields of entry `k`.
   */
  lemma HostGroupRows(rev: Revision, ctx: PageContext, g: JSON, vs: seq<JSON>)
    requires VulList(g) == Success(vs)
    requires HostGroupRecords(rev, ctx, g).Success?
    ensures |HostGroupRecords(rev, ctx, g).value| == |vs|
    ensures forall k :: 0 <= k < |vs| ==> HostRowOf(HostGroupRecords(rev, ctx, g).value[k], ctx, g, vs[k])
  {
    var recs := HostGroupRecords(rev, ctx, g).value;
    match rev
    case Current =>
      MapAllSuccess(v => CurrentOccurrence(ctx, g, v), vs);
      forall k | 0 <= k < |vs|
        ensures HostRowOf(recs[k], ctx, g, vs[k])
      {
        HostFindingOf(ctx, g, vs[k], Get(vs[k], "vul_msg").value);
      }
    case Legacy =>
      var port, service, protocol := Get(g, "port").value, Get(g, "service").value, Get(g, "protocol").value;
      MapAllSuccess(v => LegacyOccurrence(ctx, port, service, protocol, v), vs);
      forall k | 0 <= k < |vs|
        ensures HostRowOf(recs[k], ctx, g, vs[k])
      {
        HostFindingOf(ctx, g, vs[k], Get(vs[k], "vul_msg").value);
      }
  }

  /** The number of entries in a group's `vuls` list. */
  function VulCount(g: JSON): nat {
    if VulList(g).Success? then |VulList(g).value| else 0
  }

  /**
   * The host loops yield the groups' blocks of rows back to back, in group
   * order, as many rows as the groups have `vuls` entries, and every row
   * carries the page's target and scan times.
   */
  lemma HostWalkRows(rev: Revision, ctx: PageContext, mainInfo: JSON, groups: seq<JSON>)
    requires HostGroupList(mainInfo) == Success(groups)
    requires HostWalk(rev, ctx, mainInfo).Success?
    ensures HostGroupsRecords(rev, ctx, groups).Success?
    ensures HostWalk(rev, ctx, mainInfo).value == Flatten(HostGroupsRecords(rev, ctx, groups).value)
    ensures forall i :: 0 <= i < |groups| ==>
              HostGroupRecords(rev, ctx, groups[i]) == Success(HostGroupsRecords(rev, ctx, groups).value[i])
    ensures |HostWalk(rev, ctx, mainInfo).value| == Sum(VulCount, groups)
    ensures forall r: HostRecord :: r in HostWalk(rev, ctx, mainInfo).value ==>
              r.ip == ctx.target && r.scanStart == ctx.timeStart && r.scanEnd == ctx.timeEnd
  {
    var blocks := HostGroupsRecords(rev, ctx, groups).value;
    MapAllSuccess(g => HostGroupRecords(rev, ctx, g), groups);
    forall i | 0 <= i < |groups|
      ensures |blocks[i]| == VulCount(groups[i])
      ensures forall r: HostRecord :: r in blocks[i] ==> r.ip == ctx.target && r.scanStart == ctx.timeStart && r.scanEnd == ctx.timeEnd
    {
      HostGroupBlock(rev, ctx, groups[i]);
    }
    FlattenLength(blocks);
    SumLengthsOf(blocks, VulCount, groups);
    forall r | r in Flatten(blocks)
      ensures r.ip == ctx.target && r.scanStart == ctx.timeStart && r.scanEnd == ctx.timeEnd
    {
      FlattenMember(blocks, r);
    }
  }

  lemma HostGroupBlock(rev: Revision, ctx: PageContext, g: JSON)
    requires HostGroupRecords(rev, ctx, g).Success?
    ensures VulList(g).Success? && |HostGroupRecords(rev, ctx, g).value| == VulCount(g)
    ensures forall r: HostRecord :: r in HostGroupRecords(rev, ctx, g).value ==>
              r.ip == ctx.target && r.scanStart == ctx.timeStart && r.scanEnd == ctx.timeEnd
  {
    assert VulList(g).Success? by {
      if rev == Legacy {
        assert Get(g, "port").Success? && Get(g, "service").Success? && Get(g, "protocol").Success?;
      }
    }
    var recs, vs := HostGroupRecords(rev, ctx, g).value, VulList(g).value;
    HostGroupRows(rev, ctx, g, vs);
    forall r: HostRecord | r in recs
      ensures r.ip == ctx.target && r.scanStart == ctx.timeStart && r.scanEnd == ctx.timeEnd
    {
      var k :| 0 <= k < |recs| && recs[k] == r;
      assert HostRowOf(recs[k], ctx, g, vs[k]);
    }
  }

  /**
   * Neither table has a default: an entry whose level code or danger flag is
   * outside its table makes its group, and with it the page, fail.
   */
  lemma HostLookupMiss(rev: Revision, ctx: PageContext, g: JSON, vs: seq<JSON>, k: nat, msg: JSON)
    requires VulList(g) == Success(vs) && k < |vs|
    requires Get(vs[k], "vul_msg") == Success(msg)
    requires (Get(vs[k], "vul_level").Success? && LevelLabel(Get(vs[k], "vul_level").value).Failure?) ||
             (Get(msg, "is_dangerous").Success? && DangerLabel(Get(msg, "is_dangerous").value).Failure?)
    ensures HostGroupRecords(rev, ctx, g).Failure?
  {
    if HostGroupRecords(rev, ctx, g).Success? {
      HostGroupRows(rev, ctx, g, vs);
      assert DescribesOccurrence(HostGroupRecords(rev, ctx, g).value[k], vs[k]);
    }
  }

  /** One failing group makes the whole page fail: no partial table is returned. */
  lemma HostWalkGroupFails(rev: Revision, ctx: PageContext, mainInfo: JSON, groups: seq<JSON>, i: nat)
    requires HostGroupList(mainInfo) == Success(groups) && i < |groups|
    requires HostGroupRecords(rev, ctx, groups[i]).Failure?
    ensures HostWalk(rev, ctx, mainInfo).Failure?
  {
    MapAllSuccess(g => HostGroupRecords(rev, ctx, g), groups);
  }

  // ---------------------------------------------------------------------------
  // Web rows: count, shared group fields and provenance

  /** Where the fields of a group's shared part come from; the description and solution are copied verbatim. */
  predicate DescribesGroup(info: GroupInfo, g: JSON) {
    Get(g, "i18n_name") == Success(info.name) &&
    Get(g, "severity_points") == Success(info.points) &&
    Get(g, "risk_level").Success? && LevelLabel(Get(g, "risk_level").value) == Success(info.level) &&
    Get(g, "web_vuln_obj").Success? &&
    (var vulnInfo := Get(g, "web_vuln_obj").value;
     Get(vulnInfo, "cvss") == Success(info.cvss) &&
     Get(vulnInfo, "i18n_description") == Success(info.description) &&
     Get(vulnInfo, "i18n_solution") == Success(info.solution) &&
     Get(vulnInfo, "is_dangerous").Success? &&
     DangerLabel(Get(vulnInfo, "is_dangerous").value) == Success(info.dangerous))
  }

  lemma WebGroupInfoOf(g: JSON)
    requires WebGroupInfo(g).Success?
    ensures DescribesGroup(WebGroupInfo(g).value, g)
  {
    assert Get(g, "i18n_name").Success?;
    assert Get(g, "severity_points").Success?;
    assert Get(g, "risk_level").Success?;
    assert LevelLabel(Get(g, "risk_level").value).Success?;
    var vulnInfo := Get(g, "web_vuln_obj").value;
    assert Get(vulnInfo, "cvss").Success?;
    assert Get(vulnInfo, "i18n_description").Success?;
    assert Get(vulnInfo, "i18n_solution").Success?;
    assert Get(vulnInfo, "is_dangerous").Success?;
    assert WebGroupInfo(g) == Success(GroupInfo(
      Get(g, "i18n_name").value, Get(g, "severity_points").value, LevelLabel(Get(g, "risk_level").value).value,
      Get(vulnInfo, "cvss").value, Get(vulnInfo, "i18n_description").value, Get(vulnInfo, "i18n_solution").value,
      DangerLabel(Get(vulnInfo, "is_dangerous").value).value));
  }

  /** The part of a web row the group determines. */
  predicate CarriesGroup(r: WebRecord, info: GroupInfo) {
    r.name == info.name && r.points == info.points && r.level == JStr(info.level) &&
    r.cvss == info.cvss && r.description == info.description && r.solution == info.solution &&
    r.dangerous == JStr(info.dangerous)
  }

  /**
   * The part of a web row the page determines: its own URL, its method, parameter
   * and verification or `''` where the page has none, and its raw exchange.
   */
  predicate DescribesPage(r: WebRecord, rev: Revision, page: JSON) {
    Get(page, "url") == Success(r.url) &&
    GetOr(page, "method", JStr("")) == Success(r.httpMethod) &&
    GetOr(page, "param", JStr("")) == Success(r.param) &&
    GetOr(page, "verification", JStr("")) == Success(r.verification) &&
    (!HasKey(page, "method") ==> r.httpMethod == JStr("")) &&
    (!HasKey(page, "param") ==> r.param == JStr("")) &&
    (!HasKey(page, "verification") ==> r.verification == JStr("")) &&
    r.rawRequest.JStr? && r.rawResponse.JStr? &&
    RawExchange(rev, page) == Success((r.rawRequest.s, r.rawResponse.s))
  }

  lemma WebOccurrenceOf(rev: Revision, ctx: PageContext, info: GroupInfo, page: JSON)
    requires WebOccurrence(rev, ctx, info, page).Success?
    ensures var r := WebOccurrence(rev, ctx, info, page).value;
            r.ip == ctx.target && r.scanStart == ctx.timeStart && r.scanEnd == ctx.timeEnd &&
            CarriesGroup(r, info) && DescribesPage(r, rev, page)
  {
    assert RawExchange(rev, page).Success?;
    assert Get(page, "url").Success?;
  }

  /**
   * A web group yields one row per page, in page order. Every row repeats the
   * group's shared fields, so any two rows of a group agree on them, and takes
   * the rest from its own page.
   */
  lemma WebGroupRows(rev: Revision, ctx: PageContext, g: JSON, pages: seq<JSON>)
    requires PageList(g) == Success(pages)
    requires WebGroupRecords(rev, ctx, g).Success?
    ensures WebGroupInfo(g).Success? && DescribesGroup(WebGroupInfo(g).value, g)
    ensures |WebGroupRecords(rev, ctx, g).value| == |pages|
    ensures forall k :: 0 <= k < |pages| ==>
              var r := WebGroupRecords(rev, ctx, g).value[k];
              r.ip == ctx.target && r.scanStart == ctx.timeStart && r.scanEnd == ctx.timeEnd &&
              CarriesGroup(r, WebGroupInfo(g).value) && DescribesPage(r, rev, pages[k])
    ensures forall k, l :: 0 <= k < l < |pages| ==>
              SameGroupFields(WebGroupRecords(rev, ctx, g).value[k], WebGroupRecords(rev, ctx, g).value[l])
  {
    var info := WebGroupInfo(g).value;
    WebGroupInfoOf(g);
    MapAllSuccess(p => WebOccurrence(rev, ctx, info, p), pages);
    forall k | 0 <= k < |pages|
      ensures var r := WebGroupRecords(rev, ctx, g).value[k];
              r.ip == ctx.target && r.scanStart == ctx.timeStart && r.scanEnd == ctx.timeEnd &&
              CarriesGroup(r, info) && DescribesPage(r, rev, pages[k])
    {
      WebOccurrenceOf(rev, ctx, info, pages[k]);
    }
  }

  /** Two web rows agree on every field a group determines. */
  predicate SameGroupFields(a: WebRecord, b: WebRecord) {
    a.name == b.name && a.points == b.points && a.level == b.level && a.cvss == b.cvss &&
    a.description == b.description && a.solution == b.solution && a.dangerous == b.dangerous
  }

  /** The number of pages of a web group. */
  function PageCount(g: JSON): nat {
    if PageList(g).Success? then |PageList(g).value| else 0
  }

  lemma WebGroupBlock(rev: Revision, ctx: PageContext, g: JSON)
    requires WebGroupRecords(rev, ctx, g).Success?
    ensures PageList(g).Success? && |WebGroupRecords(rev, ctx, g).value| == PageCount(g)
    ensures forall r: WebRecord :: r in WebGroupRecords(rev, ctx, g).value ==>
              r.ip == ctx.target && r.scanStart == ctx.timeStart && r.scanEnd == ctx.timeEnd
  {
    assert PageList(g).Success? by {
      assert WebGroupInfo(g).Success?;
    }
    var recs, pages := WebGroupRecords(rev, ctx, g).value, PageList(g).value;
    WebGroupRows(rev, ctx, g, pages);
    forall r: WebRecord | r in recs
      ensures r.ip == ctx.target && r.scanStart == ctx.timeStart && r.scanEnd == ctx.timeEnd
    {
      var k :| 0 <= k < |recs| && recs[k] == r;
      assert recs[k].ip == ctx.target;
    }
  }

  /**
   * The web loops yield the groups' blocks of rows back to back, in group
   * order, one row per page of every group, and every row carries the page's
   * target and scan times.
   */
  lemma WebWalkRows(rev: Revision, ctx: PageContext, mainInfo: JSON, groups: seq<JSON>)
    requires Items(mainInfo) == Success(groups)
    requires WebWalk(rev, ctx, mainInfo).Success?
    ensures WebGroupsRecords(rev, ctx, groups).Success?
    ensures WebWalk(rev, ctx, mainInfo).value == Flatten(WebGroupsRecords(rev, ctx, groups).value)
    ensures forall i :: 0 <= i < |groups| ==>
              WebGroupRecords(rev, ctx, groups[i]) == Success(WebGroupsRecords(rev, ctx, groups).value[i])
    ensures |WebWalk(rev, ctx, mainInfo).value| == Sum(PageCount, groups)
    ensures forall r: WebRecord :: r in WebWalk(rev, ctx, mainInfo).value ==>
              r.ip == ctx.target && r.scanStart == ctx.timeStart && r.scanEnd == ctx.timeEnd
  {
    var blocks := WebGroupsRecords(rev, ctx, groups).value;
    MapAllSuccess(g => WebGroupRecords(rev, ctx, g), groups);
    forall i | 0 <= i < |groups|
      ensures |blocks[i]| == PageCount(groups[i])
      ensures forall r: WebRecord :: r in blocks[i] ==> r.ip == ctx.target && r.scanStart == ctx.timeStart && r.scanEnd == ctx.timeEnd
    {
      WebGroupBlock(rev, ctx, groups[i]);
    }
    FlattenLength(blocks);
    SumLengthsOf(blocks, PageCount, groups);
    forall r | r in Flatten(blocks)
      ensures r.ip == ctx.target && r.scanStart == ctx.timeStart && r.scanEnd == ctx.timeEnd
    {
      FlattenMember(blocks, r);
    }
  }

  /** The group's level code and danger flag have no default either: a miss fails the group. */
  lemma WebLookupMiss(rev: Revision, ctx: PageContext, g: JSON)
    requires (Get(g, "risk_level").Success? && LevelLabel(Get(g, "risk_level").value).Failure?) ||
             (Get(g, "web_vuln_obj").Success? && Get(Get(g, "web_vuln_obj").value, "is_dangerous").Success? &&
              DangerLabel(Get(Get(g, "web_vuln_obj").value, "is_dangerous").value).Failure?)
    ensures WebGroupRecords(rev, ctx, g).Failure?
  {
    if WebGroupInfo(g).Success? {
      WebGroupInfoOf(g);
    }
  }

  lemma WebWalkGroupFails(rev: Revision, ctx: PageContext, mainInfo: JSON, groups: seq<JSON>, i: nat)
    requires Items(mainInfo) == Success(groups) && i < |groups|
    requires WebGroupRecords(rev, ctx, groups[i]).Failure?
    ensures WebWalk(rev, ctx, mainInfo).Failure?
  {
    MapAllSuccess(g => WebGroupRecords(rev, ctx, g), groups);
  }

  // ---------------------------------------------------------------------------
  // The raw exchange

  /**
   * In the current revision the raw texts are both empty exactly when
   * `raw_data` has length zero; otherwise both are the texts of `raw_data[0]`,
   * and neither is empty.
   */
  lemma RawExchangeEmpty(page: JSON, rawData: JSON)
    requires Get(page, "raw_data") == Success(rawData)
    requires RawExchange(Current, page).Success?
    ensures RawExchange(Current, page).value.0 == "" <==> Length(rawData) == Success(0)
    ensures RawExchange(Current, page).value.1 == "" <==> Length(rawData) == Success(0)
    ensures Length(rawData) != Success(0) ==> RawExchange(Current, page) == FirstExchange(rawData)
  {
    if Length(rawData) != Success(0) {
      assert RawExchange(Current, page) == FirstExchange(rawData);
    }
  }

  /** Only the first item of `raw_data` matters: pages whose lists start alike get the same texts. */
  lemma RawExchangeFirstOnly(rev: Revision, p: JSON, q: JSON, xs: seq<JSON>, ys: seq<JSON>)
    requires Get(p, "raw_data") == Success(JArray(xs)) && Get(q, "raw_data") == Success(JArray(ys))
    requires |xs| > 0 && |ys| > 0 && xs[0] == ys[0]
    ensures RawExchange(rev, p) == RawExchange(rev, q)
  {
    FirstExchangeOfList(xs);
    FirstExchangeOfList(ys);
  }

  /** A non-empty list's exchange is that of its first item, and the list's length is not zero. */
  lemma FirstExchangeOfList(xs: seq<JSON>)
    requires |xs| > 0
    ensures FirstExchange(JArray(xs)) == ExchangeText(xs[0])
    ensures Length(JArray(xs)) == Success(|xs|) && |xs| != 0
  {
  }

  /** The exchange is the request format of `raw_data[0]['request']` and the response format of `raw_data[0]['response']`, for any values that render. */
  lemma FirstExchangeFormat(xs: seq<JSON>, request: JSON, response: JSON, url: JSON, hs: seq<JSON>,
                            status: JSON, rhs: seq<JSON>, cs: seq<JSON>)
    requires |xs| > 0
    requires Get(xs[0], "request") == Success(request) && Get(xs[0], "response") == Success(response)
    requires Get(request, "url") == Success(url) && Text(url).Success?
    requires Get(request, "headers") == Success(JArray(hs))
    requires forall i :: 0 <= i < |hs| ==> RenderedPair(hs[i])
    requires Get(response, "status") == Success(status) && Text(status).Success?
    requires Get(response, "headers") == Success(JArray(rhs))
    requires forall i :: 0 <= i < |rhs| ==> RenderedPair(rhs[i])
    requires Get(response, "contents") == Success(JArray(cs))
    requires forall i :: 0 <= i < |cs| ==> Text(cs[i]).Success?
    ensures FirstExchange(JArray(xs)) ==
              Success((Text(url).value + "\n" + Flatten(PairLines(hs)),
                       Text(status).value + "\n" + Flatten(PairLines(rhs)) + Flatten(ContentTexts(cs))))
  {
    FirstExchangeOfList(xs);
    RequestTextFormat(request, url, hs);
    ResponseTextFormat(response, status, rhs, cs);
  }

  // ---------------------------------------------------------------------------
  // The two revisions compared

  /**
   * The revisions read the raw exchange differently exactly when `raw_data`
   * has length zero: the current one then yields two empty texts, the old
   * one fails on `raw_data[0]`.
   */
  lemma RawExchangeRevisions(page: JSON)
    ensures RawExchange(Legacy, page) != RawExchange(Current, page) <==>
              Get(page, "raw_data").Success? && Length(Get(page, "raw_data").value) == Success(0)
    ensures RawExchange(Legacy, page) != RawExchange(Current, page) ==>
              RawExchange(Current, page) == Success(("", "")) && RawExchange(Legacy, page).Failure?
  {
  }

  /** The old revision fails on a page without raw data; the current one gives it an empty exchange. */
  lemma RawExchangeNoData()
    ensures RawExchange(Current, JObject([("raw_data", JArray([]))])) == Success(("", ""))
    ensures RawExchange(Legacy, JObject([("raw_data", JArray([]))])) == Failure(IndexError(0))
  {
  }

  /** An empty string or an empty object as `raw_data` has length zero too, and splits the revisions the same way. */
  lemma RawExchangeNoDataOtherKinds()
    ensures RawExchange(Current, JObject([("raw_data", JStr(""))])) == Success(("", ""))
    ensures RawExchange(Legacy, JObject([("raw_data", JStr(""))])) == Failure(IndexError(0))
    ensures RawExchange(Current, JObject([("raw_data", JObject([]))])) == Success(("", ""))
    ensures RawExchange(Legacy, JObject([("raw_data", JObject([]))])) == Failure(KeyError(JInt(0)))
  {
  }

  /** Wherever the old web extractor succeeds, the current one yields the same rows. */
  lemma WebRevisions(payload: JSON)
    requires WebRecords(Legacy, payload).Success?
    ensures WebRecords(Current, payload) == WebRecords(Legacy, payload)
  {
    var ctx, mainInfo := WebPage(payload).value.0, WebPage(payload).value.1;
    var groups := Items(mainInfo).value;
    MapAllSuccess(g => WebGroupRecords(Legacy, ctx, g), groups);
    forall i | 0 <= i < |groups|
      ensures WebGroupRecords(Current, ctx, groups[i]) == WebGroupRecords(Legacy, ctx, groups[i])
    {
      WebGroupRevisions(ctx, groups[i]);
    }
    MapAllCongruence(g => WebGroupRecords(Current, ctx, g), g => WebGroupRecords(Legacy, ctx, g), groups);
  }

  lemma WebGroupRevisions(ctx: PageContext, g: JSON)
    requires WebGroupRecords(Legacy, ctx, g).Success?
    ensures WebGroupRecords(Current, ctx, g) == WebGroupRecords(Legacy, ctx, g)
  {
    var info := WebGroupInfo(g).value;
    var pages := PageList(g).value;
    MapAllSuccess(p => WebOccurrence(Legacy, ctx, info, p), pages);
    forall k | 0 <= k < |pages|
      ensures WebOccurrence(Current, ctx, info, pages[k]) == WebOccurrence(Legacy, ctx, info, pages[k])
    {
      RawExchangeRevisions(pages[k]);
    }
    MapAllCongruence(p => WebOccurrence(Current, ctx, info, p), p => WebOccurrence(Legacy, ctx, info, p), pages);
  }

  /** Wherever the old host extractor succeeds, the current one yields the same rows. */
  lemma HostRevisions(payload: JSON)
    requires HostRecords(Legacy, payload).Success?
    ensures HostRecords(Current, payload) == HostRecords(Legacy, payload)
  {
    var ctx, mainInfo := HostPage(payload).value.0, HostPage(payload).value.1;
    var groups := HostGroupList(mainInfo).value;
    MapAllSuccess(g => HostGroupRecords(Legacy, ctx, g), groups);
    forall i | 0 <= i < |groups|
      ensures HostGroupRecords(Current, ctx, groups[i]) == HostGroupRecords(Legacy, ctx, groups[i])
    {
      HostGroupRevisions(ctx, groups[i]);
    }
    MapAllCongruence(g => HostGroupRecords(Current, ctx, g), g => HostGroupRecords(Legacy, ctx, g), groups);
  }

  lemma HostGroupRevisions(ctx: PageContext, g: JSON)
    requires HostGroupRecords(Legacy, ctx, g).Success?
    ensures HostGroupRecords(Current, ctx, g) == HostGroupRecords(Legacy, ctx, g)
  {
    assert Get(g, "port").Success?;
    assert Get(g, "service").Success?;
    assert Get(g, "protocol").Success?;
    assert VulList(g).Success?;
    var port, service, protocol := Get(g, "port").value, Get(g, "service").value, Get(g, "protocol").value;
    var vs := VulList(g).value;
    forall k | 0 <= k < |vs|
      ensures CurrentOccurrence(ctx, g, vs[k]) == LegacyOccurrence(ctx, port, service, protocol, vs[k])
    {
      OccurrenceRevisions(ctx, g, port, service, protocol, vs[k]);
    }
    MapAllCongruence(v => CurrentOccurrence(ctx, g, v), v => LegacyOccurrence(ctx, port, service, protocol, v), vs);
  }

  /** Once the group's fields can be read, both revisions build the same record from an occurrence. */
  lemma OccurrenceRevisions(ctx: PageContext, g: JSON, port: JSON, service: JSON, protocol: JSON, v: JSON)
    requires Get(g, "port") == Success(port) && Get(g, "service") == Success(service) && Get(g, "protocol") == Success(protocol)
    ensures CurrentOccurrence(ctx, g, v) == LegacyOccurrence(ctx, port, service, protocol, v)
  {
    var msg := Get(v, "vul_msg");
    if msg.Success? {
      assert CurrentOccurrence(ctx, g, v) == HostFinding(ctx, port, service, protocol, v, msg.value);
    }
  }

  /**
   * The converse fails: a group without a port but with no findings is
   * skipped by the current extractor and fails the old one.
   */
  lemma HostGroupWithoutPort(ctx: PageContext)
    ensures HostGroupRecords(Current, ctx, JObject([("vuls", JArray([]))])) == Success([])
    ensures HostGroupRecords(Legacy, ctx, JObject([("vuls", JArray([]))])) == Failure(KeyError(JStr("port")))
  {
  }
}

/**
 * The finding records both report shapes produce, and the field-level rules
 * both revisions of the extractors share: the two localisation tables, the
 * fragment join of the host descriptions and the reconstruction of a raw HTTP
 * exchange as text.
 */
module Records {
  import opened Wrappers
  import opened Collections
  import opened Json
  import opened Base

  /** The 15 columns of a host-scan row, in output order. */
  const HostKeys: seq<string> := [
    "IP地址", "端口", "服务", "协议", "漏洞名称", "漏洞级别", "详细描述", "解决方案",
    "威胁分值", "危险插件", "发现日期", "CVE编号", "扫描起始时间", "扫描结束时间", "漏洞ID"
  ]

  /** The 16 columns of a web-scan row, in output order. */
  const WebKeys: seq<string> := [
    "IP地址", "URL", "请求方式", "问题参数", "参考（验证）", "漏洞名称", "威胁分值",
    "漏洞级别", "CVSS评分", "详细描述", "解决办法", "危险插件", "原始请求", "原始响应",
    "扫描起始时间", "扫描结束时间"
  ]

  /** The page-level fields every row of one page carries (`categories[0].data`). */
  datatype PageContext = PageContext(target: JSON, timeStart: JSON, timeEnd: JSON)

  /** One host-scan finding, field by field. */
  datatype HostRecord = HostRecord(
    ip: JSON, port: JSON, service: JSON, protocol: JSON, name: JSON, level: JSON,
    description: JSON, solution: JSON, points: JSON, dangerous: JSON, dateFound: JSON,
    cve: JSON, scanStart: JSON, scanEnd: JSON, vulId: JSON)

  /** One web-scan finding, field by field. */
  datatype WebRecord = WebRecord(
    ip: JSON, url: JSON, httpMethod: JSON, param: JSON, verification: JSON, name: JSON,
    points: JSON, level: JSON, cvss: JSON, description: JSON, solution: JSON,
    dangerous: JSON, rawRequest: JSON, rawResponse: JSON, scanStart: JSON, scanEnd: JSON)

  /** The dict a host-scan row is appended as, keyed by the host columns. */
  function HostRow(r: HostRecord): (row: Row)
    ensures Columns(row) == HostKeys
  {
    [("IP地址", r.ip), ("端口", r.port), ("服务", r.service), ("协议", r.protocol),
     ("漏洞名称", r.name), ("漏洞级别", r.level), ("详细描述", r.description),
     ("解决方案", r.solution), ("威胁分值", r.points), ("危险插件", r.dangerous),
     ("发现日期", r.dateFound), ("CVE编号", r.cve), ("扫描起始时间", r.scanStart),
     ("扫描结束时间", r.scanEnd), ("漏洞ID", r.vulId)]
  }

  /** The dict a web-scan row is appended as, keyed by the web columns. */
  function WebRow(r: WebRecord): (row: Row)
    ensures Columns(row) == WebKeys
  {
    [("IP地址", r.ip), ("URL", r.url), ("请求方式", r.httpMethod), ("问题参数", r.param),
     ("参考（验证）", r.verification), ("漏洞名称", r.name), ("威胁分值", r.points),
     ("漏洞级别", r.level), ("CVSS评分", r.cvss), ("详细描述", r.description),
     ("解决办法", r.solution), ("危险插件", r.dangerous), ("原始请求", r.rawRequest),
     ("原始响应", r.rawResponse), ("扫描起始时间", r.scanStart), ("扫描结束时间", r.scanEnd)]
  }

  /** Neither layout repeats a column, so each builds a schema of 15 or 16 columns. */
  lemma KeysDistinct()
    ensures |HostKeys| == 15 && Distinct(HostKeys)
    ensures |WebKeys| == 16 && Distinct(WebKeys)
  {
  }

  // ---------------------------------------------------------------------------
  // The localisation tables

  /** The level table: `{'low': '低', 'middle': '中', 'high': '高'}[code]`, with no default. */
  function LevelLabel(code: JSON): (r: Result<string, Error>)
    ensures r == Success("低") <==> code == JStr("low")
    ensures r == Success("中") <==> code == JStr("middle")
    ensures r == Success("高") <==> code == JStr("high")
    ensures r.Failure? <==> code !in {JStr("low"), JStr("middle"), JStr("high")}
    ensures r.Failure? ==> r.error == if Unhashable(code) then TypeError else KeyError(code)
  {
    match code
    case JStr(s) =>
      if s == "low" then Success("低")
      else if s == "middle" then Success("中")
      else if s == "high" then Success("高")
      else Failure(KeyError(code))
    case JArray(_) => Failure(TypeError)
    case JObject(_) => Failure(TypeError)
    case _ => Failure(KeyError(code))
  }

  /**
   * The boolean table: `{False: '否', True: '是'}[flag]`, with no default.
   * A Python dict finds a key by hash and `==`, and `True == 1 == 1.0`, so the
   * numbers 0 and 1 hit the table as well.
   */
  function DangerLabel(flag: JSON): (r: Result<string, Error>)
    ensures r == Success("是") <==> NumericValue(flag) == Some(1.0)
    ensures r == Success("否") <==> NumericValue(flag) == Some(0.0)
    ensures r.Failure? <==> NumericValue(flag) !in {Some(0.0), Some(1.0)}
    ensures r.Failure? ==> r.error == if Unhashable(flag) then TypeError else KeyError(flag)
  {
    match flag
    case JBool(b) => Success(if b then "是" else "否")
    case JInt(i) =>
      if i == 0 then Success("否") else if i == 1 then Success("是") else Failure(KeyError(flag))
    case JFloat(f) =>
      if f == 0.0 then Success("否") else if f == 1.0 then Success("是") else Failure(KeyError(flag))
    case JArray(_) => Failure(TypeError)
    case JObject(_) => Failure(TypeError)
    case _ => Failure(KeyError(flag))
  }

  /** Distinct codes get distinct labels: the level table loses no information. */
  lemma LevelLabelInjective(a: JSON, b: JSON)
    requires LevelLabel(a).Success? && LevelLabel(a) == LevelLabel(b)
    ensures a == b
  {
  }

  /** On the booleans themselves the flag table is total and tells them apart. */
  lemma DangerLabelOnBooleans(b: bool)
    ensures DangerLabel(JBool(b)) == Success(if b then "是" else "否")
    ensures DangerLabel(JBool(b)) != DangerLabel(JBool(!b))
  {
  }

  // ---------------------------------------------------------------------------
  // The fragment join: ''.join([i if i else '\r\n' for i in fragments])

  /** One item of the join: a falsy fragment becomes a line break; join refuses a non-string. */
  function FragmentText(item: JSON): Result<string, Error> {
    if !Truthy(item) then Success("\r\n")
    else if item.JStr? then Success(item.s)
    else Failure(TypeError)
  }

  function JoinFragments(fragments: JSON): Result<string, Error> {
    var items :- Items(fragments);
    var texts :- MapAll(FragmentText, items);
    Success(Flatten(texts))
  }

  /** The reference rule: a non-empty text fragment stays, anything else becomes a line break. */
  function Paragraph(item: JSON): string {
    if item.JStr? && item.s != "" then item.s else "\r\n"
  }

  /**
   * Joining a list of fragments succeeds exactly when every fragment is falsy
   * or a string, and then yields the fragments in order with every falsy one
   * replaced by a line break.
   */
  lemma JoinFragmentsList(xs: seq<JSON>)
    ensures JoinFragments(JArray(xs)).Success? <==>
              forall i :: 0 <= i < |xs| ==> !Truthy(xs[i]) || xs[i].JStr?
    ensures JoinFragments(JArray(xs)).Failure? ==> JoinFragments(JArray(xs)).error == TypeError
    ensures JoinFragments(JArray(xs)).Success? ==>
              JoinFragments(JArray(xs)).value == Flatten(Map(Paragraph, xs))
  {
    MapAllSuccess(FragmentText, xs);
    if MapAll(FragmentText, xs).Success? {
      assert MapAll(FragmentText, xs).value == Map(Paragraph, xs);
    } else {
      MapAllFailure(FragmentText, xs);
    }
  }

  /** With no empty fragment, the join is the plain concatenation of the fragments. */
  lemma JoinFragmentsPlain(texts: seq<string>)
    requires forall i :: 0 <= i < |texts| ==> texts[i] != ""
    ensures JoinFragments(JArray(Map((t: string) => JStr(t), texts))) == Success(Flatten(texts))
  {
    var xs := Map((t: string) => JStr(t), texts);
    JoinFragmentsList(xs);
    assert Map(Paragraph, xs) == texts;
  }

  // ---------------------------------------------------------------------------
  // The raw HTTP exchange as text

  /** `f"{item[0]}: {item[1]}\n"` for one header pair. */
  function HeaderLine(item: JSON): Result<string, Error> {
    var name :- At(item, 0);
    var nameText :- Text(name);
    var value :- At(item, 1);
    var valueText :- Text(value);
    Success(nameText + ": " + valueText + "\n")
  }

  /** `f"{item}\n"` for one content chunk. */
  function ContentLine(item: JSON): Result<string, Error> {
    var text :- Text(item);
    Success(text + "\n")
  }

  /** `''.join(f"{item[0]}: {item[1]}\n" for item in headers)`. */
  function HeaderBlock(headers: JSON): Result<string, Error> {
    var items :- Items(headers);
    var lines :- MapAll(HeaderLine, items);
    Success(Flatten(lines))
  }

  /** `''.join(f"{item}\n" for item in contents)`. */
  function ContentBlock(contents: JSON): Result<string, Error> {
    var items :- Items(contents);
    var lines :- MapAll(ContentLine, items);
    Success(Flatten(lines))
  }

  /** The request text: the URL line, then one line per header, in order. */
  function RequestText(request: JSON): (r: Result<string, Error>)
    ensures r.Success? ==> r.value != []
  {
    var url :- Get(request, "url");
    var urlText :- Text(url);
    var headers :- Get(request, "headers");
    var headerText :- HeaderBlock(headers);
    Success(urlText + "\n" + headerText)
  }

  /** The response text: the status line, the header lines, then one line per content chunk. */
  function ResponseText(response: JSON): (r: Result<string, Error>)
    ensures r.Success? ==> r.value != []
  {
    var status :- Get(response, "status");
    var statusText :- Text(status);
    var headers :- Get(response, "headers");
    var headerText :- HeaderBlock(headers);
    var contents :- Get(response, "contents");
    var contentText :- ContentBlock(contents);
    Success(statusText + "\n" + headerText + contentText)
  }

  /** A header whose `item[0]` and `item[1]` both exist and both have a text. */
  predicate RenderedPair(h: JSON) {
    At(h, 0).Success? && Text(At(h, 0).value).Success? &&
    At(h, 1).Success? && Text(At(h, 1).value).Success?
  }

  /** The line `f"{item[0]}: {item[1]}\n"` of a header whose two parts render. */
  function PairLine(h: JSON): string
    requires RenderedPair(h)
  {
    Text(At(h, 0).value).value + ": " + Text(At(h, 1).value).value + "\n"
  }

  /** A header line renders exactly when both parts of the header exist and render, and is then `name: value\n`. */
  lemma HeaderLineOfPair(h: JSON)
    ensures HeaderLine(h).Success? <==> RenderedPair(h)
    ensures RenderedPair(h) ==> HeaderLine(h) == Success(PairLine(h))
  {
  }

  /** The header lines of a list of rendering headers. */
  function PairLines(hs: seq<JSON>): (lines: seq<string>)
    requires forall i :: 0 <= i < |hs| ==> RenderedPair(hs[i])
    ensures |lines| == |hs|
    ensures forall i :: 0 <= i < |hs| ==> lines[i] == PairLine(hs[i])
  {
    seq(|hs|, i requires 0 <= i < |hs| => PairLine(hs[i]))
  }

  lemma HeaderLines(hs: seq<JSON>)
    requires forall i :: 0 <= i < |hs| ==> RenderedPair(hs[i])
    ensures MapAll(HeaderLine, hs) == Success(PairLines(hs))
    ensures HeaderBlock(JArray(hs)) == Success(Flatten(PairLines(hs)))
  {
    var lines := PairLines(hs);
    forall i | 0 <= i < |hs|
      ensures HeaderLine(hs[i]) == Success(lines[i])
    {
      HeaderLineOfPair(hs[i]);
    }
    MapAllValues(HeaderLine, hs, lines);
  }

  /** The content lines `f"{item}\n"` of a list of rendering content chunks. */
  function ContentTexts(cs: seq<JSON>): (lines: seq<string>)
    requires forall i :: 0 <= i < |cs| ==> Text(cs[i]).Success?
    ensures |lines| == |cs|
    ensures forall i :: 0 <= i < |cs| ==> lines[i] == Text(cs[i]).value + "\n"
  {
    seq(|cs|, i requires 0 <= i < |cs| => Text(cs[i]).value + "\n")
  }

  lemma ContentLineOf(c: JSON)
    requires Text(c).Success?
    ensures ContentLine(c) == Success(Text(c).value + "\n")
  {
  }

  lemma ContentLines(cs: seq<JSON>)
    requires forall i :: 0 <= i < |cs| ==> Text(cs[i]).Success?
    ensures MapAll(ContentLine, cs) == Success(ContentTexts(cs))
    ensures ContentBlock(JArray(cs)) == Success(Flatten(ContentTexts(cs)))
  {
    var lines := ContentTexts(cs);
    forall i | 0 <= i < |cs|
      ensures ContentLine(cs[i]) == Success(lines[i])
    {
      ContentLineOf(cs[i]);
    }
    MapAllValues(ContentLine, cs, lines);
  }

  /** The request format: `str(url) + "\n"`, then `"name: value\n"` per header, for any values that render. */
  lemma RequestTextFormat(request: JSON, url: JSON, hs: seq<JSON>)
    requires Get(request, "url") == Success(url) && Text(url).Success?
    requires Get(request, "headers") == Success(JArray(hs))
    requires forall i :: 0 <= i < |hs| ==> RenderedPair(hs[i])
    ensures RequestText(request) == Success(Text(url).value + "\n" + Flatten(PairLines(hs)))
  {
    HeaderLines(hs);
  }

  /**
   * The response format: `str(status) + "\n"`, then `"name: value\n"` per
   * header, then `str(chunk) + "\n"` per content chunk, for any values that
   * render; a numeric status prints its decimal digits.
   */
  lemma ResponseTextFormat(response: JSON, status: JSON, hs: seq<JSON>, cs: seq<JSON>)
    requires Get(response, "status") == Success(status) && Text(status).Success?
    requires Get(response, "headers") == Success(JArray(hs))
    requires Get(response, "contents") == Success(JArray(cs))
    requires forall i :: 0 <= i < |hs| ==> RenderedPair(hs[i])
    requires forall i :: 0 <= i < |cs| ==> Text(cs[i]).Success?
    ensures ResponseText(response) ==
              Success(Text(status).value + "\n" + Flatten(PairLines(hs)) + Flatten(ContentTexts(cs)))
  {
    HeaderLines(hs);
    ContentLines(cs);
  }

  /** A response with the numeric status `200`, no headers and no contents. */
  const Response200: JSON := JObject([("status", JInt(200)), ("headers", JArray([])), ("contents", JArray([]))])

  lemma Response200Fields()
    ensures Get(Response200, "status") == Success(JInt(200))
    ensures Get(Response200, "headers") == Success(JArray([]))
    ensures Get(Response200, "contents") == Success(JArray([]))
  {
    var fields := Response200.fields;
    assert fields[..1] == [("status", JInt(200))];
    assert fields[..2] == [("status", JInt(200)), ("headers", JArray([]))];
    assert fields[..2][..1] == fields[..1];
    assert "status" != "headers" && "status" != "contents" && "headers" != "contents";
    assert Lookup(fields[..1], "status") == Success(JInt(200));
    assert Lookup(fields[..2], "status") == Success(JInt(200));
    assert Lookup(fields[..2], "headers") == Success(JArray([]));
  }

  lemma Text200()
    ensures Text(JInt(200)) == Success("200")
  {
    assert NatText(2) == "2";
    assert NatText(20) == NatText(2) + ['0'] == "20";
    assert NatText(200) == NatText(20) + ['0'] == "200";
  }

  /** That response renders as the status line `"200\n"` alone. */
  lemma ResponseOfStatus200()
    ensures ResponseText(Response200) == Success("200\n")
  {
    Response200Fields();
    Text200();
    ResponseTextFormat(Response200, JInt(200), [], []);
    assert PairLines([]) == [] && ContentTexts([]) == [];
    assert Flatten(PairLines([])) == [] && Flatten(ContentTexts([])) == [];
    assert "200" + "\n" + [] + [] == "200\n";
  }

  /**
   * A non-negative integer status prints as its decimal digits, which read
   * back as the status, and different integer statuses print differently.
   */
  lemma StatusDigits(n: nat)
    ensures Text(JInt(n)) == Success(NatText(n))
    ensures DigitsValue(Text(JInt(n)).value) == n
    ensures forall k: int :: Text(JInt(k)) == Text(JInt(n)) ==> k == n
  {
    NatTextRoundTrip(n);
    forall k: int | Text(JInt(k)) == Text(JInt(n))
      ensures k == n
    {
      IntTextInjective(k, n);
    }
  }
}

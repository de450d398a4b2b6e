/**
  The read-only template catalog of src/stores/templates.ts: two authored
  lists (3D scenes and 2D chart dashboards) and a first-match lookup by id.
 */
module Templates {
  import opened Wrappers
  import opened Seqs
  import opened Schema

  datatype ChartType = BarChart | LineChart | PieChart | GaugeChart | MapChart

  /** A chart's placement, in percent of the dashboard's width and height. */
  datatype Placement = Placement(x: int, y: int, width: int, height: int)

  /** A 2D panel; its per-type data payload is opaque and not modelled. */
  datatype Chart = Chart(id: string, kind: ChartType, title: string, position: Placement)

  /** A template's starter content, keyed by scene kind. */
  datatype TemplateData = Scene(elements: seq<Element>) | Dashboard(charts: seq<Chart>)

  datatype Template = Template(id: string, name: string, description: string, icon: string, data: TemplateData)

  function Cuboid(id: string, name: string, x: real, z: real, w: real, h: real, d: real, radius: real,
                  color: string, number: string): Element
  {
    Element(id, name, Cube, Position(x, 0.0, z), Size(w, h, d, radius), color, number, None)
  }

  const ThreeDTemplates: seq<Template> := [
    Template("basic-3d", "基础3D场景", "包含基本的立方体、球体和圆柱体", "🎲", Scene([
      Element("cube-1", "立方体", Cube, Position(-10.0, 0.0, 0.0), Size(5.0, 5.0, 5.0, 2.5), "#4F46E5", "1", None),
      Element("sphere-1", "球体", Sphere, Position(0.0, 0.0, 0.0), Size(3.0, 3.0, 3.0, 3.0), "#06B6D4", "2", None),
      Element("cylinder-1", "圆柱体", Cylinder, Position(10.0, 0.0, 0.0), Size(3.0, 6.0, 3.0, 2.0), "#10B981", "3", None)
    ])),
    Template("building-3d", "建筑展示", "模拟建筑物和城市场景", "🏢", Scene([
      Cuboid("building-1", "高楼A", -15.0, -10.0, 6.0, 15.0, 6.0, 3.0, "#6366F1", "A"),
      Cuboid("building-2", "高楼B", -5.0, -5.0, 5.0, 12.0, 5.0, 2.5, "#8B5CF6", "B"),
      Cuboid("building-3", "高楼C", 5.0, -8.0, 7.0, 18.0, 7.0, 3.5, "#A855F7", "C"),
      Element("tower", "信号塔", Cylinder, Position(15.0, 0.0, -5.0), Size(2.0, 20.0, 2.0, 1.5), "#EC4899", "T", None)
    ])),
    Template("data-center-3d", "数据中心", "服务器机架可视化", "💾", Scene([
      Cuboid("rack-1", "机架1", -12.0, 0.0, 4.0, 10.0, 3.0, 2.0, "#374151", "1"),
      Cuboid("rack-2", "机架2", -4.0, 0.0, 4.0, 10.0, 3.0, 2.0, "#374151", "2"),
      Cuboid("rack-3", "机架3", 4.0, 0.0, 4.0, 10.0, 3.0, 2.0, "#374151", "3"),
      Cuboid("rack-4", "机架4", 12.0, 0.0, 4.0, 10.0, 3.0, 2.0, "#374151", "4")
    ]))
  ]

  const EchartsTemplates: seq<Template> := [
    Template("basic-2d", "基础图表", "包含柱状图、折线图和饼图", "📊", Dashboard([
      Chart("bar-chart", BarChart, "月度销售额", Placement(0, 0, 33, 50)),
      Chart("line-chart", LineChart, "用户增长趋势", Placement(33, 0, 34, 50)),
      Chart("pie-chart", PieChart, "产品占比", Placement(67, 0, 33, 50))
    ])),
    Template("dashboard-2d", "数据仪表板", "综合数据展示看板", "📈", Dashboard([
      Chart("gauge-1", GaugeChart, "CPU使用率", Placement(0, 0, 25, 33)),
      Chart("gauge-2", GaugeChart, "内存使用率", Placement(25, 0, 25, 33)),
      Chart("gauge-3", GaugeChart, "磁盘使用率", Placement(50, 0, 25, 33)),
      Chart("gauge-4", GaugeChart, "网络负载", Placement(75, 0, 25, 33)),
      Chart("line-area", LineChart, "实时监控", Placement(0, 33, 100, 67))
    ])),
    Template("map-2d", "地图可视化", "地理数据分布展示", "🗺️", Dashboard([
      Chart("china-map", MapChart, "全国销售分布", Placement(0, 0, 70, 100)),
      Chart("top-cities", BarChart, "TOP 10 城市", Placement(70, 0, 30, 100))
    ]))
  ]

  /** The list `getTemplateById` searches: the 3D list for kind "3d", the chart list for anything else. */
  function Catalog(kind: string): (r: seq<Template>)
    ensures |r| == 3
    ensures forall i :: 0 <= i < |r| ==> (r[i].data.Scene? <==> kind == "3d")
  {
    if kind == "3d" then ThreeDTemplates else EchartsTemplates
  }

  /** `i` is the position of the first template in `ts` carrying `id`. */
  ghost predicate FirstTemplateWithId(ts: seq<Template>, i: int, id: string) {
    0 <= i < |ts| && ts[i].id == id && forall j :: 0 <= j < i ==> ts[j].id != id
  }

  ghost predicate DistinctTemplateIds(ts: seq<Template>) {
    forall i, j :: 0 <= i < j < |ts| ==> ts[i].id != ts[j].id
  }

  /** `getTemplateById`: the first template of the selected list with the id, or undefined. */
  function GetTemplateById(kind: string, id: string): (r: Option<Template>)
    ensures r.None? <==> forall i :: 0 <= i < |Catalog(kind)| ==> Catalog(kind)[i].id != id
    ensures r.Some? ==> exists i :: FirstTemplateWithId(Catalog(kind), i, id) && Catalog(kind)[i] == r.value
  {
    var ts := Catalog(kind);
    var i := FirstIndex(ts, (t: Template) => t.id == id);
    if i == -1 then None else Some(ts[i])
  }

  /** Any kind other than "3d" searches the chart list, exactly as "2d" does. */
  lemma OtherKindsSearchCharts(kind: string, id: string)
    requires kind != "3d"
    ensures GetTemplateById(kind, id) == GetTemplateById("2d", id)
  {
  }

  /** When the ids of a list are distinct, the first match for an entry's id is that entry. */
  lemma DistinctIdsFindExact(ts: seq<Template>, k: int)
    requires DistinctTemplateIds(ts) && 0 <= k < |ts|
    ensures FirstTemplateWithId(ts, k, ts[k].id)
  {
  }

  /** Each list holds three templates with pairwise distinct ids. */
  lemma CatalogShape()
    ensures |ThreeDTemplates| == 3 && |EchartsTemplates| == 3
    ensures DistinctTemplateIds(ThreeDTemplates) && DistinctTemplateIds(EchartsTemplates)
    ensures [ThreeDTemplates[0].id, ThreeDTemplates[1].id, ThreeDTemplates[2].id] ==
      ["basic-3d", "building-3d", "data-center-3d"]
    ensures [EchartsTemplates[0].id, EchartsTemplates[1].id, EchartsTemplates[2].id] ==
      ["basic-2d", "dashboard-2d", "map-2d"]
  {
  }

  /** Looking up any listed id under its own kind returns exactly that entry. */
  lemma LookupFindsEachEntry(k: int)
    requires 0 <= k < 3
    ensures GetTemplateById("3d", ThreeDTemplates[k].id) == Some(ThreeDTemplates[k])
    ensures GetTemplateById("2d", EchartsTemplates[k].id) == Some(EchartsTemplates[k])
  {
    CatalogShape();
    var r := GetTemplateById("3d", ThreeDTemplates[k].id);
    var i :| FirstTemplateWithId(ThreeDTemplates, i, ThreeDTemplates[k].id) && ThreeDTemplates[i] == r.value;
    var q := GetTemplateById("2d", EchartsTemplates[k].id);
    var j :| FirstTemplateWithId(EchartsTemplates, j, EchartsTemplates[k].id) && EchartsTemplates[j] == q.value;
  }

  /** 3D templates carry scenes, 2D templates carry dashboards; `basic-3d` is a cube, a sphere and a cylinder. */
  lemma SceneContents()
    ensures forall k :: 0 <= k < |ThreeDTemplates| ==> ThreeDTemplates[k].data.Scene?
    ensures forall k :: 0 <= k < |EchartsTemplates| ==> EchartsTemplates[k].data.Dashboard?
    ensures var es := ThreeDTemplates[0].data.elements;
      |es| == 3 && es[0].kind == Cube && es[1].kind == Sphere && es[2].kind == Cylinder
  {
  }

  /** Within every 3D template, no two elements share an id. */
  lemma SceneElementIdsDistinct()
    ensures forall k :: 0 <= k < |ThreeDTemplates| ==>
      var es := ThreeDTemplates[k].data.elements;
      forall i, j :: 0 <= i < j < |es| ==> es[i].id != es[j].id
  {
  }

  /** The chart lies inside the 100 x 100 percentage grid and has a positive extent. */
  predicate InGrid(p: Placement) {
    0 <= p.x && 0 <= p.y && 0 < p.width && 0 < p.height && p.x + p.width <= 100 && p.y + p.height <= 100
  }

  /**
    Charts are laid out row by row: each row starts at x = 0, every chart
    starts where the previous one in its row ends, and a new row starts
    where the previous row ends vertically and only after it has reached x = 100.
   */
  ghost predicate TilesWidth(cs: seq<Chart>) {
    |cs| > 0 &&
    cs[0].position.x == 0 &&
    cs[|cs| - 1].position.x + cs[|cs| - 1].position.width == 100 &&
    forall i :: 0 < i < |cs| ==>
      var prev, cur := cs[i - 1].position, cs[i].position;
      if cur.y == prev.y then cur.x == prev.x + prev.width
      else prev.x + prev.width == 100 && cur.x == 0 && cur.y == prev.y + prev.height
  }

  /** Every dashboard template stays inside the grid and tiles its width exactly. */
  lemma DashboardLayout()
    ensures forall k :: 0 <= k < |EchartsTemplates| ==>
      var cs := EchartsTemplates[k].data.charts;
      TilesWidth(cs) && forall i :: 0 <= i < |cs| ==> InGrid(cs[i].position)
  {
  }
}

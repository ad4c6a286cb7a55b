/** Reading the grid description out of the share and geogrid sections of
    a namelist, as parsenl does, with the exceptions it raises on a
    namelist of the wrong shape. */
module GridInput {
  import opened Values
  import opened Geometry

  /** The integers held in a list of namelist values, if they all are integers. */
  function IntsOf(vs: seq<Value>): (r: Option<seq<int>>)
    ensures r.Some? <==> forall k :: 0 <= k < |vs| ==> vs[k].IntVal?
    ensures r.Some? ==> |r.value| == |vs| && forall k :: 0 <= k < |vs| ==> vs[k] == IntVal(r.value[k])
  {
    if vs == [] then Some([])
    else if !vs[|vs| - 1].IntVal? then None
    else match IntsOf(vs[..|vs| - 1])
      case None => None
      case Some(ints) => Some(ints + [vs[|vs| - 1].i])
  }

  /** A list of integers stored under key: KeyError when it is missing,
      TypeError when it is not a list (the loop indexes it) or holds
      something other than integers. */
  function IntListField(section: map<string, Value>, key: string): (r: Result<seq<int>>)
    ensures r.Ok? ==> key in section && section[key] == ListVal(IntVals(r.value))
    ensures key in section && section[key].ListVal? && IntsOf(section[key].items).Some? ==> r.Ok?
  {
    if key !in section then Err(KeyNotFound(key))
    else if !section[key].ListVal? then Err(NotAContainer)
    else match IntsOf(section[key].items)
      case None => Err(WrongType)
      case Some(xs) => Ok(xs)
  }

  /** A list the loop reads only when needed: when it is not, whatever is
      stored (or nothing) is accepted. */
  function ListRead(section: map<string, Value>, key: string, needed: bool, n: nat): Result<seq<int>>
  {
    match IntListField(section, key)
    case Err(e) => if needed then Err(e) else Ok([])
    case Ok(xs) => if needed && |xs| < n then Err(IndexOutOfRange) else Ok(xs)
  }

  /** A number (integer or real) stored under key. */
  function Number(section: map<string, Value>, key: string): (r: Result<real>)
    ensures r.Ok? <==> key in section && (section[key].IntVal? || section[key].RealVal?)
  {
    if key !in section then Err(KeyNotFound(key))
    else match section[key]
      case IntVal(i) => Ok(i as real)
      case RealVal(x) => Ok(x)
      case _ => Err(WrongType)
  }

  function NumberRead(section: map<string, Value>, key: string, needed: bool): Result<real>
  {
    if needed then Number(section, key) else Ok(0.0)
  }

  /** The share and geogrid sections of a namelist, the two the nesting
      tools read and change. */
  datatype Sections = Sections(share: map<string, Value>, geogrid: map<string, Value>)

  /** An operation with specification spec, run on the sections before,
      returned r and left the sections after: on failure it reports the
      same exception and (as the namelist is then never written) leaves
      them as they were; on success they are the specified ones. */
  predicate Reflects(before: Sections, spec: Result<Sections>, r: Result<()>, after: Sections)
  {
    && (r.Ok? <==> spec.Ok?)
    && (spec.Err? ==> r.error == spec.error && after == before)
    && (spec.Ok? ==> after == spec.value)
  }

  /** The share entries fixshare turns into lists. */
  const ShareListKeys: seq<string> := ["start_date", "end_date"]

  /** The geogrid entries fixgeogrid turns into lists. */
  const GeogridListKeys: seq<string> :=
    ["parent_id", "parent_grid_ratio", "i_parent_start", "j_parent_start", "e_we", "e_sn", "geog_data_res"]

  /** The keys the projection string is formatted from. */
  const ProjectionKeys: seq<string> := ["truelat1", "truelat2", "ref_lat", "ref_lon"]

  /** The grid description parsenl reads: max_dom from share; from geogrid
      the map projection (asserted to be Lambert conformal), the keys of the
      projection string, the root spacing and extents when there is a root,
      and the nest lists when there is a nest. A negative max_dom gives no
      domains, as range() does. */
  function ReadGrid(share: map<string, Value>, geogrid: map<string, Value>): (r: Result<Grid>)
    ensures r.Ok? ==> Covers(r.value)
  {
    if "max_dom" !in share then Err(KeyNotFound("max_dom"))
    else if !share["max_dom"].IntVal? then Err(WrongType)
    else if "map_proj" !in geogrid then Err(KeyNotFound("map_proj"))
    else if geogrid["map_proj"] != StrVal("lambert") then Err(AssertionFailed)
    else if FirstMissing(geogrid, ProjectionKeys).Some? then
      Err(KeyNotFound(FirstMissing(geogrid, ProjectionKeys).value))
    else
      var n: nat := if share["max_dom"].i < 0 then 0 else share["max_dom"].i;
      var root, nest := n >= 1, n >= 2;
      var dx := NumberRead(geogrid, "dx", root);
      var dy := NumberRead(geogrid, "dy", root);
      var eWe := ListRead(geogrid, "e_we", root, n);
      var eSn := ListRead(geogrid, "e_sn", root, n);
      var parentId := ListRead(geogrid, "parent_id", nest, n);
      var ratio := ListRead(geogrid, "parent_grid_ratio", nest, n);
      var iStart := ListRead(geogrid, "i_parent_start", nest, n);
      var jStart := ListRead(geogrid, "j_parent_start", nest, n);
      if dx.Err? then Err(dx.error)
      else if dy.Err? then Err(dy.error)
      else if eWe.Err? then Err(eWe.error)
      else if eSn.Err? then Err(eSn.error)
      else if parentId.Err? then Err(parentId.error)
      else if iStart.Err? then Err(iStart.error)
      else if jStart.Err? then Err(jStart.error)
      else if ratio.Err? then Err(ratio.error)
      else Ok(Grid(n, parentId.value, ratio.value, iStart.value, jStart.value,
                   eWe.value, eSn.value, dx.value, dy.value))
  }

  /** Where add_centered_nest and add_rectangular_nest put a nest covering
      box in domain parentId (1-based, indexed the Python way): the extents
      of the grid read from the namelist, the parent's extent, and the box
      snapped to its grid. */
  function NestPlacement(share: map<string, Value>, geogrid: map<string, Value>,
                         parentId: int, ratio: int, box: Box): (r: Result<Placement>)
    requires ReadGrid(share, geogrid).Ok? ==> ParentsPrecede(ReadGrid(share, geogrid).value)
  {
    var g :- ReadGrid(share, geogrid);
    if !RatiosNonzero(g, g.maxDom) then Err(ZeroDivision)
    else if !ValidPyIndex(g.maxDom, parentId - 1) then Err(IndexOutOfRange)
    else
      var pe := DomainExtent(g, PySlot(g.maxDom, parentId - 1));
      if pe.dx == 0.0 || pe.dy == 0.0 then Err(ZeroDivision)
      else Ok(PlaceNest(pe, ratio, box))
  }

  /** The grid parsenl reads is made of the values stored in the namelist:
      the domain count, the spacings and the lists, each one read when the
      domain count calls for it. */
  lemma ReadGridFields(share: map<string, Value>, geogrid: map<string, Value>)
    requires ReadGrid(share, geogrid).Ok?
    ensures var g := ReadGrid(share, geogrid).value;
      && "max_dom" in share && share["max_dom"].IntVal?
      && g.maxDom == Max(0, share["max_dom"].i)
      && "map_proj" in geogrid && geogrid["map_proj"] == StrVal("lambert")
      && FirstMissing(geogrid, ProjectionKeys).None?
      && Ok(g.dx) == NumberRead(geogrid, "dx", g.maxDom >= 1)
      && Ok(g.dy) == NumberRead(geogrid, "dy", g.maxDom >= 1)
      && Ok(g.eWe) == ListRead(geogrid, "e_we", g.maxDom >= 1, g.maxDom)
      && Ok(g.eSn) == ListRead(geogrid, "e_sn", g.maxDom >= 1, g.maxDom)
      && Ok(g.parentId) == ListRead(geogrid, "parent_id", g.maxDom >= 2, g.maxDom)
      && Ok(g.ratio) == ListRead(geogrid, "parent_grid_ratio", g.maxDom >= 2, g.maxDom)
      && Ok(g.iStart) == ListRead(geogrid, "i_parent_start", g.maxDom >= 2, g.maxDom)
      && Ok(g.jStart) == ListRead(geogrid, "j_parent_start", g.maxDom >= 2, g.maxDom)
  {
  }

  /** Conversely, a namelist whose domain count is at least two, whose
      projection is Lambert conformal with its parameters present, and whose
      spacings and lists are readable and long enough reads as the grid made
      of those values. */
  lemma ReadGridOfFields(share: map<string, Value>, geogrid: map<string, Value>, g: Grid)
    requires g.maxDom >= 2 && "max_dom" in share && share["max_dom"] == IntVal(g.maxDom)
    requires "map_proj" in geogrid && geogrid["map_proj"] == StrVal("lambert")
    requires FirstMissing(geogrid, ProjectionKeys).None?
    requires Number(geogrid, "dx") == Ok(g.dx) && Number(geogrid, "dy") == Ok(g.dy)
    requires Covers(g)
    requires && IntListField(geogrid, "e_we") == Ok(g.eWe) && IntListField(geogrid, "e_sn") == Ok(g.eSn)
             && IntListField(geogrid, "parent_id") == Ok(g.parentId)
             && IntListField(geogrid, "parent_grid_ratio") == Ok(g.ratio)
             && IntListField(geogrid, "i_parent_start") == Ok(g.iStart)
             && IntListField(geogrid, "j_parent_start") == Ok(g.jStart)
    ensures ReadGrid(share, geogrid) == Ok(g)
  {
  }

  /** The shared head of add_centered_nest and add_rectangular_nest: parse
      the grids, pick the parent's entries (a Python index, so parent_id 0
      is the last domain) and snap the box to the parent grid. */
  method PlaceInParent(share: map<string, Value>, geogrid: map<string, Value>, parentId: int, ratio: int,
                       box: Box) returns (r: Result<Placement>)
    requires ReadGrid(share, geogrid).Ok? ==> ParentsPrecede(ReadGrid(share, geogrid).value)
    ensures r == NestPlacement(share, geogrid, parentId, ratio, box)
  {
    var g :- ReadGrid(share, geogrid);
    var ext :- ParseExtents(g);
    var p := parentId - 1;
    if !ValidPyIndex(|ext.west|, p) {
      return Err(IndexOutOfRange);
    }
    var k := PySlot(|ext.west|, p);
    var pe := Extent(ext.west[k], ext.east[k], ext.north[k], ext.south[k], ext.dx[k], ext.dy[k]);
    if pe.dx == 0.0 || pe.dy == 0.0 {
      return Err(ZeroDivision);
    }
    return Ok(PlaceNest(pe, ratio, box));
  }

  /** The list under key with v added at its end. */
  function Pushed(section: map<string, Value>, key: string, v: Value): Value
    requires key in section && section[key].ListVal?
  {
    ListVal(section[key].items + [v])
  }

  /** The share lists hold one entry per domain. */
  predicate ShareCovers(share: map<string, Value>, n: int)
  {
    && "max_dom" in share && share["max_dom"] == IntVal(n)
    && ListOfLength(share, "start_date", n) && ListOfLength(share, "end_date", n)
  }

  /** The geogrid lists hold one entry per domain. */
  predicate GeogridCovers(geogrid: map<string, Value>, n: int)
  {
    && ListOfLength(geogrid, "parent_id", n) && ListOfLength(geogrid, "parent_grid_ratio", n)
    && ListOfLength(geogrid, "i_parent_start", n) && ListOfLength(geogrid, "j_parent_start", n)
    && ListOfLength(geogrid, "e_we", n) && ListOfLength(geogrid, "e_sn", n)
    && ListOfLength(geogrid, "geog_data_res", n)
  }

  /** The entry under key is a list of n values. */
  predicate ListOfLength(section: map<string, Value>, key: string, n: int)
  {
    key in section && section[key].ListVal? && |section[key].items| == n
  }

  /** The six integer lists of the nests hold integers only. */
  predicate NestListsInts(geogrid: map<string, Value>)
  {
    && IntList(geogrid, "parent_id") && IntList(geogrid, "parent_grid_ratio")
    && IntList(geogrid, "i_parent_start") && IntList(geogrid, "j_parent_start")
    && IntList(geogrid, "e_we") && IntList(geogrid, "e_sn")
  }

  predicate IntList(section: map<string, Value>, key: string)
  {
    key in section && section[key].ListVal? && IntsOf(section[key].items).Some?
  }

  /** Each of the seven per-domain geogrid entries is a list. */
  predicate GeogridLists(geogrid: map<string, Value>)
  {
    && HasList(geogrid, "parent_id") && HasList(geogrid, "parent_grid_ratio")
    && HasList(geogrid, "i_parent_start") && HasList(geogrid, "j_parent_start")
    && HasList(geogrid, "e_we") && HasList(geogrid, "e_sn") && HasList(geogrid, "geog_data_res")
  }

  predicate HasList(section: map<string, Value>, key: string)
  {
    key in section && section[key].ListVal?
  }

  /** The geogrid with the nest's values, and the parent's geog_data_res
      (a Python index), pushed onto the ends of the seven lists. */
  function NestPushed(geogrid: map<string, Value>, parentId: int, ratio: int, iStart: int,
                      jStart: int, eWe: int, eSn: int): map<string, Value>
    requires GeogridLists(geogrid) && ValidPyIndex(|geogrid["geog_data_res"].items|, parentId - 1)
  {
    geogrid["parent_id" := Pushed(geogrid, "parent_id", IntVal(parentId))]
           ["parent_grid_ratio" := Pushed(geogrid, "parent_grid_ratio", IntVal(ratio))]
           ["i_parent_start" := Pushed(geogrid, "i_parent_start", IntVal(iStart))]
           ["j_parent_start" := Pushed(geogrid, "j_parent_start", IntVal(jStart))]
           ["e_we" := Pushed(geogrid, "e_we", IntVal(eWe))]
           ["e_sn" := Pushed(geogrid, "e_sn", IntVal(eSn))]
           ["geog_data_res" := Pushed(geogrid, "geog_data_res",
                                      PyIndex(geogrid["geog_data_res"].items, parentId - 1))]
  }

  /** geogrid' is geogrid with the nest's values, and the parent's
      geog_data_res, pushed onto the seven lists, and with the projection
      entries as they were. */
  predicate NestPushedOnto(geogrid: map<string, Value>, geogrid': map<string, Value>, parentId: int,
                           ratio: int, iStart: int, jStart: int, eWe: int, eSn: int)
    requires GeogridLists(geogrid) && ValidPyIndex(|geogrid["geog_data_res"].items|, parentId - 1)
  {
    && geogrid'.Keys == geogrid.Keys
    && geogrid'["parent_id"] == Pushed(geogrid, "parent_id", IntVal(parentId))
    && geogrid'["parent_grid_ratio"] == Pushed(geogrid, "parent_grid_ratio", IntVal(ratio))
    && geogrid'["i_parent_start"] == Pushed(geogrid, "i_parent_start", IntVal(iStart))
    && geogrid'["j_parent_start"] == Pushed(geogrid, "j_parent_start", IntVal(jStart))
    && geogrid'["e_we"] == Pushed(geogrid, "e_we", IntVal(eWe))
    && geogrid'["e_sn"] == Pushed(geogrid, "e_sn", IntVal(eSn))
    && geogrid'["geog_data_res"]
       == Pushed(geogrid, "geog_data_res", PyIndex(geogrid["geog_data_res"].items, parentId - 1))
    && ("map_proj" in geogrid ==> geogrid'["map_proj"] == geogrid["map_proj"])
    && ("dx" in geogrid ==> geogrid'["dx"] == geogrid["dx"])
    && ("dy" in geogrid ==> geogrid'["dy"] == geogrid["dy"])
  }

  /** Every entry of geogrid other than the seven lists is in geogrid' as it was. */
  predicate OthersKept(geogrid: map<string, Value>, geogrid': map<string, Value>)
  {
    forall k :: k in geogrid && k !in GeogridListKeys ==> k in geogrid' && geogrid'[k] == geogrid[k]
  }

  /** Each of the seven lists grows by its value and nothing else changes. */
  lemma NestPushedShape(geogrid: map<string, Value>, parentId: int, ratio: int,
                        iStart: int, jStart: int, eWe: int, eSn: int)
    requires GeogridLists(geogrid) && ValidPyIndex(|geogrid["geog_data_res"].items|, parentId - 1)
    ensures NestPushedOnto(geogrid, NestPushed(geogrid, parentId, ratio, iStart, jStart, eWe, eSn),
                           parentId, ratio, iStart, jStart, eWe, eSn)
  {
    NestPushedKeepsOthers(geogrid, parentId, ratio, iStart, jStart, eWe, eSn);
    assert "map_proj" !in GeogridListKeys && "dx" !in GeogridListKeys && "dy" !in GeogridListKeys;
  }

  /** Pushing the nest changes no entry but the seven lists. */
  lemma NestPushedKeepsOthers(geogrid: map<string, Value>, parentId: int, ratio: int,
                              iStart: int, jStart: int, eWe: int, eSn: int)
    requires GeogridLists(geogrid) && ValidPyIndex(|geogrid["geog_data_res"].items|, parentId - 1)
    ensures OthersKept(geogrid, NestPushed(geogrid, parentId, ratio, iStart, jStart, eWe, eSn))
  {
  }

  /** Pushing one entry onto lists of one entry per domain gives lists of
      one entry per domain for one more domain. */
  lemma NestPushedCovers(geogrid: map<string, Value>, geogrid': map<string, Value>, n: nat, parentId: int,
                         ratio: int, iStart: int, jStart: int, eWe: int, eSn: int)
    requires GeogridCovers(geogrid, n) && ValidPyIndex(n, parentId - 1)
    requires NestPushedOnto(geogrid, geogrid', parentId, ratio, iStart, jStart, eWe, eSn)
    ensures GeogridCovers(geogrid', n + 1)
  {
  }
}

/** The plain variant of the nesting tool: appendnest adds a nest with
    Python's list.append, so every list grows by exactly one entry and no
    padding takes place. */
module PlainNest {
  import opened Values
  import opened Geometry
  import opened GridInput
  import ForecastNest

  /** list.append(v) on the list stored under key: KeyError when the key is
      missing, and a list is needed to append to. */
  function PushValue(section: map<string, Value>, key: string, v: Value): (r: Result<map<string, Value>>)
    ensures r.Ok? <==> HasList(section, key)
    ensures r.Err? ==> r.error == if key in section then WrongType else KeyNotFound(key)
    ensures r.Ok? ==> r.value == section[key := Pushed(section, key, v)]
  {
    if key !in section then Err(KeyNotFound(key))
    else if !section[key].ListVal? then Err(WrongType)
    else Ok(section[key := Pushed(section, key, v)])
  }

  /** list.append(list[i]) on the list stored under key, i a Python index. */
  function PushEntry(section: map<string, Value>, key: string, i: int): (r: Result<map<string, Value>>)
    ensures r.Ok? <==> HasList(section, key) && ValidPyIndex(|section[key].items|, i)
    ensures r.Ok? ==> r.value == section[key := Pushed(section, key, PyIndex(section[key].items, i))]
  {
    if key !in section then Err(KeyNotFound(key))
    else if !section[key].ListVal? then Err(WrongType)
    else if !ValidPyIndex(|section[key].items|, i) then Err(IndexOutOfRange)
    else Ok(section[key := Pushed(section, key, PyIndex(section[key].items, i))])
  }

  /** The share half of appendnest: count the new domain and append the
      parent's dates. */
  function AppendShare(share: map<string, Value>, parentId: int): Result<map<string, Value>>
  {
    if "max_dom" !in share then Err(KeyNotFound("max_dom"))
    else if !share["max_dom"].IntVal? then Err(WrongType)
    else
      var sh0 := share["max_dom" := IntVal(share["max_dom"].i + 1)];
      var sh1 :- PushEntry(sh0, "start_date", parentId - 1);
      PushEntry(sh1, "end_date", parentId - 1)
  }

  /** The geogrid half of appendnest: append the nest's values and the
      parent's geog_data_res. */
  function AppendGeogrid(geogrid: map<string, Value>, parentId: int, ratio: int, iStart: int,
                         jStart: int, eWe: int, eSn: int): Result<map<string, Value>>
  {
    var gg1 :- PushValue(geogrid, "parent_id", IntVal(parentId));
    var gg2 :- PushValue(gg1, "parent_grid_ratio", IntVal(ratio));
    var gg3 :- PushValue(gg2, "i_parent_start", IntVal(iStart));
    var gg4 :- PushValue(gg3, "j_parent_start", IntVal(jStart));
    var gg5 :- PushValue(gg4, "e_we", IntVal(eWe));
    var gg6 :- PushValue(gg5, "e_sn", IntVal(eSn));
    PushEntry(gg6, "geog_data_res", parentId - 1)
  }

  /** appendnest on the sections. */
  function AppendedNest(s: Sections, parentId: int, ratio: int, iStart: int, jStart: int,
                        eWe: int, eSn: int): Result<Sections>
  {
    var sh :- AppendShare(s.share, parentId);
    var gg :- AppendGeogrid(s.geogrid, parentId, ratio, iStart, jStart, eWe, eSn);
    Ok(Sections(sh, gg))
  }

  /** What appendnest needs to run to the end: an integer max_dom, the nine
      entries present as lists, and parent_id - 1 a valid Python index into
      the three lists it copies from. */
  predicate CanAppendShare(share: map<string, Value>, parentId: int)
  {
    && "max_dom" in share && share["max_dom"].IntVal?
    && HasList(share, "start_date") && ValidPyIndex(|share["start_date"].items|, parentId - 1)
    && HasList(share, "end_date") && ValidPyIndex(|share["end_date"].items|, parentId - 1)
  }

  predicate CanAppendGeogrid(geogrid: map<string, Value>, parentId: int)
  {
    GeogridLists(geogrid) && ValidPyIndex(|geogrid["geog_data_res"].items|, parentId - 1)
  }

  /** The share half succeeds exactly when its entries are usable, and then
      max_dom grows by one and each date list gets the parent's date at its
      end. */
  lemma AppendShareShape(share: map<string, Value>, parentId: int)
    ensures AppendShare(share, parentId).Ok? <==> CanAppendShare(share, parentId)
    ensures AppendShare(share, parentId).Ok? ==>
      var t := AppendShare(share, parentId).value;
      && t.Keys == share.Keys
      && t["max_dom"] == IntVal(share["max_dom"].i + 1)
      && t["start_date"] == Pushed(share, "start_date", PyIndex(share["start_date"].items, parentId - 1))
      && t["end_date"] == Pushed(share, "end_date", PyIndex(share["end_date"].items, parentId - 1))
      && forall k :: k in share && k != "max_dom" && k !in ShareListKeys ==> t[k] == share[k]
  {
  }

  /** The geogrid half succeeds exactly when its entries are usable, and
      then pushes the nest onto the seven lists. */
  lemma AppendGeogridShape(geogrid: map<string, Value>, parentId: int, ratio: int, iStart: int,
                           jStart: int, eWe: int, eSn: int)
    ensures AppendGeogrid(geogrid, parentId, ratio, iStart, jStart, eWe, eSn).Ok?
            <==> CanAppendGeogrid(geogrid, parentId)
    ensures CanAppendGeogrid(geogrid, parentId) ==>
      AppendGeogrid(geogrid, parentId, ratio, iStart, jStart, eWe, eSn)
      == Ok(NestPushed(geogrid, parentId, ratio, iStart, jStart, eWe, eSn))
  {
    if CanAppendGeogrid(geogrid, parentId) {
      var gg1 := geogrid["parent_id" := Pushed(geogrid, "parent_id", IntVal(parentId))];
      assert gg1["parent_grid_ratio"] == geogrid["parent_grid_ratio"];
      var gg2 := gg1["parent_grid_ratio" := Pushed(gg1, "parent_grid_ratio", IntVal(ratio))];
      assert gg2["i_parent_start"] == geogrid["i_parent_start"];
      var gg3 := gg2["i_parent_start" := Pushed(gg2, "i_parent_start", IntVal(iStart))];
      assert gg3["j_parent_start"] == geogrid["j_parent_start"];
      var gg4 := gg3["j_parent_start" := Pushed(gg3, "j_parent_start", IntVal(jStart))];
      assert gg4["e_we"] == geogrid["e_we"];
      var gg5 := gg4["e_we" := Pushed(gg4, "e_we", IntVal(eWe))];
      assert gg5["e_sn"] == geogrid["e_sn"];
      var gg6 := gg5["e_sn" := Pushed(gg5, "e_sn", IntVal(eSn))];
      assert gg6["geog_data_res"] == geogrid["geog_data_res"];
      var gg7 := gg6["geog_data_res" := Pushed(gg6, "geog_data_res", PyIndex(gg6["geog_data_res"].items, parentId - 1))];
      assert gg7 == NestPushed(geogrid, parentId, ratio, iStart, jStart, eWe, eSn);
    }
  }

  /** appendnest keeps every list at one entry per domain. */
  lemma AppendedNestKeepsCovers(s: Sections, n: nat, parentId: int, ratio: int, iStart: int, jStart: int,
                                eWe: int, eSn: int)
    requires ShareCovers(s.share, n) && GeogridCovers(s.geogrid, n) && ValidPyIndex(n, parentId - 1)
    ensures AppendedNest(s, parentId, ratio, iStart, jStart, eWe, eSn).Ok?
    ensures var t := AppendedNest(s, parentId, ratio, iStart, jStart, eWe, eSn).value;
      ShareCovers(t.share, n + 1) && GeogridCovers(t.geogrid, n + 1)
  {
    AppendShareShape(s.share, parentId);
    AppendGeogridShape(s.geogrid, parentId, ratio, iStart, jStart, eWe, eSn);
    NestPushedShape(s.geogrid, parentId, ratio, iStart, jStart, eWe, eSn);
    NestPushedCovers(s.geogrid, NestPushed(s.geogrid, parentId, ratio, iStart, jStart, eWe, eSn), n,
                     parentId, ratio, iStart, jStart, eWe, eSn);
  }

  /** appendnest succeeds exactly when its entries are usable, and then
      does on share what its share half does and pushes the nest onto the
      seven geogrid lists. */
  lemma AppendedNestShape(s: Sections, parentId: int, ratio: int, iStart: int, jStart: int,
                          eWe: int, eSn: int)
    ensures AppendedNest(s, parentId, ratio, iStart, jStart, eWe, eSn).Ok?
            <==> CanAppendShare(s.share, parentId) && CanAppendGeogrid(s.geogrid, parentId)
    ensures AppendedNest(s, parentId, ratio, iStart, jStart, eWe, eSn).Ok? ==>
      AppendedNest(s, parentId, ratio, iStart, jStart, eWe, eSn).value
      == Sections(AppendShare(s.share, parentId).value,
                  NestPushed(s.geogrid, parentId, ratio, iStart, jStart, eWe, eSn))
  {
    AppendShareShape(s.share, parentId);
    AppendGeogridShape(s.geogrid, parentId, ratio, iStart, jStart, eWe, eSn);
  }

  /** On a namelist with one entry per domain in its lists and a parent
      among the domains, the forecast addnest, which writes position max_dom
      with its padding helpers, and the plain appendnest, which appends,
      give the same sections. */
  lemma AddedNestAgrees(s: Sections, n: nat, parentId: int, ratio: int, iStart: int, jStart: int,
                        eWe: int, eSn: int)
    requires ShareCovers(s.share, n) && GeogridCovers(s.geogrid, n) && 1 <= parentId <= n
    ensures AppendedNest(s, parentId, ratio, iStart, jStart, eWe, eSn).Ok?
    ensures ForecastNest.AddedNest(s, parentId, ratio, iStart, jStart, eWe, eSn)
            == AppendedNest(s, parentId, ratio, iStart, jStart, eWe, eSn)
  {
    ShareAgrees(s.share, n, parentId);
    ForecastNest.NestGeogridPushes(s.geogrid, n, parentId, ratio, iStart, jStart, eWe, eSn);
    AppendGeogridShape(s.geogrid, parentId, ratio, iStart, jStart, eWe, eSn);
  }

  /** The share halves of the two variants agree on a namelist with one
      date per domain and a parent among the domains. */
  lemma ShareAgrees(share: map<string, Value>, n: nat, parentId: int)
    requires ShareCovers(share, n) && 1 <= parentId <= n
    ensures AppendShare(share, parentId).Ok?
    ensures ForecastNest.NestShare(share, parentId) == AppendShare(share, parentId)
  {
    var sh0 := share["max_dom" := IntVal(n + 1)];
    assert sh0["start_date"] == share["start_date"] && sh0["end_date"] == share["end_date"];
    ForecastNest.CopiedAtEnd(share["start_date"].items, parentId - 1);
    var sh1 := sh0["start_date" := Pushed(sh0, "start_date", share["start_date"].items[parentId - 1])];
    assert sh1["end_date"] == share["end_date"];
    ForecastNest.CopiedAtEnd(share["end_date"].items, parentId - 1);
  }

  /** The grid parsenl reads after appendnest is the one before with the
      nest appended as the last domain. */
  lemma ReadGridAfterAppend(s: Sections, n: nat, g: Grid, parentId: int, ratio: int, pl: Placement)
    requires ShareCovers(s.share, n) && GeogridCovers(s.geogrid, n) && NestListsInts(s.geogrid)
    requires 1 <= parentId <= n
    requires ReadGrid(s.share, s.geogrid) == Ok(g)
    ensures AppendedNest(s, parentId, ratio, pl.iStart, pl.jStart, pl.eWe, pl.eSn).Ok?
    ensures var t := AppendedNest(s, parentId, ratio, pl.iStart, pl.jStart, pl.eWe, pl.eSn).value;
      ReadGrid(t.share, t.geogrid) == Ok(WithNest(g, parentId, ratio, pl))
  {
    AddedNestAgrees(s, n, parentId, ratio, pl.iStart, pl.jStart, pl.eWe, pl.eSn);
    ForecastNest.ReadGridAfterNest(s, n, g, parentId, ratio, pl);
  }

  /** Where the variants part: with parent_id 0 the index parent_id - 1 is
      -1. appendnest then appends the last domain's date, while the forecast
      copy helper pads the list first, so -1 names the padding zero, and
      the new domain's date is 0. */
  lemma ParentZeroDiverges(share: map<string, Value>, n: nat)
    requires ShareCovers(share, n) && n >= 1
    ensures AppendShare(share, 0).Ok? && ForecastNest.NestShare(share, 0).Ok?
    ensures AppendShare(share, 0).value["start_date"].items[n] == share["start_date"].items[n - 1]
    ensures ForecastNest.NestShare(share, 0).value["start_date"].items[n] == IntVal(0)
  {
    var a := share["start_date"].items;
    assert ForecastNest.Padded(a, n) == a + [IntVal(0)];
    var b := share["end_date"].items;
    assert ForecastNest.Padded(b, n) == b + [IntVal(0)];
  }

  /** list.append on the list stored under key, the list grown in place. */
  method PushInto(section: map<string, Value>, key: string, v: Value) returns (r: Result<map<string, Value>>)
    ensures r == PushValue(section, key, v)
  {
    if key !in section {
      return Err(KeyNotFound(key));
    }
    if !section[key].ListVal? {
      return Err(WrongType);
    }
    var l := section[key].items;
    l := l + [v];
    return Ok(section[key := ListVal(l)]);
  }

  /** list.append(list[i]) on the list stored under key. */
  method PushEntryInto(section: map<string, Value>, key: string, i: int) returns (r: Result<map<string, Value>>)
    ensures r == PushEntry(section, key, i)
  {
    if key !in section {
      return Err(KeyNotFound(key));
    }
    if !section[key].ListVal? {
      return Err(WrongType);
    }
    var l := section[key].items;
    if i < -|l| || i >= |l| {
      return Err(IndexOutOfRange);
    }
    l := l + [l[PySlot(|l|, i)]];
    return Ok(section[key := ListVal(l)]);
  }

  /** The share lines of appendnest. */
  method AppendToShare(share: map<string, Value>, parentId: int) returns (r: Result<map<string, Value>>)
    ensures r == AppendShare(share, parentId)
  {
    var sh := share;
    if "max_dom" !in sh {
      return Err(KeyNotFound("max_dom"));
    }
    if !sh["max_dom"].IntVal? {
      return Err(WrongType);
    }
    sh := sh["max_dom" := IntVal(sh["max_dom"].i + 1)];
    sh :- PushEntryInto(sh, "start_date", parentId - 1);
    sh :- PushEntryInto(sh, "end_date", parentId - 1);
    return Ok(sh);
  }

  /** The geogrid lines of appendnest. */
  method AppendToGeogrid(geogrid: map<string, Value>, parentId: int, ratio: int, iStart: int,
                         jStart: int, eWe: int, eSn: int) returns (r: Result<map<string, Value>>)
    ensures r == AppendGeogrid(geogrid, parentId, ratio, iStart, jStart, eWe, eSn)
  {
    var gg := geogrid;
    gg :- PushInto(gg, "parent_id", IntVal(parentId));
    gg :- PushInto(gg, "parent_grid_ratio", IntVal(ratio));
    gg :- PushInto(gg, "i_parent_start", IntVal(iStart));
    gg :- PushInto(gg, "j_parent_start", IntVal(jStart));
    gg :- PushInto(gg, "e_we", IntVal(eWe));
    gg :- PushInto(gg, "e_sn", IntVal(eSn));
    gg :- PushEntryInto(gg, "geog_data_res", parentId - 1);
    return Ok(gg);
  }

  /** add_centered_nest of the plain tool, with the centre already
      projected to (x, y). */
  function CenteredNestAppended(s: Sections, parentId: int, ratio: int, x: real, y: real,
                                sizex: real, sizey: real): Result<Sections>
    requires ReadGrid(s.share, s.geogrid).Ok? ==> ParentsPrecede(ReadGrid(s.share, s.geogrid).value)
  {
    var pl :- NestPlacement(s.share, s.geogrid, parentId, ratio, CenteredBox(x, y, sizex, sizey));
    AppendedNest(s, parentId, ratio, pl.iStart, pl.jStart, pl.eWe, pl.eSn)
  }

  /** add_rectangular_nest of the plain tool, with the corners already
      projected. */
  function RectangularNestAppended(s: Sections, parentId: int, ratio: int, westX: real, northY: real,
                                   eastX: real, southY: real): Result<Sections>
    requires ReadGrid(s.share, s.geogrid).Ok? ==> ParentsPrecede(ReadGrid(s.share, s.geogrid).value)
  {
    var pl :- NestPlacement(s.share, s.geogrid, parentId, ratio, Box(westX, southY, eastX, northY));
    AppendedNest(s, parentId, ratio, pl.iStart, pl.jStart, pl.eWe, pl.eSn)
  }

  /** The namelist the plain nesting tool edits in place. */
  class Namelist {
    var share: map<string, Value>
    var geogrid: map<string, Value>

    constructor(share: map<string, Value>, geogrid: map<string, Value>)
      ensures this.share == share && this.geogrid == geogrid
    {
      this.share := share;
      this.geogrid := geogrid;
    }

    function Current(): Sections
      reads this
    {
      Sections(share, geogrid)
    }

    method AppendNest(parentId: int, ratio: int, iStart: int, jStart: int, eWe: int, eSn: int)
        returns (r: Result<()>)
      modifies this
      ensures Reflects(old(Current()), AppendedNest(old(Current()), parentId, ratio, iStart, jStart, eWe, eSn),
                       r, Current())
    {
      var sh :- AppendToShare(share, parentId);
      var gg :- AppendToGeogrid(geogrid, parentId, ratio, iStart, jStart, eWe, eSn);
      share, geogrid := sh, gg;
      return Ok(());
    }

    /** add_centered_nest, with the centre already projected to (x, y). */
    method AddCenteredNest(parentId: int, ratio: int, x: real, y: real, sizex: real, sizey: real)
        returns (r: Result<()>)
      requires ReadGrid(share, geogrid).Ok? ==> ParentsPrecede(ReadGrid(share, geogrid).value)
      modifies this
      ensures Reflects(old(Current()), CenteredNestAppended(old(Current()), parentId, ratio, x, y, sizex, sizey),
                       r, Current())
    {
      var pl :- PlaceInParent(share, geogrid, parentId, ratio, CenteredBox(x, y, sizex, sizey));
      r := AppendNest(parentId, ratio, pl.iStart, pl.jStart, pl.eWe, pl.eSn);
    }

    /** add_rectangular_nest, with the corners already projected: (westX,
        northY) north-west and (eastX, southY) south-east. */
    method AddRectangularNest(parentId: int, ratio: int, westX: real, northY: real, eastX: real, southY: real)
        returns (r: Result<()>)
      requires ReadGrid(share, geogrid).Ok? ==> ParentsPrecede(ReadGrid(share, geogrid).value)
      modifies this
      ensures Reflects(old(Current()), RectangularNestAppended(old(Current()), parentId, ratio, westX, northY, eastX, southY),
                       r, Current())
    {
      var pl :- PlaceInParent(share, geogrid, parentId, ratio, Box(westX, southY, eastX, northY));
      r := AppendNest(parentId, ratio, pl.iStart, pl.jStart, pl.eWe, pl.eSn);
    }
  }
}

/** The forecast variant of the nesting tool: normalisation of scalar
    namelist entries into lists, and insertion of a nest at position
    max_dom through the padding helpers append and copy. */
module ForecastNest {
  import opened Values
  import opened Geometry
  import opened GridInput

  /** A value as a list: a list is kept, anything else becomes the list
      holding just that value. */
  function AsList(v: Value): (r: Value)
    ensures r.ListVal?
    ensures v.ListVal? ==> r == v
    ensures !v.ListVal? ==> r.items == [v]
  {
    if v.ListVal? then v else ListVal([v])
  }

  /** The section with each of keys turned into a list in turn; a missing
      key raises KeyError. */
  function Normalized(section: map<string, Value>, keys: seq<string>): Result<map<string, Value>>
  {
    if keys == [] then Ok(section)
    else if keys[0] !in section then Err(KeyNotFound(keys[0]))
    else Normalized(section[keys[0] := AsList(section[keys[0]])], keys[1..])
  }

  /** Normalising fails exactly when a key is missing, with KeyError on the
      first missing one; otherwise it keeps the section's keys, turns each
      named entry into a list and leaves every other entry alone. */
  lemma {:induction false} NormalizedShape(section: map<string, Value>, keys: seq<string>)
    ensures Normalized(section, keys).Ok? <==> FirstMissing(section, keys).None?
    ensures Normalized(section, keys).Err? ==>
      Normalized(section, keys).error == KeyNotFound(FirstMissing(section, keys).value)
    ensures Normalized(section, keys).Ok? ==> Normalized(section, keys).value.Keys == section.Keys
    ensures Normalized(section, keys).Ok? ==> forall k :: k in section ==>
      Normalized(section, keys).value[k] == if k in keys then AsList(section[k]) else section[k]
    decreases |keys|
  {
    if keys != [] && keys[0] in section {
      var next := section[keys[0] := AsList(section[keys[0]])];
      FirstMissingByKeys(next, section, keys[1..]);
      NormalizedShape(next, keys[1..]);
    }
  }

  /** Which key is missing first depends only on the keys present. */
  lemma {:induction false} FirstMissingByKeys(s1: map<string, Value>, s2: map<string, Value>, keys: seq<string>)
    requires s1.Keys == s2.Keys
    ensures FirstMissing(s1, keys) == FirstMissing(s2, keys)
  {
    if keys != [] {
      FirstMissingByKeys(s1, s2, keys[1..]);
    }
  }

  /** Normalising twice is normalising once. */
  lemma NormalizedIdempotent(section: map<string, Value>, keys: seq<string>)
    requires Normalized(section, keys).Ok?
    ensures Normalized(Normalized(section, keys).value, keys) == Normalized(section, keys)
  {
    NormalizedShape(section, keys);
    var once := Normalized(section, keys).value;
    FirstMissingByKeys(once, section, keys);
    NormalizedShape(once, keys);
    var twice := Normalized(once, keys);
    assert twice.value == once;
  }

  /** append(a, i, b): overwrite position i when the list has it, otherwise
      pad the list with b up to and including position i. */
  function Appended(a: seq<Value>, i: int, b: Value): (r: Result<seq<Value>>)
    ensures r.Ok? <==> i >= -|a|
    ensures r.Ok? && i >= 0 ==>
      && |r.value| == Max(|a|, i + 1)
      && r.value[i] == b
      && (forall k :: 0 <= k < |a| && k != i ==> r.value[k] == a[k])
      && (forall k :: |a| <= k < |r.value| ==> r.value[k] == b)
    ensures r.Ok? && i < 0 ==>
      && |r.value| == |a| && r.value[|a| + i] == b
      && forall k :: 0 <= k < |a| && k != |a| + i ==> r.value[k] == a[k]
  {
    if |a| > i then
      if ValidPyIndex(|a|, i) then Ok(a[PySlot(|a|, i) := b]) else Err(IndexOutOfRange)
    else Ok(a + seq(i + 1 - |a|, _ => b))
  }

  /** The inner append helper of addnest, with its padding loop. */
  method Append(a: seq<Value>, i: int, b: Value) returns (r: Result<seq<Value>>)
    ensures r == Appended(a, i, b)
  {
    if |a| > i {
      if i < -|a| {
        return Err(IndexOutOfRange);
      }
      return Ok(a[PySlot(|a|, i) := b]);
    }
    var l := a;
    while |l| <= i
      invariant |a| <= |l| <= i + 1
      invariant l == a + seq(|l| - |a|, _ => b)
      decreases i - |l|
    {
      l := l + [b];
    }
    return Ok(l);
  }

  /** The list padded with integer zeros until it has position m. */
  function Padded(a: seq<Value>, m: int): (r: seq<Value>)
    ensures |r| == Max(|a|, m + 1)
    ensures r[..|a|] == a
    ensures forall k :: |a| <= k < |r| ==> r[k] == IntVal(0)
  {
    if |a| <= m then a + seq(m + 1 - |a|, _ => IntVal(0)) else a
  }

  /** copy(a, i, j): pad with zeros up to position max(i, j), then copy
      element i over element j (Python indices, so either may be negative). */
  function Copied(a: seq<Value>, i: int, j: int): (r: Result<seq<Value>>)
    ensures var n := Max(|a|, Max(i, j) + 1);
      r.Ok? <==> i >= -n && j >= -n
    ensures r.Ok? ==>
      var n := Max(|a|, Max(i, j) + 1);
      && ValidPyIndex(n, i) && ValidPyIndex(n, j)
      && |r.value| == n
      && r.value[PySlot(n, j)] == (if PySlot(n, i) < |a| then a[PySlot(n, i)] else IntVal(0))
      && (forall k :: 0 <= k < |a| && k != PySlot(n, j) ==> r.value[k] == a[k])
      && (forall k :: |a| <= k < n && k != PySlot(n, j) ==> r.value[k] == IntVal(0))
    ensures r.Ok? && i >= 0 && j >= 0 ==>
      && |r.value| == Max(|a|, Max(i, j) + 1)
      && r.value[j] == (if i < |a| then a[i] else IntVal(0))
      && (forall k :: 0 <= k < |a| && k != j ==> r.value[k] == a[k])
      && (forall k :: |a| <= k < |r.value| && k != j ==> r.value[k] == IntVal(0))
  {
    var p := Padded(a, Max(i, j));
    if !ValidPyIndex(|p|, i) || !ValidPyIndex(|p|, j) then Err(IndexOutOfRange)
    else Ok(p[PySlot(|p|, j) := p[PySlot(|p|, i)]])
  }

  /** The inner copy helper of addnest, with its padding loop. */
  method Copy(a: seq<Value>, i: int, j: int) returns (r: Result<seq<Value>>)
    ensures r == Copied(a, i, j)
  {
    var m := Max(i, j);
    var l := a;
    while |l| <= m
      invariant |a| <= |l| <= Max(|a|, m + 1)
      invariant l == a + seq(|l| - |a|, _ => IntVal(0))
      decreases m - |l|
    {
      l := l + [IntVal(0)];
    }
    assert l == Padded(a, m);
    if i < -|l| || j < -|l| {
      return Err(IndexOutOfRange);
    }
    return Ok(l[PySlot(|l|, j) := l[PySlot(|l|, i)]]);
  }

  /** copy applied to the list stored under key; the entry must be a list. */
  function CopyField(section: map<string, Value>, key: string, i: int, j: int): (r: Result<map<string, Value>>)
    ensures r.Ok? ==>
      && key in section && section[key].ListVal? && Copied(section[key].items, i, j).Ok?
      && r.value == section[key := ListVal(Copied(section[key].items, i, j).value)]
  {
    if key !in section then Err(KeyNotFound(key))
    else if !section[key].ListVal? then Err(WrongType)
    else
      var l :- Copied(section[key].items, i, j);
      Ok(section[key := ListVal(l)])
  }

  /** append applied to the list stored under key; the entry must be a list. */
  function AppendField(section: map<string, Value>, key: string, i: int, b: Value): (r: Result<map<string, Value>>)
    ensures r.Ok? ==>
      && key in section && section[key].ListVal? && Appended(section[key].items, i, b).Ok?
      && r.value == section[key := ListVal(Appended(section[key].items, i, b).value)]
  {
    if key !in section then Err(KeyNotFound(key))
    else if !section[key].ListVal? then Err(WrongType)
    else
      var l :- Appended(section[key].items, i, b);
      Ok(section[key := ListVal(l)])
  }

  /** addnest: max_dom grows by one, the new nest takes position i = the
      old max_dom; start_date, end_date and geog_data_res copy the parent's
      entry to it and the six geogrid lists get the nest's values there. */
  function AddedNest(s: Sections, parentId: int, ratio: int, iStart: int, jStart: int,
                     eWe: int, eSn: int): Result<Sections>
  {
    var sh :- NestShare(s.share, parentId);
    var gg :- NestGeogrid(s.geogrid, s.share["max_dom"].i, parentId, ratio, iStart, jStart, eWe, eSn);
    Ok(Sections(sh, gg))
  }

  /** The share half of addnest. */
  function NestShare(share: map<string, Value>, parentId: int): (r: Result<map<string, Value>>)
    ensures r.Ok? ==> "max_dom" in share && share["max_dom"].IntVal?
  {
    if "max_dom" !in share then Err(KeyNotFound("max_dom"))
    else if !share["max_dom"].IntVal? then Err(WrongType)
    else
      var i := share["max_dom"].i;
      var sh0 := share["max_dom" := IntVal(i + 1)];
      var sh1 :- CopyField(sh0, "start_date", parentId - 1, i);
      CopyField(sh1, "end_date", parentId - 1, i)
  }

  /** The geogrid half of addnest, for the new position i. */
  function NestGeogrid(geogrid: map<string, Value>, i: int, parentId: int, ratio: int, iStart: int,
                       jStart: int, eWe: int, eSn: int): Result<map<string, Value>>
  {
    var gg1 :- AppendField(geogrid, "parent_id", i, IntVal(parentId));
    var gg2 :- AppendField(gg1, "parent_grid_ratio", i, IntVal(ratio));
    var gg3 :- AppendField(gg2, "i_parent_start", i, IntVal(iStart));
    var gg4 :- AppendField(gg3, "j_parent_start", i, IntVal(jStart));
    var gg5 :- AppendField(gg4, "e_we", i, IntVal(eWe));
    var gg6 :- AppendField(gg5, "e_sn", i, IntVal(eSn));
    CopyField(gg6, "geog_data_res", parentId - 1, i)
  }

  /** append at the position just past the end adds one element. */
  lemma AppendedAtEnd(a: seq<Value>, b: Value)
    ensures Appended(a, |a|, b) == Ok(a + [b])
  {
    assert seq(1, _ => b) == [b];
  }

  /** copy to the position just past the end adds a copy of element i. */
  lemma CopiedAtEnd(a: seq<Value>, i: nat)
    requires i < |a|
    ensures Copied(a, i, |a|) == Ok(a + [a[i]])
  {
    var p := Padded(a, |a|);
    assert p == a + [IntVal(0)];
    assert p[|a| := p[i]] == a + [a[i]];
  }

  /** With one entry per domain and the parent among the domains, the share
      half of addnest raises nothing, counts the new domain and gives it the
      parent's dates, at the end of each list. */
  lemma NestShareAppends(share: map<string, Value>, n: int, parentId: int)
    requires ShareCovers(share, n) && 1 <= parentId <= n
    ensures NestShare(share, parentId).Ok?
    ensures var t := NestShare(share, parentId).value;
      && ShareCovers(t, n + 1)
      && t.Keys == share.Keys
      && t["start_date"] == Pushed(share, "start_date", share["start_date"].items[parentId - 1])
      && t["end_date"] == Pushed(share, "end_date", share["end_date"].items[parentId - 1])
      && forall k :: k in share && k != "max_dom" && k !in ShareListKeys ==> t[k] == share[k]
  {
    CopiedAtEnd(share["start_date"].items, parentId - 1);
    CopiedAtEnd(share["end_date"].items, parentId - 1);
  }

  /** With one entry per domain and the parent among the domains, the
      geogrid half of addnest raises nothing, gives the new domain n the
      nest's values and the parent's geog_data_res, at the end of each list. */
  lemma NestGeogridAppends(geogrid: map<string, Value>, n: nat, parentId: int, ratio: int,
                           iStart: int, jStart: int, eWe: int, eSn: int)
    requires GeogridCovers(geogrid, n) && 1 <= parentId <= n
    ensures NestGeogrid(geogrid, n, parentId, ratio, iStart, jStart, eWe, eSn).Ok?
    ensures var t := NestGeogrid(geogrid, n, parentId, ratio, iStart, jStart, eWe, eSn).value;
      && GeogridCovers(t, n + 1)
      && NestPushedOnto(geogrid, t, parentId, ratio, iStart, jStart, eWe, eSn)
      && OthersKept(geogrid, t)
  {
    NestGeogridPushes(geogrid, n, parentId, ratio, iStart, jStart, eWe, eSn);
    NestPushedShape(geogrid, parentId, ratio, iStart, jStart, eWe, eSn);
    NestPushedKeepsOthers(geogrid, parentId, ratio, iStart, jStart, eWe, eSn);
    var t := NestPushed(geogrid, parentId, ratio, iStart, jStart, eWe, eSn);
    NestPushedCovers(geogrid, t, n, parentId, ratio, iStart, jStart, eWe, eSn);
  }

  lemma NestGeogridPushes(geogrid: map<string, Value>, n: nat, parentId: int, ratio: int,
                          iStart: int, jStart: int, eWe: int, eSn: int)
    requires GeogridCovers(geogrid, n) && 1 <= parentId <= n
    ensures NestGeogrid(geogrid, n, parentId, ratio, iStart, jStart, eWe, eSn)
            == Ok(NestPushed(geogrid, parentId, ratio, iStart, jStart, eWe, eSn))
  {
    var gg1 := PushField(geogrid, "parent_id", IntVal(parentId));
    assert gg1["parent_grid_ratio"] == geogrid["parent_grid_ratio"];
    var gg2 := PushField(gg1, "parent_grid_ratio", IntVal(ratio));
    assert gg2["i_parent_start"] == geogrid["i_parent_start"];
    var gg3 := PushField(gg2, "i_parent_start", IntVal(iStart));
    assert gg3["j_parent_start"] == geogrid["j_parent_start"];
    var gg4 := PushField(gg3, "j_parent_start", IntVal(jStart));
    assert gg4["e_we"] == geogrid["e_we"];
    var gg5 := PushField(gg4, "e_we", IntVal(eWe));
    assert gg5["e_sn"] == geogrid["e_sn"];
    var gg6 := PushField(gg5, "e_sn", IntVal(eSn));
    assert gg6["geog_data_res"] == geogrid["geog_data_res"];
    var gg7 := CopyFieldAtEnd(gg6, "geog_data_res", parentId - 1);
    assert gg7 == NestPushed(geogrid, parentId, ratio, iStart, jStart, eWe, eSn);
  }

  /** append on the list under key at the position just past its end. */
  lemma PushField(section: map<string, Value>, key: string, v: Value) returns (t: map<string, Value>)
    requires key in section && section[key].ListVal?
    ensures t == section[key := Pushed(section, key, v)]
    ensures AppendField(section, key, |section[key].items|, v) == Ok(t)
  {
    AppendedAtEnd(section[key].items, v);
    t := section[key := Pushed(section, key, v)];
  }

  /** copy of element i of the list under key to the position just past its end. */
  lemma CopyFieldAtEnd(section: map<string, Value>, key: string, i: nat) returns (t: map<string, Value>)
    requires key in section && section[key].ListVal? && i < |section[key].items|
    ensures t == section[key := Pushed(section, key, section[key].items[i])]
    ensures CopyField(section, key, i, |section[key].items|) == Ok(t)
  {
    CopiedAtEnd(section[key].items, i);
    t := section[key := Pushed(section, key, section[key].items[i])];
  }

  /** addnest on a namelist whose nine lists hold one entry per domain, for
      a parent among the domains: it raises nothing, and every list again
      holds one entry per domain, now max_dom + 1 of them. */
  lemma AddedNestAppends(s: Sections, n: nat, parentId: int, ratio: int, iStart: int, jStart: int,
                         eWe: int, eSn: int)
    requires ShareCovers(s.share, n) && GeogridCovers(s.geogrid, n) && 1 <= parentId <= n
    ensures AddedNest(s, parentId, ratio, iStart, jStart, eWe, eSn).Ok?
    ensures var t := AddedNest(s, parentId, ratio, iStart, jStart, eWe, eSn).value;
      && ShareCovers(t.share, n + 1) && GeogridCovers(t.geogrid, n + 1)
      && t.share == NestShare(s.share, parentId).value
      && NestPushedOnto(s.geogrid, t.geogrid, parentId, ratio, iStart, jStart, eWe, eSn)
  {
    NestShareAppends(s.share, n, parentId);
    NestGeogridAppends(s.geogrid, n, parentId, ratio, iStart, jStart, eWe, eSn);
  }

  /** An integer list of n entries reads as its integers, needed or not; with
      an integer pushed on, it reads as one more entry when needed for n + 1
      domains. */
  lemma ListReadPushed(section: map<string, Value>, after: map<string, Value>, key: string, n: nat, v: int)
    requires ListOfLength(section, key, n) && IntList(section, key)
    requires key in after && after[key] == Pushed(section, key, IntVal(v))
    ensures ListRead(section, key, n >= 1, n) == Ok(IntsOf(section[key].items).value)
    ensures ListRead(section, key, n >= 2, n) == Ok(IntsOf(section[key].items).value)
    ensures ListRead(after, key, true, n + 1) == Ok(IntsOf(section[key].items).value + [v])
  {
    var a := section[key].items;
    var b := a + [IntVal(v)];
    assert b[..|b| - 1] == a;
  }

  /** The grid parsenl reads after addnest is the one before with the nest
      appended as the last domain. */
  lemma ReadGridAfterNest(s: Sections, n: nat, g: Grid, parentId: int, ratio: int, pl: Placement)
    requires ShareCovers(s.share, n) && GeogridCovers(s.geogrid, n) && NestListsInts(s.geogrid)
    requires 1 <= parentId <= n
    requires ReadGrid(s.share, s.geogrid) == Ok(g)
    ensures AddedNest(s, parentId, ratio, pl.iStart, pl.jStart, pl.eWe, pl.eSn).Ok?
    ensures var t := AddedNest(s, parentId, ratio, pl.iStart, pl.jStart, pl.eWe, pl.eSn).value;
      ReadGrid(t.share, t.geogrid) == Ok(WithNest(g, parentId, ratio, pl))
  {
    AddedNestAppends(s, n, parentId, ratio, pl.iStart, pl.jStart, pl.eWe, pl.eSn);
    var t := AddedNest(s, parentId, ratio, pl.iStart, pl.jStart, pl.eWe, pl.eSn).value;
    GridAfterNest(s.share, t.share, s.geogrid, t.geogrid, n, g, parentId, ratio, pl);
  }

  /** The grid read from geogrid' with the nest's values pushed onto the
      lists of geogrid, and max_dom raised to n + 1. */
  lemma GridAfterNest(share: map<string, Value>, share': map<string, Value>, gg: map<string, Value>,
                      gg': map<string, Value>, n: nat, g: Grid, parentId: int, ratio: int, pl: Placement)
    requires GeogridCovers(gg, n) && NestListsInts(gg) && 1 <= n
    requires "max_dom" in share && share["max_dom"] == IntVal(n)
    requires ReadGrid(share, gg) == Ok(g)
    requires "max_dom" in share' && share'["max_dom"] == IntVal(n + 1)
    requires ValidPyIndex(n, parentId - 1)
    requires NestPushedOnto(gg, gg', parentId, ratio, pl.iStart, pl.jStart, pl.eWe, pl.eSn)
    ensures ReadGrid(share', gg') == Ok(WithNest(g, parentId, ratio, pl))
  {
    ReadGridFields(share, gg);
    assert g.maxDom == n;
    assert Number(gg, "dx").Ok? && Number(gg, "dy").Ok?;
    assert "dx" in gg && "dy" in gg;
    FieldsAfterNest(share', gg, gg', n, g, parentId, ratio, pl);
  }

  lemma FieldsAfterNest(share': map<string, Value>, gg: map<string, Value>, gg': map<string, Value>, n: nat,
                        g: Grid, parentId: int, ratio: int, pl: Placement)
    requires GeogridCovers(gg, n) && NestListsInts(gg) && 1 <= n
    requires "max_dom" in share' && share'["max_dom"] == IntVal(n + 1)
    requires gg'.Keys == gg.Keys
    requires && gg'["parent_id"] == Pushed(gg, "parent_id", IntVal(parentId))
             && gg'["parent_grid_ratio"] == Pushed(gg, "parent_grid_ratio", IntVal(ratio))
             && gg'["i_parent_start"] == Pushed(gg, "i_parent_start", IntVal(pl.iStart))
             && gg'["j_parent_start"] == Pushed(gg, "j_parent_start", IntVal(pl.jStart))
             && gg'["e_we"] == Pushed(gg, "e_we", IntVal(pl.eWe))
             && gg'["e_sn"] == Pushed(gg, "e_sn", IntVal(pl.eSn))
    requires "map_proj" in gg && gg'["map_proj"] == gg["map_proj"] == StrVal("lambert")
    requires "dx" in gg && "dy" in gg && gg'["dx"] == gg["dx"] && gg'["dy"] == gg["dy"]
    requires FirstMissing(gg, ProjectionKeys).None?
    requires && g.maxDom == n
             && Ok(g.dx) == NumberRead(gg, "dx", true) && Ok(g.dy) == NumberRead(gg, "dy", true)
             && Ok(g.eWe) == ListRead(gg, "e_we", n >= 1, n)
             && Ok(g.eSn) == ListRead(gg, "e_sn", n >= 1, n)
             && Ok(g.parentId) == ListRead(gg, "parent_id", n >= 2, n)
             && Ok(g.ratio) == ListRead(gg, "parent_grid_ratio", n >= 2, n)
             && Ok(g.iStart) == ListRead(gg, "i_parent_start", n >= 2, n)
             && Ok(g.jStart) == ListRead(gg, "j_parent_start", n >= 2, n)
    ensures ReadGrid(share', gg') == Ok(WithNest(g, parentId, ratio, pl))
  {
    ListReadPushed(gg, gg', "parent_id", n, parentId);
    ListReadPushed(gg, gg', "parent_grid_ratio", n, ratio);
    ListReadPushed(gg, gg', "i_parent_start", n, pl.iStart);
    ListReadPushed(gg, gg', "j_parent_start", n, pl.jStart);
    ListReadPushed(gg, gg', "e_we", n, pl.eWe);
    ListReadPushed(gg, gg', "e_sn", n, pl.eSn);
    FirstMissingByKeys(gg', gg, ProjectionKeys);
    ReadGridOfFields(share', gg', WithNest(g, parentId, ratio, pl));
  }

  /** The grid read from a namelist whose lists hold one integer per domain
      has exactly max_dom entries in each list. */
  lemma ReadGridConsistent(s: Sections, n: nat, g: Grid)
    requires ShareCovers(s.share, n) && GeogridCovers(s.geogrid, n) && NestListsInts(s.geogrid)
    requires ReadGrid(s.share, s.geogrid) == Ok(g)
    ensures g.maxDom == n && Consistent(g)
  {
    ReadGridFields(s.share, s.geogrid);
  }

  /** On a namelist with one integer per domain in each list, a well-formed
      grid with nonzero spacing and a parent among the domains, both nest
      commands place the nest in the parent's extent as computed by the
      extent loop. */
  lemma PlacementFromParent(s: Sections, n: nat, g: Grid, parentId: int, ratio: int, box: Box)
    requires ShareCovers(s.share, n) && GeogridCovers(s.geogrid, n) && NestListsInts(s.geogrid)
    requires ReadGrid(s.share, s.geogrid) == Ok(g) && WellFormed(g)
    requires 1 <= parentId <= n && g.dx != 0.0 && g.dy != 0.0
    ensures DomainExtent(g, parentId - 1).dx != 0.0 && DomainExtent(g, parentId - 1).dy != 0.0
    ensures NestPlacement(s.share, s.geogrid, parentId, ratio, box)
            == Ok(PlaceNest(DomainExtent(g, parentId - 1), ratio, box))
  {
    ReadGridConsistent(s, n, g);
    SpacingNonzero(g, parentId - 1);
  }

  /** The end-to-end promise of the nest commands: on a well-formed
      namelist the nest goes where the parent's extent puts it, addnest
      succeeds, and parsenl then reads the grid with that nest appended as
      the last domain; PlacedNestNearBox then says its edges lie within half
      a parent cell of the requested box, and ExtentsKeptByNest that every
      existing domain keeps its extent. */
  lemma NestCommandPlacesNest(s: Sections, n: nat, g: Grid, parentId: int, ratio: int, box: Box)
    requires ShareCovers(s.share, n) && GeogridCovers(s.geogrid, n) && NestListsInts(s.geogrid)
    requires ReadGrid(s.share, s.geogrid) == Ok(g) && WellFormed(g)
    requires 1 <= parentId <= n && g.dx != 0.0 && g.dy != 0.0
    ensures Consistent(g) && g.maxDom == n
    ensures var pe := DomainExtent(g, parentId - 1);
      pe.dx != 0.0 && pe.dy != 0.0 &&
      var pl := PlaceNest(pe, ratio, box);
      && NestPlacement(s.share, s.geogrid, parentId, ratio, box) == Ok(pl)
      && AddedNest(s, parentId, ratio, pl.iStart, pl.jStart, pl.eWe, pl.eSn).Ok?
      && var t := AddedNest(s, parentId, ratio, pl.iStart, pl.jStart, pl.eWe, pl.eSn).value;
      ReadGrid(t.share, t.geogrid) == Ok(WithNest(g, parentId, ratio, pl))
  {
    PlacementFromParent(s, n, g, parentId, ratio, box);
    ReadGridConsistent(s, n, g);
    var pl := PlaceNest(DomainExtent(g, parentId - 1), ratio, box);
    ReadGridAfterNest(s, n, g, parentId, ratio, pl);
  }

  /** fixshare on the sections. */
  function FixedShare(s: Sections): Result<Sections>
  {
    var sh :- Normalized(s.share, ShareListKeys);
    Ok(Sections(sh, s.geogrid))
  }

  /** fixgeogrid on the sections. */
  function FixedGeogrid(s: Sections): Result<Sections>
  {
    var gg :- Normalized(s.geogrid, GeogridListKeys);
    Ok(Sections(s.share, gg))
  }

  /** add_centered_nest: a nest of sizex by sizey kilometres centred on the
      projected point (x, y). */
  function CenteredNestAdded(s: Sections, parentId: int, ratio: int, x: real, y: real,
                             sizex: real, sizey: real): Result<Sections>
    requires ReadGrid(s.share, s.geogrid).Ok? ==> ParentsPrecede(ReadGrid(s.share, s.geogrid).value)
  {
    var pl :- NestPlacement(s.share, s.geogrid, parentId, ratio, CenteredBox(x, y, sizex, sizey));
    AddedNest(s, parentId, ratio, pl.iStart, pl.jStart, pl.eWe, pl.eSn)
  }

  /** add_rectangular_nest: a nest covering the projected box whose
      north-west corner is (westX, northY) and south-east corner (eastX, southY). */
  function RectangularNestAdded(s: Sections, parentId: int, ratio: int, westX: real, northY: real,
                                eastX: real, southY: real): Result<Sections>
    requires ReadGrid(s.share, s.geogrid).Ok? ==> ParentsPrecede(ReadGrid(s.share, s.geogrid).value)
  {
    var pl :- NestPlacement(s.share, s.geogrid, parentId, ratio, Box(westX, southY, eastX, northY));
    AddedNest(s, parentId, ratio, pl.iStart, pl.jStart, pl.eWe, pl.eSn)
  }

  /** One `if type(section[key]) != type([])` block of fixshare and fixgeogrid. */
  method Listify(section: map<string, Value>, key: string) returns (r: Result<map<string, Value>>)
    ensures r == Normalized(section, [key])
  {
    if key !in section {
      return Err(KeyNotFound(key));
    }
    if !section[key].ListVal? {
      return Ok(section[key := ListVal([section[key]])]);
    }
    assert section[key := section[key]] == section;
    return Ok(section);
  }

  /** Listify on the j-th of keys, after the first j have been normalised
      from s0 into section: either normalising keys[..j + 1] from s0
      succeeds with the result, or normalising all of keys fails with its
      error. */
  method ListifyNext(ghost s0: map<string, Value>, keys: seq<string>, j: nat,
                     section: map<string, Value>) returns (r: Result<map<string, Value>>)
    requires j < |keys| && Normalized(s0, keys[..j]) == Ok(section)
    ensures r.Ok? ==> Normalized(s0, keys[..j + 1]) == r
    ensures r.Err? ==> Normalized(s0, keys) == r
  {
    r := Listify(section, keys[j]);
    NormalizedChain(s0, keys, j, section);
  }

  lemma NormalizedChain(s0: map<string, Value>, keys: seq<string>, j: nat, section: map<string, Value>)
    requires j < |keys| && Normalized(s0, keys[..j]) == Ok(section)
    ensures Normalized(section, [keys[j]]).Ok? ==> Normalized(s0, keys[..j + 1]) == Normalized(section, [keys[j]])
    ensures Normalized(section, [keys[j]]).Err? ==> Normalized(s0, keys) == Normalized(section, [keys[j]])
  {
    assert keys[..j + 1] == keys[..j] + [keys[j]];
    assert keys == keys[..j] + [keys[j]] + keys[j + 1..];
    NormalizedSplit(s0, keys[..j], [keys[j]]);
    NormalizedSplit(s0, keys[..j] + [keys[j]], keys[j + 1..]);
  }

  /** Normalising a + b is normalising a, then b. */
  lemma {:induction false} NormalizedSplit(s: map<string, Value>, a: seq<string>, b: seq<string>)
    ensures Normalized(s, a + b) ==
      match Normalized(s, a)
      case Err(e) => Err(e)
      case Ok(t) => Normalized(t, b)
    decreases |a|
  {
    if a != [] {
      assert (a + b)[0] == a[0] && (a + b)[1..] == a[1..] + b;
      if a[0] in s {
        NormalizedSplit(s[a[0] := AsList(s[a[0]])], a[1..], b);
      }
    } else {
      assert a + b == b;
    }
  }

  /** The list under key passed through copy and stored back. */
  method CopyInto(section: map<string, Value>, key: string, i: int, j: int) returns (r: Result<map<string, Value>>)
    ensures r == CopyField(section, key, i, j)
  {
    if key !in section {
      return Err(KeyNotFound(key));
    }
    if !section[key].ListVal? {
      return Err(WrongType);
    }
    var l :- Copy(section[key].items, i, j);
    return Ok(section[key := ListVal(l)]);
  }

  /** The list under key passed through append and stored back. */
  method AppendInto(section: map<string, Value>, key: string, i: int, b: Value) returns (r: Result<map<string, Value>>)
    ensures r == AppendField(section, key, i, b)
  {
    if key !in section {
      return Err(KeyNotFound(key));
    }
    if !section[key].ListVal? {
      return Err(WrongType);
    }
    var l :- Append(section[key].items, i, b);
    return Ok(section[key := ListVal(l)]);
  }

  /** Lines 154-158 of addnest: increment max_dom, copy the parent's dates. */
  method AddToShare(share: map<string, Value>, parentId: int) returns (r: Result<map<string, Value>>)
    ensures r == NestShare(share, parentId)
    ensures r.Ok? ==> "max_dom" in r.value && r.value["max_dom"] == IntVal(share["max_dom"].i + 1)
  {
    var sh := share;
    if "max_dom" !in sh {
      return Err(KeyNotFound("max_dom"));
    }
    if !sh["max_dom"].IntVal? {
      return Err(WrongType);
    }
    sh := sh["max_dom" := IntVal(sh["max_dom"].i + 1)];
    var i := sh["max_dom"].i - 1;
    sh :- CopyInto(sh, "start_date", parentId - 1, i);
    sh :- CopyInto(sh, "end_date", parentId - 1, i);
    return Ok(sh);
  }

  /** Lines 160-166 of addnest: the nest's values and the parent's
      geog_data_res at position i. */
  method AddToGeogrid(geogrid: map<string, Value>, i: int, parentId: int, ratio: int, iStart: int,
                      jStart: int, eWe: int, eSn: int) returns (r: Result<map<string, Value>>)
    ensures r == NestGeogrid(geogrid, i, parentId, ratio, iStart, jStart, eWe, eSn)
  {
    var gg := geogrid;
    gg :- AppendInto(gg, "parent_id", i, IntVal(parentId));
    gg :- AppendInto(gg, "parent_grid_ratio", i, IntVal(ratio));
    gg :- AppendInto(gg, "i_parent_start", i, IntVal(iStart));
    gg :- AppendInto(gg, "j_parent_start", i, IntVal(jStart));
    gg :- AppendInto(gg, "e_we", i, IntVal(eWe));
    gg :- AppendInto(gg, "e_sn", i, IntVal(eSn));
    gg :- CopyInto(gg, "geog_data_res", parentId - 1, i);
    return Ok(gg);
  }

  /** The body of fixgeogrid: the seven per-domain variables of geogrid, in
      order, each wrapped in a list when it is not one. */
  method ListifyGeogrid(geogrid: map<string, Value>, keys: seq<string>) returns (r: Result<map<string, Value>>)
    requires |keys| == 7
    ensures r == Normalized(geogrid, keys)
  {
    var gg := geogrid;
    gg :- ListifyNext(geogrid, keys, 0, gg);
    gg :- ListifyNext(geogrid, keys, 1, gg);
    gg :- ListifyNext(geogrid, keys, 2, gg);
    gg :- ListifyNext(geogrid, keys, 3, gg);
    gg :- ListifyNext(geogrid, keys, 4, gg);
    gg :- ListifyNext(geogrid, keys, 5, gg);
    gg :- ListifyNext(geogrid, keys, 6, gg);
    assert keys[..7] == keys;
    return Ok(gg);
  }

  /** The namelist the forecast nesting tool edits in place. */
  class Namelist {
    var share: map<string, Value>
    var geogrid: map<string, Value>

    constructor(share: map<string, Value>, geogrid: map<string, Value>)
      ensures this.share == share && this.geogrid == geogrid
    {
      this.share := share;
      this.geogrid := geogrid;
    }

    function Current(): Sections
      reads this
    {
      Sections(share, geogrid)
    }

    method FixShare() returns (r: Result<()>)
      modifies this
      ensures Reflects(old(Current()), FixedShare(old(Current())), r, Current())
    {
      var sh := share;
      sh :- ListifyNext(share, ShareListKeys, 0, sh);
      sh :- ListifyNext(share, ShareListKeys, 1, sh);
      assert ShareListKeys[..2] == ShareListKeys;
      share := sh;
      return Ok(());
    }

    method FixGeogrid() returns (r: Result<()>)
      modifies this
      ensures Reflects(old(Current()), FixedGeogrid(old(Current())), r, Current())
    {
      var gg :- ListifyGeogrid(geogrid, GeogridListKeys);
      geogrid := gg;
      return Ok(());
    }

    method AddNest(parentId: int, ratio: int, iStart: int, jStart: int, eWe: int, eSn: int)
        returns (r: Result<()>)
      modifies this
      ensures Reflects(old(Current()), AddedNest(old(Current()), parentId, ratio, iStart, jStart, eWe, eSn),
                       r, Current())
    {
      ghost var s0 := Current();
      var sh :- AddToShare(share, parentId);
      var i := sh["max_dom"].i - 1;
      assert i == s0.share["max_dom"].i;
      var gg :- AddToGeogrid(geogrid, i, parentId, ratio, iStart, jStart, eWe, eSn);
      assert AddedNest(s0, parentId, ratio, iStart, jStart, eWe, eSn) == Ok(Sections(sh, gg));
      share, geogrid := sh, gg;
      return Ok(());
    }

    /** add_centered_nest, with the centre already projected to (x, y). */
    method AddCenteredNest(parentId: int, ratio: int, x: real, y: real, sizex: real, sizey: real)
        returns (r: Result<()>)
      requires ReadGrid(share, geogrid).Ok? ==> ParentsPrecede(ReadGrid(share, geogrid).value)
      modifies this
      ensures Reflects(old(Current()), CenteredNestAdded(old(Current()), parentId, ratio, x, y, sizex, sizey),
                       r, Current())
    {
      var pl :- PlaceInParent(share, geogrid, parentId, ratio, CenteredBox(x, y, sizex, sizey));
      r := AddNest(parentId, ratio, pl.iStart, pl.jStart, pl.eWe, pl.eSn);
    }

    /** add_rectangular_nest, with the corners already projected: (westX,
        northY) north-west and (eastX, southY) south-east. */
    method AddRectangularNest(parentId: int, ratio: int, westX: real, northY: real, eastX: real, southY: real)
        returns (r: Result<()>)
      requires ReadGrid(share, geogrid).Ok? ==> ParentsPrecede(ReadGrid(share, geogrid).value)
      modifies this
      ensures Reflects(old(Current()), RectangularNestAdded(old(Current()), parentId, ratio, westX, northY, eastX, southY),
                       r, Current())
    {
      var pl :- PlaceInParent(share, geogrid, parentId, ratio, Box(westX, southY, eastX, northY));
      r := AddNest(parentId, ratio, pl.iStart, pl.jStart, pl.eWe, pl.eSn);
    }
  }
}

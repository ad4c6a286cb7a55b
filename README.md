# WRF nested-grid and namelist tools, modelled in Dafny

This project models the command-line tools of the wrf-wur weather-forecast
workflow that edit a WRF namelist (the Fortran namelist read by the WRF
pre-processing system). It covers two tools, each in two variants: a
forecast variant under `tools/forecast/` and a plain one under `tools/`.

- **The nesting tool** (`nestwrf.py`). It does four things:
  - reads the grid description from the `share` and `geogrid` sections;
  - computes the projected extent of every domain (`parsenl`);
  - snaps a requested centred or rectangular box to the parent's grid and
    sizes the child by WRF's nesting rule, `(end - start) * ratio + 1`
    grid points;
  - inserts the new nest into the per-domain lists of the namelist.

  The forecast variant first wraps scalar entries in lists (`fixshare`,
  `fixgeogrid`). It then inserts the nest at position `max_dom` with the
  padding helpers `append` and `copy`. The plain variant uses
  `list.append`.
- **The namelist tool** (`namelist.py`). `--get key` walks a
  colon-separated key through the nested namelist. `--set key value`
  converts the text to the type of the variable it replaces and assigns it.
  The forecast variant also does three things the plain one does not:
  - indexes a list by number in `--get`;
  - drops trailing empty pieces of a comma list;
  - parses `.true.` and `.false.` for logicals.

The modules follow the program:

- `values.dfy` (`Values`): namelist values as f90nml hands them over
  (integer, real, string, logical, complex, null, list, group), the exceptions the tools
  raise, and Python's list indexing.
- `geometry.dfy` (`Geometry`):
  - the extent loop, as a specification (`DomainExtent`) and as a loop
    over six lists (`ParseExtents`);
  - Python 2 `round`;
  - corner-to-index snapping and the nesting rule;
  - the parent-end arithmetic of `printgrids`.
- `grid_input.dfy` (`GridInput`): reading the grid out of the two
  sections, and the parent lookup both nest commands share.
- `forecast_nest.dfy` (`ForecastNest`): `fixshare`, `fixgeogrid`,
  `append`, `copy`, `addnest`, and the two nest commands. Each is a
  specification function, a method with the loops of the source, and a
  class `Namelist` whose methods update its two sections in place.
- `plain_nest.dfy` (`PlainNest`): `appendnest` and its nest commands, with
  lemmas comparing the two variants.
- `namelist_access.dfy` (`NamelistAccess`): the parts both namelist tools
  share:
  - `str.split`, Python 2 `int()` on text and list conversion;
  - the path walk, as a `while` loop (`Walk`);
  - assignment through the walk, with its lemmas proved once for any
    conversion.
- `forecast_namelist.dfy` (`ForecastNamelist`) and `plain_namelist.dfy`
  (`PlainNamelist`): the two `main` functions, as `--get`/`--set`
  specifications and a class `NamelistFile`.

An exception is a `Result` error. When a tool raises, the namelist is
never written, so every state-changing method promises that the
namelist is unchanged on error.

The model follows the code where the documented design of the system says
otherwise:

- An unsupported map projection fails with Python's `AssertionError`
  (`AssertionFailed`), not with a dedicated error.
- An out-of-range `parent_id` is not checked before the update. Inside
  the nest commands, indexing the parent's extent raises `IndexError`
  when `parent_id - 1` is not a valid Python index. `parent_id` 0 is
  accepted and names the last domain.
- The forecast `addnest` pads and overwrites by position rather than
  appending. The model keeps that behaviour and proves that it agrees
  with plain appending whenever the lists hold one entry per domain.
- For a 41 x 41 root at 500 m and a 4 km nest at ratio 5 centred on the
  origin, the code starts the nest at parent index 17 and ends it at 25,
  so the centre is 21 and the nest has 41 x 41 points
  (`Geometry.CenteredScenario`).

## Model

| member | source | states |
|---|---|---|
| Geometry.ParseExtents | tools/forecast/nestwrf.py:52-91 | the extent loop succeeds exactly when no nest ratio is zero, and raises ZeroDivisionError otherwise; each of the six lists has max_dom entries, and entry d is the extent of domain d from the recursive definition (the loop in tools/nestwrf.py, lines 24-63, is the same code) |
| Geometry.RootCentered | tools/forecast/nestwrf.py:73-79 | the root is symmetric about the projection origin (west = -east, south = -north); it spans dx*(e_we-1) by dy*(e_sn-1) and has the configured spacing |
| Geometry.NestFromParent | tools/forecast/nestwrf.py:81-89 | a nest's spacing times its ratio is its parent's spacing; its south-west corner lies on parent grid point (i_parent_start, j_parent_start); it spans e_we-1 by e_sn-1 of its own cells |
| Geometry.SpacingAlongChain | tools/forecast/nestwrf.py:85-86 | the spacing of any domain is the root spacing divided by the product of the ratios along its chain of parents (for a chain 1-2-3, dx[2] = dx[0]/(ratio[1]*ratio[2])) |
| Geometry.SpacingNonzero | tools/forecast/nestwrf.py:85-86 | with a nonzero root spacing and nonzero ratios, no domain has zero spacing, so the corner divisions cannot divide by zero |
| Geometry.ExtentsKeptByNest | tools/forecast/nestwrf.py:80-89 | appending a nest leaves the computed extent of every existing domain unchanged |
| Geometry.WithNestWellFormed | tools/forecast/nestwrf.py:151-166 | a grid with one entry per domain, extended by a nest whose parent is an existing domain and whose ratio is nonzero, is again well formed with one entry per domain |
| Geometry.PyRound | tools/forecast/nestwrf.py:188-191 | Python 2 round: the result is within one half of x, and a tie rounds away from zero |
| Geometry.PyRoundOfInteger | tools/forecast/nestwrf.py:188-191 | rounding an integer gives it back |
| Geometry.PyRoundOdd | tools/forecast/nestwrf.py:188-191 | rounding commutes with negation |
| Geometry.GridIndexOfGridPoint | tools/forecast/nestwrf.py:188-191 | a coordinate lying exactly on parent grid point k gets the 1-based index k (the same snapping as tools/nestwrf.py, lines 136-139) |
| Geometry.GridIndexNearest | tools/forecast/nestwrf.py:214-217 | the grid point chosen for any coordinate lies at most half a parent cell from it |
| Geometry.NestEdgeOnParentGrid | tools/forecast/nestwrf.py:194-195 | along one axis, (end-start)*ratio+1 child points starting at parent point start end exactly on parent point end |
| Geometry.NestOnParentGrid | tools/forecast/nestwrf.py:188-195 | after the nest is appended, the extent loop puts all four of its edges on parent grid lines, at the snapped indices |
| Geometry.NestExtentRoundTrip | tools/forecast/nestwrf.py:103-104 | for a nest sized by the nesting rule, e_we-1 is a multiple of the ratio, and the parent end index that printgrids computes is the end index it was sized from (the sizing of tools/nestwrf.py, lines 142-143, is the same) |
| Geometry.FloorDiv | tools/forecast/nestwrf.py:103-104 | Python 2 integer division rounds toward minus infinity, for either sign of the divisor |
| Geometry.CenteredBox | tools/forecast/nestwrf.py:179-183 | the box is centred on the projected point and is sizex by sizey kilometres |
| Geometry.PlacedNestNearBox | tools/forecast/nestwrf.py:170-199 | a nest placed from a requested box has each edge within half a parent cell of the box edge |
| Geometry.CenteredScenario | tools/forecast/nestwrf.py:188-195 | concrete case: a 4 km nest at ratio 5, centred in a 41 x 41 root at 500 m, starts at parent point 17, ends at 25, and has 41 x 41 points |
| GridInput.IntListField | tools/forecast/nestwrf.py:76-89 | a per-domain list reads exactly the integers stored under the key, and reads without error whenever the key holds a list of integers |
| GridInput.Number | tools/forecast/nestwrf.py:74-75 | dx and dy read as numbers exactly when present as an integer or a real |
| GridInput.ReadGrid | tools/forecast/nestwrf.py:52-89 | a grid read without an exception has every list long enough for the loop |
| GridInput.ReadGridFields | tools/forecast/nestwrf.py:52-79 | a successfully read grid consists of the values stored in the namelist: max_dom (negative counts as none), a Lambert projection with its parameters, the spacings, and each list the domain count calls for |
| GridInput.ReadGridOfFields | tools/forecast/nestwrf.py:52-89 | conversely, a namelist of two or more domains with readable, long enough entries reads as the grid made of those entries |
| GridInput.PlaceInParent | tools/forecast/nestwrf.py:174-191 | the statements shared by the nest commands compute NestPlacement: parse the extents, index the parent the Python way, and snap the box to the parent's grid, with IndexError, ZeroDivisionError and read errors as the error path |
| GridInput.NestPushedShape | tools/nestwrf.py:108-115 | each of the seven geogrid lists gains the nest's value at its end (geog_data_res gets the parent's entry), and the section keeps the same keys |
| GridInput.NestPushedKeepsOthers | tools/nestwrf.py:108-115 | no geogrid entry other than the seven lists changes |
| GridInput.NestPushedCovers | tools/nestwrf.py:108-115 | lists of one entry per domain become lists of one entry per domain for one more domain |
| ForecastNest.AsList | tools/forecast/nestwrf.py:20-21 | a list is kept; any other value becomes the one-element list of it |
| ForecastNest.NormalizedShape | tools/forecast/nestwrf.py:18-43 | normalising fails exactly when a named key is missing, with KeyError on the first one; otherwise the keys stay the same, each named entry becomes a list, and every other entry is unchanged |
| ForecastNest.NormalizedIdempotent | tools/forecast/nestwrf.py:18-43 | normalising twice is normalising once |
| ForecastNest.NormalizedSplit | tools/forecast/nestwrf.py:27-43 | normalising keys a + b is normalising a, then b |
| ForecastNest.Listify | tools/forecast/nestwrf.py:29-30 | one `if type(...) != type([])` block equals normalising that one key |
| ForecastNest.ListifyNext | tools/forecast/nestwrf.py:29-42 | each block continues the normalisation of the preceding keys, or fails with the error of normalising all of them |
| ForecastNest.ListifyGeogrid | tools/forecast/nestwrf.py:27-43 | the seven blocks of fixgeogrid in order equal normalising the seven keys |
| ForecastNest.Appended | tools/forecast/nestwrf.py:133-141 | append overwrites position i if the list has it, and otherwise pads with b; the result has length max(len, i+1), holds b at i, keeps every other old entry and holds b in every new slot; a negative i works as a Python index and raises IndexError below -len |
| ForecastNest.Append | tools/forecast/nestwrf.py:133-141 | the append helper with its padding loop computes Appended |
| ForecastNest.Padded | tools/forecast/nestwrf.py:145-147 | padding keeps the old entries and adds zeros up to position m |
| ForecastNest.Copied | tools/forecast/nestwrf.py:143-149 | copy pads with zeros to length max(len, max(i, j) + 1), then copies element i of the padded list over element j, both read as Python indices (a negative one counts from the padded end); every other old entry is kept and every other padding entry is zero; it fails exactly when i or j is below the padded length's negative bound |
| ForecastNest.Copy | tools/forecast/nestwrf.py:143-149 | the copy helper with its padding loop computes Copied |
| ForecastNest.CopyField | tools/forecast/nestwrf.py:157-158 | copy on the list stored under a key, stored back; the entry must be a list |
| ForecastNest.AppendField | tools/forecast/nestwrf.py:160-165 | append on the list stored under a key, stored back; the entry must be a list |
| ForecastNest.CopyInto | tools/forecast/nestwrf.py:157-158 | the statement computes CopyField |
| ForecastNest.AppendInto | tools/forecast/nestwrf.py:160-165 | the statement computes AppendField |
| ForecastNest.NestShare | tools/forecast/nestwrf.py:154-158 | the share half succeeds only on an integer max_dom |
| ForecastNest.AddToShare | tools/forecast/nestwrf.py:154-158 | the share statements compute NestShare, and max_dom grows by one |
| ForecastNest.AddToGeogrid | tools/forecast/nestwrf.py:160-166 | the geogrid statements compute NestGeogrid |
| ForecastNest.AppendedAtEnd | tools/forecast/nestwrf.py:133-141 | append at the position just past the end adds exactly one element |
| ForecastNest.CopiedAtEnd | tools/forecast/nestwrf.py:143-149 | copy to the position just past the end adds exactly a copy of element i |
| ForecastNest.NestShareAppends | tools/forecast/nestwrf.py:154-158 | with one date per domain and a parent among the domains, the share half raises nothing, counts one more domain, appends the parent's start and end dates, and changes nothing else |
| ForecastNest.NestGeogridAppends | tools/forecast/nestwrf.py:160-166 | with one entry per domain and a parent among the domains, the geogrid half raises nothing, pushes the nest's values and the parent's geog_data_res onto the seven lists, and changes nothing else |
| ForecastNest.NestGeogridPushes | tools/forecast/nestwrf.py:160-166 | the geogrid half at position max_dom is the push of the nest onto the seven lists |
| ForecastNest.PushField | tools/forecast/nestwrf.py:160-165 | append at the list's end, on the stored list |
| ForecastNest.CopyFieldAtEnd | tools/forecast/nestwrf.py:166 | copy to the list's end, on the stored list |
| ForecastNest.AddedNestAppends | tools/forecast/nestwrf.py:151-166 | addnest on lists of one entry per domain, for a parent among the domains, raises nothing and leaves lists of one entry per domain for max_dom + 1 domains |
| ForecastNest.ListReadPushed | tools/forecast/nestwrf.py:82-89 | an integer list pushed with one more integer reads as the old integers followed by the new one |
| ForecastNest.ReadGridAfterNest | tools/forecast/nestwrf.py:151-166 | the grid parsenl reads after addnest is the grid before, with the nest appended as the last domain |
| ForecastNest.GridAfterNest | tools/forecast/nestwrf.py:151-166 | the same, for any geogrid with the nest pushed onto its lists and max_dom raised by one |
| ForecastNest.FieldsAfterNest | tools/forecast/nestwrf.py:160-165 | the field-by-field step of GridAfterNest |
| ForecastNest.ReadGridConsistent | tools/forecast/nestwrf.py:52-89 | the grid read from lists of one integer per domain has exactly max_dom entries in each list |
| ForecastNest.PlacementFromParent | tools/forecast/nestwrf.py:174-191 | on a well-formed namelist with a parent among the domains, the nest commands place the nest from the parent's extent as the extent loop computes it |
| ForecastNest.NestCommandPlacesNest | tools/forecast/nestwrf.py:170-199 | end to end: the nest is placed from the parent's extent, addnest succeeds, and parsenl then reads the grid with that nest appended as the last domain |
| ForecastNest.Namelist.constructor | tools/forecast/nestwrf.py:244 | the namelist holds the two sections it was read with |
| ForecastNest.Namelist.FixShare | tools/forecast/nestwrf.py:18-24 | fixshare in place: the sections become FixedShare's, or stay unchanged on KeyError |
| ForecastNest.Namelist.FixGeogrid | tools/forecast/nestwrf.py:27-43 | fixgeogrid in place: the sections become FixedGeogrid's, or stay unchanged on KeyError |
| ForecastNest.Namelist.AddNest | tools/forecast/nestwrf.py:126-166 | addnest in place: the sections become AddedNest's, or stay unchanged on an exception |
| ForecastNest.Namelist.AddCenteredNest | tools/forecast/nestwrf.py:170-199 | add_centered_nest in place, from the projected centre |
| ForecastNest.Namelist.AddRectangularNest | tools/forecast/nestwrf.py:201-228 | add_rectangular_nest in place, from the projected corners |
| PlainNest.PushValue | tools/nestwrf.py:109-114 | list.append on a stored list succeeds exactly when the entry is a list; KeyError for a missing key, a type error for any other entry; only that list grows, by the value |
| PlainNest.PushEntry | tools/nestwrf.py:105-106 | appending list[parent_id-1] succeeds exactly when the entry is a list and the index is a valid Python index, and then pushes that element |
| PlainNest.AppendShareShape | tools/nestwrf.py:103-106 | the share lines succeed exactly when max_dom is an integer and both date lists can be indexed at parent_id-1; max_dom then grows by one, each date list gains the parent's date, and nothing else changes |
| PlainNest.AppendGeogridShape | tools/nestwrf.py:108-115 | the geogrid lines succeed exactly when the seven entries are lists and geog_data_res can be indexed at parent_id-1, and then push the nest onto the seven lists |
| PlainNest.AppendedNestShape | tools/nestwrf.py:96-115 | appendnest succeeds exactly when both halves can run, and its result is the two halves' results |
| PlainNest.AppendedNestKeepsCovers | tools/nestwrf.py:96-115 | appendnest keeps every list at one entry per domain, for one more domain |
| PlainNest.AddedNestAgrees | tools/nestwrf.py:96-115 | with one entry per domain and a parent among the domains, the plain appendnest and the forecast addnest give the same sections |
| PlainNest.ShareAgrees | tools/nestwrf.py:103-106 | the share halves of the two variants agree under the same conditions |
| PlainNest.ReadGridAfterAppend | tools/nestwrf.py:96-115 | the grid parsenl reads after appendnest is the grid before, with the nest appended as the last domain |
| PlainNest.ParentZeroDiverges | tools/nestwrf.py:105 | with parent_id 0, appendnest gives the new domain the last domain's date, while the forecast copy gives it the padding 0 |
| PlainNest.PushInto | tools/nestwrf.py:109-114 | the append statement computes PushValue |
| PlainNest.PushEntryInto | tools/nestwrf.py:115 | the statement computes PushEntry |
| PlainNest.AppendToShare | tools/nestwrf.py:103-106 | the share statements compute AppendShare |
| PlainNest.AppendToGeogrid | tools/nestwrf.py:108-115 | the geogrid statements compute AppendGeogrid |
| PlainNest.Namelist.constructor | tools/nestwrf.py:192 | the namelist holds the two sections it was read with |
| PlainNest.Namelist.AppendNest | tools/nestwrf.py:96-115 | appendnest in place: the sections become AppendedNest's, or stay unchanged on an exception |
| PlainNest.Namelist.AddCenteredNest | tools/nestwrf.py:118-147 | add_centered_nest in place, from the projected centre |
| PlainNest.Namelist.AddRectangularNest | tools/nestwrf.py:149-176 | add_rectangular_nest in place, from the projected corners |
| NamelistAccess.Split | tools/forecast/namelist.py:21 | str.split gives at least one piece, and no piece contains the separator |
| NamelistAccess.JoinSplit | tools/forecast/namelist.py:21 | joining the pieces with the separator gives back the string |
| NamelistAccess.SplitJoin | tools/forecast/namelist.py:51 | splitting pieces joined by a separator they do not contain gives back the pieces |
| NamelistAccess.SplitTrailing | tools/forecast/namelist.py:51-53 | a separator at the end of the text adds exactly one empty piece |
| NamelistAccess.Stripped | tools/forecast/namelist.py:42 | the white space int() ignores is removed from both ends |
| NamelistAccess.IntOf | tools/forecast/namelist.py:42 | int(text) succeeds exactly when the text is decimal digits with an optional sign, white space allowed around the whole and between sign and digits; otherwise ValueError on that text |
| NamelistAccess.SpaceAfterSign | tools/forecast/namelist.py:42 | concrete cases: int("- 5") is -5 and int("+\t7") is 7, while "-" and "- " raise ValueError |
| NamelistAccess.ParseFormat | tools/forecast/namelist.py:42 | int() of an integer written in decimal gives back that integer |
| NamelistAccess.IntsOfPieces | tools/forecast/namelist.py:56 | [int(i) for i in l] succeeds exactly when every piece parses, and then holds their values in order |
| NamelistAccess.RealsOfPieces | tools/forecast/namelist.py:58 | [float(i) for i in l] succeeds exactly when every piece parses, and then holds their values in order |
| NamelistAccess.ListFrom | tools/forecast/namelist.py:55-60 | a list converts to a list; for an integer, real or string first element it has one entry per piece |
| NamelistAccess.IntsOfFormatted | tools/forecast/namelist.py:56 | integers written one per piece read back as those integers |
| NamelistAccess.Lookup | tools/forecast/namelist.py:24 | crumb[key] succeeds exactly when crumb is a dictionary holding key, and then gives its entry |
| NamelistAccess.LookupPathSplit | tools/forecast/namelist.py:23-25 | walking a + b is walking a, then b |
| NamelistAccess.Walk | tools/forecast/namelist.py:32-36 | the while/pop loop ends at the lookup of every key component but the last |
| NamelistAccess.UpdateSucceeds | tools/forecast/namelist.py:32-42 | assigning through the walk succeeds exactly when the walk reaches a dictionary |
| NamelistAccess.LookupUpdated | tools/forecast/namelist.py:42 | after the assignment the key reads the assigned value |
| NamelistAccess.LookupUpdateDiverging | tools/forecast/namelist.py:32-67 | the assignment leaves every path that parts from the key unchanged |
| NamelistAccess.UpdateSame | tools/forecast/namelist.py:68-71 | assigning a variable its own value leaves the namelist as it was |
| NamelistAccess.UpdateTwice | tools/forecast/namelist.py:32-67 | a second assignment to the same key overrides the first |
| NamelistAccess.AssignReads | tools/forecast/namelist.py:31-71 | after --set the key reads the conversion of its old value, and the walk still ends in a dictionary |
| NamelistAccess.AssignOthers | tools/forecast/namelist.py:31-71 | --set changes no variable whose key parts from the set one |
| NamelistAccess.AssignIdempotent | tools/forecast/namelist.py:31-71 | when the conversion is idempotent on the variable, --set twice is --set once |
| NamelistAccess.AssignAlike | tools/namelist.py:28-53 | two conversions that agree on the variable assign alike |
| NamelistAccess.AssignUnchanged | tools/forecast/namelist.py:61-71 | a conversion that gives back the old value writes the namelist back unchanged |
| ForecastNamelist.Trimmed | tools/forecast/namelist.py:51-53 | trailing empty pieces are dropped: the result is a nonempty prefix ending in a nonempty piece, and everything dropped was empty; IndexError exactly when every piece is empty |
| ForecastNamelist.StripTrailingEmpty | tools/forecast/namelist.py:52-53 | the pop loop computes Trimmed |
| ForecastNamelist.TrimmedKeeps | tools/forecast/namelist.py:52-53 | pieces already ending in a nonempty piece are kept as they are |
| ForecastNamelist.TrimmedTrailing | tools/forecast/namelist.py:52-53 | one more trailing empty piece changes nothing |
| ForecastNamelist.CoercedIdempotent | tools/forecast/namelist.py:38-69 | converting the same text again gives the same value |
| ForecastNamelist.CoercedKeepsKind | tools/forecast/namelist.py:38-69 | conversion keeps the kind of the variable (including complex and null values); a list of integers, reals or strings gets one entry per trimmed piece |
| ForecastNamelist.CoercedInt | tools/forecast/namelist.py:41-42 | an integer variable set to a written integer reads that integer |
| ForecastNamelist.CoercedIntList | tools/forecast/namelist.py:47-56 | an integer list set to a comma list of written integers, with or without a trailing comma, holds those integers |
| ForecastNamelist.CoercedIntPieces | tools/forecast/namelist.py:47-56 | an integer list set to a text takes the integers of the text's comma pieces without trailing empties |
| ForecastNamelist.CoercedUntypedList | tools/forecast/namelist.py:47-60 | a list whose first entry is a logical, list, complex number or null value matches none of the three typed branches and keeps its value, once the text has a nonempty piece |
| ForecastNamelist.TrailingCommaIgnored | tools/forecast/namelist.py:50-53 | for a list variable, a trailing comma on the text makes no difference |
| ForecastNamelist.CoercedBool | tools/forecast/namelist.py:61-67 | a logical becomes true on .true., false on .false., and keeps its value on any other text |
| ForecastNamelist.GetAfterSet | tools/forecast/namelist.py:20-71 | --get after --set prints the conversion of the old value |
| ForecastNamelist.SetKeepsOthers | tools/forecast/namelist.py:31-71 | --set leaves every variable whose key parts from the set one unchanged |
| ForecastNamelist.SetIdempotent | tools/forecast/namelist.py:31-71 | running the same --set twice writes the same namelist as running it once |
| ForecastNamelist.SetUnparsedBoolKeeps | tools/forecast/namelist.py:61-69 | a logical given other text, or a variable of a type no branch handles (a group, a complex number, a null value), is written back unchanged |
| ForecastNamelist.NamelistFile.constructor | tools/forecast/namelist.py:18 | the tool holds the namelist it read |
| ForecastNamelist.NamelistFile.Get | tools/forecast/namelist.py:20-29 | the walk, list indexing and lookup compute Fetched |
| ForecastNamelist.NamelistFile.Convert | tools/forecast/namelist.py:38-69 | the type dispatch, with the pop loop, computes Coerced |
| ForecastNamelist.NamelistFile.Set | tools/forecast/namelist.py:31-71 | --set in place: the namelist becomes Assigned's, or stays unchanged on an exception |
| PlainNamelist.CoercedIdempotent | tools/namelist.py:35-51 | converting the same text again gives the same value |
| PlainNamelist.CoercedBoolKeeps | tools/namelist.py:36-51 | a logical never changes, because no branch matches its type |
| PlainNamelist.TrailingCommaRejected | tools/namelist.py:46-47 | for an integer list, a trailing comma on a text whose pieces all parse raises ValueError on the empty last piece |
| PlainNamelist.IntsOfPiecesEmptyLast | tools/namelist.py:47 | the comprehension over pieces ending in an empty one fails on it |
| PlainNamelist.FetchedReads | tools/namelist.py:20-26 | --get reads the variable the whole key names |
| PlainNamelist.GetAfterSet | tools/namelist.py:20-53 | --get after --set prints the conversion of the old value |
| PlainNamelist.SetKeepsOthers | tools/namelist.py:28-53 | --set leaves every variable whose key parts from the set one unchanged |
| PlainNamelist.SetIdempotent | tools/namelist.py:28-53 | running the same --set twice writes the same namelist as running it once |
| PlainNamelist.SetUnconvertibleKeeps | tools/namelist.py:36-53 | a --set of a logical, a group, a complex number or a null value writes the namelist back unchanged, since no branch handles their types |
| PlainNamelist.CoercedAgrees | tools/namelist.py:35-51 | the two tools convert alike, except for logicals and for list texts whose comma split ends in an empty piece |
| PlainNamelist.AssignedAgrees | tools/namelist.py:28-53 | under the same conditions, the two --set runs write the same namelist |
| PlainNamelist.FetchedAgrees | tools/namelist.py:20-26 | the two --get runs print the same unless the walk ends in a list |
| PlainNamelist.NamelistFile.constructor | tools/namelist.py:18 | the tool holds the namelist it read |
| PlainNamelist.NamelistFile.Get | tools/namelist.py:20-26 | the walk and lookup compute Fetched |
| PlainNamelist.NamelistFile.Set | tools/namelist.py:28-53 | --set in place: the namelist becomes Assigned's, or stays unchanged on an exception |

## Left out

- The projection. `pyproj.Proj`, its construction from the namelist and
  the forward and inverse transforms (tools/forecast/nestwrf.py:66-68,
  179, 210-211) are a foreign geodesy library. The nest commands take
  already projected coordinates, so the argument order of the centre
  (`clat, clon` in the forecast tool, `clon, clat` in the plain one) is
  not represented. The projection keys are only checked to be present.
- Floating point. Coordinates and spacings are exact reals, not IEEE
  doubles, and `float()` is a parameter `parseReal`, not a parser.
- Output. `printgrids` and every `print` are left out; only the
  parent-end arithmetic of `printgrids` is modelled (`Geometry.ParentEnd`).
  The messages the namelist tool prints for an unparsable logical or an
  unsupported type are not modelled either; only the unchanged variable is.
- I/O. `argparse`, `f90nml.read`, `f90nml.write` and `namelist.write` are
  left out; the namelist comes in as a value, and "written back" is the
  value the methods leave.
- Namelist keys. f90nml's case-insensitive keys are exact strings here.
- Python 2 `long` integers, and `unicode` strings as a separate type, are
  not modelled.
- `Geometry.ParseExtents` requires that each nest's parent precede it
  (`1 <= parent_id[d] <= d`). With a later parent, the code silently
  reads a zero placeholder, and that case is not modelled. The nest
  commands carry the same requirement.
- `GridInput.ReadGrid`: when several entries are malformed at once, it may
  report a different one of them than the loop would raise on first.
  Per-domain lists holding non-integers are rejected as TypeError; the
  code might instead compute with such values.
- Partial updates are not modelled. Python updates `max_dom` and the
  lists in place before a later statement may raise. The model takes the
  namelist as unchanged on an exception, because the tool then never
  writes it. Aliasing through `crumb` and the in-place list operations
  are modelled as building new values.
- The appendnest parent index is modelled as an error path. IndexError
  leaves the namelist unwritten; it is not a precondition.
- tools/forecast/ts_copy_ascii.py and tools/set_sst.py are not part of this
  model: they are netCDF and text-file I/O.

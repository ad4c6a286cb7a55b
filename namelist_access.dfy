/** What the two namelist get/set tools share: Python's str.split and int(),
    and the walk down a colon-separated path through the nested namelist
    with the assignment at its end. */
module NamelistAccess {
  import opened Values

  // ---------------------------------------------------------------------
  // str.split with a one-character separator

  /** s.split(c): the pieces between the separators, always at least one. */
  function Split(s: string, c: char): (r: seq<string>)
    ensures |r| >= 1
    ensures forall k :: 0 <= k < |r| ==> c !in r[k]
  {
    if s == [] then [""]
    else
      var rest := Split(s[1..], c);
      if s[0] == c then [""] + rest
      else [[s[0]] + rest[0]] + rest[1..]
  }

  /** c.join(pieces), the inverse of Split. */
  function Join(pieces: seq<string>, c: char): string
    requires |pieces| >= 1
  {
    if |pieces| == 1 then pieces[0] else pieces[0] + [c] + Join(pieces[1..], c)
  }

  /** Splitting and joining again gives back the string. */
  lemma {:induction false} JoinSplit(s: string, c: char)
    ensures Join(Split(s, c), c) == s
  {
    if s != [] {
      JoinSplit(s[1..], c);
      var rest := Split(s[1..], c);
      if s[0] == c {
        assert Join([""] + rest, c) == "" + [c] + Join(rest, c);
      } else if |rest| == 1 {
        assert Join([[s[0]] + rest[0]] + rest[1..], c) == [s[0]] + rest[0];
      } else {
        assert ([[s[0]] + rest[0]] + rest[1..])[1..] == rest[1..];
        assert Join(rest, c) == rest[0] + [c] + Join(rest[1..], c);
      }
    }
  }

  /** Joining pieces free of the separator and splitting again gives back
      the pieces. */
  lemma {:induction false} SplitJoin(pieces: seq<string>, c: char)
    requires |pieces| >= 1
    requires forall k :: 0 <= k < |pieces| ==> c !in pieces[k]
    ensures Split(Join(pieces, c), c) == pieces
  {
    if |pieces| == 1 {
      SplitPiece(pieces[0], c);
    } else {
      SplitJoin(pieces[1..], c);
      SplitThrough(pieces[0], Join(pieces[1..], c), c);
      assert [pieces[0]] + pieces[1..] == pieces;
    }
  }

  /** A string without the separator splits into itself. */
  lemma {:induction false} SplitPiece(p: string, c: char)
    requires c !in p
    ensures Split(p, c) == [p]
  {
    if p != [] {
      SplitPiece(p[1..], c);
      assert [p[0]] + p[1..] == p;
    }
  }

  /** Splitting p + c + rest, p free of the separator, gives p followed by
      the pieces of rest. */
  lemma {:induction false} SplitThrough(p: string, rest: string, c: char)
    requires c !in p
    ensures Split(p + [c] + rest, c) == [p] + Split(rest, c)
  {
    if p == [] {
      assert p + [c] + rest == [c] + rest;
      assert ([c] + rest)[1..] == rest;
    } else {
      SplitThrough(p[1..], rest, c);
      assert (p + [c] + rest)[1..] == p[1..] + [c] + rest;
      assert [p[0]] + p[1..] == p;
    }
  }

  /** A separator at the end of s adds one empty piece. */
  lemma {:induction false} SplitTrailing(s: string, c: char)
    ensures Split(s + [c], c) == Split(s, c) + [""]
  {
    if s == [] {
      assert s + [c] == [c];
    } else {
      SplitTrailing(s[1..], c);
      assert (s + [c])[1..] == s[1..] + [c];
    }
  }

  // ---------------------------------------------------------------------
  // int() on a string

  /** The characters str.strip() removes. */
  predicate IsSpace(ch: char)
  {
    ch == ' ' || ch == '\t' || ch == '\n' || ch == '\r' || ch == 11 as char || ch == 12 as char
  }

  predicate IsDigit(ch: char)
  {
    '0' <= ch <= '9'
  }

  predicate AllDigits(s: string)
  {
    forall k :: 0 <= k < |s| ==> IsDigit(s[k])
  }

  /** s with leading and trailing white space removed. */
  function Stripped(s: string): (r: string)
    ensures r == [] || (!IsSpace(r[0]) && !IsSpace(r[|r| - 1]))
    ensures |r| <= |s|
  {
    if s == [] then []
    else if IsSpace(s[0]) then Stripped(s[1..])
    else if IsSpace(s[|s| - 1]) then Stripped(s[..|s| - 1])
    else s
  }

  /** The value of a string of decimal digits. */
  function DigitsValue(ds: string): (n: nat)
    requires AllDigits(ds)
  {
    if ds == [] then 0
    else DigitsValue(ds[..|ds| - 1]) * 10 + (ds[|ds| - 1] - '0') as int
  }

  /** int(s): optional white space, an optional sign, optional white space
      again (Python 2 skips it both before and after the sign), one or more
      decimal digits, optional white space; anything else raises
      ValueError. */
  function ParseInt(s: string): Option<int>
  {
    var t := Stripped(s);
    if t != [] && (t[0] == '-' || t[0] == '+') then
      var ds := Stripped(t[1..]);
      if ds != [] && AllDigits(ds) then Some(if t[0] == '-' then -(DigitsValue(ds) as int) else DigitsValue(ds))
      else None
    else if t != [] && AllDigits(t) then Some(DigitsValue(t))
    else None
  }

  /** int(s) as an operation that raises. */
  function IntOf(s: string): (r: Result<int>)
    ensures r.Ok? <==> ParseInt(s).Some?
    ensures r.Ok? ==> r.value == ParseInt(s).value
    ensures r.Err? ==> r.error == BadNumber(s)
  {
    match ParseInt(s)
    case None => Err(BadNumber(s))
    case Some(n) => Ok(n)
  }

  /** The decimal digits of n, most significant first. */
  function FormatNat(n: nat): (r: string)
    ensures r != [] && AllDigits(r)
  {
    if n < 10 then [('0' as int + n) as char]
    else FormatNat(n / 10) + [('0' as int + n % 10) as char]
  }

  /** n written in decimal, as str(n) prints it. */
  function FormatInt(n: int): string
  {
    if n < 0 then "-" + FormatNat(-n) else FormatNat(n)
  }

  lemma {:induction false} DigitsOfFormat(n: nat)
    ensures DigitsValue(FormatNat(n)) == n
  {
    if n >= 10 {
      DigitsOfFormat(n / 10);
      var r := FormatNat(n);
      assert r[..|r| - 1] == FormatNat(n / 10);
    }
  }

  /** White space may stand between the sign and the digits. */
  lemma SpaceAfterSign()
    ensures ParseInt("- 5") == Some(-5)
    ensures ParseInt("+\t7") == Some(7)
    ensures ParseInt("-") == None && ParseInt("- ") == None
  {
    assert Stripped("- 5") == "- 5";
    assert Stripped(" 5") == "5";
    assert Stripped("+\t7") == "+\t7";
    assert Stripped("\t7") == "7";
    assert Stripped("- ") == "-";
  }

  /** A string of digits has no white space to strip. */
  lemma StrippedDigits(ds: string)
    requires ds != [] && AllDigits(ds)
    ensures Stripped(ds) == ds
  {
    assert IsDigit(ds[0]) && IsDigit(ds[|ds| - 1]);
  }

  /** int() of a string of digits is their value. */
  lemma ParseDigits(ds: string)
    requires ds != [] && AllDigits(ds)
    ensures ParseInt(ds) == Some(DigitsValue(ds))
  {
    StrippedDigits(ds);
    assert IsDigit(ds[0]);
  }

  /** int() reads back str() of a negative number: the sign, then digits. */
  lemma ParseNegated(m: nat)
    requires m > 0
    ensures ParseInt(FormatInt(-(m as int))) == Some(-(m as int))
  {
    var ds := FormatNat(m);
    DigitsOfFormat(m);
    StrippedDigits(ds);
    var s := FormatInt(-(m as int));
    assert s == "-" + ds;
    assert s[1..] == ds;
    assert s[|s| - 1] == ds[|ds| - 1] && IsDigit(ds[|ds| - 1]);
    assert Stripped(s) == s;
  }

  /** int() reads back what str() wrote. */
  lemma ParseFormat(n: int)
    ensures ParseInt(FormatInt(n)) == Some(n)
  {
    if n < 0 {
      ParseNegated(-n);
    } else {
      DigitsOfFormat(n);
      ParseDigits(FormatNat(n));
    }
  }

  /** [int(p) for p in pieces]: the first piece that is no integer raises. */
  function IntsOfPieces(pieces: seq<string>): (r: Result<seq<int>>)
    ensures r.Ok? <==> forall k :: 0 <= k < |pieces| ==> ParseInt(pieces[k]).Some?
    ensures r.Ok? ==> (|r.value| == |pieces|
      && forall k :: 0 <= k < |pieces| ==> r.value[k] == ParseInt(pieces[k]).value)
  {
    if pieces == [] then Ok([])
    else
      var n :- IntOf(pieces[0]);
      var rest :- IntsOfPieces(pieces[1..]);
      Ok([n] + rest)
  }

  /** [float(p) for p in pieces], float() given as parseReal. */
  function RealsOfPieces(pieces: seq<string>, parseReal: string -> Option<real>): (r: Result<seq<real>>)
    ensures r.Ok? <==> forall k :: 0 <= k < |pieces| ==> parseReal(pieces[k]).Some?
    ensures r.Ok? ==> (|r.value| == |pieces|
      && forall k :: 0 <= k < |pieces| ==> r.value[k] == parseReal(pieces[k]).value)
  {
    if pieces == [] then Ok([])
    else
      var x :- if parseReal(pieces[0]).Some? then Ok(parseReal(pieces[0]).value) else Err(BadNumber(pieces[0]));
      var rest :- RealsOfPieces(pieces[1..], parseReal);
      Ok([x] + rest)
  }

  function RealVals(xs: seq<real>): (r: seq<Value>)
    ensures |r| == |xs| && forall k :: 0 <= k < |xs| ==> r[k] == RealVal(xs[k])
  {
    seq(|xs|, k requires 0 <= k < |xs| => RealVal(xs[k]))
  }

  function StrVals(ss: seq<string>): (r: seq<Value>)
    ensures |r| == |ss| && forall k :: 0 <= k < |ss| ==> r[k] == StrVal(ss[k])
  {
    seq(|ss|, k requires 0 <= k < |ss| => StrVal(ss[k]))
  }

  /** The list that replaces the nonempty list prior, given the pieces of
      the comma-separated text: integers, reals or the pieces themselves,
      after the type of prior's first element; any other list is kept. */
  function ListFrom(prior: Value, pieces: seq<string>, parseReal: string -> Option<real>): (r: Result<Value>)
    requires prior.ListVal? && prior.items != []
    ensures r.Ok? ==> r.value.ListVal?
    ensures r.Ok? && (prior.items[0].IntVal? || prior.items[0].RealVal? || prior.items[0].StrVal?) ==>
      |r.value.items| == |pieces|
  {
    match prior.items[0]
    case IntVal(_) =>
      var ns :- IntsOfPieces(pieces);
      Ok(ListVal(IntVals(ns)))
    case RealVal(_) =>
      var xs :- RealsOfPieces(pieces, parseReal);
      Ok(ListVal(RealVals(xs)))
    case StrVal(_) => Ok(ListVal(StrVals(pieces)))
    case BoolVal(_) => Ok(prior)
    case ComplexVal(_, _) => Ok(prior)
    case NoneVal => Ok(prior)
    case ListVal(_) => Ok(prior)
    case GroupVal(_) => Ok(prior)
  }

  /** The kinds of variable --set has no branch for: they are written back
      as they were. */
  predicate Unconvertible(v: Value)
  {
    v.GroupVal? || v.ComplexVal? || v.NoneVal?
  }

  /** The integers written one per piece read back as those integers. */
  lemma IntsOfFormatted(ns: seq<int>)
    ensures IntsOfPieces(seq(|ns|, k requires 0 <= k < |ns| => FormatInt(ns[k]))) == Ok(ns)
  {
    var pieces := seq(|ns|, k requires 0 <= k < |ns| => FormatInt(ns[k]));
    forall k | 0 <= k < |ns|
      ensures ParseInt(pieces[k]) == Some(ns[k])
    {
      ParseFormat(ns[k]);
    }
    assert IntsOfPieces(pieces).value == ns;
  }

  // ---------------------------------------------------------------------
  // The path walk and the assignment at its end

  /** crumb[key] with a string key: a dictionary (f90nml's namelist and its
      groups) looks the key up; anything else cannot be indexed by a name. */
  function Lookup(v: Value, key: string): (r: Result<Value>)
    ensures r.Ok? <==> v.GroupVal? && key in v.entries
    ensures r.Ok? ==> r.value == v.entries[key]
  {
    if !v.GroupVal? then Err(NotAContainer)
    else if key !in v.entries then Err(KeyNotFound(key))
    else Ok(v.entries[key])
  }

  /** Successive lookups of keys from v. */
  function LookupPath(v: Value, keys: seq<string>): Result<Value>
  {
    if keys == [] then Ok(v)
    else
      var child :- Lookup(v, keys[0]);
      LookupPath(child, keys[1..])
  }

  /** Walking a + b is walking a, then b from where a ends. */
  lemma {:induction false} LookupPathSplit(v: Value, a: seq<string>, b: seq<string>)
    ensures LookupPath(v, a + b) == match LookupPath(v, a) { case Err(e) => Err(e) case Ok(w) => LookupPath(w, b) }
  {
    if a != [] {
      assert (a + b)[0] == a[0] && (a + b)[1..] == a[1..] + b;
      if Lookup(v, a[0]).Ok? {
        LookupPathSplit(v.entries[a[0]], a[1..], b);
      }
    } else {
      assert a + b == b;
    }
  }

  /** The walk of the tools: every component but the last is looked up in
      turn, popping it off the path; returns where the walk ends. */
  method Walk(root: Value, path: seq<string>) returns (r: Result<Value>)
    requires |path| >= 1
    ensures r == LookupPath(root, path[..|path| - 1])
  {
    var crumb := root;
    var rest := path;
    while |rest| > 1
      invariant 1 <= |rest| <= |path| && rest == path[|path| - |rest|..]
      invariant LookupPath(root, path[..|path| - 1]) == LookupPath(crumb, rest[..|rest| - 1])
      decreases |rest|
    {
      var next := Lookup(crumb, rest[0]);
      if next.Err? {
        return Err(next.error);
      }
      assert rest[..|rest| - 1][0] == rest[0] && rest[..|rest| - 1][1..] == rest[1..][..|rest| - 2];
      crumb := next.value;
      rest := rest[1..];
    }
    assert rest[..|rest| - 1] == [];
    return Ok(crumb);
  }

  /** crumb[last] = x at the end of the walk along keys: the entry is
      replaced in the dictionary the walk reached, and every dictionary on
      the way holds the updated one. */
  function Update(v: Value, keys: seq<string>, x: Value): Result<Value>
    requires |keys| >= 1
    decreases |keys|
  {
    if !v.GroupVal? then Err(NotAContainer)
    else if |keys| == 1 then Ok(GroupVal(v.entries[keys[0] := x]))
    else if keys[0] !in v.entries then Err(KeyNotFound(keys[0]))
    else
      var child :- Update(v.entries[keys[0]], keys[1..], x);
      Ok(GroupVal(v.entries[keys[0] := child]))
  }

  /** The assignment succeeds where the walk reached a dictionary. */
  lemma {:induction false} UpdateSucceeds(v: Value, keys: seq<string>, x: Value)
    requires |keys| >= 1
    ensures Update(v, keys, x).Ok?
            <==> LookupPath(v, keys[..|keys| - 1]).Ok? && LookupPath(v, keys[..|keys| - 1]).value.GroupVal?
  {
    if v.GroupVal? && |keys| > 1 && keys[0] in v.entries {
      UpdateSucceeds(v.entries[keys[0]], keys[1..], x);
      assert keys[..|keys| - 1][0] == keys[0] && keys[..|keys| - 1][1..] == keys[1..][..|keys| - 2];
    } else if |keys| > 1 {
      assert keys[..|keys| - 1][0] == keys[0];
    }
  }

  /** After the assignment the path reads the new value. */
  lemma {:induction false} LookupUpdated(v: Value, keys: seq<string>, x: Value)
    requires |keys| >= 1 && Update(v, keys, x).Ok?
    ensures LookupPath(Update(v, keys, x).value, keys) == Ok(x)
  {
    if |keys| > 1 {
      LookupUpdated(v.entries[keys[0]], keys[1..], x);
    }
  }

  /** Paths that part from the assigned one at some component read what
      they read before: only the addressed entry changes. */
  lemma {:induction false} LookupUpdateDiverging(v: Value, keys: seq<string>, x: Value, q: seq<string>, i: nat)
    requires |keys| >= 1 && Update(v, keys, x).Ok?
    requires i < |keys| && i < |q| && q[i] != keys[i] && q[..i] == keys[..i]
    ensures LookupPath(Update(v, keys, x).value, q) == LookupPath(v, q)
  {
    if i > 0 {
      assert q[0] == keys[0];
      LookupUpdateDiverging(v.entries[keys[0]], keys[1..], x, q[1..], i - 1);
    }
  }

  /** Assigning an entry the value it has changes nothing. */
  lemma {:induction false} UpdateSame(v: Value, keys: seq<string>)
    requires |keys| >= 1 && LookupPath(v, keys).Ok?
    ensures Update(v, keys, LookupPath(v, keys).value) == Ok(v)
  {
    if |keys| == 1 {
      assert v.entries[keys[0] := v.entries[keys[0]]] == v.entries;
    } else {
      UpdateSame(v.entries[keys[0]], keys[1..]);
      assert v.entries[keys[0] := v.entries[keys[0]]] == v.entries;
    }
  }

  /** A second assignment along the same path overrides the first. */
  lemma {:induction false} UpdateTwice(v: Value, keys: seq<string>, a: Value, b: Value)
    requires |keys| >= 1 && Update(v, keys, a).Ok?
    ensures Update(Update(v, keys, a).value, keys, b) == Update(v, keys, b)
  {
    if |keys| == 1 {
      assert v.entries[keys[0] := a][keys[0] := b] == v.entries[keys[0] := b];
    } else {
      UpdateTwice(v.entries[keys[0]], keys[1..], a, b);
      var childA := Update(v.entries[keys[0]], keys[1..], a).value;
      var childB := Update(v.entries[keys[0]], keys[1..], b);
      if childB.Ok? {
        assert v.entries[keys[0] := childA][keys[0] := childB.value] == v.entries[keys[0] := childB.value];
      }
    }
  }

  // ---------------------------------------------------------------------
  // --set: walk, read the field, convert the text, assign

  /** The body of --set along path: walk to the dictionary, read the field
      (its type picks the conversion), convert the text with coerce, and
      assign the result through the walk. */
  function Assign(root: Value, path: seq<string>, coerce: Value -> Result<Value>): Result<Value>
    requires |path| >= 1
  {
    var crumb :- LookupPath(root, path[..|path| - 1]);
    var prior :- Lookup(crumb, path[|path| - 1]);
    var x :- coerce(prior);
    Update(root, path, x)
  }

  /** The path splits into the walk and the last component. */
  lemma PathParts(path: seq<string>)
    requires |path| >= 1
    ensures path[..|path| - 1] + [path[|path| - 1]] == path
  {
  }

  /** After --set, the path reads the converted old value, and the walk
      still ends in a dictionary. */
  lemma AssignReads(root: Value, path: seq<string>, coerce: Value -> Result<Value>)
    requires |path| >= 1 && Assign(root, path, coerce).Ok?
    ensures LookupPath(root, path).Ok? && coerce(LookupPath(root, path).value).Ok?
    ensures var after := Assign(root, path, coerce).value;
      && LookupPath(after, path) == coerce(LookupPath(root, path).value)
      && LookupPath(after, path[..|path| - 1]).Ok?
      && LookupPath(after, path[..|path| - 1]).value.GroupVal?
  {
    PathParts(path);
    LookupPathSplit(root, path[..|path| - 1], [path[|path| - 1]]);
    var crumb := LookupPath(root, path[..|path| - 1]).value;
    var x := coerce(crumb.entries[path[|path| - 1]]).value;
    LookupUpdated(root, path, x);
    var after := Update(root, path, x).value;
    LookupPathSplit(after, path[..|path| - 1], [path[|path| - 1]]);
  }

  /** --set changes no path that parts from the assigned one. */
  lemma AssignOthers(root: Value, path: seq<string>, coerce: Value -> Result<Value>, q: seq<string>, i: nat)
    requires |path| >= 1 && Assign(root, path, coerce).Ok?
    requires i < |path| && i < |q| && q[i] != path[i] && q[..i] == path[..i]
    ensures LookupPath(Assign(root, path, coerce).value, q) == LookupPath(root, q)
  {
    var crumb := LookupPath(root, path[..|path| - 1]).value;
    var x := coerce(crumb.entries[path[|path| - 1]]).value;
    LookupUpdateDiverging(root, path, x, q, i);
  }

  /** When the conversion is idempotent on the field, --set twice is --set
      once. */
  lemma AssignIdempotent(root: Value, path: seq<string>, coerce: Value -> Result<Value>)
    requires |path| >= 1 && Assign(root, path, coerce).Ok?
    requires LookupPath(root, path).Ok?
    requires var prior := LookupPath(root, path).value;
      coerce(prior).Ok? ==> coerce(coerce(prior).value) == coerce(prior)
    ensures Assign(Assign(root, path, coerce).value, path, coerce) == Assign(root, path, coerce)
  {
    AssignReads(root, path, coerce);
    var x := coerce(LookupPath(root, path).value).value;
    var after := Assign(root, path, coerce).value;
    PathParts(path);
    LookupPathSplit(root, path[..|path| - 1], [path[|path| - 1]]);
    LookupPathSplit(after, path[..|path| - 1], [path[|path| - 1]]);
    UpdateTwice(root, path, x, x);
  }

  /** Two conversions that agree on the field assign alike. */
  lemma AssignAlike(root: Value, path: seq<string>, f: Value -> Result<Value>, g: Value -> Result<Value>)
    requires |path| >= 1 && LookupPath(root, path).Ok?
    requires f(LookupPath(root, path).value) == g(LookupPath(root, path).value)
    ensures Assign(root, path, f) == Assign(root, path, g)
  {
    PathParts(path);
    LookupPathSplit(root, path[..|path| - 1], [path[|path| - 1]]);
  }

  /** A conversion that gives back the old value leaves the namelist as it
      was. */
  lemma AssignUnchanged(root: Value, path: seq<string>, coerce: Value -> Result<Value>)
    requires |path| >= 1 && LookupPath(root, path).Ok?
    requires coerce(LookupPath(root, path).value) == Ok(LookupPath(root, path).value)
    ensures Assign(root, path, coerce) == Ok(root)
  {
    PathParts(path);
    LookupPathSplit(root, path[..|path| - 1], [path[|path| - 1]]);
    UpdateSame(root, path);
  }

  /** A tool run with specification spec on the namelist before returned r
      and left the namelist after: on failure the same exception and (the
      file is then never written) the namelist as it was; on success the
      specified namelist. */
  predicate Written(before: Value, spec: Result<Value>, r: Result<()>, after: Value)
  {
    && (r.Ok? <==> spec.Ok?)
    && (spec.Err? ==> r.error == spec.error && after == before)
    && (spec.Ok? ==> after == spec.value)
  }
}

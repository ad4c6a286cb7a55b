/** The namelist command-line tool of the forecast tools: --get prints the
    variable a colon-separated key names (indexing a list by number when the
    walk ends in one), --set converts a text to the type of the variable it
    replaces, stripping trailing empty pieces from a comma list and
    accepting .true./.false. for logicals. */
module ForecastNamelist {
  import opened Values
  import opened NamelistAccess

  // ---------------------------------------------------------------------
  // Trailing commas

  /** The pieces of a comma list with the trailing empty pieces removed;
      an IndexError when every piece is empty. */
  function Trimmed(pieces: seq<string>): (r: Result<seq<string>>)
    ensures r.Ok? <==> exists k :: 0 <= k < |pieces| && pieces[k] != ""
    ensures r.Err? ==> r.error == IndexOutOfRange
    ensures r.Ok? ==> (
      && r.value != [] && r.value[|r.value| - 1] != ""
      && |r.value| <= |pieces| && r.value == pieces[..|r.value|]
      && forall k :: |r.value| <= k < |pieces| ==> pieces[k] == "")
  {
    if pieces == [] then Err(IndexOutOfRange)
    else if pieces[|pieces| - 1] == "" then
      var r := Trimmed(pieces[..|pieces| - 1]);
      assert r.Ok? ==> forall k :: 0 <= k < |pieces| - 1 ==> pieces[..|pieces| - 1][k] == pieces[k];
      r
    else Ok(pieces)
  }

  /** Pops empty pieces off the end of the list, as the tool does. */
  method StripTrailingEmpty(pieces: seq<string>) returns (r: Result<seq<string>>)
    ensures r == Trimmed(pieces)
  {
    var l := pieces;
    while l != [] && l[|l| - 1] == ""
      invariant Trimmed(l) == Trimmed(pieces)
      decreases |l|
    {
      l := l[..|l| - 1];
    }
    if l == [] {
      return Err(IndexOutOfRange);
    }
    return Ok(l);
  }

  /** A list that already ends in a nonempty piece is kept as it is. */
  lemma TrimmedKeeps(pieces: seq<string>)
    requires pieces != [] && pieces[|pieces| - 1] != ""
    ensures Trimmed(pieces) == Ok(pieces)
  {
  }

  /** One more trailing empty piece changes nothing. */
  lemma TrimmedTrailing(pieces: seq<string>)
    ensures Trimmed(pieces + [""]) == Trimmed(pieces)
  {
    assert (pieces + [""])[..|pieces|] == pieces;
  }

  // ---------------------------------------------------------------------
  // Conversion

  /** The value text gives a variable whose current value is prior: an
      integer, a real (parseReal stands for float()), the text itself, a
      list typed after its first element, or a logical; text a logical
      cannot take, and variables of other types, keep their value. */
  function Coerced(prior: Value, text: string, parseReal: string -> Option<real>): Result<Value>
  {
    match prior
    case IntVal(_) =>
      var n :- IntOf(text);
      Ok(IntVal(n))
    case RealVal(_) =>
      if parseReal(text).Some? then Ok(RealVal(parseReal(text).value)) else Err(BadNumber(text))
    case StrVal(_) => Ok(StrVal(text))
    case ListVal(items) =>
      if items == [] then Err(IndexOutOfRange)
      else
        var pieces :- Trimmed(Split(text, ','));
        ListFrom(prior, pieces, parseReal)
    case BoolVal(_) =>
      if text == ".true." then Ok(BoolVal(true))
      else if text == ".false." then Ok(BoolVal(false))
      else Ok(prior)
    case ComplexVal(_, _) => Ok(prior)
    case NoneVal => Ok(prior)
    case GroupVal(_) => Ok(prior)
  }

  /** Converting the same text again gives the same value. */
  lemma CoercedIdempotent(prior: Value, text: string, parseReal: string -> Option<real>)
    requires Coerced(prior, text, parseReal).Ok?
    ensures Coerced(Coerced(prior, text, parseReal).value, text, parseReal) == Coerced(prior, text, parseReal)
  {
    if prior.ListVal? {
      var pieces := Trimmed(Split(text, ',')).value;
      assert pieces != [];
    }
  }

  /** Conversion keeps the kind of the variable, and a list converts to a
      list as long as the pieces of the text without trailing empties. */
  lemma CoercedKeepsKind(prior: Value, text: string, parseReal: string -> Option<real>)
    requires Coerced(prior, text, parseReal).Ok?
    ensures var v := Coerced(prior, text, parseReal).value;
      && (prior.IntVal? <==> v.IntVal?) && (prior.RealVal? <==> v.RealVal?)
      && (prior.StrVal? <==> v.StrVal?) && (prior.BoolVal? <==> v.BoolVal?)
      && (prior.ListVal? <==> v.ListVal?) && (prior.GroupVal? <==> v.GroupVal?)
      && (prior.ComplexVal? <==> v.ComplexVal?) && (prior.NoneVal? <==> v.NoneVal?)
    ensures prior.ListVal? && (prior.items[0].IntVal? || prior.items[0].RealVal? || prior.items[0].StrVal?) ==>
      |Coerced(prior, text, parseReal).value.items| == |Trimmed(Split(text, ',')).value|
  {
  }

  /** An integer written out reads back as that integer. */
  lemma CoercedInt(i: int, n: int, parseReal: string -> Option<real>)
    ensures Coerced(IntVal(i), FormatInt(n), parseReal) == Ok(IntVal(n))
  {
    ParseFormat(n);
  }

  /** A comma list of integers, with or without a trailing comma, reads
      back as those integers in an integer list. */
  lemma CoercedIntList(items: seq<Value>, ns: seq<int>, trailing: bool, parseReal: string -> Option<real>)
    requires items != [] && items[0].IntVal? && ns != []
    ensures var text := Join(seq(|ns|, k requires 0 <= k < |ns| => FormatInt(ns[k])), ',');
      Coerced(ListVal(items), if trailing then text + [','] else text, parseReal) == Ok(ListVal(IntVals(ns)))
  {
    var pieces := seq(|ns|, k requires 0 <= k < |ns| => FormatInt(ns[k]));
    var text := Join(pieces, ',');
    FormattedPieces(ns);
    IntsOfFormatted(ns);
    if trailing {
      SplitTrailing(text, ',');
      TrimmedTrailing(pieces);
      CoercedIntPieces(items, text + [','], pieces, ns, parseReal);
    } else {
      CoercedIntPieces(items, text, pieces, ns, parseReal);
    }
  }

  /** An integer list takes the integers of the trimmed pieces of the text. */
  lemma CoercedIntPieces(items: seq<Value>, text: string, pieces: seq<string>, ns: seq<int>,
                         parseReal: string -> Option<real>)
    requires items != [] && items[0].IntVal?
    requires Trimmed(Split(text, ',')) == Ok(pieces) && IntsOfPieces(pieces) == Ok(ns)
    ensures Coerced(ListVal(items), text, parseReal) == Ok(ListVal(IntVals(ns)))
  {
  }

  /** Integers written one per piece split back into those pieces, and
      trimming keeps them all. */
  lemma FormattedPieces(ns: seq<int>)
    requires ns != []
    ensures var pieces := seq(|ns|, k requires 0 <= k < |ns| => FormatInt(ns[k]));
      Split(Join(pieces, ','), ',') == pieces && Trimmed(pieces) == Ok(pieces)
  {
    var pieces := seq(|ns|, k requires 0 <= k < |ns| => FormatInt(ns[k]));
    forall k | 0 <= k < |pieces|
      ensures ',' !in pieces[k]
    {
      NoSeparatorInFormat(ns[k]);
    }
    SplitJoin(pieces, ',');
    NonEmptyFormat(ns[|ns| - 1]);
    TrimmedKeeps(pieces);
  }

  lemma NoSeparatorInFormat(n: int)
    ensures ',' !in FormatInt(n)
  {
    var s := FormatInt(n);
    if n < 0 {
      assert s == "-" + FormatNat(-n);
      assert forall k :: 1 <= k < |s| ==> s[k] == FormatNat(-n)[k - 1];
    }
  }

  lemma NonEmptyFormat(n: int)
    ensures FormatInt(n) != ""
  {
  }

  /** A list whose first entry is not an integer, real or string is written
      back as it was, once the text has a nonempty piece. */
  lemma CoercedUntypedList(items: seq<Value>, text: string, parseReal: string -> Option<real>)
    requires items != [] && (items[0].BoolVal? || items[0].ListVal? || Unconvertible(items[0]))
    requires exists k :: 0 <= k < |Split(text, ',')| && Split(text, ',')[k] != ""
    ensures Coerced(ListVal(items), text, parseReal) == Ok(ListVal(items))
  {
  }

  /** For a list variable a trailing comma on the text makes no difference. */
  lemma TrailingCommaIgnored(items: seq<Value>, text: string, parseReal: string -> Option<real>)
    requires items != []
    ensures Coerced(ListVal(items), text + [','], parseReal) == Coerced(ListVal(items), text, parseReal)
  {
    SplitTrailing(text, ',');
    TrimmedTrailing(Split(text, ','));
  }

  /** A logical takes .true. or .false.; any other text leaves it as it was. */
  lemma CoercedBool(b: bool, text: string, parseReal: string -> Option<real>)
    ensures Coerced(BoolVal(b), text, parseReal) ==
      Ok(BoolVal(text == ".true." || (b && text != ".false.")))
  {
  }

  // ---------------------------------------------------------------------
  // --get and --set

  /** --get key: walk all but the last component of the key; in a list the
      last component is a (Python) index, otherwise a variable name. */
  function Fetched(root: Value, key: string): Result<Value>
  {
    var path := Split(key, ':');
    var crumb :- LookupPath(root, path[..|path| - 1]);
    var last := path[|path| - 1];
    if crumb.ListVal? then
      var i :- IntOf(last);
      if ValidPyIndex(|crumb.items|, i) then Ok(PyIndex(crumb.items, i)) else Err(IndexOutOfRange)
    else Lookup(crumb, last)
  }

  /** --set key value: the namelist that is written back. */
  function Assigned(root: Value, key: string, text: string, parseReal: string -> Option<real>): Result<Value>
  {
    Assign(root, Split(key, ':'), v => Coerced(v, text, parseReal))
  }

  /** --get after --set prints the converted value. */
  lemma GetAfterSet(root: Value, key: string, text: string, parseReal: string -> Option<real>)
    requires Assigned(root, key, text, parseReal).Ok?
    ensures LookupPath(root, Split(key, ':')).Ok?
    ensures Fetched(Assigned(root, key, text, parseReal).value, key)
      == Coerced(LookupPath(root, Split(key, ':')).value, text, parseReal)
  {
    var path := Split(key, ':');
    AssignReads(root, path, v => Coerced(v, text, parseReal));
    var after := Assigned(root, key, text, parseReal).value;
    PathParts(path);
    LookupPathSplit(after, path[..|path| - 1], [path[|path| - 1]]);
  }

  /** --set leaves every variable whose key parts from the set one alone. */
  lemma SetKeepsOthers(root: Value, key: string, text: string, parseReal: string -> Option<real>, q: seq<string>, i: nat)
    requires Assigned(root, key, text, parseReal).Ok?
    requires i < |Split(key, ':')| && i < |q| && q[i] != Split(key, ':')[i] && q[..i] == Split(key, ':')[..i]
    ensures LookupPath(Assigned(root, key, text, parseReal).value, q) == LookupPath(root, q)
  {
    AssignOthers(root, Split(key, ':'), v => Coerced(v, text, parseReal), q, i);
  }

  /** Running the same --set twice writes the same namelist as once. */
  lemma SetIdempotent(root: Value, key: string, text: string, parseReal: string -> Option<real>)
    requires Assigned(root, key, text, parseReal).Ok?
    ensures Assigned(Assigned(root, key, text, parseReal).value, key, text, parseReal)
      == Assigned(root, key, text, parseReal)
  {
    var path := Split(key, ':');
    var coerce := v => Coerced(v, text, parseReal);
    AssignReads(root, path, coerce);
    var prior := LookupPath(root, path).value;
    CoercedIdempotent(prior, text, parseReal);
    AssignIdempotent(root, path, coerce);
  }

  /** A logical given text other than .true./.false., and a variable of a
      kind --set has no branch for, are written back unchanged. */
  lemma SetUnparsedBoolKeeps(root: Value, key: string, text: string, parseReal: string -> Option<real>)
    requires LookupPath(root, Split(key, ':')).Ok?
    requires var v := LookupPath(root, Split(key, ':')).value;
      (v.BoolVal? && text != ".true." && text != ".false.") || Unconvertible(v)
    ensures Assigned(root, key, text, parseReal) == Ok(root)
  {
    AssignUnchanged(root, Split(key, ':'), v => Coerced(v, text, parseReal));
  }

  // ---------------------------------------------------------------------
  // The tool run on a namelist file

  /** The namelist the tool reads; --set writes it back. */
  class NamelistFile {
    var root: Value

    constructor (root: Value)
      ensures this.root == root
    {
      this.root := root;
    }

    /** --get key: the value printed. */
    method Get(key: string) returns (r: Result<Value>)
      ensures r == Fetched(root, key)
    {
      var path := Split(key, ':');
      var crumb :- Walk(root, path);
      var last := path[|path| - 1];
      if crumb.ListVal? {
        var i :- IntOf(last);
        if ValidPyIndex(|crumb.items|, i) {
          r := Ok(PyIndex(crumb.items, i));
        } else {
          r := Err(IndexOutOfRange);
        }
      } else {
        r := Lookup(crumb, last);
      }
    }

    /** The conversion of text for the variable now holding prior, with the
        trailing empty pieces popped off a comma list. */
    static method Convert(prior: Value, text: string, parseReal: string -> Option<real>) returns (r: Result<Value>)
      ensures r == Coerced(prior, text, parseReal)
    {
      match prior {
        case IntVal(_) =>
          var n :- IntOf(text);
          r := Ok(IntVal(n));
        case RealVal(_) =>
          r := if parseReal(text).Some? then Ok(RealVal(parseReal(text).value)) else Err(BadNumber(text));
        case StrVal(_) =>
          r := Ok(StrVal(text));
        case ListVal(items) =>
          if items == [] {
            return Err(IndexOutOfRange);
          }
          var pieces :- StripTrailingEmpty(Split(text, ','));
          r := ListFrom(prior, pieces, parseReal);
        case BoolVal(_) =>
          if text == ".true." {
            r := Ok(BoolVal(true));
          } else if text == ".false." {
            r := Ok(BoolVal(false));
          } else {
            r := Ok(prior);
          }
        case ComplexVal(_, _) =>
          r := Ok(prior);
        case NoneVal =>
          r := Ok(prior);
        case GroupVal(_) =>
          r := Ok(prior);
      }
    }

    /** --set key text: on success the namelist written back; on an
        exception the file is not written. */
    method Set(key: string, text: string, parseReal: string -> Option<real>) returns (r: Result<()>)
      modifies this
      ensures Written(old(root), Assigned(old(root), key, text, parseReal), r, root)
    {
      var path := Split(key, ':');
      var crumb :- Walk(root, path);
      var prior :- Lookup(crumb, path[|path| - 1]);
      var x :- Convert(prior, text, parseReal);
      UpdateSucceeds(root, path, x);
      root := Update(root, path, x).value;
      r := Ok(());
    }
  }
}

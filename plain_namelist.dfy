/** The namelist command-line tool of the top-level tools: the same --get
    and --set as the forecast one, except that --get always looks the last
    key component up by name, --set splits a comma list without dropping
    trailing empty pieces, and logicals are left as they are. */
module PlainNamelist {
  import opened Values
  import opened NamelistAccess
  import ForecastNamelist

  /** The value text gives a variable whose current value is prior; a
      logical, and a variable of any type other than integer, real, string
      or list, keeps its value. */
  function Coerced(prior: Value, text: string, parseReal: string -> Option<real>): Result<Value>
  {
    match prior
    case IntVal(_) =>
      var n :- IntOf(text);
      Ok(IntVal(n))
    case RealVal(_) =>
      if parseReal(text).Some? then Ok(RealVal(parseReal(text).value)) else Err(BadNumber(text))
    case StrVal(_) => Ok(StrVal(text))
    case ListVal(items) =>
      if items == [] then Err(IndexOutOfRange)
      else ListFrom(prior, Split(text, ','), parseReal)
    case BoolVal(_) => Ok(prior)
    case ComplexVal(_, _) => Ok(prior)
    case NoneVal => Ok(prior)
    case GroupVal(_) => Ok(prior)
  }

  /** Converting the same text again gives the same value. */
  lemma CoercedIdempotent(prior: Value, text: string, parseReal: string -> Option<real>)
    requires Coerced(prior, text, parseReal).Ok?
    ensures Coerced(Coerced(prior, text, parseReal).value, text, parseReal) == Coerced(prior, text, parseReal)
  {
    if prior.ListVal? {
      assert |Split(text, ',')| >= 1;
    }
  }

  /** A logical never changes, whatever the text. */
  lemma CoercedBoolKeeps(b: bool, text: string, parseReal: string -> Option<real>)
    ensures Coerced(BoolVal(b), text, parseReal) == Ok(BoolVal(b))
  {
  }

  /** For an integer list, a trailing comma on a text whose pieces all
      parse raises ValueError on the empty last piece. */
  lemma TrailingCommaRejected(items: seq<Value>, text: string, parseReal: string -> Option<real>)
    requires items != [] && items[0].IntVal?
    requires IntsOfPieces(Split(text, ',')).Ok?
    ensures Coerced(ListVal(items), text + [','], parseReal) == Err(BadNumber(""))
  {
    SplitTrailing(text, ',');
    IntsOfPiecesEmptyLast(Split(text, ','));
  }

  lemma {:induction false} IntsOfPiecesEmptyLast(pieces: seq<string>)
    requires IntsOfPieces(pieces).Ok?
    ensures IntsOfPieces(pieces + [""]) == Err(BadNumber(""))
  {
    if pieces != [] {
      assert (pieces + [""])[0] == pieces[0];
      assert (pieces + [""])[1..] == pieces[1..] + [""];
      assert ParseInt(pieces[0]).Some?;
      IntsOfPiecesEmptyLast(pieces[1..]);
    } else {
      assert ParseInt("") == None;
    }
  }

  /** --get key: walk all but the last component and look that one up. */
  function Fetched(root: Value, key: string): Result<Value>
  {
    var path := Split(key, ':');
    var crumb :- LookupPath(root, path[..|path| - 1]);
    Lookup(crumb, path[|path| - 1])
  }

  /** --set key value: the namelist that is written back. */
  function Assigned(root: Value, key: string, text: string, parseReal: string -> Option<real>): Result<Value>
  {
    Assign(root, Split(key, ':'), v => Coerced(v, text, parseReal))
  }

  /** --get reads the variable the whole key names. */
  lemma FetchedReads(root: Value, key: string)
    ensures Fetched(root, key) == LookupPath(root, Split(key, ':'))
  {
    var path := Split(key, ':');
    PathParts(path);
    LookupPathSplit(root, path[..|path| - 1], [path[|path| - 1]]);
  }

  /** --get after --set prints the converted value. */
  lemma GetAfterSet(root: Value, key: string, text: string, parseReal: string -> Option<real>)
    requires Assigned(root, key, text, parseReal).Ok?
    ensures LookupPath(root, Split(key, ':')).Ok?
    ensures Fetched(Assigned(root, key, text, parseReal).value, key)
      == Coerced(LookupPath(root, Split(key, ':')).value, text, parseReal)
  {
    AssignReads(root, Split(key, ':'), v => Coerced(v, text, parseReal));
    FetchedReads(Assigned(root, key, text, parseReal).value, key);
  }

  /** --set leaves every variable whose key parts from the set one alone. */
  lemma SetKeepsOthers(root: Value, key: string, text: string, parseReal: string -> Option<real>, q: seq<string>, i: nat)
    requires Assigned(root, key, text, parseReal).Ok?
    requires i < |Split(key, ':')| && i < |q| && q[i] != Split(key, ':')[i] && q[..i] == Split(key, ':')[..i]
    ensures LookupPath(Assigned(root, key, text, parseReal).value, q) == LookupPath(root, q)
  {
    AssignOthers(root, Split(key, ':'), v => Coerced(v, text, parseReal), q, i);
  }

  /** Running the same --set twice writes the same namelist as once. */
  lemma SetIdempotent(root: Value, key: string, text: string, parseReal: string -> Option<real>)
    requires Assigned(root, key, text, parseReal).Ok?
    ensures Assigned(Assigned(root, key, text, parseReal).value, key, text, parseReal)
      == Assigned(root, key, text, parseReal)
  {
    var path := Split(key, ':');
    var coerce := v => Coerced(v, text, parseReal);
    AssignReads(root, path, coerce);
    CoercedIdempotent(LookupPath(root, path).value, text, parseReal);
    AssignIdempotent(root, path, coerce);
  }

  /** A --set of a logical, or of a variable of a kind --set has no branch
      for, writes the namelist back unchanged. */
  lemma SetUnconvertibleKeeps(root: Value, key: string, text: string, parseReal: string -> Option<real>)
    requires LookupPath(root, Split(key, ':')).Ok?
    requires var v := LookupPath(root, Split(key, ':')).value;
      v.BoolVal? || Unconvertible(v)
    ensures Assigned(root, key, text, parseReal) == Ok(root)
  {
    AssignUnchanged(root, Split(key, ':'), v => Coerced(v, text, parseReal));
  }

  // ---------------------------------------------------------------------
  // The two tools compared

  /** The two tools convert alike except for logicals and for list texts
      whose comma split ends in an empty piece. */
  lemma CoercedAgrees(prior: Value, text: string, parseReal: string -> Option<real>)
    requires !prior.BoolVal?
    requires prior.ListVal? ==> Split(text, ',')[|Split(text, ',')| - 1] != ""
    ensures ForecastNamelist.Coerced(prior, text, parseReal) == Coerced(prior, text, parseReal)
  {
    if prior.ListVal? {
      ForecastNamelist.TrimmedKeeps(Split(text, ','));
    }
  }

  /** The two --set runs write the same namelist under the same
      conditions. */
  lemma AssignedAgrees(root: Value, key: string, text: string, parseReal: string -> Option<real>)
    requires LookupPath(root, Split(key, ':')).Ok?
    requires !LookupPath(root, Split(key, ':')).value.BoolVal?
    requires LookupPath(root, Split(key, ':')).value.ListVal? ==> Split(text, ',')[|Split(text, ',')| - 1] != ""
    ensures ForecastNamelist.Assigned(root, key, text, parseReal) == Assigned(root, key, text, parseReal)
  {
    var path := Split(key, ':');
    CoercedAgrees(LookupPath(root, path).value, text, parseReal);
    AssignAlike(root, path, v => ForecastNamelist.Coerced(v, text, parseReal), v => Coerced(v, text, parseReal));
  }

  /** The two --get runs print the same unless the walk ends in a list,
      which only the forecast tool indexes by number. */
  lemma FetchedAgrees(root: Value, key: string)
    requires var path := Split(key, ':');
      LookupPath(root, path[..|path| - 1]).Ok? ==> !LookupPath(root, path[..|path| - 1]).value.ListVal?
    ensures ForecastNamelist.Fetched(root, key) == Fetched(root, key)
  {
  }

  /** The namelist the tool reads; --set writes it back. */
  class NamelistFile {
    var root: Value

    constructor (root: Value)
      ensures this.root == root
    {
      this.root := root;
    }

    /** --get key: the value printed. */
    method Get(key: string) returns (r: Result<Value>)
      ensures r == Fetched(root, key)
    {
      var path := Split(key, ':');
      var crumb :- Walk(root, path);
      r := Lookup(crumb, path[|path| - 1]);
    }

    /** --set key text: on success the namelist written back; on an
        exception the file is not written. */
    method Set(key: string, text: string, parseReal: string -> Option<real>) returns (r: Result<()>)
      modifies this
      ensures Written(old(root), Assigned(old(root), key, text, parseReal), r, root)
    {
      var path := Split(key, ':');
      var crumb :- Walk(root, path);
      var prior :- Lookup(crumb, path[|path| - 1]);
      var x :- Coerced(prior, text, parseReal);
      UpdateSucceeds(root, path, x);
      root := Update(root, path, x).value;
      r := Ok(());
    }
  }
}

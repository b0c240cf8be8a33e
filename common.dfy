/**
 * The decision logic of the wrapper's shared helpers: `getopt`, which resolves one
 * option from the parsed arguments, the persisted option dict and a default, and
 * `find_max_update_file`, which picks the most recently modified file of a listing.
 */
module Common {
  import opened Wrappers
  import opened Values

  /** The one-entry dicts an operation hands to `print_format` (or None). */
  datatype Reply =
    | Success(message: string)
    | Error(message: string)
    | Site(url: string)
    | Warn(message: string)
    | NoReply

  // ---------------------------------------------------------------------------
  // getopt

  /**
   * What a caller passes as `preval`: a dict (the parsed arguments) or any other
   * value. `Scalar(NoneVal)` is `preval=None`, the default.
   */
  datatype Preferred = Table(entries: map<string, Value>) | Scalar(value: Value)

  /** The value `getopt` looks at first: `preval.get(key, defval)` for a dict, `preval` itself otherwise. */
  function Candidate(key: string, pre: Preferred, def: Value): Value
  {
    match pre
    case Table(m) => if key in m then m[key] else def
    case Scalar(v) => v
  }

  /** The value `getopt(opt, key, preval, defval)` returns. */
  function Resolve(opt: map<string, Value>, key: string, pre: Preferred, def: Value): Value
  {
    if pre != Scalar(NoneVal) then
      var c := Candidate(key, pre, def);
      if !Truthy(c) && key in opt then opt[key] else c
    else if key in opt then opt[key]
    else def
  }

  /** The cases of `getopt`'s result, by what the preferred value, `opt` and `defval` hold. */
  lemma ResolveCases(opt: map<string, Value>, key: string, pre: Preferred, def: Value)
    // a truthy entry of the preferred dict wins whatever `opt` and `defval` hold
    ensures pre.Table? && key in pre.entries && Truthy(pre.entries[key]) ==> Resolve(opt, key, pre, def) == pre.entries[key]
    // a dict without the key offers `defval`, which wins when truthy
    ensures pre.Table? && key !in pre.entries && Truthy(def) ==> Resolve(opt, key, pre, def) == def
    // a truthy non-dict preferred value is returned unchanged
    ensures pre.Scalar? && Truthy(pre.value) ==> Resolve(opt, key, pre, def) == pre.value
    // a falsy candidate falls back on the persisted value, or is itself returned
    ensures pre != Scalar(NoneVal) && !Truthy(Candidate(key, pre, def)) && key in opt ==> Resolve(opt, key, pre, def) == opt[key]
    ensures pre != Scalar(NoneVal) && !Truthy(Candidate(key, pre, def)) && key !in opt ==> Resolve(opt, key, pre, def) == Candidate(key, pre, def)
    // without a preferred value: the persisted value, else the default
    ensures pre == Scalar(NoneVal) && key in opt ==> Resolve(opt, key, pre, def) == opt[key]
    ensures pre == Scalar(NoneVal) && key !in opt ==> Resolve(opt, key, pre, def) == def
  {
  }

  /**
   * The three-tier precedence a reader expects of an option resolver: an explicit
   * truthy argument, else the persisted value when there is one, else the default.
   */
  function ThreeTier(cli: Option<Value>, persisted: Option<Value>, def: Value): Value
  {
    if cli.Some? && Truthy(cli.value) then cli.value
    else if persisted.Some? then persisted.value
    else def
  }

  function Lookup(m: map<string, Value>, key: string): Option<Value>
  {
    if key in m then Some(m[key]) else None
  }

  /**
   * When the preferred dict holds the key, as the parsed arguments always do,
   * `getopt` follows the three-tier precedence exactly, except that a falsy
   * argument with nothing persisted is returned itself rather than `defval`.
   */
  lemma ResolveFollowsThreeTierPrecedence(opt: map<string, Value>, key: string, args: map<string, Value>, def: Value)
    requires key in args
    ensures Truthy(args[key]) || key in opt ==>
      Resolve(opt, key, Table(args), def) == ThreeTier(Lookup(args, key), Lookup(opt, key), def)
    ensures !Truthy(args[key]) && key !in opt ==> Resolve(opt, key, Table(args), def) == args[key]
  {
  }

  /**
   * Where the three-tier precedence and `getopt` part ways: a preferred dict
   * without the key makes a truthy `defval` beat the persisted value.
   */
  lemma TruthyDefaultBeatsPersisted(opt: map<string, Value>, key: string, args: map<string, Value>, def: Value)
    requires key in opt && key !in args && Truthy(def)
    ensures Resolve(opt, key, Table(args), def) == def
    ensures ThreeTier(Lookup(args, key), Lookup(opt, key), def) == opt[key]
  {
  }

  /** The option dict `opt` that `getopt` reads and, with `withset`, updates in place. */
  class OptionSet {
    var entries: map<string, Value>

    constructor (loaded: map<string, Value>)
      ensures entries == loaded
    {
      entries := loaded;
    }

    /**
     * `getopt(opt, key, preval, defval, withset)`. With a preferred value and
     * `withset`, exactly `key` is (re)written with the result; without one, only a
     * missing key gains the default; without `withset` nothing changes.
     */
    method GetOpt(key: string, pre: Preferred, def: Value, withset: bool) returns (v: Value)
      modifies this
      ensures v == Resolve(old(entries), key, pre, def)
      ensures !withset ==> entries == old(entries)
      ensures withset && pre != Scalar(NoneVal) ==> entries == old(entries)[key := v]
      ensures withset && pre == Scalar(NoneVal) && key in old(entries) ==> entries == old(entries)
      ensures withset && pre == Scalar(NoneVal) && key !in old(entries) ==> entries == old(entries)[key := def]
    {
      if pre != Scalar(NoneVal) {
        v := if pre.Table? then (if key in pre.entries then pre.entries[key] else def) else pre.value;
        if !Truthy(v) && key in entries {
          v := entries[key];
        }
        if withset {
          entries := entries[key := v];
        }
        return;
      }
      if key in entries {
        v := entries[key];
      } else {
        if withset {
          entries := entries[key := def];
        }
        v := def;
      }
    }
  }

  // ---------------------------------------------------------------------------
  // find_max_update_file

  /** One file a glob produced, with its modification time. */
  datatype FileStat = FileStat(path: string, mtime: int)

  /** The paths of a listing, in order. */
  function Names(fs: seq<FileStat>): (r: seq<string>)
    ensures |r| == |fs|
    ensures forall i :: 0 <= i < |fs| ==> r[i] == fs[i].path
  {
    if fs == [] then [] else [fs[0].path] + Names(fs[1..])
  }

  predicate DistinctPaths(fs: seq<FileStat>)
  {
    forall i, j :: 0 <= i < j < |fs| ==> fs[i].path != fs[j].path
  }

  /** `d[f.path] = f.mtime` on an insertion-ordered dict, held as its list of entries. */
  function Store(d: seq<FileStat>, f: FileStat): seq<FileStat>
  {
    if d == [] then [f]
    else if d[0].path == f.path then [f] + d[1..]
    else [d[0]] + Store(d[1..], f)
  }

  /** Storing a file adds its path and keeps every path already there. */
  lemma {:induction false} StoreNames(d: seq<FileStat>, f: FileStat)
    ensures forall p :: p in Names(Store(d, f)) <==> p in Names(d) || p == f.path
  {
    if d != [] {
      assert Names(d) == [d[0].path] + Names(d[1..]);
      if d[0].path != f.path {
        StoreNames(d[1..], f);
        assert Names(Store(d, f)) == [d[0].path] + Names(Store(d[1..], f));
      } else {
        assert Names(Store(d, f)) == [f.path] + Names(d[1..]);
      }
    }
  }

  /** Storing a file keeps paths unique. */
  lemma {:induction false} StoreDistinct(d: seq<FileStat>, f: FileStat)
    requires DistinctPaths(d)
    ensures DistinctPaths(Store(d, f))
  {
    if d != [] && d[0].path != f.path {
      var rest := Store(d[1..], f);
      var r := [d[0]] + rest;
      StoreDistinct(d[1..], f);
      StoreNames(d[1..], f);
      assert Names(d) == [d[0].path] + Names(d[1..]);
      assert d[0].path !in Names(d[1..]);
      forall i, j | 0 <= i < j < |r| ensures r[i].path != r[j].path {
        if i == 0 {
          assert r[j].path == Names(rest)[j - 1];
        }
      }
    }
  }

  /** Storing a file under a new path appends it at the end. */
  lemma {:induction false} StoreAppendsNew(d: seq<FileStat>, f: FileStat)
    requires f.path !in Names(d)
    ensures Store(d, f) == d + [f]
  {
    if d != [] {
      assert Names(d) == [d[0].path] + Names(d[1..]);
      StoreAppendsNew(d[1..], f);
      assert [d[0]] + (d[1..] + [f]) == d + [f];
    }
  }

  /** The dict comprehension's loop: store each listed file, in order, into `d`. */
  function StoreAll(d: seq<FileStat>, files: seq<FileStat>): seq<FileStat>
    decreases |files|
  {
    if files == [] then d else StoreAll(Store(d, files[0]), files[1..])
  }

  lemma {:induction false} StoreAllNames(d: seq<FileStat>, files: seq<FileStat>)
    ensures forall p :: p in Names(StoreAll(d, files)) <==> p in Names(d) || p in Names(files)
    decreases |files|
  {
    if files != [] {
      StoreNames(d, files[0]);
      StoreAllNames(Store(d, files[0]), files[1..]);
      assert Names(files) == [files[0].path] + Names(files[1..]);
    }
  }

  lemma {:induction false} StoreAllDistinct(d: seq<FileStat>, files: seq<FileStat>)
    requires DistinctPaths(d)
    ensures DistinctPaths(StoreAll(d, files))
    decreases |files|
  {
    if files != [] {
      StoreDistinct(d, files[0]);
      StoreAllDistinct(Store(d, files[0]), files[1..]);
    }
  }

  lemma {:induction false} StoreAllAppends(d: seq<FileStat>, files: seq<FileStat>)
    requires DistinctPaths(d + files)
    ensures StoreAll(d, files) == d + files
    decreases |files|
  {
    if files == [] {
      assert d + files == d;
    } else {
      forall i | 0 <= i < |d| ensures Names(d)[i] != files[0].path {
        assert (d + files)[i] == d[i] && (d + files)[|d|] == files[0];
      }
      StoreAppendsNew(d, files[0]);
      var d' := Store(d, files[0]);
      assert d' == d + [files[0]];
      assert d' + files[1..] == d + files;
      StoreAllAppends(d', files[1..]);
    }
  }

  /** `{fpath: mtime for fpath in files}`: one entry per path, in first-seen order. */
  function Tabulate(files: seq<FileStat>): seq<FileStat>
  {
    StoreAll([], files)
  }

  /**
   * The dict holds each listed path exactly once, and a listing without repeated
   * paths is its own dict.
   */
  lemma TabulateFacts(files: seq<FileStat>)
    ensures DistinctPaths(Tabulate(files))
    ensures forall p :: p in Names(Tabulate(files)) <==> p in Names(files)
    ensures DistinctPaths(files) ==> Tabulate(files) == files
    ensures Tabulate(files) == [] <==> files == []
  {
    StoreAllNames([], files);
    StoreAllDistinct([], files);
    assert [] + files == files;
    if DistinctPaths(files) {
      StoreAllAppends([], files);
    }
    if files != [] {
      assert files[0].path in Names(files);
    }
  }

  /** The index `max(d, key=d.get)` picks: the first entry with the largest mtime. */
  function NewestIndex(d: seq<FileStat>): (k: nat)
    requires d != []
    ensures k < |d|
    ensures forall j :: 0 <= j < |d| ==> d[j].mtime <= d[k].mtime
    ensures forall j :: 0 <= j < k ==> d[j].mtime < d[k].mtime
  {
    if |d| == 1 then 0
    else
      var k := NewestIndex(d[..|d| - 1]);
      if d[|d| - 1].mtime > d[k].mtime then |d| - 1 else k
  }

  /**
   * `find_max_update_file` over the files a glob produced: `max` of an empty dict
   * raises ValueError; otherwise the first path of the dict whose mtime no other
   * entry exceeds.
   */
  function FindMaxUpdateFile(files: seq<FileStat>): (r: Result<string>)
    ensures r.Err? <==> files == []
    ensures r.Err? ==> r.exception == "ValueError"
    ensures r.Ok? ==> r.value in Names(files)
    ensures r.Ok? ==> var d := Tabulate(files);
      exists k ::
        && 0 <= k < |d| && d[k].path == r.value
        && (forall j :: 0 <= j < |d| ==> d[j].mtime <= d[k].mtime)
        && (forall j :: 0 <= j < k ==> d[j].mtime < d[k].mtime)
  {
    TabulateFacts(files);
    var d := Tabulate(files);
    if d == [] then Err("ValueError")
    else
      var k := NewestIndex(d);
      assert d[k].path == Names(d)[k];
      Ok(d[k].path)
  }

  /**
   * For a listing without repeated paths (what a glob yields), the result is the
   * first listed file whose mtime is at least every other file's.
   */
  lemma NewestOfListing(files: seq<FileStat>)
    requires DistinctPaths(files) && files != []
    ensures FindMaxUpdateFile(files).Ok?
    ensures exists k ::
      && 0 <= k < |files| && files[k].path == FindMaxUpdateFile(files).value
      && (forall j :: 0 <= j < |files| ==> files[j].mtime <= files[k].mtime)
      && (forall j :: 0 <= j < k ==> files[j].mtime < files[k].mtime)
  {
    TabulateFacts(files);
    var k := NewestIndex(files);
    assert files[k].path == FindMaxUpdateFile(files).value;
  }
}

/** The name space capability and the two entry points that load a name space
    file into it: NewNS (from scratch) and AddNS (on top of what is there). */
module Namespace {
  import opened Ops
  import Parser
  import Strings

  /** The errors an entry point returns. */
  datatype Error =
    | ParseFailed(cause: Parser.ParseError)  // the name space file did not compile
    | BuilderFailed                          // creating the builder failed
    | CallFailed(index: nat)                 // call number `index` on the name space failed

  /** One call made on a name space. `BuildCall` stands for the builder applying
      a whole parsed file, a step this model does not open up. */
  datatype Call =
    | BindCall(newPath: string, oldPath: string, flag: MountFlag)
    | MountCall(servername: string, oldPath: string, spec: string, flag: MountFlag)
    | UnmountCall(newPath: string, oldPath: string)
    | ClearCall
    | ChdirCall(dir: string)
    | ImportCall(host: string, remotepath: string, mountpoint: string, flag: MountFlag)
    | BuildCall(file: File)

  /** The contents of a name space file as its scanner delivers them: the lines
      read, and whether reading stopped on an error. */
  datatype NsFile = NsFile(lines: seq<string>, scanFailed: bool)

  /** An implementation of the Namespace interface that logs every call it
      receives. Which calls fail is fixed when it is made: call number `i`
      (counting from 0) fails exactly when `i` is in `failing`. */
  class RecordingNamespace {
    var calls: seq<Call>
    const failing: set<nat>

    constructor (failing: set<nat>)
      ensures calls == [] && this.failing == failing
    {
      calls := [];
      this.failing := failing;
    }

    /** The answer to call number `i`. */
    function Response(i: nat): Option<Error> {
      if i in failing then Some(CallFailed(i)) else None
    }

    method Record(c: Call) returns (err: Option<Error>)
      modifies this`calls
      ensures calls == old(calls) + [c]
      ensures err == Response(|old(calls)|)
    {
      err := Response(|calls|);
      calls := calls + [c];
    }

    /** Bind binds newPath on oldPath. */
    method Bind(newPath: string, oldPath: string, flag: MountFlag) returns (err: Option<Error>)
      modifies this`calls
      ensures calls == old(calls) + [BindCall(newPath, oldPath, flag)]
      ensures err == Response(|old(calls)|)
    {
      err := Record(BindCall(newPath, oldPath, flag));
    }

    /** Mount mounts servername on oldPath. */
    method Mount(servername: string, oldPath: string, spec: string, flag: MountFlag) returns (err: Option<Error>)
      modifies this`calls
      ensures calls == old(calls) + [MountCall(servername, oldPath, spec, flag)]
      ensures err == Response(|old(calls)|)
    {
      err := Record(MountCall(servername, oldPath, spec, flag));
    }

    /** Unmount unmounts newPath from oldPath, or everything on oldPath if newPath is empty. */
    method Unmount(newPath: string, oldPath: string) returns (err: Option<Error>)
      modifies this`calls
      ensures calls == old(calls) + [UnmountCall(newPath, oldPath)]
      ensures err == Response(|old(calls)|)
    {
      err := Record(UnmountCall(newPath, oldPath));
    }

    /** Clear empties the name space. */
    method Clear() returns (err: Option<Error>)
      modifies this`calls
      ensures calls == old(calls) + [ClearCall]
      ensures err == Response(|old(calls)|)
    {
      err := Record(ClearCall);
    }

    /** Chdir changes the working directory to dir. */
    method Chdir(dir: string) returns (err: Option<Error>)
      modifies this`calls
      ensures calls == old(calls) + [ChdirCall(dir)]
      ensures err == Response(|old(calls)|)
    {
      err := Record(ChdirCall(dir));
    }

    /** Import imports a name space from a remote host. */
    method Import(host: string, remotepath: string, mountpoint: string, flag: MountFlag) returns (err: Option<Error>)
      modifies this`calls
      ensures calls == old(calls) + [ImportCall(host, remotepath, mountpoint, flag)]
      ensures err == Response(|old(calls)|)
    {
      err := Record(ImportCall(host, remotepath, mountpoint, flag));
    }
  }

  /** The builder holds the parsed file between parsing and building. */
  class Builder {
    var file: File

    constructor ()
      ensures file == []
    {
      file := [];
    }

    /** Compile the name space file; on success keep its commands. */
    method Parse(nsfile: NsFile) returns (err: Option<Error>)
      modifies this
      ensures Parser.ParseLines(nsfile.lines).Ok? ==> err == None && file == Parser.ParseLines(nsfile.lines).value
      ensures Parser.ParseLines(nsfile.lines).Err? ==>
                err == Some(ParseFailed(Parser.ParseLines(nsfile.lines).error)) && file == old(file)
    {
      var r := Parser.Parse(nsfile.lines, nsfile.scanFailed);
      match r
      case Ok(f) =>
        file := f;
        err := None;
      case Err(e) =>
        err := Some(ParseFailed(e));
    }

    /** Apply the kept commands to `ns`: one opaque step whose answer is the
        name space's answer to it. */
    method BuildNs(ns: RecordingNamespace) returns (err: Option<Error>)
      modifies ns`calls
      ensures ns.calls == old(ns.calls) + [BuildCall(file)]
      ensures err == ns.Response(|old(ns.calls)|)
    {
      err := ns.Record(BuildCall(file));
    }
  }

  /** Create a builder; `fails` says whether its creation reports an error. */
  method NewBuilder(fails: bool) returns (r: Builder, err: Option<Error>)
    ensures fresh(r) && r.file == []
    ensures err == if fails then Some(BuilderFailed) else None
  {
    r := new Builder();
    err := if fails then Some(BuilderFailed) else None;
  }

  /** Build a name space from scratch: clear `ns` (ignoring the answer), then
      parse the file and, only if that worked, build it into `ns`. */
  method NewNS(ns: RecordingNamespace, nsfile: NsFile, builderFails: bool) returns (err: Option<Error>)
    modifies ns`calls
    ensures builderFails ==>
              err == Some(BuilderFailed) && ns.calls == old(ns.calls) + [ClearCall]
    ensures !builderFails && Parser.ParseLines(nsfile.lines).Err? ==>
              err == Some(ParseFailed(Parser.ParseLines(nsfile.lines).error))
              && ns.calls == old(ns.calls) + [ClearCall]
    ensures !builderFails && Parser.ParseLines(nsfile.lines).Ok? ==>
              ns.calls == old(ns.calls) + [ClearCall, BuildCall(Parser.ParseLines(nsfile.lines).value)]
              && err == ns.Response(|old(ns.calls)| + 1)
  {
    var cleared := ns.Clear();
    var r, e := NewBuilder(builderFails);
    if e.Some? {
      return e;
    }
    e := r.Parse(nsfile);
    if e.Some? {
      return e;
    }
    err := r.BuildNs(ns);
  }

  /** Apply a name space file to `ns` as it is: the same sequence as NewNS
      without the Clear. */
  method AddNS(ns: RecordingNamespace, nsfile: NsFile, builderFails: bool) returns (err: Option<Error>)
    modifies ns`calls
    ensures builderFails ==>
              err == Some(BuilderFailed) && ns.calls == old(ns.calls)
    ensures !builderFails && Parser.ParseLines(nsfile.lines).Err? ==>
              err == Some(ParseFailed(Parser.ParseLines(nsfile.lines).error))
              && ns.calls == old(ns.calls)
    ensures !builderFails && Parser.ParseLines(nsfile.lines).Ok? ==>
              ns.calls == old(ns.calls) + [BuildCall(Parser.ParseLines(nsfile.lines).value)]
              && err == ns.Response(|old(ns.calls)|)
  {
    var r, e := NewBuilder(builderFails);
    if e.Some? {
      return e;
    }
    e := r.Parse(nsfile);
    if e.Some? {
      return e;
    }
    err := r.BuildNs(ns);
  }

  /** Two uses of the entry points: a failing Clear does not stop NewNS, and a
      file whose only command line fails to compile never reaches the builder
      of AddNS. */
  method EntryPointExamples()
  {
    var ns := new RecordingNamespace({0});
    var err := NewNS(ns, NsFile(["# only a comment"], false), false);
    Parser.OnlyIgnoredLines(["# only a comment"]);
    assert ns.calls == [ClearCall, BuildCall([])];
    assert err == None;

    var ns2 := new RecordingNamespace({});
    Parser.TabLineHasNoFields();
    assert Parser.ParseLines(["\t"]) == Err(Parser.NoFields("\t"));
    err := AddNS(ns2, NsFile(["\t"], true), false);
    assert ns2.calls == [];
    assert err == Some(ParseFailed(Parser.NoFields("\t")));
  }
}

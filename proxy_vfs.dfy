/** A filesystem layered over an ordered list of child filesystems. Each
    primitive operation is a fallback chain: the children are tried in list
    order, each only if everything before it failed, and the first success
    wins; if every child fails, the last child's failure is reported. */
module ProxyVfs {
  import opened Common
  import opened Vfs

  /** `r` could have come from a fallback chain over `parents`: a success
      is some child's own answer, and a failure means every child failed. */
  ghost predicate FromSomeChild<T>(parents: seq<Vfs>, callback: Vfs -> Result<T>, r: Result<T>)
  {
    && (r.Ok? ==> exists j :: 0 <= j < |parents| && r == callback(parents[j]))
    && (r.Fail? ==> forall j :: 0 <= j < |parents| ==> callback(parents[j]).Fail?)
  }

  /** The settled value of the fallback chain over `parents`: start from a
      rejection; each child in turn replaces a failure by its own result
      and leaves a success alone. */
  function Chain<T>(parents: seq<Vfs>, callback: Vfs -> Result<T>): (r: Result<T>)
    ensures FromSomeChild(parents, callback, r)
    ensures parents == [] ==> r == Fail(ChainStart)
    decreases |parents|
  {
    if parents == [] then Fail(ChainStart)
    else
      var prior := Chain(parents[..|parents| - 1], callback);
      if prior.Ok? then prior else callback(parents[|parents| - 1])
  }

  /** What a chain that settled to `r` invoked: `calls`, a prefix of
      `parents` in list order, each call but the last one failing. On a
      success the result is the last call's; on a failure every child was
      called and the result is the last child's failure (the starting
      rejection when there are no children). */
  ghost predicate TriedInOrder<T>(parents: seq<Vfs>, callback: Vfs -> Result<T>, calls: seq<Vfs>, r: Result<T>)
  {
    && |calls| <= |parents| && calls == parents[..|calls|]
    && (forall j :: 0 <= j < |calls| - 1 ==> callback(calls[j]).Fail?)
    && (r.Ok? ==> |calls| > 0 && r == callback(calls[|calls| - 1]))
    && (r.Fail? ==> calls == parents && r == if parents == [] then Fail(ChainStart)
                                            else callback(parents[|parents| - 1]))
  }

  /** The first child that succeeds decides the chain, whatever follows. */
  lemma {:induction false} ChainFirstSuccess<T>(parents: seq<Vfs>, callback: Vfs -> Result<T>, k: nat)
    requires k < |parents| && callback(parents[k]).Ok?
    requires forall j :: 0 <= j < k ==> callback(parents[j]).Fail?
    ensures Chain(parents, callback) == callback(parents[k])
    decreases |parents|
  {
    var init := parents[..|parents| - 1];
    if k == |parents| - 1 {
      ChainAllFail(init, callback);
    } else {
      ChainFirstSuccess(init, callback, k);
    }
  }

  /** When every child fails, the chain fails with the last child's
      failure, or with the starting rejection when there is no child. */
  lemma {:induction false} ChainAllFail<T>(parents: seq<Vfs>, callback: Vfs -> Result<T>)
    requires forall j :: 0 <= j < |parents| ==> callback(parents[j]).Fail?
    ensures Chain(parents, callback) ==
              if parents == [] then Fail(ChainStart) else callback(parents[|parents| - 1])
    decreases |parents|
  {
    if parents != [] {
      ChainAllFail(parents[..|parents| - 1], callback);
    }
  }

  /** The chain succeeds exactly when some child succeeds. */
  lemma ChainSucceedsIff<T>(parents: seq<Vfs>, callback: Vfs -> Result<T>)
    ensures Chain(parents, callback).Ok? <==> exists j :: 0 <= j < |parents| && callback(parents[j]).Ok?
  {
    if j :| 0 <= j < |parents| && callback(parents[j]).Ok? {
      var k := FirstSuccess(parents, callback, j);
      ChainFirstSuccess(parents, callback, k);
    } else {
      ChainAllFail(parents, callback);
    }
  }

  /** Some child at or before `j` is the first one to succeed. */
  lemma {:induction false} FirstSuccess<T>(parents: seq<Vfs>, callback: Vfs -> Result<T>, j: nat) returns (k: nat)
    requires j < |parents| && callback(parents[j]).Ok?
    ensures k <= j && callback(parents[k]).Ok?
    ensures forall i :: 0 <= i < k ==> callback(parents[i]).Fail?
    decreases j
  {
    if i :| 0 <= i < j && callback(parents[i]).Ok? {
      k := FirstSuccess(parents, callback, i);
    } else {
      k := j;
    }
  }

  /** Children appended after a chain that already succeeds change
      nothing: they are never consulted. */
  lemma {:induction false} ChainIgnoresLaterChildren<T>(parents: seq<Vfs>, later: seq<Vfs>, callback: Vfs -> Result<T>)
    requires Chain(parents, callback).Ok?
    ensures Chain(parents + later, callback) == Chain(parents, callback)
    decreases |later|
  {
    if later == [] {
      assert parents + later == parents;
    } else {
      var init := later[..|later| - 1];
      assert (parents + later)[..|parents + later| - 1] == parents + init;
      ChainIgnoresLaterChildren(parents, init, callback);
    }
  }

  /** The child calls the five overrides make: each forwards its own
      arguments unchanged. */
  function DevctlCall(command: int, input: Stream, output: Stream): Vfs -> Result<int>
  {
    (v: Vfs) => v.devctl(command, input, output)
  }

  function OpenCall(path: string, flags: FileOpenFlags, mode: FileMode): Vfs -> Result<VfsEntry>
  {
    (v: Vfs) => v.open(path, flags, mode)
  }

  function DeleteCall(path: string): Vfs -> Result<()>
  {
    (v: Vfs) => v.delete(path)
  }

  function OpenDirectoryCall(path: string): Vfs -> Result<VfsEntry>
  {
    (v: Vfs) => v.openDirectory(path)
  }

  function GetStatCall(path: string): Vfs -> Result<VfsStat>
  {
    (v: Vfs) => v.getStat(path)
  }

  /** The filesystem a proxy over `parents` presents; it may itself be the
      child of another proxy. Each primitive answers with some child's own
      answer, or fails only when every child failed. Whole-file reads and
      writes and existence tests are not overridden: they compose the
      chained primitives. */
  function Proxy(parents: seq<Vfs>): (v: Vfs)
    ensures forall command, input, output ::
              FromSomeChild(parents, DevctlCall(command, input, output), v.devctl(command, input, output))
    ensures forall path, flags, mode ::
              FromSomeChild(parents, OpenCall(path, flags, mode), v.open(path, flags, mode))
    ensures forall path :: FromSomeChild(parents, DeleteCall(path), v.delete(path))
    ensures forall path :: FromSomeChild(parents, OpenDirectoryCall(path), v.openDirectory(path))
    ensures forall path :: FromSomeChild(parents, GetStatCall(path), v.getStat(path))
  {
    Vfs((command, input, output) => Chain(parents, DevctlCall(command, input, output)),
        (path, flags, mode) => Chain(parents, OpenCall(path, flags, mode)),
        path => Chain(parents, DeleteCall(path)),
        path => Chain(parents, OpenDirectoryCall(path)),
        path => Chain(parents, GetStatCall(path)))
  }

  /** A whole-file read through a proxy falls back across children only
      while their opens fail: the first child that opens the file serves the
      read, and if that read fails the failure is final. */
  lemma ProxyReadAllNoRetry(parents: seq<Vfs>, path: string, k: nat)
    requires k < |parents| && parents[k].open(path, Read, DefaultMode).Ok?
    requires forall j :: 0 <= j < k ==> parents[j].open(path, Read, DefaultMode).Fail?
    ensures Proxy(parents).ReadAll(path) == parents[k].open(path, Read, DefaultMode).value.ReadAll()
  {
    ChainFirstSuccess(parents, OpenCall(path, Read, DefaultMode), k);
  }

  /** A path exists in a proxy exactly when some child can stat it. */
  lemma ProxyExists(parents: seq<Vfs>, path: string)
    ensures Proxy(parents).Exists(path).value <==>
              exists j :: 0 <= j < |parents| && parents[j].getStat(path).Ok?
  {
    ChainSucceedsIff(parents, GetStatCall(path));
    assert forall j :: 0 <= j < |parents| ==>
             (GetStatCall(path)(parents[j]).Ok? <==> parents[j].getStat(path).Ok?);
  }

  /** `ProxyVfs`: the operations a proxy runs, as the fallback loop. */
  class ProxyVfs {
    const parentVfsList: seq<Vfs>

    constructor (parentVfsList: seq<Vfs>)
      ensures this.parentVfsList == parentVfsList
    {
      this.parentVfsList := parentVfsList;
    }

    /** `_callChainWhenError`: starts from a rejection and, child by child,
        calls `callback` on the child only while the result so far is a
        failure. `calls` records the children called. */
    method CallChainWhenError<T>(callback: Vfs -> Result<T>) returns (r: Result<T>, ghost calls: seq<Vfs>)
      ensures r == Chain(parentVfsList, callback)
      ensures TriedInOrder(parentVfsList, callback, calls, r)
    {
      r := Fail(ChainStart);
      calls := [];
      for i := 0 to |parentVfsList|
        invariant r == Chain(parentVfsList[..i], callback)
        invariant TriedInOrder(parentVfsList[..i], callback, calls, r)
      {
        assert parentVfsList[..i + 1][..i] == parentVfsList[..i];
        if r.Fail? {
          r := callback(parentVfsList[i]);
          calls := calls + [parentVfsList[i]];
        }
      }
      assert parentVfsList[..|parentVfsList|] == parentVfsList;
    }

    method DevctlAsync(command: int, input: Stream, output: Stream) returns (r: Result<int>, ghost calls: seq<Vfs>)
      ensures r == Proxy(parentVfsList).devctl(command, input, output)
      ensures TriedInOrder(parentVfsList, DevctlCall(command, input, output), calls, r)
    {
      r, calls := CallChainWhenError(DevctlCall(command, input, output));
    }

    method OpenAsync(path: string, flags: FileOpenFlags, mode: FileMode) returns (r: Result<VfsEntry>, ghost calls: seq<Vfs>)
      ensures r == Proxy(parentVfsList).open(path, flags, mode)
      ensures TriedInOrder(parentVfsList, OpenCall(path, flags, mode), calls, r)
    {
      r, calls := CallChainWhenError(OpenCall(path, flags, mode));
    }

    method DeleteAsync(path: string) returns (r: Result<()>, ghost calls: seq<Vfs>)
      ensures r == Proxy(parentVfsList).delete(path)
      ensures TriedInOrder(parentVfsList, DeleteCall(path), calls, r)
    {
      r, calls := CallChainWhenError(DeleteCall(path));
    }

    method OpenDirectoryAsync(path: string) returns (r: Result<VfsEntry>, ghost calls: seq<Vfs>)
      ensures r == Proxy(parentVfsList).openDirectory(path)
      ensures TriedInOrder(parentVfsList, OpenDirectoryCall(path), calls, r)
    {
      r, calls := CallChainWhenError(OpenDirectoryCall(path));
    }

    method GetStatAsync(path: string) returns (r: Result<VfsStat>, ghost calls: seq<Vfs>)
      ensures r == Proxy(parentVfsList).getStat(path)
      ensures TriedInOrder(parentVfsList, GetStatCall(path), calls, r)
    {
      r, calls := CallChainWhenError(GetStatCall(path));
    }
  }
}

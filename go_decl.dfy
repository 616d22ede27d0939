/**
  Declarations of the unfinished go/ rewrite (go/decl.go): the four
  declaration groups, their `Add` methods and the parameter constructors.

  A group is a Go struct whose `items` slice `Add` appends to, so each group
  is a class here. The `cfg` callback a builder hands the new group is given
  as the list of `Add` calls it makes (`None` for a nil callback), and the
  body callback of `FuncDecls.Add` as the statements it leaves in the block.
 */
module GoDecl {
  import opened Wrappers
  import opened CodeWriter
  import opened GoAst
  import opened GoStmt

  datatype GenParamDecl = GenParamDecl(id: string, ext: bool, cnst: Option<Type>)

  /** A parameter; a nil type is `None`. */
  datatype ParamDecl = ParamDecl(id: string, typ: Option<Type>, vargs: bool)

  datatype TypeDecl = TypeDecl(comm: string, id: string, params: seq<GenParamDecl>, def: Option<Type>, alias: bool)

  datatype FuncDecl = FuncDecl(
    comm: string, rcv: Option<ParamDecl>, id: string, gparams: seq<GenParamDecl>,
    params: seq<ParamDecl>, ret: seq<ParamDecl>, body: Stmt)

  /** The item of both `VarDecls` and `ConstDecls`. */
  datatype VarDecl = VarDecl(comm: string, id: string, typ: Option<Type>, init: Option<Expr>)

  /** The arguments of one `FuncDecls.Add` call; `body` is what the body callback writes into the block. */
  datatype FuncArgs = FuncArgs(
    comm: string, recv: ParamDecl, id: string, genParams: seq<GenParamDecl>,
    params: seq<ParamDecl>, ret: seq<ParamDecl>, body: Option<seq<Stmt>>)

  /** `GenParam(id, ext, constraint)`. */
  function GenParam(id: string, ext: bool, constraint: Option<Type>): (p: GenParamDecl)
    ensures p.id == id && p.ext == ext && p.cnst == constraint
  {
    GenParamDecl(id, ext, constraint)
  }

  /** `Param(id, t, variadic)`. */
  function Param(id: string, t: Option<Type>, variadic: bool): (p: ParamDecl)
    ensures p.id == id && p.typ == t && p.vargs == variadic
  {
    ParamDecl(id, t, variadic)
  }

  /** `config(&b, body)` on a fresh empty block: the block the callback leaves, empty for a nil callback. */
  function ConfigBlock(body: Option<seq<Stmt>>): (b: Stmt)
    ensures b.BlockStmt?
    ensures body.None? ==> b.stmts == []
    ensures body.Some? ==> b.stmts == body.value
  {
    BlockStmt(if body.Some? then body.value else [])
  }

  /**
    The item `FuncDecls.Add` appends: a receiver only when the receiver's
    type is not nil, the body built by the body callback, the rest as given.
   */
  function FuncItem(a: FuncArgs): (d: FuncDecl)
    ensures d.rcv.Some? <==> a.recv.typ.Some?
    ensures d.rcv.Some? ==> d.rcv.value == a.recv
    ensures d.body == ConfigBlock(a.body)
    ensures d.comm == a.comm && d.id == a.id && d.gparams == a.genParams
    ensures d.params == a.params && d.ret == a.ret
  {
    FuncDecl(a.comm, if a.recv.typ.Some? then Some(a.recv) else None, a.id,
             a.genParams, a.params, a.ret, ConfigBlock(a.body))
  }

  function FuncItems(adds: seq<FuncArgs>): (r: seq<FuncDecl>)
    ensures |r| == |adds|
    ensures forall k :: 0 <= k < |adds| ==> r[k] == FuncItem(adds[k])
  {
    seq(|adds|, k requires 0 <= k < |adds| => FuncItem(adds[k]))
  }

  /** What a `cfg` callback adds: nothing for a nil callback. */
  function Added<T>(cfg: Option<seq<T>>): seq<T>
  {
    if cfg.Some? then cfg.value else []
  }

  class TypeDecls {
    var items: seq<TypeDecl>

    constructor ()
      ensures items == []
    {
      items := [];
    }

    method Add(comment: string, id: string, genParams: seq<GenParamDecl>, def: Option<Type>, alias: bool)
      modifies this
      ensures items == old(items) + [TypeDecl(comment, id, genParams, def, alias)]
    {
      items := items + [TypeDecl(comment, id, genParams, def, alias)];
    }

    /** `config(t, cfg)`: runs the callback's `Add` calls in order. */
    method Config(cfg: Option<seq<TypeDecl>>)
      modifies this
      ensures items == old(items) + Added(cfg)
    {
      var adds := Added(cfg);
      var idx := 0;
      while idx < |adds|
        invariant 0 <= idx <= |adds|
        invariant items == old(items) + adds[..idx]
      {
        var d := adds[idx];
        Add(d.comm, d.id, d.params, d.def, d.alias);
        assert adds[..idx + 1] == adds[..idx] + [d];
        idx := idx + 1;
      }
      assert adds[..idx] == adds;
    }

    /** The `write` stub: nothing is written. */
    method Write(w: Writer)
      modifies w
      ensures w.Snapshot() == old(w.Snapshot())
    {
    }
  }

  class FuncDecls {
    var items: seq<FuncDecl>

    constructor ()
      ensures items == []
    {
      items := [];
    }

    method Add(comm: string, recv: ParamDecl, id: string, genParams: seq<GenParamDecl>,
               params: seq<ParamDecl>, ret: seq<ParamDecl>, body: Option<seq<Stmt>>)
      modifies this
      ensures items == old(items) + [FuncItem(FuncArgs(comm, recv, id, genParams, params, ret, body))]
    {
      var rcv: Option<ParamDecl> := None;
      if recv.typ.Some? {
        rcv := Some(recv);
      }
      var b := ConfigBlock(body);
      items := items + [FuncDecl(comm, rcv, id, genParams, params, ret, b)];
    }

    method Config(cfg: Option<seq<FuncArgs>>)
      modifies this
      ensures items == old(items) + FuncItems(Added(cfg))
    {
      var adds := Added(cfg);
      var idx := 0;
      while idx < |adds|
        invariant 0 <= idx <= |adds|
        invariant items == old(items) + FuncItems(adds[..idx])
      {
        var a := adds[idx];
        Add(a.comm, a.recv, a.id, a.genParams, a.params, a.ret, a.body);
        assert FuncItems(adds[..idx + 1]) == FuncItems(adds[..idx]) + [FuncItem(a)];
        idx := idx + 1;
      }
      assert adds[..idx] == adds;
    }

    method Write(w: Writer)
      modifies w
      ensures w.Snapshot() == old(w.Snapshot())
    {
    }
  }

  class VarDecls {
    var items: seq<VarDecl>

    constructor ()
      ensures items == []
    {
      items := [];
    }

    method Add(comm: string, id: string, typ: Option<Type>, init: Option<Expr>)
      modifies this
      ensures items == old(items) + [VarDecl(comm, id, typ, init)]
    {
      items := items + [VarDecl(comm, id, typ, init)];
    }

    method Config(cfg: Option<seq<VarDecl>>)
      modifies this
      ensures items == old(items) + Added(cfg)
    {
      var adds := Added(cfg);
      var idx := 0;
      while idx < |adds|
        invariant 0 <= idx <= |adds|
        invariant items == old(items) + adds[..idx]
      {
        var d := adds[idx];
        Add(d.comm, d.id, d.typ, d.init);
        assert adds[..idx + 1] == adds[..idx] + [d];
        idx := idx + 1;
      }
      assert adds[..idx] == adds;
    }

    method Write(w: Writer)
      modifies w
      ensures w.Snapshot() == old(w.Snapshot())
    {
    }
  }

  class ConstDecls {
    var items: seq<VarDecl>

    constructor ()
      ensures items == []
    {
      items := [];
    }

    method Add(comm: string, id: string, typ: Option<Type>, init: Option<Expr>)
      modifies this
      ensures items == old(items) + [VarDecl(comm, id, typ, init)]
    {
      items := items + [VarDecl(comm, id, typ, init)];
    }

    method Config(cfg: Option<seq<VarDecl>>)
      modifies this
      ensures items == old(items) + Added(cfg)
    {
      var adds := Added(cfg);
      var idx := 0;
      while idx < |adds|
        invariant 0 <= idx <= |adds|
        invariant items == old(items) + adds[..idx]
      {
        var d := adds[idx];
        Add(d.comm, d.id, d.typ, d.init);
        assert adds[..idx + 1] == adds[..idx] + [d];
        idx := idx + 1;
      }
      assert adds[..idx] == adds;
    }

    method Write(w: Writer)
      modifies w
      ensures w.Snapshot() == old(w.Snapshot())
    {
    }
  }

  /** A declaration group of a file (Go's `Decl` interface). */
  datatype Decl =
    | TypeGroup(types: TypeDecls)
    | FuncGroup(funcs: FuncDecls)
    | VarGroup(vars: VarDecls)
    | ConstGroup(consts: ConstDecls)
}

/** A handler registry: a lookup table from node-type string to handler.
    Both the engine (api/pkg/engine/handler.go) and the legacy package
    (api/services/workflow/handler.go) key a plain map by the handler's
    NodeType(); the registry is generic in the handler type and the caller
    supplies that key.  The engine's read/write lock is not modelled. */
module Registries {
  import opened Wrappers

  datatype Registry<H> = Registry(handlers: map<string, H>)

  function NewRegistry<H>(): (r: Registry<H>)
    ensures forall kind :: Get(r, kind).None?
  {
    Registry(map[])
  }

  /** Stores `h` under `kind`, replacing any earlier handler of that kind. */
  function Register<H>(r: Registry<H>, kind: string, h: H): (r': Registry<H>)
    ensures Get(r', kind) == Some(h)
    ensures forall other :: other != kind ==> Get(r', other) == Get(r, other)
    ensures r'.handlers.Keys == r.handlers.Keys + {kind}
  {
    Registry(r.handlers[kind := h])
  }

  function Get<H>(r: Registry<H>, kind: string): (found: Option<H>)
    ensures found.None? <==> kind !in r.handlers
    ensures found.Some? ==> found.value == r.handlers[kind]
  {
    if kind in r.handlers then Some(r.handlers[kind]) else None
  }

  /** Every registered type, each exactly once, in map iteration order. */
  method NodeTypes<H>(r: Registry<H>) returns (types: seq<string>)
    ensures |types| == |r.handlers.Keys|
    ensures forall kind :: kind in types <==> Get(r, kind).Some?
    ensures forall i, j :: 0 <= i < j < |types| ==> types[i] != types[j]
  {
    types := [];
    var rest := r.handlers.Keys;
    while rest != {}
      invariant rest <= r.handlers.Keys
      invariant forall kind :: kind in types <==> kind in r.handlers.Keys - rest
      invariant forall i, j :: 0 <= i < j < |types| ==> types[i] != types[j]
      invariant |types| + |rest| == |r.handlers.Keys|
      decreases rest
    {
      var kind :| kind in rest;
      assert kind !in types;
      types := types + [kind];
      rest := rest - {kind};
    }
  }
}

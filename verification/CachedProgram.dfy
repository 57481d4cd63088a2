/** What the bytecode cache keeps of a compiled program: everything but the hash that
    each chunk caches of its own code, which a load computes again. */
module CachedProgram {
  import opened ModuleGraph

  datatype Chunk = Chunk(ops: seq<int>, constants: seq<int>, opHash: nat, lines: seq<int>)
  datatype FuncDef = FuncDef(chunk: Chunk, signature: int)
  datatype Handler = Handler(param: Option<Name>, body: Chunk)
  datatype TryDef = TryDef(block: Chunk, handler: Option<Handler>, finalizer: Option<Chunk>)

  /** The stored form of a program, with the compiler's side tables. */
  datatype Code = Code(main: Chunk, functions: seq<(Name, FuncDef)>, tries: seq<TryDef>, sites: int, strict: bool)

  /** The hash `ChunkBuilder::build` takes of operations and constants. */
  type Hasher = (seq<int>, seq<int>) -> nat

  // ── A change made to every chunk ─────────────────────────────────────────

  function OnFunction(f: Chunk -> Chunk, d: (Name, FuncDef)): (Name, FuncDef) {
    (d.0, d.1.(chunk := f(d.1.chunk)))
  }

  function OnTry(f: Chunk -> Chunk, t: TryDef): TryDef {
    TryDef(f(t.block),
           if t.handler.Some? then Some(t.handler.value.(body := f(t.handler.value.body))) else None,
           if t.finalizer.Some? then Some(f(t.finalizer.value)) else None)
  }

  function OnCode(f: Chunk -> Chunk, c: Code): Code {
    c.(main := f(c.main),
       functions := seq(|c.functions|, i requires 0 <= i < |c.functions| => OnFunction(f, c.functions[i])),
       tries := seq(|c.tries|, i requires 0 <= i < |c.tries| => OnTry(f, c.tries[i])))
  }

  /** Serialization skips `op_hash`. */
  function Skipped(c: Chunk): Chunk { c.(opHash := 0) }

  function Hashed(h: Hasher, c: Chunk): Chunk { c.(opHash := h(c.ops, c.constants)) }

  function Stored(c: Code): Code { OnCode(Skipped, c) }

  function Rehashed(h: Hasher, c: Code): Code { OnCode(x => Hashed(h, x), c) }

  predicate ChunkIsBuilt(h: Hasher, c: Chunk) { c.opHash == h(c.ops, c.constants) }

  /** Every chunk of the program, wherever it sits, carries its own hash, as the compiler leaves it. */
  predicate IsBuilt(h: Hasher, c: Code) {
    && ChunkIsBuilt(h, c.main)
    && (forall i | 0 <= i < |c.functions| :: ChunkIsBuilt(h, c.functions[i].1.chunk))
    && (forall i | 0 <= i < |c.tries| :: ChunkIsBuilt(h, c.tries[i].block)
          && (c.tries[i].handler.Some? ==> ChunkIsBuilt(h, c.tries[i].handler.value.body))
          && (c.tries[i].finalizer.Some? ==> ChunkIsBuilt(h, c.tries[i].finalizer.value)))
  }

  /** A program comes back from the cache as it went in exactly when the compiler had
      left every chunk's hash right; it comes back with every hash right in any case. */
  lemma RoundTrip(h: Hasher, c: Code)
    ensures Rehashed(h, Stored(c)) == c <==> IsBuilt(h, c)
    ensures IsBuilt(h, Rehashed(h, Stored(c)))
    ensures Rehashed(h, Stored(c)) == Rehashed(h, c)
  {
    var d := Rehashed(h, Stored(c));
    assert forall i | 0 <= i < |c.functions| :: d.functions[i] == OnFunction(x => Hashed(h, x), c.functions[i]);
    assert forall i | 0 <= i < |c.tries| :: d.tries[i] == OnTry(x => Hashed(h, x), c.tries[i]);
    if IsBuilt(h, c) {
      assert d.functions == c.functions;
      assert d.tries == c.tries;
    }
    if d == c {
      forall i | 0 <= i < |c.functions|
        ensures ChunkIsBuilt(h, c.functions[i].1.chunk)
      {
        assert d.functions[i] == c.functions[i];
      }
      forall i | 0 <= i < |c.tries|
        ensures c.tries[i] == OnTry(x => Hashed(h, x), c.tries[i])
      {
        assert d.tries[i] == c.tries[i];
      }
    }
  }

  /** A program that has been loaded, updated in place. */
  class Program {
    var main: Chunk
    var functions: seq<(Name, FuncDef)>
    var tries: seq<TryDef>
    const sites: int
    const strict: bool
    const source: string

    constructor (c: Code, source: string)
      ensures Value() == c && this.source == source
    {
      main, functions, tries, sites, strict := c.main, c.functions, c.tries, c.sites, c.strict;
      this.source := source;
    }

    function Value(): Code
      reads this
    {
      Code(main, functions, tries, sites, strict)
    }

    /** rehash: recompute `op_hash` on every chunk. */
    method Rehash(h: Hasher)
      modifies this
      ensures Value() == Rehashed(h, old(Value()))
    {
      var one := x => Hashed(h, x);
      ghost var c := Value();
      main := one(main);
      for i := 0 to |functions|
        invariant |functions| == |c.functions| && tries == c.tries && main == one(c.main)
        invariant forall j | 0 <= j < |functions| ::
            functions[j] == if j < i then OnFunction(one, c.functions[j]) else c.functions[j]
      {
        var (name, f) := functions[i];
        functions := functions[i := (name, f.(chunk := one(f.chunk)))];
      }
      for i := 0 to |tries|
        invariant |tries| == |c.tries| && functions == Rehashed(h, c).functions && main == one(c.main)
        invariant forall j | 0 <= j < |tries| :: tries[j] == if j < i then OnTry(one, c.tries[j]) else c.tries[j]
      {
        var t := tries[i];
        t := t.(block := one(t.block));
        if t.handler.Some? { t := t.(handler := Some(t.handler.value.(body := one(t.handler.value.body)))); }
        if t.finalizer.Some? { t := t.(finalizer := Some(one(t.finalizer.value))); }
        tries := tries[i := t];
      }
      assert tries == Rehashed(h, c).tries;
    }
  }
}

/** Loading a program from a buffer (src/et_core/et_core.cpp): the Module owns a BufferDataLoader that
    only borrows the bytes, so these must be alive whenever the Module is loaded or destroyed. */
module BufferLoad {
  import opened Values

  /** The buffer behind `owned_bytes`; `alive` until it is freed. */
  class Buffer {
    const data: seq<byte>
    var alive: bool

    constructor (data: seq<byte>)
      ensures this.data == data && alive
    {
      this.data := data;
      alive := true;
    }

    method Free()
      requires alive
      modifies this
      ensures !alive
    {
      alive := false;
    }
  }

  /** `BufferDataLoader`: a pointer into bytes it does not own. */
  class BufferDataLoader {
    const source: Buffer
    var alive: bool

    constructor (source: Buffer)
      requires source.alive
      ensures this.source == source && alive
    {
      this.source := source;
      alive := true;
    }

    /** Every read goes to the borrowed bytes. */
    method Read() returns (bytes: seq<byte>)
      requires alive && source.alive
      ensures bytes == source.data
    {
      bytes := source.data;
    }

    method Destroy()
      requires alive && source.alive
      modifies this
      ensures !alive
    {
      alive := false;
    }
  }

  /** A Module over a loader, which it owns and destroys. */
  class Module {
    const loader: BufferDataLoader
    var alive: bool

    ghost predicate Valid()
      reads this, loader, loader.source
    {
      alive && loader.alive && loader.source.alive
    }

    constructor (loader: BufferDataLoader)
      requires loader.alive && loader.source.alive
      ensures Valid() && this.loader == loader
    {
      this.loader := loader;
      alive := true;
    }

    /** Module::load; whether the bytes are a program is not ours to say. */
    method Load(isProgram: seq<byte> -> bool) returns (ok: bool)
      requires Valid()
      ensures ok == isProgram(loader.source.data)
    {
      var bytes := loader.Read();
      ok := isProgram(bytes);
    }

    method Destroy()
      requires Valid()
      modifies this, loader
      ensures !alive && !loader.alive
    {
      loader.Destroy();
      alive := false;
    }
  }

  /** `RuntimeState`: the bytes are declared before the module that borrows them. */
  class RuntimeState {
    var ownedBytes: Buffer
    var module_: Module?

    ghost predicate Valid()
      reads this, ownedBytes, module_, if module_ != null then {module_.loader, module_.loader.source} else {}
    {
      ownedBytes.alive && (module_ != null ==> module_.Valid() && module_.loader.source == ownedBytes)
    }

    constructor (bytes: seq<byte>)
      ensures Valid() && fresh(ownedBytes) && ownedBytes.data == bytes && module_ == null
    {
      ownedBytes := new Buffer(bytes);
      module_ := null;
    }

    /** Members are destroyed in reverse order of declaration: the module, then its bytes. */
    method Destroy()
      requires Valid()
      modifies ownedBytes, module_, if module_ != null then {module_.loader} else {}
      ensures !ownedBytes.alive && (module_ != null ==> !module_.alive && !module_.loader.alive)
    {
      if module_ != null { module_.Destroy(); }
      ownedBytes.Free();
    }
  }

  /** Either a runtime whose module borrows its own live copy of the bytes, or a fault with module,
      loader and bytes destroyed, in that order; the bytes are never read after they are freed. `st`
      is the state that was built, whatever became of it. */
  method LoadBuffer(bytes: seq<byte>, isProgram: seq<byte> -> bool)
    returns (rt: RuntimeState?, fault: Option<Fault>, ghost st: RuntimeState)
    ensures fresh(st) && fresh(st.ownedBytes) && st.ownedBytes.data == bytes
    ensures st.module_ != null && st.module_.loader.source == st.ownedBytes
    ensures rt != null <==> isProgram(bytes)
    ensures rt != null ==> fault.None? && rt == st && rt.Valid()
    ensures rt == null ==> fault == Some(LoadFailed)
    ensures rt == null ==> !st.module_.alive && !st.module_.loader.alive && !st.ownedBytes.alive
  {
    var state := new RuntimeState(bytes);
    st := state;
    var loader := new BufferDataLoader(state.ownedBytes);
    state.module_ := new Module(loader);
    var ok := state.module_.Load(isProgram);
    if ok { return state, None, st; }
    state.Destroy();
    return null, Some(LoadFailed), st;
  }
}

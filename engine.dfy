/** The storage engine and allocator as the binding sees them: an abstract interface.
    Each call the binding makes is recorded in order; whether a call succeeds is
    decided by the return code the caller supplies for it. */
module Engine {
  import opened Lua

  const MDBX_SUCCESS: int := 0
  const MDBX_NOTFOUND: int := -30798
  /** What the engine answers when handed a NULL environment. */
  const MDBX_EINVAL: int := 22

  /** One call from the binding into the engine or the C allocator. */
  datatype Call =
    | EnvCreate(rc: int)
    | EnvOpen(rc: int)
    | EnvClose(live: bool)           // live: the pointer handed over was not NULL
    | Malloc(size: nat)
    | Free
    | TxnBegin(rc: int)
    | DbiOpen(rc: int)
    | Get(key: Bytes, rc: int)
    | Put(key: Bytes, blob: Bytes, rc: int)
    | DbiClose
    | TxnCommit(rc: int)
    | TxnAbort

  /** How many resources of each kind are held: created environments, live buffers,
      unfinished transactions and open table handles. A count that is not positive
      means none is held. The counts are `int` rather than `nat` so that `Step` needs no
      subrange checks on its updates; `Counts` states that none is negative. */
  datatype Held = Held(envs: int, buffers: int, txns: int, dbis: int)

  /** No count is negative: the state in which any run of calls begins. */
  predicate Counts(h: Held)
  {
    h.envs >= 0 && h.buffers >= 0 && h.txns >= 0 && h.dbis >= 0
  }

  /** The resource discipline the engine's API demands: what each call acquires or releases,
      and `None` for a call made without the resource it needs (a double free, ending a
      transaction twice, a lookup outside a transaction, ...). */
  function Step(h: Held, c: Call): Option<Held>
  {
    match c
    case EnvCreate(rc) => Some(if rc == MDBX_SUCCESS then h.(envs := h.envs + 1) else h)
    case EnvOpen(_) => if h.envs <= 0 then None else Some(h)
    case EnvClose(live) =>
      if !live then Some(h) else if h.envs <= 0 then None else Some(h.(envs := h.envs - 1))
    case Malloc(_) => Some(h.(buffers := h.buffers + 1))
    case Free => if h.buffers <= 0 then None else Some(h.(buffers := h.buffers - 1))
    case TxnBegin(rc) => Some(if rc == MDBX_SUCCESS then h.(txns := h.txns + 1) else h)
    case DbiOpen(rc) =>
      if h.txns <= 0 then None
      else Some(if rc == MDBX_SUCCESS then h.(dbis := h.dbis + 1) else h)
    case Get(_, _) => if h.txns <= 0 || h.dbis <= 0 then None else Some(h)
    case Put(_, _, _) => if h.txns <= 0 || h.dbis <= 0 then None else Some(h)
    case DbiClose => if h.dbis <= 0 then None else Some(h.(dbis := h.dbis - 1))
    case TxnCommit(_) => if h.txns <= 0 then None else Some(h.(txns := h.txns - 1))
    case TxnAbort => if h.txns <= 0 then None else Some(h.(txns := h.txns - 1))
  }

  /** Runs the calls from position `i` on through `Step`, from left to right. */
  function ReplayFrom(h: Held, calls: seq<Call>, i: nat): Option<Held>
    requires i <= |calls|
    decreases |calls| - i
  {
    if i == |calls| then Some(h)
    else
      match Step(h, calls[i])
      case None => None
      case Some(h') => ReplayFrom(h', calls, i + 1)
  }

  /** Runs a whole sequence of calls through `Step`. */
  function Replay(h: Held, calls: seq<Call>): Option<Held>
  {
    ReplayFrom(h, calls, 0)
  }

  /** The calls after a prefix run as they would on their own. */
  lemma {:induction false} ReplayShift(h: Held, a: seq<Call>, b: seq<Call>, j: nat)
    requires j <= |b|
    ensures ReplayFrom(h, a + b, |a| + j) == ReplayFrom(h, b, j)
    decreases |b| - j
  {
    if j < |b| {
      assert (a + b)[|a| + j] == b[j];
      match Step(h, b[j])
      case None =>
      case Some(h') => ReplayShift(h', a, b, j + 1);
    }
  }

  lemma {:induction false} ReplayPrefix(h: Held, a: seq<Call>, b: seq<Call>, i: nat)
    requires i <= |a|
    ensures ReplayFrom(h, a + b, i) ==
      match ReplayFrom(h, a, i)
      case None => None
      case Some(h') => ReplayFrom(h', b, 0)
    decreases |a| - i
  {
    if i == |a| {
      ReplayShift(h, a, b, 0);
    } else {
      assert (a + b)[i] == a[i];
      match Step(h, a[i])
      case None =>
      case Some(h') => ReplayPrefix(h', a, b, i + 1);
    }
  }

  /** Running two sequences one after the other is running their concatenation. */
  lemma ReplayAppend(h: Held, a: seq<Call>, b: seq<Call>)
    ensures Replay(h, a + b) ==
      match Replay(h, a)
      case None => None
      case Some(h') => Replay(h', b)
  {
    ReplayPrefix(h, a, b, 0);
  }

  /** A call that ends a transaction. */
  predicate EndsTxn(c: Call)
  {
    c.TxnCommit? || c.TxnAbort?
  }

  datatype EnvState = Created | Opened | Closed

  /** A native environment (`MDBX_env`). */
  class Env {
    var state: EnvState
    /** The committed contents of the default table. */
    var data: map<Bytes, Bytes>

    constructor ()
      ensures state == Created && data == map[]
    {
      state := Created;
      data := map[];
    }
  }

  /** A native transaction (`MDBX_txn`) of one environment. */
  class Txn {
    const env: Env
    /** The environment's contents as this transaction sees them, its own puts included. */
    var view: map<Bytes, Bytes>
    /** Neither committed nor aborted yet. */
    var live: bool

    constructor (env: Env)
      ensures this.env == env && view == env.data && live
    {
      this.env := env;
      view := env.data;
      live := true;
    }
  }

  /** The native side of the process: the record of calls made so far and the
      buffers allocated and not yet freed. */
  class Native {
    var calls: seq<Call>
    var heap: set<array<byte>>

    constructor ()
      ensures calls == [] && heap == {}
    {
      calls := [];
      heap := {};
    }

    /** `mdbx_env_create`. */
    method EnvCreate(rc: int) returns (r: int, env: Env?)
      modifies this
      ensures r == rc && (env != null <==> rc == MDBX_SUCCESS)
      ensures env != null ==> fresh(env) && env.state == Created && env.data == map[]
      ensures calls == old(calls) + [Call.EnvCreate(rc)] && heap == old(heap)
    {
      r := rc;
      env := null;
      if rc == MDBX_SUCCESS {
        env := new Env();
      }
      calls := calls + [Call.EnvCreate(rc)];
    }

    /** `mdbx_env_open`: on success the environment holds what the file holds. */
    method EnvOpen(env: Env, onDisk: map<Bytes, Bytes>, rc: int) returns (r: int)
      modifies this, env
      ensures r == rc
      ensures env.state == (if rc == MDBX_SUCCESS then Opened else old(env.state))
      ensures env.data == (if rc == MDBX_SUCCESS then onDisk else old(env.data))
      ensures calls == old(calls) + [Call.EnvOpen(rc)] && heap == old(heap)
    {
      r := rc;
      if rc == MDBX_SUCCESS {
        env.state := Opened;
        env.data := onDisk;
      }
      calls := calls + [Call.EnvOpen(rc)];
    }

    /** `mdbx_env_close`; handed NULL it does nothing. */
    method EnvClose(env: Env?)
      modifies this, env
      ensures env != null ==> env.state == Closed && env.data == old(env.data)
      ensures calls == old(calls) + [Call.EnvClose(env != null)] && heap == old(heap)
    {
      if env != null {
        env.state := Closed;
      }
      calls := calls + [Call.EnvClose(env != null)];
    }

    /** `malloc`: the contents of the new buffer are unspecified. */
    method Malloc(size: nat) returns (buf: array<byte>)
      modifies this
      ensures fresh(buf) && buf.Length == size
      ensures heap == old(heap) + {buf} && calls == old(calls) + [Call.Malloc(size)]
    {
      buf := new byte[size];
      heap := heap + {buf};
      calls := calls + [Call.Malloc(size)];
    }

    /** `free`: only a buffer that is still allocated may be freed. */
    method Free(buf: array<byte>)
      requires buf in heap
      modifies this
      ensures heap == old(heap) - {buf} && calls == old(calls) + [Call.Free]
    {
      heap := heap - {buf};
      calls := calls + [Call.Free];
    }

    /** `mdbx_txn_begin`; a NULL environment is refused with EINVAL. */
    method TxnBegin(env: Env?, rc: int) returns (r: int, txn: Txn?)
      modifies this
      ensures r == (if env == null then MDBX_EINVAL else rc)
      ensures txn != null <==> r == MDBX_SUCCESS
      ensures txn != null ==> fresh(txn) && txn.env == env && txn.live && txn.view == env.data
      ensures calls == old(calls) + [Call.TxnBegin(r)] && heap == old(heap)
    {
      r := if env == null then MDBX_EINVAL else rc;
      txn := null;
      if r == MDBX_SUCCESS {
        txn := new Txn(env);
      }
      calls := calls + [Call.TxnBegin(r)];
    }

    /** `mdbx_dbi_open` of the default table. */
    method DbiOpen(txn: Txn, rc: int) returns (r: int)
      requires txn.live
      modifies this
      ensures r == rc
      ensures calls == old(calls) + [Call.DbiOpen(rc)] && heap == old(heap)
    {
      r := rc;
      calls := calls + [Call.DbiOpen(rc)];
    }

    /** `mdbx_get`: found exactly when the transaction sees the key. */
    method Get(txn: Txn, key: Bytes) returns (r: int, blob: Bytes)
      requires txn.live
      modifies this
      ensures r == (if key in txn.view then MDBX_SUCCESS else MDBX_NOTFOUND)
      ensures key in txn.view ==> blob == txn.view[key]
      ensures calls == old(calls) + [Call.Get(key, r)] && heap == old(heap)
    {
      if key in txn.view {
        r, blob := MDBX_SUCCESS, txn.view[key];
      } else {
        r, blob := MDBX_NOTFOUND, [];
      }
      calls := calls + [Call.Get(key, r)];
    }

    /** `mdbx_put`: the engine copies the value in; it is visible to this transaction only. */
    method Put(txn: Txn, key: Bytes, blob: Bytes, rc: int) returns (r: int)
      requires txn.live
      modifies this, txn
      ensures r == rc && txn.live
      ensures txn.view == if rc == MDBX_SUCCESS then old(txn.view)[key := blob] else old(txn.view)
      ensures calls == old(calls) + [Call.Put(key, blob, rc)] && heap == old(heap)
    {
      r := rc;
      if rc == MDBX_SUCCESS {
        txn.view := txn.view[key := blob];
      }
      calls := calls + [Call.Put(key, blob, rc)];
    }

    /** `mdbx_dbi_close`. */
    method DbiClose(env: Env?)
      modifies this
      ensures calls == old(calls) + [Call.DbiClose] && heap == old(heap)
    {
      calls := calls + [Call.DbiClose];
    }

    /** `mdbx_txn_commit`: the transaction ends whatever the outcome; only a successful
        commit makes its view the environment's contents. */
    method TxnCommit(txn: Txn, rc: int) returns (r: int)
      requires txn.live
      modifies this, txn, txn.env
      ensures r == rc && !txn.live && txn.view == old(txn.view)
      ensures txn.env.data == (if rc == MDBX_SUCCESS then old(txn.view) else old(txn.env.data))
      ensures txn.env.state == old(txn.env.state)
      ensures calls == old(calls) + [Call.TxnCommit(rc)] && heap == old(heap)
    {
      r := rc;
      txn.live := false;
      if rc == MDBX_SUCCESS {
        txn.env.data := txn.view;
      }
      calls := calls + [Call.TxnCommit(rc)];
    }

    /** `mdbx_txn_abort`: the transaction ends and its puts are dropped. */
    method TxnAbort(txn: Txn)
      requires txn.live
      modifies this, txn
      ensures !txn.live && txn.view == old(txn.view)
      ensures calls == old(calls) + [Call.TxnAbort] && heap == old(heap)
    {
      txn.live := false;
      calls := calls + [Call.TxnAbort];
    }
  }
}

/** The Lua-facing functions of the binding: `open`, `close`, `set`, `mget` and `get`.
    Each is a method over the native state, proved against a specification function
    for its reply and one for the calls it makes. */
module Binding {
  import opened Lua
  import opened CLib
  import opened Codec
  import opened Engine

  /** The longest key the binding accepts. */
  const MAX_KEY: nat := 255

  /** The per-key check of `mget`: neither empty nor longer than 255 bytes. */
  predicate ValidKey(k: Bytes)
  {
    0 < |k| <= MAX_KEY
  }

  /** A table every value of which can be decoded: what `set` writes keeps this. */
  predicate Readable(data: map<Bytes, Bytes>)
  {
    forall k :: k in data ==> Terminated(data[k])
  }

  /** The Lua userdata: a cell holding the `MDBX_env *`, NULL once closed. */
  class EnvBox {
    var env: Env?

    constructor (env: Env)
      ensures this.env == env
    {
      this.env := env;
    }
  }

  /** The table seen through a handle (nothing once it is closed). */
  function ViewOf(box: EnvBox): map<Bytes, Bytes>
    reads box, box.env
  {
    if box.env == null then map[] else box.env.data
  }

  /** What `mdbx_txn_begin` answers: a closed handle passes NULL, which the engine refuses. */
  function BeginRc(live: bool, rc: int): int
  {
    if live then rc else MDBX_EINVAL
  }

  // ----------------------------------------------------------------------------------
  // open

  datatype OpenFailure = NilPath | EmptyPath | CreateFailed | OpenFailed(rc: int)
  datatype OpenResult = Opened(box: EnvBox) | NotOpened(failure: OpenFailure)
  /** The return codes of `mdbx_env_create` and `mdbx_env_open`. */
  datatype OpenCodes = OpenCodes(create: int, open: int)

  /** The message returned beside nil; for `OpenFailed` the engine's text follows it. */
  function OpenMessage(f: OpenFailure): string
  {
    match f
    case NilPath => "nil path"
    case EmptyPath => "empty path"
    case CreateFailed => "fail to create env"
    case OpenFailed(_) => "fail to open env: "
  }

  /** Why `open` fails, checked in the order of the C code; `None` when it succeeds. */
  function OpenFault(path: Option<Bytes>, codes: OpenCodes): (r: Option<OpenFailure>)
    ensures r.None? <==> path.Some? && |path.value| > 0 && codes.create == MDBX_SUCCESS
                         && codes.open == MDBX_SUCCESS
  {
    if path.None? then Some(NilPath)
    else if |path.value| == 0 then Some(EmptyPath)
    else if codes.create != MDBX_SUCCESS then Some(CreateFailed)
    else if codes.open != MDBX_SUCCESS then Some(OpenFailed(codes.open))
    else None
  }

  /** The calls `open` makes. */
  function OpenCalls(path: Option<Bytes>, codes: OpenCodes): seq<Call>
  {
    if path.None? || |path.value| == 0 then []
    else if codes.create != MDBX_SUCCESS then [EnvCreate(codes.create)]
    else if codes.open != MDBX_SUCCESS then [EnvCreate(MDBX_SUCCESS), EnvOpen(codes.open), EnvClose(true)]
    else [EnvCreate(MDBX_SUCCESS), EnvOpen(MDBX_SUCCESS)]
  }

  /** `lua_mdbx_open`; `onDisk` is what the file at `path` holds. */
  method Open(native: Native, path: Option<Bytes>, onDisk: map<Bytes, Bytes>, codes: OpenCodes)
    returns (result: OpenResult)
    modifies native
    ensures result.NotOpened? <==> OpenFault(path, codes).Some?
    ensures result.NotOpened? ==> result.failure == OpenFault(path, codes).value
    ensures result.Opened? ==>
      && fresh(result.box) && result.box.env != null && fresh(result.box.env)
      && result.box.env.state == EnvState.Opened && result.box.env.data == onDisk
    ensures native.calls == old(native.calls) + OpenCalls(path, codes)
    ensures native.heap == old(native.heap)
  {
    if path.None? {
      return NotOpened(NilPath);
    }
    if |path.value| == 0 {
      return NotOpened(EmptyPath);
    }
    var rc, env := native.EnvCreate(codes.create);
    if rc != MDBX_SUCCESS {
      return NotOpened(CreateFailed);
    }
    rc := native.EnvOpen(env, onDisk, codes.open);
    if rc != MDBX_SUCCESS {
      native.EnvClose(env);
      return NotOpened(OpenFailed(rc));
    }
    var box := new EnvBox(env);
    return OpenResult.Opened(box);
  }

  /** A nil or empty path is refused, nil first, before anything is created. */
  lemma OpenChecksPathFirst(path: Option<Bytes>, codes: OpenCodes)
    requires path.None? || |path.value| == 0
    ensures OpenCalls(path, codes) == []
    ensures OpenFault(path, codes) == Some(if path.None? then NilPath else EmptyPath)
  {
  }

  /** A failed `open` leaves no environment behind (one that was created is closed);
      a successful one holds exactly one. */
  lemma OpenReleasesOnFailure(h: Held, path: Option<Bytes>, codes: OpenCodes)
    requires Counts(h)
    ensures Replay(h, OpenCalls(path, codes)) ==
      Some(if OpenFault(path, codes).None? then h.(envs := h.envs + 1) else h)
    ensures OpenFault(path, codes).Some? && OpenFault(path, codes).value.OpenFailed? ==>
      OpenCalls(path, codes)[|OpenCalls(path, codes)| - 1] == EnvClose(true)
  {
    var c := OpenCalls(path, codes);
    if c != [] {
      var e := h.(envs := h.envs + 1);   // the environment created
      if codes.create == MDBX_SUCCESS {
        assert ReplayFrom(h, c, 0) == ReplayFrom(e, c, 1);
        assert ReplayFrom(e, c, 1) == ReplayFrom(e, c, 2);
        if codes.open != MDBX_SUCCESS {
          assert ReplayFrom(e, c, 2) == ReplayFrom(h, c, 3);
        }
      } else {
        assert ReplayFrom(h, c, 0) == ReplayFrom(h, c, 1);
      }
    }
  }

  // ----------------------------------------------------------------------------------
  // close

  /** `lua_mdbx_close`, installed only as the handle's `__gc` finalizer (Lua code cannot
      call it by name): closes whatever the handle holds, NULL included, clears the handle
      and answers true. */
  method Close(native: Native, box: EnvBox) returns (ok: bool)
    modifies native, box, box.env
    ensures ok && box.env == null
    ensures old(box.env) != null ==> old(box.env).state == Closed && old(box.env).data == old(box.env.data)
    ensures native.calls == old(native.calls) + [EnvClose(old(box.env) != null)]
    ensures native.heap == old(native.heap)
  {
    native.EnvClose(box.env);
    box.env := null;
    ok := true;
  }

  /** Closing a handle that is already closed hands NULL to the engine, which changes
      nothing; closing an opened handle gives back the environment `open` created. Since
      close is only the finalizer, a second close happens only if finalization runs
      again on the same handle. */
  lemma CloseIsIdempotent(h: Held, path: Option<Bytes>, codes: OpenCodes)
    requires Counts(h)
    ensures Replay(h, [EnvClose(false)]) == Some(h)
    ensures OpenFault(path, codes).None? ==>
      Replay(h, OpenCalls(path, codes) + [EnvClose(true), EnvClose(false)]) == Some(h)
  {
    assert ReplayFrom(h, [EnvClose(false)], 0) == ReplayFrom(h, [EnvClose(false)], 1);
    if OpenFault(path, codes).None? {
      var e := h.(envs := h.envs + 1);
      var closes := [EnvClose(true), EnvClose(false)];
      OpenReleasesOnFailure(h, path, codes);
      ReplayAppend(h, OpenCalls(path, codes), closes);
      assert ReplayFrom(e, closes, 0) == ReplayFrom(h, closes, 1);
      assert ReplayFrom(h, closes, 1) == ReplayFrom(h, closes, 2);
    }
  }

  // ----------------------------------------------------------------------------------
  // set

  datatype SetFailure =
    | NilKey | EmptyKey | KeyTooLong | BadValueType
    | BeginFailed | DbiOpenFailed | PutFailed | CommitFailed(rc: int)
  datatype SetResult = Stored | NotStored(failure: SetFailure)
  /** The return codes of `mdbx_txn_begin`, `mdbx_dbi_open`, `mdbx_put` and `mdbx_txn_commit`. */
  datatype SetCodes = SetCodes(begin: int, dbiOpen: int, put: int, commit: int)

  /** The message returned beside false (the C code's spelling kept); for `CommitFailed`
      the engine's text follows it. */
  function SetMessage(f: SetFailure): string
  {
    match f
    case NilKey => "nil key"
    case EmptyKey => "empty key"
    case KeyTooLong => "key too long"
    case BadValueType => "vad value type"
    case BeginFailed => "fail to begin txn"
    case DbiOpenFailed => "fail to open  dbi"
    case PutFailed => "fail to set data"
    case CommitFailed(_) => "fail to commit txn: "
  }

  /** The argument checks of `set`, in the C code's order: nil key, empty key,
      key too long, then the value's type. */
  function SetFault(key: Option<Bytes>, value: LuaValue): (r: Option<SetFailure>)
    ensures r.None? <==> key.Some? && ValidKey(key.value) && (value.Str? || value.Num? || value.Bool?)
  {
    if key.None? then Some(NilKey)
    else if |key.value| == 0 then Some(EmptyKey)
    else if |key.value| > MAX_KEY then Some(KeyTooLong)
    else if !(value.Str? || value.Num? || value.Bool?) then Some(BadValueType)
    else None
  }

  /** What the transaction part of `set` answers, from `mdbx_txn_begin` on. */
  function TxnOutcome(live: bool, codes: SetCodes): SetResult
  {
    if BeginRc(live, codes.begin) != MDBX_SUCCESS then NotStored(BeginFailed)
    else if codes.dbiOpen != MDBX_SUCCESS then NotStored(DbiOpenFailed)
    else if codes.put != MDBX_SUCCESS then NotStored(PutFailed)
    else if codes.commit != MDBX_SUCCESS then NotStored(CommitFailed(codes.commit))
    else Stored
  }

  /** What `set` answers; `live` says whether the handle is still open. */
  function SetOutcome(live: bool, key: Option<Bytes>, value: LuaValue, codes: SetCodes): SetResult
  {
    if SetFault(key, value).Some? then NotStored(SetFault(key, value).value)
    else TxnOutcome(live, codes)
  }

  /** The calls of the transaction part of `set`, which ends by freeing the value buffer
      on every path. */
  function TxnCalls(live: bool, k: Bytes, blob: Bytes, codes: SetCodes): seq<Call>
  {
    var begin := BeginRc(live, codes.begin);
    if begin != MDBX_SUCCESS then [TxnBegin(begin), Free]
    else if codes.dbiOpen != MDBX_SUCCESS then [TxnBegin(MDBX_SUCCESS), DbiOpen(codes.dbiOpen), TxnAbort, Free]
    else if codes.put != MDBX_SUCCESS then
      [TxnBegin(MDBX_SUCCESS), DbiOpen(MDBX_SUCCESS), Put(k, blob, codes.put), Free, DbiClose, TxnAbort]
    else [TxnBegin(MDBX_SUCCESS), DbiOpen(MDBX_SUCCESS), Put(k, blob, MDBX_SUCCESS), Free, DbiClose,
          TxnCommit(codes.commit)]
  }

  /** The calls `set` makes. */
  function SetCalls(live: bool, key: Option<Bytes>, value: LuaValue, nt: NumberText, codes: SetCodes): seq<Call>
  {
    if SetFault(key, value).Some? then []
    else
      var blob := Encode(nt, value).value;
      [Malloc(|blob|)] + TxnCalls(live, key.value, blob, codes)
  }

  /** The string case of the switch: malloc |s| + 2 bytes, memset, snprintf "s%s". */
  method EncodeText(native: Native, s: Bytes) returns (output: array<byte>)
    modifies native
    ensures fresh(output) && output[..] == TextBlob(s)
    ensures native.heap == old(native.heap) + {output}
    ensures native.calls == old(native.calls) + [Malloc(|s| + 2)]
  {
    var size := |s| + 2;
    output := native.Malloc(size);
    Memset(output);
    ghost var cleared := output[..];
    var _ := Snprintf(output, TextOutput(s));
    PrintIntoZeros(size, TextOutput(s), cleared, output[..]);
  }

  /** The number case: measure "%f" into a one-byte buffer, malloc that length plus one,
      memset, snprintf "n%f". */
  method EncodeNumber(native: Native, nt: NumberText, x: Double) returns (output: array<byte>)
    modifies native
    ensures fresh(output) && output[..] == NumberBlob(nt, x)
    ensures native.heap == old(native.heap) + {output}
    ensures native.calls == old(native.calls) + [Malloc(|nt.fixed(x)| + 1)]
  {
    var dummy := new byte[1];
    var siz := Snprintf(dummy, nt.fixed(x));
    var size := siz + 1;
    output := native.Malloc(size);
    Memset(output);
    ghost var cleared := output[..];
    var _ := Snprintf(output, NumberOutput(nt, x));
    PrintIntoZeros(size, NumberOutput(nt, x), cleared, output[..]);
  }

  /** The boolean case: malloc 3 bytes, memset, snprintf "b%d" with 1 or 0. */
  method EncodeBool(native: Native, b: bool) returns (output: array<byte>)
    modifies native
    ensures fresh(output) && output[..] == BoolBlob(b)
    ensures native.heap == old(native.heap) + {output}
    ensures native.calls == old(native.calls) + [Malloc(3)]
  {
    output := native.Malloc(3);
    Memset(output);
    ghost var cleared := output[..];
    var _ := Snprintf(output, BoolOutput(b));
    PrintIntoZeros(3, BoolOutput(b), cleared, output[..]);
  }

  /** The transaction part of `lua_mdbx_set`: begin, open the table, put `output` under
      `k`, free `output`, close the table, then commit or abort. */
  method StoreBlob(native: Native, env: Env?, k: Bytes, output: array<byte>, codes: SetCodes)
    returns (result: SetResult)
    requires output in native.heap
    modifies native, env
    ensures result == TxnOutcome(env != null, codes)
    ensures native.calls == old(native.calls) + TxnCalls(env != null, k, output[..], codes)
    ensures native.heap == old(native.heap) - {output}
    ensures env != null ==> env.state == old(env.state)
    ensures env != null ==>
      env.data == (if result.Stored? then old(env.data)[k := output[..]] else old(env.data))
  {
    var rc, txn := native.TxnBegin(env, codes.begin);
    if rc != MDBX_SUCCESS {
      native.Free(output);
      return NotStored(BeginFailed);
    }

    rc := native.DbiOpen(txn, codes.dbiOpen);
    if rc != MDBX_SUCCESS {
      native.TxnAbort(txn);
      native.Free(output);
      return NotStored(DbiOpenFailed);
    }

    rc := native.Put(txn, k, output[..], codes.put);
    native.Free(output);
    if rc != MDBX_SUCCESS {
      native.DbiClose(env);
      native.TxnAbort(txn);
      return NotStored(PutFailed);
    }

    native.DbiClose(env);
    rc := native.TxnCommit(txn, codes.commit);
    if rc != MDBX_SUCCESS {
      return NotStored(CommitFailed(rc));
    }
    return Stored;
  }

  /** The type switch of `lua_mdbx_set`: a buffer holding the encoded value, or null
      (nothing allocated) for a value of any other type. */
  method EncodeValue(native: Native, nt: NumberText, value: LuaValue) returns (output: array?<byte>)
    modifies native
    ensures output == null <==> Encode(nt, value).None?
    ensures output == null ==> native.heap == old(native.heap) && native.calls == old(native.calls)
    ensures output != null ==>
      && fresh(output) && output[..] == Encode(nt, value).value
      && native.heap == old(native.heap) + {output}
      && native.calls == old(native.calls) + [Malloc(|Encode(nt, value).value|)]
  {
    match value {
      case Str(s) =>
        output := EncodeText(native, s);
      case Num(x) =>
        output := EncodeNumber(native, nt, x);
      case Bool(b) =>
        output := EncodeBool(native, b);
      case _ =>
        output := null;
    }
  }

  /** `lua_mdbx_set`. */
  method Set(native: Native, box: EnvBox, key: Option<Bytes>, value: LuaValue, nt: NumberText, codes: SetCodes)
    returns (result: SetResult)
    modifies native, box.env
    ensures result == SetOutcome(box.env != null, key, value, codes)
    ensures native.calls == old(native.calls) + SetCalls(box.env != null, key, value, nt, codes)
    ensures native.heap == old(native.heap)
    ensures box.env != null ==> box.env.state == old(box.env.state)
    ensures box.env != null ==>
      box.env.data == (if result.Stored? then old(box.env.data)[key.value := Encode(nt, value).value]
                       else old(box.env.data))
    ensures old(Readable(ViewOf(box))) ==> Readable(ViewOf(box))
  {
    if key.None? {
      return NotStored(NilKey);
    }
    var k := key.value;
    if |k| == 0 {
      return NotStored(EmptyKey);
    }
    if |k| > MAX_KEY {
      return NotStored(KeyTooLong);
    }
    var output := EncodeValue(native, nt, value);
    if output == null {
      return NotStored(BadValueType);
    }
    ghost var blob := Encode(nt, value).value;
    assert SetFault(key, value).None?;
    assert Terminated(blob);
    result := StoreBlob(native, box.env, k, output, codes);
  }

  /** The argument checks come in the C code's order and each one returns before
      anything is allocated or any engine call is made. */
  lemma SetChecksFirst(live: bool, key: Option<Bytes>, value: LuaValue, nt: NumberText, codes: SetCodes)
    ensures key.None? ==> SetOutcome(live, key, value, codes) == NotStored(NilKey)
    ensures key.Some? && |key.value| == 0 ==> SetOutcome(live, key, value, codes) == NotStored(EmptyKey)
    ensures key.Some? && |key.value| > MAX_KEY ==> SetOutcome(live, key, value, codes) == NotStored(KeyTooLong)
    ensures key.Some? && ValidKey(key.value) && !(value.Str? || value.Num? || value.Bool?) ==>
      SetOutcome(live, key, value, codes) == NotStored(BadValueType)
    ensures SetFault(key, value).Some? ==> SetCalls(live, key, value, nt, codes) == []
  {
  }

  /** The transaction part of `set` releases what it acquires and the buffer it is given. */
  lemma StoreReleasesEverything(b: Held, live: bool, k: Bytes, blob: Bytes, codes: SetCodes)
    requires Counts(b) && b.buffers > 0
    ensures Replay(b, TxnCalls(live, k, blob, codes)) == Some(b.(buffers := b.buffers - 1))
  {
    var c := TxnCalls(live, k, blob, codes);
    var h := b.(buffers := b.buffers - 1);   // the buffer freed
    var t := b.(txns := b.txns + 1);          // the transaction begun
    var d := t.(dbis := t.dbis + 1);          // and the table opened
    if BeginRc(live, codes.begin) != MDBX_SUCCESS {
      assert ReplayFrom(b, c, 0) == ReplayFrom(b, c, 1);
      assert ReplayFrom(b, c, 1) == ReplayFrom(h, c, 2);
    } else if codes.dbiOpen != MDBX_SUCCESS {
      assert ReplayFrom(b, c, 0) == ReplayFrom(t, c, 1);
      assert ReplayFrom(t, c, 1) == ReplayFrom(t, c, 2);
      assert ReplayFrom(t, c, 2) == ReplayFrom(b, c, 3);
      assert ReplayFrom(b, c, 3) == ReplayFrom(h, c, 4);
    } else {
      assert ReplayFrom(b, c, 0) == ReplayFrom(t, c, 1);
      assert ReplayFrom(t, c, 1) == ReplayFrom(d, c, 2);
      assert ReplayFrom(d, c, 2) == ReplayFrom(d, c, 3);
      assert ReplayFrom(d, c, 3) == ReplayFrom(d.(buffers := h.buffers), c, 4);
      assert ReplayFrom(d.(buffers := h.buffers), c, 4) == ReplayFrom(t.(buffers := h.buffers), c, 5);
      assert ReplayFrom(t.(buffers := h.buffers), c, 5) == ReplayFrom(h, c, 6);
    }
  }

  /** Whatever the engine answers, `set` releases everything it acquires (its buffer,
      its transaction, its table handle) and never releases anything twice or uses a
      handle it does not hold. */
  lemma SetReleasesEverything(h: Held, live: bool, key: Option<Bytes>, value: LuaValue,
                              nt: NumberText, codes: SetCodes)
    requires Counts(h)
    ensures Replay(h, SetCalls(live, key, value, nt, codes)) == Some(h)
  {
    if SetFault(key, value).None? {
      var blob := Encode(nt, value).value;
      var alloc := [Malloc(|blob|)];
      var b := h.(buffers := h.buffers + 1);   // the buffer allocated
      assert SetCalls(live, key, value, nt, codes) == alloc + TxnCalls(live, key.value, blob, codes);
      assert ReplayFrom(h, alloc, 0) == ReplayFrom(b, alloc, 1);
      ReplayAppend(h, alloc, TxnCalls(live, key.value, blob, codes));
      StoreReleasesEverything(b, live, key.value, blob, codes);
    }
  }

  /** The transaction discipline of a call list: no transaction is ended twice, one is
      ended exactly when one was begun, the table handle is opened exactly when it is
      closed and closed before the transaction ends, a failed put is followed by an
      abort and by no commit, and `stored` holds exactly when a commit succeeded. */
  predicate EndsOnce(c: seq<Call>, stored: bool)
  {
    && (forall i, j :: 0 <= i < j < |c| && EndsTxn(c[i]) ==> !EndsTxn(c[j]))
    && (TxnBegin(MDBX_SUCCESS) in c <==> exists i :: 0 <= i < |c| && EndsTxn(c[i]))
    && (DbiOpen(MDBX_SUCCESS) in c <==> DbiClose in c)
    && (forall i, j :: 0 <= i < |c| && 0 <= j < |c| && c[i] == DbiClose && EndsTxn(c[j]) ==> i < j)
    && (forall i :: 0 <= i < |c| && c[i].Put? && c[i].rc != MDBX_SUCCESS ==> TxnAbort in c)
    && (forall i, j :: 0 <= i < |c| && 0 <= j < |c| && c[i].Put? && c[i].rc != MDBX_SUCCESS
          ==> !c[j].TxnCommit?)
    && (stored <==> TxnCommit(MDBX_SUCCESS) in c)
  }

  /** The buffer discipline of a call list: exactly one free, after every begin and put. */
  predicate FreesOnce(c: seq<Call>)
  {
    && Free in c
    && (forall i, j :: 0 <= i < |c| && 0 <= j < |c| && c[i] == Free && c[j] == Free ==> i == j)
    && (forall i, j :: 0 <= i < |c| && 0 <= j < |c| && (c[i].Put? || c[i].TxnBegin?) && c[j] == Free ==> i < j)
  }

  /** An allocation in front keeps the transaction discipline. */
  lemma MallocFirst(n: nat, t: seq<Call>, stored: bool)
    requires EndsOnce(t, stored)
    ensures EndsOnce([Malloc(n)] + t, stored)
  {
    var c := [Malloc(n)] + t;
    assert forall i :: 0 < i < |c| ==> c[i] == t[i - 1];
    assert c[0] == Malloc(n);
    if exists i :: 0 <= i < |t| && EndsTxn(t[i]) {
      var i :| 0 <= i < |t| && EndsTxn(t[i]);
      assert EndsTxn(c[i + 1]);
    }
  }

  /** An allocation in front keeps the buffer discipline. */
  lemma MallocFirstFrees(n: nat, t: seq<Call>)
    requires FreesOnce(t)
    ensures FreesOnce([Malloc(n)] + t)
  {
    var c := [Malloc(n)] + t;
    assert forall i :: 0 < i < |c| ==> c[i] == t[i - 1];
    assert Free in c;
  }

  /** In the transaction part of `set`, a transaction is ended exactly when it was begun,
      never twice; the table handle is opened exactly when it is closed, and closed before
      the transaction ends; the outcome is a success exactly when a commit succeeded. */
  lemma StoreEndsTransactionOnce(live: bool, k: Bytes, blob: Bytes, codes: SetCodes)
    ensures EndsOnce(TxnCalls(live, k, blob, codes), TxnOutcome(live, codes).Stored?)
  {
    var c := TxnCalls(live, k, blob, codes);
    if BeginRc(live, codes.begin) == MDBX_SUCCESS {
      assert EndsTxn(c[|c| - 1]) || EndsTxn(c[2]);
    }
  }

  /** In the transaction part of `set`, the buffer is freed exactly once, after the
      transaction is begun and after the put that copies it. */
  lemma StoreFreesBufferOnce(live: bool, k: Bytes, blob: Bytes, codes: SetCodes)
    ensures FreesOnce(TxnCalls(live, k, blob, codes))
  {
  }

  /** A transaction is ended exactly when it was begun, never twice; the table handle is
      opened exactly when it is closed, and closed before the transaction ends; `set`
      answers true exactly when a commit succeeded. */
  lemma SetEndsTransactionOnce(live: bool, key: Option<Bytes>, value: LuaValue, nt: NumberText, codes: SetCodes)
    ensures EndsOnce(SetCalls(live, key, value, nt, codes), SetOutcome(live, key, value, codes).Stored?)
  {
    if SetFault(key, value).None? {
      var blob := Encode(nt, value).value;
      StoreEndsTransactionOnce(live, key.value, blob, codes);
      MallocFirst(|blob|, TxnCalls(live, key.value, blob, codes), TxnOutcome(live, codes).Stored?);
    }
  }

  /** Past the argument checks the buffer is allocated first and freed exactly once,
      after the transaction is begun and after the put that copies it. */
  lemma SetFreesBufferOnce(live: bool, key: Option<Bytes>, value: LuaValue, nt: NumberText, codes: SetCodes)
    requires SetFault(key, value).None?
    ensures var c := SetCalls(live, key, value, nt, codes);
      c[0] == Malloc(|Encode(nt, value).value|) && FreesOnce(c)
  {
    var blob := Encode(nt, value).value;
    StoreFreesBufferOnce(live, key.value, blob, codes);
    MallocFirstFrees(|blob|, TxnCalls(live, key.value, blob, codes));
  }

  // ----------------------------------------------------------------------------------
  // mget and get

  datatype ReadFailure = TxnFailed(rc: int) | DbiFailed(rc: int)
  /** `Raised` is a Lua error; `NotRead` is nil and a message; `Read` the result. */
  datatype ReadResult<T> = Raised(message: string) | NotRead(failure: ReadFailure) | Read(value: T)
  /** The return codes of `mdbx_txn_begin` and `mdbx_dbi_open`. */
  datatype ReadCodes = ReadCodes(begin: int, dbiOpen: int)

  const NO_KEYS: string := "at least one key on second argument"

  /** The message returned beside nil; the engine's text follows it. */
  function ReadMessage(f: ReadFailure): string
  {
    match f
    case TxnFailed(_) => "fail to begin txn: "
    case DbiFailed(_) => "fail to open dbi: "
  }

  /** Lua table assignment: storing nil removes the field. */
  function SetField(t: map<Bytes, LuaValue>, k: Bytes, v: LuaValue): map<Bytes, LuaValue>
  {
    if v.Nil? then t - {k} else t[k := v]
  }

  /** The table `mget`'s loop builds from `keys`, one key after the other. The field is
      named by the key as a C string, so a key with a NUL in it names the field by the
      bytes before that NUL; the lookup itself uses the whole key. */
  function Lookup(nt: NumberText, keys: seq<Bytes>, view: map<Bytes, Bytes>): map<Bytes, LuaValue>
    requires Readable(view)
    decreases |keys|
  {
    if keys == [] then map[]
    else
      var t := Lookup(nt, keys[..|keys| - 1], view);
      var k := keys[|keys| - 1];
      if ValidKey(k) && k in view then SetField(t, CString(k), Decode(nt, view[k])) else t
  }

  /** The lookups `mget`'s loop makes: one `mdbx_get` per valid key, none for the others. */
  function LookupCalls(keys: seq<Bytes>, view: map<Bytes, Bytes>): seq<Call>
    decreases |keys|
  {
    if keys == [] then []
    else
      var c := LookupCalls(keys[..|keys| - 1], view);
      var k := keys[|keys| - 1];
      if ValidKey(k) then c + [Call.Get(k, if k in view then MDBX_SUCCESS else MDBX_NOTFOUND)] else c
  }

  /** What `mget` answers. */
  function MGetOutcome(live: bool, view: map<Bytes, Bytes>, keys: seq<Bytes>, nt: NumberText, codes: ReadCodes)
    : ReadResult<map<Bytes, LuaValue>>
    requires Readable(view)
  {
    if |keys| == 0 then Raised(NO_KEYS)
    else if BeginRc(live, codes.begin) != MDBX_SUCCESS then NotRead(TxnFailed(BeginRc(live, codes.begin)))
    else if codes.dbiOpen != MDBX_SUCCESS then NotRead(DbiFailed(codes.dbiOpen))
    else Read(Lookup(nt, keys, view))
  }

  /** The calls `mget` makes. When the table cannot be opened the transaction is left
      running: the C code returns without aborting it. */
  function MGetCalls(live: bool, view: map<Bytes, Bytes>, keys: seq<Bytes>, codes: ReadCodes): seq<Call>
  {
    var begin := BeginRc(live, codes.begin);
    if |keys| == 0 then []
    else if begin != MDBX_SUCCESS then [TxnBegin(begin)]
    else if codes.dbiOpen != MDBX_SUCCESS then [TxnBegin(MDBX_SUCCESS), DbiOpen(codes.dbiOpen)]
    else [TxnBegin(MDBX_SUCCESS), DbiOpen(MDBX_SUCCESS)] + LookupCalls(keys, view) + [DbiClose, TxnAbort]
  }

  /** The result loop of `lua_mdbx_mget`: skip invalid keys and failed lookups, store
      every decoded value under the key read as a C string. */
  method LookupAll(native: Native, txn: Txn, ks: array<Bytes>, nt: NumberText)
    returns (entries: map<Bytes, LuaValue>)
    requires txn.live && Readable(txn.view)
    modifies native
    ensures entries == Lookup(nt, ks[..], txn.view)
    ensures native.calls == old(native.calls) + LookupCalls(ks[..], txn.view)
    ensures native.heap == old(native.heap)
  {
    entries := map[];
    for i := 0 to ks.Length
      invariant entries == Lookup(nt, ks[..i], txn.view)
      invariant native.calls == old(native.calls) + LookupCalls(ks[..i], txn.view)
      invariant native.heap == old(native.heap)
    {
      assert ks[..i + 1][..i] == ks[..i];
      var k := ks[i];
      if |k| == 0 || |k| > MAX_KEY {
        continue;
      }
      var found, blob := native.Get(txn, k);
      if found != MDBX_SUCCESS {
        continue;
      }
      var v := Decode(nt, blob);
      entries := SetField(entries, CString(k), v);
    }
    assert ks[..ks.Length] == ks[..];
  }

  /** `lua_mdbx_mget`. */
  method MGet(native: Native, box: EnvBox, keys: seq<Bytes>, nt: NumberText, codes: ReadCodes)
    returns (result: ReadResult<map<Bytes, LuaValue>>)
    requires Readable(ViewOf(box))
    modifies native
    ensures result == MGetOutcome(box.env != null, ViewOf(box), keys, nt, codes)
    ensures native.calls == old(native.calls) + MGetCalls(box.env != null, ViewOf(box), keys, codes)
    ensures native.heap == old(native.heap)
  {
    var n := |keys|;
    if n == 0 {
      return Raised(NO_KEYS);
    }
    var ks := new Bytes[n];
    for i := 0 to n
      modifies ks
      invariant ks[..i] == keys[..i]
    {
      ks[i] := keys[i];
    }
    assert ks[..] == keys;

    var rc, txn := native.TxnBegin(box.env, codes.begin);
    if rc != MDBX_SUCCESS {
      return NotRead(TxnFailed(rc));
    }
    rc := native.DbiOpen(txn, codes.dbiOpen);
    if rc != MDBX_SUCCESS {
      return NotRead(DbiFailed(rc));
    }
    var entries := LookupAll(native, txn, ks, nt);
    native.DbiClose(box.env);
    native.TxnAbort(txn);
    return Read(entries);
  }

  /** For keys without a NUL, the table holds key k exactly when k was asked for, is neither
      empty nor longer than 255 bytes, is stored, and its value carries a known tag; it then
      holds k's decoded value. */
  lemma {:induction false} LookupSpec(nt: NumberText, keys: seq<Bytes>, view: map<Bytes, Bytes>, k: Bytes)
    requires Readable(view)
    requires forall j :: 0 <= j < |keys| ==> NulFree(keys[j])
    ensures k in Lookup(nt, keys, view) <==> k in keys && ValidKey(k) && k in view && KnownTag(view[k])
    ensures k in Lookup(nt, keys, view) ==> Lookup(nt, keys, view)[k] == Decode(nt, view[k])
    decreases |keys|
  {
    if keys != [] {
      var init := keys[..|keys| - 1];
      LookupSpec(nt, init, view, k);
      assert keys == init + [keys[|keys| - 1]];
      NulFreeIsOwnCString(keys[|keys| - 1]);
    }
  }

  /** The table for a single key: one field, named by the key as a C string, when the key
      is valid, stored and tagged; no field otherwise. */
  lemma LookupOne(nt: NumberText, k: Bytes, view: map<Bytes, Bytes>)
    requires Readable(view)
    ensures Lookup(nt, [k], view) ==
      if ValidKey(k) && k in view && KnownTag(view[k]) then map[CString(k) := Decode(nt, view[k])] else map[]
  {
    assert [k][..0] == [];
    var e: map<Bytes, LuaValue> := map[];
    assert e - {CString(k)} == e;
  }

  /** `mget` touches the engine only for valid keys it was given, and each lookup
      succeeds exactly when the key is stored. */
  lemma LookupCallsOnlyValidKeys(keys: seq<Bytes>, view: map<Bytes, Bytes>)
    ensures var c := LookupCalls(keys, view);
      forall i :: 0 <= i < |c| ==>
        c[i].Get? && c[i].key in keys && ValidKey(c[i].key)
        && (c[i].rc == MDBX_SUCCESS <==> c[i].key in view)
  {
    var c := LookupCalls(keys, view);
    forall i | 0 <= i < |c|
      ensures c[i].Get? && c[i].key in keys && ValidKey(c[i].key)
      ensures c[i].rc == MDBX_SUCCESS <==> c[i].key in view
    {
      LookupCallAt(keys, view, i);
    }
  }

  lemma {:induction false} LookupCallAt(keys: seq<Bytes>, view: map<Bytes, Bytes>, i: nat)
    requires i < |LookupCalls(keys, view)|
    ensures var g := LookupCalls(keys, view)[i];
      && g.Get? && g.key in keys && ValidKey(g.key)
      && (g.rc == MDBX_SUCCESS <==> g.key in view)
    decreases |keys|
  {
    var init := keys[..|keys| - 1];
    var k := keys[|keys| - 1];
    assert keys == init + [k];
    var c' := LookupCalls(init, view);
    if i < |c'| {
      LookupCallAt(init, view, i);
      assert LookupCalls(keys, view)[i] == c'[i];
    }
  }

  /** The lookups need an open transaction and table handle and leave them as they were. */
  lemma {:induction false} LookupCallsKeepResources(h: Held, keys: seq<Bytes>, view: map<Bytes, Bytes>)
    requires h.txns > 0 && h.dbis > 0
    ensures Replay(h, LookupCalls(keys, view)) == Some(h)
    decreases |keys|
  {
    if keys != [] {
      var init := keys[..|keys| - 1];
      var k := keys[|keys| - 1];
      LookupCallsKeepResources(h, init, view);
      if ValidKey(k) {
        var g := [Call.Get(k, if k in view then MDBX_SUCCESS else MDBX_NOTFOUND)];
        ReplayAppend(h, LookupCalls(init, view), g);
        assert ReplayFrom(h, g, 0) == ReplayFrom(h, g, 1);
      }
    }
  }

  /** `mget` closes its table handle and aborts its transaction on the success path;
      when the table cannot be opened it leaves its transaction running. */
  lemma MGetReleases(h: Held, live: bool, view: map<Bytes, Bytes>, keys: seq<Bytes>, codes: ReadCodes)
    requires Counts(h)
    ensures Replay(h, MGetCalls(live, view, keys, codes)) ==
      Some(if |keys| > 0 && BeginRc(live, codes.begin) == MDBX_SUCCESS && codes.dbiOpen != MDBX_SUCCESS
           then h.(txns := h.txns + 1) else h)
  {
    var c := MGetCalls(live, view, keys, codes);
    if |keys| > 0 && BeginRc(live, codes.begin) == MDBX_SUCCESS {
      var t := h.(txns := h.txns + 1);   // the transaction begun
      assert ReplayFrom(h, c, 0) == ReplayFrom(t, c, 1);
      if codes.dbiOpen == MDBX_SUCCESS {
        var d := t.(dbis := t.dbis + 1);   // and the table opened
        var open := [TxnBegin(MDBX_SUCCESS), DbiOpen(MDBX_SUCCESS)];
        var lookups := LookupCalls(keys, view);
        var close := [DbiClose, TxnAbort];
        assert c == (open + lookups) + close;
        assert ReplayFrom(h, open, 0) == ReplayFrom(t, open, 1);
        assert ReplayFrom(t, open, 1) == ReplayFrom(d, open, 2);
        LookupCallsKeepResources(d, keys, view);
        ReplayAppend(h, open, lookups);
        ReplayAppend(h, open + lookups, close);
        assert ReplayFrom(d, close, 0) == ReplayFrom(t, close, 1);
        assert ReplayFrom(t, close, 1) == ReplayFrom(h, close, 2);
      } else {
        assert ReplayFrom(t, c, 1) == ReplayFrom(t, c, 2);
      }
    } else if |keys| > 0 {
      assert ReplayFrom(h, c, 0) == ReplayFrom(h, c, 1);
    }
  }

  /** An empty key list is a Lua error raised before the engine is touched. */
  lemma MGetRequiresAKey(live: bool, view: map<Bytes, Bytes>, nt: NumberText, codes: ReadCodes)
    requires Readable(view)
    ensures MGetOutcome(live, view, [], nt, codes) == Raised(NO_KEYS)
    ensures MGetCalls(live, view, [], codes) == []
  {
  }

  /** What `get` answers: the decoded value of a valid stored key, nil otherwise.
      `get(nil)` asks `mget` for an empty list and so raises its error. */
  function GetOutcome(live: bool, view: map<Bytes, Bytes>, key: Option<Bytes>, nt: NumberText, codes: ReadCodes)
    : ReadResult<LuaValue>
    requires Readable(view)
  {
    if key.None? then Raised(NO_KEYS)
    else if BeginRc(live, codes.begin) != MDBX_SUCCESS then NotRead(TxnFailed(BeginRc(live, codes.begin)))
    else if codes.dbiOpen != MDBX_SUCCESS then NotRead(DbiFailed(codes.dbiOpen))
    else Read(if ValidKey(key.value) && key.value in view then Decode(nt, view[key.value]) else Nil)
  }

  /** The one-element key list `get` hands to `mget`: a nil key leaves it empty. */
  function KeyList(key: Option<Bytes>): seq<Bytes>
  {
    if key.Some? then [key.value] else []
  }

  /** `get(k)` is `mget({k})` with its single field taken out (the table has no other),
      or nil for an empty table. */
  lemma GetIsMGetOfOne(live: bool, view: map<Bytes, Bytes>, key: Option<Bytes>, nt: NumberText,
                         codes: ReadCodes)
    requires Readable(view)
    ensures var m := MGetOutcome(live, view, KeyList(key), nt, codes);
      && (m.Read? ==> forall x :: x in m.value ==> x == CString(key.value))
      && GetOutcome(live, view, key, nt, codes) ==
         match m
         case Raised(msg) => Raised(msg)
         case NotRead(f) => NotRead(f)
         case Read(t) => Read(if CString(key.value) in t then t[CString(key.value)] else Nil)
  {
    if key.Some? {
      LookupOne(nt, key.value, view);
    }
  }

  /** `lua_mdbx_get`. */
  method Get(native: Native, box: EnvBox, key: Option<Bytes>, nt: NumberText, codes: ReadCodes)
    returns (result: ReadResult<LuaValue>)
    requires Readable(ViewOf(box))
    modifies native
    ensures result == GetOutcome(box.env != null, ViewOf(box), key, nt, codes)
    ensures native.calls == old(native.calls) + MGetCalls(box.env != null, ViewOf(box), KeyList(key), codes)
    ensures native.heap == old(native.heap)
  {
    var keys := KeyList(key);
    var r := MGet(native, box, keys, nt, codes);
    GetIsMGetOfOne(box.env != null, ViewOf(box), key, nt, codes);
    match r {
      case Raised(msg) =>
        return Raised(msg);
      case NotRead(f) =>
        return NotRead(f);
      case Read(entries) =>
        if entries == map[] {
          return Read(Nil);
        }
        var k :| k in entries;
        return Read(entries[k]);
    }
  }

  // ----------------------------------------------------------------------------------
  // properties across operations

  /** A value `set` stores is what a later `get` of the same key decodes. */
  lemma SetThenGet(view: map<Bytes, Bytes>, key: Option<Bytes>, value: LuaValue, nt: NumberText,
                   codes: SetCodes, lookups: ReadCodes)
    requires Readable(view)
    requires SetOutcome(true, key, value, codes) == Stored
    requires lookups.begin == MDBX_SUCCESS && lookups.dbiOpen == MDBX_SUCCESS
    ensures Readable(view[key.value := Encode(nt, value).value])
    ensures GetOutcome(true, view[key.value := Encode(nt, value).value], key, nt, lookups)
         == Read(Decode(nt, Encode(nt, value).value))
    ensures value.Bool? || (value.Str? && NulFree(value.bytes)) ==>
      GetOutcome(true, view[key.value := Encode(nt, value).value], key, nt, lookups) == Read(value)
  {
    if value.Bool? || (value.Str? && NulFree(value.bytes)) {
      RoundTrip(nt, value);
    }
  }

  /** Once closed, a handle fails every `set` past its argument checks and every `get`
      and `mget` with a key at `mdbx_txn_begin`, changing nothing. Since close is only
      the finalizer, such a handle is reachable only from code run during finalization. */
  lemma UseAfterClose(view: map<Bytes, Bytes>, key: Option<Bytes>, value: LuaValue, nt: NumberText,
                      codes: SetCodes, lookups: ReadCodes, keys: seq<Bytes>)
    requires Readable(view)
    ensures SetFault(key, value).None? ==>
      && SetOutcome(false, key, value, codes) == NotStored(BeginFailed)
      && SetCalls(false, key, value, nt, codes) == [Malloc(|Encode(nt, value).value|), TxnBegin(MDBX_EINVAL), Free]
    ensures |keys| > 0 ==> MGetOutcome(false, view, keys, nt, lookups) == NotRead(TxnFailed(MDBX_EINVAL))
    ensures key.Some? ==> GetOutcome(false, view, key, nt, lookups) == NotRead(TxnFailed(MDBX_EINVAL))
  {
  }
}

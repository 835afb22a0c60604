/**
 * The per-client session of the bridge (`LoopingWebSocket`): what one
 * message does to the engine connection, to the replies sent back and to
 * the session's own state, first as functions and then as the session
 * class whose methods follow the handler's code.
 */
module Bridge {
  import opened Wrappers
  import opened Values
  import opened Engine
  import opened Paths
  import opened Commands
  import Text

  /**
   * What handling one message produced: the engine calls issued, the
   * replies written to the client, the session's poll interval afterwards,
   * and the exception (if any) that left the handler.
   */
  datatype Reaction = Reaction(ops: seq<EngineOp>, replies: seq<Json>, interval: Json, raised: Option<Fault>)

  /** The commands that issue a call on the engine connection. */
  predicate TouchesEngine(c: Command)
  {
    c.FetchData? || c.SetWndlen? || c.SetAlpha? || c.SetType? || c.SetBeamformer?
  }

  /** The value written to the beamformer selector for a flag. */
  function BeamformerSetting(flag: Json): (v: Json)
    ensures v == JString("Bf") || v == JString("NoBf")
    ensures v == JString("Bf") <==> Truthy(flag)
  {
    JString(if Truthy(flag) then "Bf" else "NoBf")
  }

  /**
   * `_send_data`: read the pool path. A value read is sent back as one
   * `{"data": p}` reply; a ValueError is logged; a TimeoutError is logged and
   * the connection reopened; any other exception leaves the method.
   */
  function FetchReaction(poolPath: string, interval: Json, got: EngineResult): (r: Reaction)
    ensures r.ops == [Get(poolPath)] + (if got == Raised(TimeoutError) then [Reopen] else [])
    ensures r.replies == (if got.Ok? then [DataReply(got.value)] else [])
    ensures r.raised.Some? <==> got.Raised? && got.fault != ValueError && got.fault != TimeoutError
    ensures r.raised.Some? ==> r.raised.value == got.fault
    ensures r.interval == interval
  {
    match got
    case Ok(p) => Reaction([Get(poolPath)], [DataReply(p)], interval, None)
    case Raised(f) =>
      if f == ValueError then Reaction([Get(poolPath)], [], interval, None)
      else if f == TimeoutError then Reaction([Get(poolPath), Reopen], [], interval, None)
      else Reaction([Get(poolPath)], [], interval, Some(f))
  }

  /** One `set_val` on the connection; any exception it raises leaves the handler. */
  function SetReaction(path: string, value: Json, interval: Json, got: EngineResult): (r: Reaction)
    ensures r.ops == [Set(path, value)] && r.replies == [] && r.interval == interval
    ensures r.raised.Some? <==> got.Raised?
    ensures r.raised.Some? ==> r.raised.value == got.fault
  {
    Reaction([Set(path, value)], [], interval, if got.Raised? then Some(got.fault) else None)
  }

  /**
   * The undecorated `on_message`: decode, classify, and carry out the
   * command. `got` is what the engine call returns, when one is made.
   */
  function Respond(frame: Option<Json>, pluginPath: string, poolPath: string, interval: Json, got: EngineResult): (r: Reaction)
    ensures var p := Read(frame);
            r.ops == [] <==> !(p.Parsed? && TouchesEngine(p.command))
    ensures |r.replies| <= 1
    ensures var p := Read(frame);
            r.replies != [] ==> p == Parsed(FetchData) && got.Ok? && r.replies == [DataReply(got.value)]
    ensures var p := Read(frame);
            r.interval == if p.Parsed? && p.command.SetInterval? then p.command.interval else interval
    ensures var p := Read(frame);
            p.Raises? ==> r.raised == Some(p.fault)
    ensures var p := Read(frame);
            p.Parsed? && r.raised.Some? ==> TouchesEngine(p.command) && got.Raised? && r.raised.value == got.fault
  {
    match Read(frame)
    case Raises(f) => Reaction([], [], interval, Some(f))
    case Parsed(c) =>
      match c
      case FetchData => FetchReaction(poolPath, interval, got)
      case SetWndlen(v) => SetReaction(pluginPath + WndlenSuffix, v, interval, got)
      case SetAlpha(v) => SetReaction(pluginPath + AlphaSuffix, v, interval, got)
      case SetType(v) => SetReaction(pluginPath + TypeSuffix, v, interval, got)
      case SetBeamformer(flag) => SetReaction(BeamformerPath, BeamformerSetting(flag), interval, got)
      case SetInterval(v) => Reaction([], [], v, None)
      case UnknownCommand(_) => Reaction([], [], interval, None)
      case UnknownMessage => Reaction([], [], interval, None)
  }

  /** The reaction after the decorator has dealt with what left the handler. */
  function Guarded(r: Reaction, g: GuardResult): Reaction
  {
    Reaction(r.ops + (if g.reopen then [Reopen] else []), r.replies, r.interval, g.escaped)
  }

  /**
   * The decorated `on_message`, with the decorator's intended policy. No
   * exception leaves it; at most one engine call is made, and at most one
   * reopen follows it, exactly when that call failed with a timeout or a
   * broken pipe; at most one reply is sent, only for a successful data
   * request.
   */
  function Handle(frame: Option<Json>, pluginPath: string, poolPath: string, interval: Json, got: EngineResult): (r: Reaction)
    ensures r.raised == None
    ensures var p := Read(frame);
            r.ops == [] <==> !(p.Parsed? && TouchesEngine(p.command))
    ensures r.ops != [] ==> |r.ops| <= 2 && !r.ops[0].Reopen? && (|r.ops| == 2 ==> r.ops[1] == Reopen)
    ensures var p := Read(frame);
            Reopen in r.ops <==> p.Parsed? && TouchesEngine(p.command) && got.Raised? && IsConnectionFault(got.fault)
    ensures var p := Read(frame);
            r.replies == (if p == Parsed(FetchData) && got.Ok? then [DataReply(got.value)] else [])
    ensures var p := Read(frame);
            r.interval == if p.Parsed? && p.command.SetInterval? then p.command.interval else interval
  {
    var body := Respond(frame, pluginPath, poolPath, interval, got);
    Guarded(body, Guard(body.raised))
  }

  /**
   * The decorated `on_message` with the decorator as written. The decorator
   * never reopens; an AttributeError leaves the handler exactly when a set
   * command, or a data request by a broken pipe, meets a connection fault.
   * (A timeout of a data request is handled, and the connection reopened,
   * inside `_send_data`.)
   */
  function HandleAsWritten(frame: Option<Json>, pluginPath: string, poolPath: string, interval: Json, got: EngineResult): (r: Reaction)
    ensures var p := Read(frame);
            r.raised.Some? <==>
              p.Parsed? && TouchesEngine(p.command) && got.Raised? && IsConnectionFault(got.fault)
              && !(p.command == FetchData && got.fault == TimeoutError)
    ensures r.raised.Some? ==> r.raised.value == AttributeError
    ensures Reopen in r.ops <==> Read(frame) == Parsed(FetchData) && got == Raised(TimeoutError)
  {
    var body := Respond(frame, pluginPath, poolPath, interval, got);
    Guarded(body, GuardAsWritten(body.raised))
  }

  /**
   * The difference as written: a pooling setting whose `set_val` times out
   * is never followed by a reopen, and the handler fails with AttributeError,
   * where the intended handler reopens the connection and returns.
   */
  lemma AsWrittenTimeoutSkipsReopen(pluginPath: string, poolPath: string, interval: Json, v: Json)
    ensures var frame := Some(JObject(map[WndlenKey := v]));
            var got := Raised(TimeoutError);
            HandleAsWritten(frame, pluginPath, poolPath, interval, got)
              == Reaction([Set(pluginPath + WndlenSuffix, v)], [], interval, Some(AttributeError))
            && Handle(frame, pluginPath, poolPath, interval, got)
              == Reaction([Set(pluginPath + WndlenSuffix, v), Reopen], [], interval, None)
  {
    var m := map[WndlenKey := v];
    assert CommandKey !in m;
    assert Classify(m) == SetWndlen(v);
  }

  /** The suffixes of the three pooling settings, in KeyOrder's order. */
  const PoolingSuffixes: seq<string> := [WndlenSuffix, AlphaSuffix, TypeSuffix]

  /**
   * A message whose first recognised key is one of the three pooling
   * settings issues exactly one `set_val`, on the plug-in's path plus that
   * setting's suffix, with the message's value unchanged, and sends nothing.
   */
  lemma PoolingSettingIsOneSet(m: Message, pluginPath: string, poolPath: string, interval: Json, got: EngineResult)
    requires FirstKey(m, KeyOrder).Some?
    requires 1 <= FirstKey(m, KeyOrder).value <= 3
    ensures var i := FirstKey(m, KeyOrder).value;
            var r := Handle(Some(JObject(m)), pluginPath, poolPath, interval, got);
            r.ops[0] == Set(pluginPath + PoolingSuffixes[i - 1], m[KeyOrder[i]])
            && r.replies == [] && r.interval == interval
  {
    ClassifyIsFirstMatch(m);
    var i := FirstKey(m, KeyOrder).value;
    var v := m[KeyOrder[i]];
    var c := Classify(m);
    if i == 1 {
      assert c == SetWndlen(v);
    } else if i == 2 {
      assert c == SetAlpha(v);
    } else {
      assert c == SetType(v);
    }
  }

  /**
   * A message whose first recognised key is `beamformer` issues exactly one
   * `set_val` on the selector: "Bf" when the flag is truthy, "NoBf" otherwise.
   */
  lemma BeamformerIsOneSet(m: Message, pluginPath: string, poolPath: string, interval: Json, got: EngineResult)
    requires FirstKey(m, KeyOrder) == Some(4)
    ensures var r := Handle(Some(JObject(m)), pluginPath, poolPath, interval, got);
            r.ops[0] == Set(BeamformerPath, JString(if Truthy(m[BeamformerKey]) then "Bf" else "NoBf"))
            && r.replies == [] && r.interval == interval
  {
    ClassifyIsFirstMatch(m);
    assert Classify(m) == SetBeamformer(m[BeamformerKey]);
  }

  /**
   * A message whose first recognised key is `new_interval` only replaces the
   * interval: no engine call, no reply.
   */
  lemma IntervalIsLocal(m: Message, pluginPath: string, poolPath: string, interval: Json, got: EngineResult)
    requires FirstKey(m, KeyOrder) == Some(5)
    ensures Handle(Some(JObject(m)), pluginPath, poolPath, interval, got)
            == Reaction([], [], m[IntervalKey], None)
  {
    ClassifyIsFirstMatch(m);
    assert Classify(m) == SetInterval(m[IntervalKey]);
  }

  /**
   * A `command` key with any value but "send_data" shadows every later key:
   * nothing is called, nothing is sent, nothing changes.
   */
  lemma UnknownCommandIsInert(m: Message, pluginPath: string, poolPath: string, interval: Json, got: EngineResult)
    requires CommandKey in m && m[CommandKey] != JString(SendDataCommand)
    ensures Handle(Some(JObject(m)), pluginPath, poolPath, interval, got) == Reaction([], [], interval, None)
  {
    assert Classify(m) == UnknownCommand(m[CommandKey]);
  }

  /**
   * A frame that is not JSON, a message with none of the keys, and any
   * non-object that the chain cannot use change nothing and raise nothing.
   */
  lemma UnusableFrameIsInert(frame: Option<Json>, pluginPath: string, poolPath: string, interval: Json, got: EngineResult)
    requires frame.Some? && frame.value.JObject? ==> FirstKey(frame.value.fields, KeyOrder) == None
    ensures Handle(frame, pluginPath, poolPath, interval, got) == Reaction([], [], interval, None)
  {
    if frame.Some? && frame.value.JObject? {
      ClassifyIsFirstMatch(frame.value.fields);
    }
  }

  /**
   * A data request reads the pool path once; its reply, when there is one,
   * carries exactly the value read.
   */
  lemma FetchReadsPool(m: Message, pluginPath: string, poolPath: string, interval: Json, got: EngineResult)
    requires CommandKey in m && m[CommandKey] == JString(SendDataCommand)
    ensures var r := Handle(Some(JObject(m)), pluginPath, poolPath, interval, got);
            r.ops[0] == Get(poolPath)
            && r.replies == (if got.Ok? then [DataReply(got.value)] else [])
            && (Reopen in r.ops <==> got.Raised? && IsConnectionFault(got.fault))
  {
    assert Classify(m) == FetchData;
  }

  /**
   * One client session. It owns its own engine connection, opened in the
   * constructor with the poll interval of that moment (None) as timeout; the
   * traces record every call issued on that connection and every reply
   * written to the client.
   */
  class Session {
    const host: string
    const port: int
    const poolingId: string
    /** The timeout the connection was opened with. */
    const connTimeout: Json
    var pluginPath: string
    var poolPath: string
    var interval: Json
    ghost var ops: seq<EngineOp>
    ghost var replies: seq<Json>

    /**
     * `__init__` once `find_id(pooling_id)` has returned a list whose first
     * entry is `pluginPath`: the pool path is resolved here, once.
     */
    constructor (host: string, port: int, poolingId: string, poolPathArg: string, pluginPath: string)
      ensures this.host == host && this.port == port && this.poolingId == poolingId
      ensures this.pluginPath == pluginPath
      ensures poolPath == ResolvePoolPath(poolPathArg, pluginPath, poolingId)
      ensures interval == JNull && connTimeout == JNull
      ensures ops == [FindId(poolingId)] && replies == []
    {
      this.host := host;
      this.port := port;
      this.poolingId := poolingId;
      interval := JNull;
      connTimeout := JNull;
      this.pluginPath := pluginPath;
      var resolved := poolPathArg;
      if resolved == "" {
        var monPath := Text.ReplaceAll(pluginPath, poolingId, MonitorId);
        resolved := monPath + PoolSuffix;
      }
      poolPath := resolved;
      ops := [FindId(poolingId)];
      replies := [];
    }

    /** `_send_data`. */
    method SendData(got: EngineResult) returns (raised: Option<Fault>)
      modifies this
      ensures var r := FetchReaction(old(poolPath), old(interval), got);
              ops == old(ops) + r.ops && replies == old(replies) + r.replies && raised == r.raised
      ensures pluginPath == old(pluginPath) && poolPath == old(poolPath) && interval == old(interval)
    {
      ops := ops + [Get(poolPath)];
      match got
      case Ok(p) =>
        replies := replies + [DataReply(p)];
        raised := None;
      case Raised(f) =>
        if f == ValueError {
          raised := None;
        } else if f == TimeoutError {
          ops := ops + [Reopen];
          raised := None;
        } else {
          raised := Some(f);
        }
    }

    /** `self._mha_conn.set_val(path, value)`, letting any exception through. */
    method SetVal(path: string, value: Json, got: EngineResult) returns (raised: Option<Fault>)
      modifies this
      ensures var r := SetReaction(path, value, old(interval), got);
              ops == old(ops) + r.ops && replies == old(replies) + r.replies && raised == r.raised
      ensures pluginPath == old(pluginPath) && poolPath == old(poolPath) && interval == old(interval)
    {
      ops := ops + [Set(path, value)];
      raised := if got.Raised? then Some(got.fault) else None;
    }

    /** The body of `on_message`, before decoration. */
    method Dispatch(frame: Option<Json>, got: EngineResult) returns (raised: Option<Fault>)
      modifies this
      ensures var r := Respond(frame, old(pluginPath), old(poolPath), old(interval), got);
              ops == old(ops) + r.ops && replies == old(replies) + r.replies
              && interval == r.interval && raised == r.raised
      ensures pluginPath == old(pluginPath) && poolPath == old(poolPath)
    {
      match Read(frame)
      case Raises(f) =>
        raised := Some(f);
      case Parsed(c) =>
        match c
        case FetchData =>
          raised := SendData(got);
        case SetWndlen(v) =>
          raised := SetVal(pluginPath + WndlenSuffix, v, got);
        case SetAlpha(v) =>
          raised := SetVal(pluginPath + AlphaSuffix, v, got);
        case SetType(v) =>
          raised := SetVal(pluginPath + TypeSuffix, v, got);
        case SetBeamformer(flag) =>
          raised := SetVal(BeamformerPath, BeamformerSetting(flag), got);
        case SetInterval(v) =>
          interval := v;
          raised := None;
        case UnknownCommand(_) =>
          raised := None;
        case UnknownMessage =>
          raised := None;
    }

    /** `on_message` as decorated by `handle_conn_errors`, with the intended policy. */
    method OnMessage(frame: Option<Json>, got: EngineResult) returns (escaped: Option<Fault>)
      modifies this
      ensures var r := Handle(frame, old(pluginPath), old(poolPath), old(interval), got);
              ops == old(ops) + r.ops && replies == old(replies) + r.replies
              && interval == r.interval && escaped == r.raised
      ensures pluginPath == old(pluginPath) && poolPath == old(poolPath)
    {
      var raised := Dispatch(frame, got);
      var g := Guard(raised);
      if g.reopen {
        ops := ops + [Reopen];
      }
      escaped := g.escaped;
    }
  }

  /**
   * Opening a session: `find_id(pooling_id)` returned `found`; indexing its
   * first entry raises IndexError out of `__init__` when it is empty.
   */
  method Open(host: string, port: int, poolingId: string, poolPathArg: string, found: seq<string>)
    returns (s: Session?, raised: Option<Fault>)
    ensures found == [] ==> s == null && raised == Some(IndexError)
    ensures found != [] ==> raised == None && s != null && fresh(s)
    ensures s != null ==> s.pluginPath == found[0] && s.poolingId == poolingId
                          && s.poolPath == ResolvePoolPath(poolPathArg, found[0], poolingId)
                          && s.interval == JNull && s.ops == [FindId(poolingId)] && s.replies == []
  {
    if found == [] {
      s, raised := null, Some(IndexError);
    } else {
      s := new Session(host, port, poolingId, poolPathArg, found[0]);
      raised := None;
    }
  }

  /**
   * A data request that times out is followed by a reopen and no reply; the
   * next data request on the same session is served as usual.
   */
  method RecoverAfterTimeout(pluginPath: string, p: Json)
  {
    var s := new Session("127.0.0.1", 33337, "pool", "", pluginPath);
    var request := Some(JObject(map[CommandKey := JString(SendDataCommand)]));
    assert Read(request) == Parsed(FetchData);
    var escaped := s.OnMessage(request, Raised(TimeoutError));
    assert escaped == None && s.replies == [];
    assert s.ops == [FindId("pool"), Get(s.poolPath), Reopen];
    escaped := s.OnMessage(request, Ok(p));
    assert escaped == None && s.replies == [DataReply(p)];
    assert s.ops == [FindId("pool"), Get(s.poolPath), Reopen, Get(s.poolPath)];
  }
}

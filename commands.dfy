/**
 * Classification of one decoded client message into exactly one command:
 * a fixed chain of top-level keys, tried in order, the first present key
 * deciding.
 */
module Commands {
  import opened Wrappers
  import opened Values
  import opened Engine
  import Text

  const CommandKey: string := "command"
  const WndlenKey: string := "new_pooling_wndlen"
  const AlphaKey: string := "new_pooling_alpha"
  const TypeKey: string := "new_pooling_type"
  const BeamformerKey: string := "beamformer"
  const IntervalKey: string := "new_interval"

  /** The only value of the `command` key that is recognised. */
  const SendDataCommand: string := "send_data"

  /** The recognised keys, in the order they are tried. */
  const KeyOrder: seq<string> := [CommandKey, WndlenKey, AlphaKey, TypeKey, BeamformerKey, IntervalKey]

  /** The command a message asks for; each carries the message's value unchanged. */
  datatype Command =
    | FetchData
    | SetWndlen(wndlen: Json)
    | SetAlpha(alpha: Json)
    | SetType(poolingType: Json)
    | SetBeamformer(flag: Json)
    | SetInterval(interval: Json)
    | UnknownCommand(command: Json)
    | UnknownMessage

  /**
   * The if/elif chain of the message handler on a decoded JSON object. A
   * message is unknown exactly when it has none of the recognised keys.
   */
  function Classify(m: Message): (c: Command)
    ensures c == UnknownMessage <==> forall i | 0 <= i < |KeyOrder| :: KeyOrder[i] !in m
  {
    assert KeyOrder[0] == CommandKey && KeyOrder[1] == WndlenKey && KeyOrder[2] == AlphaKey;
    assert KeyOrder[3] == TypeKey && KeyOrder[4] == BeamformerKey && KeyOrder[5] == IntervalKey;
    if CommandKey in m then
      if m[CommandKey] == JString(SendDataCommand) then FetchData else UnknownCommand(m[CommandKey])
    else if WndlenKey in m then SetWndlen(m[WndlenKey])
    else if AlphaKey in m then SetAlpha(m[AlphaKey])
    else if TypeKey in m then SetType(m[TypeKey])
    else if BeamformerKey in m then SetBeamformer(m[BeamformerKey])
    else if IntervalKey in m then SetInterval(m[IntervalKey])
    else UnknownMessage
  }

  /**
   * The index in `keys` of the first key present in `m`, if any: every
   * earlier key is absent.
   */
  function FirstKey(m: Message, keys: seq<string>): (r: Option<nat>)
    ensures r == None <==> forall i | 0 <= i < |keys| :: keys[i] !in m
    ensures r.Some? ==> r.value < |keys| && keys[r.value] in m
                        && forall j | 0 <= j < r.value :: keys[j] !in m
  {
    if keys == [] then None
    else if keys[0] in m then Some(0)
    else
      match FirstKey(m, keys[1..])
      case None => None
      case Some(i) => Some(i + 1)
  }

  /**
   * The command for the `i`-th recognised key holding value `v`, as a table
   * indexed by position in KeyOrder.
   */
  function CommandFor(i: nat, v: Json): (c: Command)
    requires i < |KeyOrder|
  {
    [ if v == JString(SendDataCommand) then FetchData else UnknownCommand(v),
      SetWndlen(v), SetAlpha(v), SetType(v), SetBeamformer(v), SetInterval(v) ][i]
  }

  /**
   * First match wins: the command depends only on the first recognised key
   * present and on its value; any later key is ignored.
   */
  lemma ClassifyIsFirstMatch(m: Message)
    ensures FirstKey(m, KeyOrder) == None ==> Classify(m) == UnknownMessage
    ensures FirstKey(m, KeyOrder).Some? ==>
              var i := FirstKey(m, KeyOrder).value;
              Classify(m) == CommandFor(i, m[KeyOrder[i]])
  {
    var k := FirstKey(m, KeyOrder);
    if k.Some? {
      var i := k.value;
      assert KeyOrder[i] in m && forall j | 0 <= j < i :: KeyOrder[j] !in m;
      if i == 0 {
      } else if i == 1 {
        assert KeyOrder[0] !in m;
      } else if i == 2 {
        assert KeyOrder[0] !in m && KeyOrder[1] !in m;
      } else if i == 3 {
        assert KeyOrder[0] !in m && KeyOrder[1] !in m && KeyOrder[2] !in m;
      } else if i == 4 {
        assert KeyOrder[0] !in m && KeyOrder[1] !in m && KeyOrder[2] !in m && KeyOrder[3] !in m;
      } else {
        assert KeyOrder[0] !in m && KeyOrder[1] !in m && KeyOrder[2] !in m && KeyOrder[3] !in m;
        assert KeyOrder[4] !in m;
      }
    }
  }

  /** The outcome of decoding and classifying one frame: a command or an exception. */
  datatype Parse = Parsed(command: Command) | Raises(fault: Fault)

  /**
   * `json.loads` followed by the key chain. A frame that is not JSON raises
   * ValueError. A JSON value that is not an object goes through the same
   * chain with Python's `in` on it: a string is searched for the key as a
   * substring and a list for the key as an element, and the first hit makes
   * the handler index the value with a string key, which raises TypeError;
   * `in` on a number, boolean or null raises TypeError at once. Otherwise the
   * message is unknown.
   */
  function Read(frame: Option<Json>): (p: Parse)
    ensures frame.Some? && frame.value.JObject? ==> p == Parsed(Classify(frame.value.fields))
    ensures frame == None ==> p == Raises(ValueError)
    ensures p.Raises? ==> p.fault == ValueError || p.fault == TypeError
    ensures p.Parsed? && !(frame.Some? && frame.value.JObject?) ==> p.command == UnknownMessage
  {
    match frame
    case None => Raises(ValueError)
    case Some(v) =>
      match v
      case JObject(m) => Parsed(Classify(m))
      case JString(s) =>
        if exists i | 0 <= i < |KeyOrder| :: Text.Contains(s, KeyOrder[i]) then Raises(TypeError)
        else Parsed(UnknownMessage)
      case JArray(xs) =>
        if exists i | 0 <= i < |KeyOrder| :: JString(KeyOrder[i]) in xs then Raises(TypeError)
        else Parsed(UnknownMessage)
      case _ => Raises(TypeError)
  }
}

/** The setGsConfig and setCoreConfig handlers: each walks the posted dict in
    order, coerces every value by the kind of config it targets, and writes it
    to the config store. The store itself is not modelled; the writes it
    receives, in order, are the model's output. */
module ConfigWriters {
  import opened Wrappers
  import opened PyStr
  import opened PyValues

  /** One `set_config(name, value)` call. */
  datatype Write = Write(name: string, value: Value)

  /** The writes a handler made, and the exception that stopped it (None
      when it reached its success reply). Writes made before an exception
      have already reached the store. */
  datatype Writes = Writes(writes: seq<Write>, error: Option<PyError>)

  // ---------------------------------------------------------------------
  // setGsConfig

  /** The type of one plugin config entry. */
  datatype ConfigKind = ListStrConfig | ImageConfig | PlainConfig

  /** One plugin's config set: the kind of every entry and the defaults. */
  datatype ConfigSet = ConfigSet(kinds: map<string, ConfigKind>, defaults: map<string, Value>)

  const FullWidthColon: char := '\U{FF1A}'

  /** A list-of-strings config posted as text: full-width colons become
      colons, colons become commas, and the text is split on commas. */
  function ListStrValue(s: string): (r: seq<string>)
    ensures |r| >= 1
    ensures forall k :: 0 <= k < |r| ==> ',' !in r[k] && ':' !in r[k] && FullWidthColon !in r[k]
  {
    var t := Replace(Replace(s, FullWidthColon, ':'), ':', ',');
    ReplaceRemoves(s, FullWidthColon, ':');
    ReplaceRemoves(Replace(s, FullWidthColon, ':'), ':', ',');
    var r := Split(t, ',');
    assert forall k :: 0 <= k < |r| ==> ':' !in r[k] && FullWidthColon !in r[k] by {
      forall k | 0 <= k < |r| ensures ':' !in r[k] && FullWidthColon !in r[k] {
        JoinSplit(t, ',');
        PieceOfJoin(r, ',', k);
      }
    }
    r
  }

  /** Every piece of a join occurs in it. */
  lemma {:induction false} PieceOfJoin(parts: seq<string>, c: char, k: nat)
    requires k < |parts|
    ensures forall x :: x in parts[k] ==> x in Join(parts, c)
  {
    if k > 0 {
      PieceOfJoin(parts[1..], c, k - 1);
    }
  }

  /** The three separators all separate: `a：b:c` gives ["a", "b", "c"]. */
  lemma ListStrValueExample()
    ensures ListStrValue("a\U{FF1A}b:c") == ["a", "b", "c"]
  {
    var t := Replace(Replace("a\U{FF1A}b:c", FullWidthColon, ':'), ':', ',');
    assert t == "a,b,c";
    assert Join(["a", "b", "c"], ',') == "a,b,c" by {
      assert ["a", "b", "c"][1..] == ["b", "c"];
      assert ["b", "c"][1..] == ["c"];
    }
    SplitJoin(["a", "b", "c"], ',');
  }

  /** Joining the pieces with ',' gives the posted text with both colons
      turned into commas; no other character is touched. */
  lemma ListStrValueJoin(s: string)
    ensures Join(ListStrValue(s), ',') == Replace(Replace(s, FullWidthColon, ':'), ':', ',')
  {
    JoinSplit(Replace(Replace(s, FullWidthColon, ':'), ':', ','), ',');
  }

  /** The value setGsConfig writes for entry `name` of the config set, or the
      exception raised on the way (web_app.py lines 192-200). */
  function GsConfigValue(cc: ConfigSet, name: string, v: Value): (r: Result<Value, PyError>)
    ensures name !in cc.kinds ==> r == Err(KeyError(name))
    // a list config needs posted text, and stores its pieces
    ensures name in cc.kinds && cc.kinds[name] == ListStrConfig ==>
      && (r.Ok? <==> v.Str?)
      && (v.Str? ==> r.value == StrList(ListStrValue(v.s)))
      && (!v.Str? ==> r.error == AttributeError(name))
    // an image config ignores the posted value and stores its default
    ensures name in cc.kinds && cc.kinds[name] == ImageConfig ==>
      && (r.Ok? <==> name in cc.defaults)
      && (r.Ok? ==> r.value == cc.defaults[name])
      && (r.Err? ==> r.error == KeyError(name))
    // any other config stores the posted value as it is
    ensures name in cc.kinds && cc.kinds[name] == PlainConfig ==> r == Ok(v)
  {
    if name !in cc.kinds then Err(KeyError(name))
    else match cc.kinds[name]
      case ListStrConfig =>
        if v.Str? then Ok(StrList(ListStrValue(v.s))) else Err(AttributeError(name))
      case ImageConfig =>
        if name in cc.defaults then Ok(cc.defaults[name]) else Err(KeyError(name))
      case PlainConfig => Ok(v)
  }

  /** setGsConfig over the posted pairs (in the dict's order): "params" is
      skipped; the config set is looked up for every other key, so a missing
      set raises at the first such key (web_app.py lines 188-202). */
  function GsConfigWrites(configs: map<string, ConfigSet>, configName: string,
                          data: seq<(string, Value)>): Writes
  {
    if data == [] then Writes([], None)
    else
      var (name, v) := data[0];
      if name == "params" then GsConfigWrites(configs, configName, data[1..])
      else if configName !in configs then Writes([], Some(KeyError(configName)))
      else match GsConfigValue(configs[configName], name, v)
        case Err(e) => Writes([], Some(e))
        case Ok(value) =>
          var rest := GsConfigWrites(configs, configName, data[1..]);
          Writes([Write(name, value)] + rest.writes, rest.error)
  }

  /** Every write of setGsConfig comes from a posted pair other than "params",
      with the value its config kind dictates: list configs as separator-free
      pieces, image configs reset to their default. When no exception is
      raised, every such posted pair is written. */
  lemma {:induction false} GsConfigWritesSound(configs: map<string, ConfigSet>, configName: string,
                                               data: seq<(string, Value)>)
    ensures var r := GsConfigWrites(configs, configName, data);
      && (forall w :: w in r.writes ==>
            && w.name != "params"
            && configName in configs
            && exists p :: p in data && p.0 == w.name
                 && GsConfigValue(configs[configName], p.0, p.1) == Ok(w.value))
      && (r.error == None ==> forall p :: p in data && p.0 != "params" ==>
            && configName in configs
            && GsConfigValue(configs[configName], p.0, p.1).Ok?
            && Write(p.0, GsConfigValue(configs[configName], p.0, p.1).value) in r.writes)
  {
    if data != [] {
      GsConfigWritesSound(configs, configName, data[1..]);
      forall p | p in data[1..] ensures p in data { }
      assert forall p :: p in data ==> p == data[0] || p in data[1..];
    }
  }

  /** With an unknown config set, setGsConfig writes nothing, and raises
      exactly when some key other than "params" was posted. */
  lemma {:induction false} GsConfigUnknownSet(configs: map<string, ConfigSet>, configName: string,
                                              data: seq<(string, Value)>)
    requires configName !in configs
    ensures var r := GsConfigWrites(configs, configName, data);
      && r.writes == []
      && (r.error == None <==> forall p :: p in data ==> p.0 == "params")
      && (r.error != None ==> r.error == Some(KeyError(configName)))
  {
    if data != [] {
      GsConfigUnknownSet(configs, configName, data[1..]);
      assert forall p :: p in data ==> p == data[0] || p in data[1..];
    }
  }

  /** setGsConfig raises nothing exactly when every posted key other than
      "params" names an entry of a known config set that accepts its value. */
  lemma {:induction false} GsConfigSucceeds(configs: map<string, ConfigSet>, configName: string,
                                            data: seq<(string, Value)>)
    ensures GsConfigWrites(configs, configName, data).error == None <==>
      forall p :: p in data && p.0 != "params" ==>
        configName in configs && GsConfigValue(configs[configName], p.0, p.1).Ok?
  {
    if data != [] {
      GsConfigSucceeds(configs, configName, data[1..]);
      assert forall p :: p in data ==> p == data[0] || p in data[1..];
      assert data[0] in data;
    }
  }

  /** The setGsConfig handler: one pass over the posted pairs. */
  method SetGsConfig(configs: map<string, ConfigSet>, configName: string,
                     data: seq<(string, Value)>) returns (r: Writes)
    ensures r == GsConfigWrites(configs, configName, data)
  {
    var writes: seq<Write> := [];
    var i := 0;
    while i < |data|
      invariant 0 <= i <= |data|
      invariant var rest := GsConfigWrites(configs, configName, data[i..]);
        GsConfigWrites(configs, configName, data) == Writes(writes + rest.writes, rest.error)
    {
      var (name, v) := data[i];
      assert data[i..][1..] == data[i + 1..];
      if name != "params" {
        if configName !in configs {
          return Writes(writes, Some(KeyError(configName)));
        }
        var value := GsConfigValue(configs[configName], name, v);
        if value.Err? {
          return Writes(writes, Some(value.error));
        }
        writes := writes + [Write(name, value.value)];
      }
      i := i + 1;
    }
    return Writes(writes, None);
  }

  // ---------------------------------------------------------------------
  // setCoreConfig

  /** Is the posted key one of the two that are gathered into the "log" object? */
  predicate IsLogKey(key: string)
  {
    key == "log_level" || key == "log_output"
  }

  /** The keys setCoreConfig splits on ',': those whose default is a list,
      and "log_output". */
  predicate ListKey(defaults: map<string, Value>, key: string)
  {
    (key in defaults && defaults[key].StrList?) || key == "log_output"
  }

  /** The value setCoreConfig uses for a posted key (web_app.py lines 210-215):
      a list key needs posted text and gets its pieces (`.split` on anything
      else raises AttributeError); every other key keeps the posted value. */
  function CoreValue(defaults: map<string, Value>, key: string, v: Value): (r: Result<Value, PyError>)
    ensures ListKey(defaults, key) ==>
      && (r.Ok? <==> v.Str?)
      && (v.Str? ==> r.value == StrList(Split(v.s, ',')))
      && (!v.Str? ==> r.error == AttributeError(key))
    ensures !ListKey(defaults, key) ==> r == Ok(v)
  {
    if ListKey(defaults, key) then
      if v.Str? then Ok(StrList(Split(v.s, ','))) else Err(AttributeError(key))
    else Ok(v)
  }

  /** The handler's running state: the writes made so far, and the `result`
      dict of nested objects with its keys in insertion order. */
  datatype CoreState = CoreState(writes: seq<Write>, order: seq<string>,
                                 nested: map<string, map<string, Value>>)

  /** One posted pair. A log key `a_b` is stored as `result[a][b]` instead of
      being written (web_app.py lines 217-223). */
  function CoreStep(defaults: map<string, Value>, st: CoreState, key: string, v: Value)
    : Result<CoreState, PyError>
  {
    match CoreValue(defaults, key, v)
    case Err(e) => Err(e)
    case Ok(value) =>
      if IsLogKey(key) then
        var g := Split(key, '_');
        var k := g[0];
        var inner := if k in st.nested then st.nested[k] else map[];
        var order := if k in st.nested then st.order else st.order + [k];
        Ok(CoreState(st.writes, order, st.nested[k := inner[g[1] := value]]))
      else
        Ok(CoreState(st.writes + [Write(key, value)], st.order, st.nested))
  }

  /** The loop over the posted pairs, from state `st`; on an exception the
      writes made so far are kept. */
  function CoreLoop(defaults: map<string, Value>, st: CoreState, data: seq<(string, Value)>): Writes
    decreases |data|
  {
    if data == [] then Writes(Flush(st.writes, st.order, st.nested), None)
    else match CoreStep(defaults, st, data[0].0, data[0].1)
      case Err(e) => Writes(st.writes, Some(e))
      case Ok(st') => CoreLoop(defaults, st', data[1..])
  }

  /** The closing loop: each gathered object is written under its key. */
  function Flush(writes: seq<Write>, order: seq<string>, nested: map<string, map<string, Value>>)
    : seq<Write>
  {
    if order == [] then writes
    else
      var r := order[|order| - 1];
      var before := Flush(writes, order[..|order| - 1], nested);
      if r in nested then before + [Write(r, Obj(nested[r]))] else before
  }

  function CoreConfigWrites(defaults: map<string, Value>, data: seq<(string, Value)>): Writes
  {
    CoreLoop(defaults, CoreState([], [], map[]), data)
  }

  lemma LevelKeySplit()
    ensures Split("log_level", '_') == ["log", "level"]
  {
    assert Join(["log", "level"], '_') == "log_level" by {
      assert ["log", "level"][1..] == ["level"];
    }
    SplitJoin(["log", "level"], '_');
  }

  lemma OutputKeySplit()
    ensures Split("log_output", '_') == ["log", "output"]
  {
    assert Join(["log", "output"], '_') == "log_output" by {
      assert ["log", "output"][1..] == ["output"];
    }
    SplitJoin(["log", "output"], '_');
  }

  /** The coerced value of a posted pair whose coercion succeeds (the pair
      itself otherwise; the reference definitions below are only used when
      every coercion succeeds). */
  function Coerced(defaults: map<string, Value>, key: string, v: Value): Value
  {
    match CoreValue(defaults, key, v)
    case Ok(value) => value
    case Err(_) => v
  }

  /** Reference definition of what setCoreConfig writes for the ordinary keys:
      every posted pair that is not a log key, coerced, in posted order. */
  function PlainWrites(defaults: map<string, Value>, data: seq<(string, Value)>): seq<Write>
  {
    if data == [] then []
    else
      var rest := PlainWrites(defaults, data[1..]);
      if IsLogKey(data[0].0) then rest
      else [Write(data[0].0, Coerced(defaults, data[0].0, data[0].1))] + rest
  }

  /** Reference definition of the gathered "log" object: "level" and
      "output" from the posted log keys (a later pair overrides an earlier one). */
  function LogFields(defaults: map<string, Value>, data: seq<(string, Value)>): map<string, Value>
  {
    if data == [] then map[]
    else
      var rest := LogFields(defaults, data[..|data| - 1]);
      var (key, v) := data[|data| - 1];
      if key == "log_level" then rest["level" := Coerced(defaults, key, v)]
      else if key == "log_output" then rest["output" := Coerced(defaults, key, v)]
      else rest
  }

  predicate NoError(defaults: map<string, Value>, data: seq<(string, Value)>)
  {
    forall k :: 0 <= k < |data| ==> CoreValue(defaults, data[k].0, data[k].1).Ok?
  }

  predicate HasLogKey(data: seq<(string, Value)>)
  {
    exists k :: 0 <= k < |data| && IsLogKey(data[k].0)
  }

  /** Invariant of the loop: the state after a prefix of the posted pairs. */
  predicate CoreStateAfter(defaults: map<string, Value>, done: seq<(string, Value)>, st: CoreState)
  {
    && st.writes == PlainWrites(defaults, done)
    && (HasLogKey(done) ==> st.order == ["log"] && st.nested.Keys == {"log"}
                            && st.nested["log"] == LogFields(defaults, done))
    && (!HasLogKey(done) ==> st.order == [] && st.nested == map[])
  }

  lemma PlainWritesSnoc(defaults: map<string, Value>, data: seq<(string, Value)>, p: (string, Value))
    ensures PlainWrites(defaults, data + [p]) ==
      PlainWrites(defaults, data) + (if IsLogKey(p.0) then [] else [Write(p.0, Coerced(defaults, p.0, p.1))])
  {
    if data != [] {
      assert (data + [p])[1..] == data[1..] + [p];
      PlainWritesSnoc(defaults, data[1..], p);
    }
  }

  lemma HasLogKeySnoc(done: seq<(string, Value)>, p: (string, Value))
    ensures HasLogKey(done + [p]) <==> HasLogKey(done) || IsLogKey(p.0)
  {
    var done' := done + [p];
    if IsLogKey(p.0) {
      assert done'[|done|] == p;
    }
    if HasLogKey(done) {
      var k :| 0 <= k < |done| && IsLogKey(done[k].0);
      assert done'[k] == done[k];
    }
    if HasLogKey(done') {
      var k :| 0 <= k < |done'| && IsLogKey(done'[k].0);
      if k < |done| { assert done[k] == done'[k]; }
    }
  }

  lemma NoErrorCons(defaults: map<string, Value>, data: seq<(string, Value)>)
    requires data != []
    ensures NoError(defaults, data) <==>
      CoreValue(defaults, data[0].0, data[0].1).Ok? && NoError(defaults, data[1..])
  {
    if CoreValue(defaults, data[0].0, data[0].1).Ok? && NoError(defaults, data[1..]) {
      forall k | 0 <= k < |data| ensures CoreValue(defaults, data[k].0, data[k].1).Ok? {
        if k > 0 { assert data[k] == data[1..][k - 1]; }
      }
    }
    if NoError(defaults, data) {
      forall k | 0 <= k < |data[1..]| ensures CoreValue(defaults, data[1..][k].0, data[1..][k].1).Ok? {
        assert data[1..][k] == data[k + 1];
      }
    }
  }

  lemma {:induction false} LogFieldsWithoutLogKey(defaults: map<string, Value>, data: seq<(string, Value)>)
    requires !HasLogKey(data)
    ensures LogFields(defaults, data) == map[]
  {
    if data != [] {
      var p := data[..|data| - 1];
      assert data == p + [data[|data| - 1]];
      HasLogKeySnoc(p, data[|data| - 1]);
      LogFieldsWithoutLogKey(defaults, p);
    }
  }

  /** One successful step keeps the loop invariant. */
  lemma CoreStepAfter(defaults: map<string, Value>, done: seq<(string, Value)>, st: CoreState,
                      key: string, v: Value)
    requires CoreStateAfter(defaults, done, st)
    requires CoreValue(defaults, key, v).Ok?
    ensures CoreStep(defaults, st, key, v).Ok?
    ensures CoreStateAfter(defaults, done + [(key, v)], CoreStep(defaults, st, key, v).value)
  {
    var done' := done + [(key, v)];
    PlainWritesSnoc(defaults, done, (key, v));
    HasLogKeySnoc(done, (key, v));
    if IsLogKey(key) {
      LogStepAfter(defaults, done, st, key, v);
    } else {
      assert done'[..|done'| - 1] == done;
    }
  }

  /** The step for a log key, spelled out. */
  lemma LogStepResult(defaults: map<string, Value>, st: CoreState, key: string, v: Value)
    requires CoreValue(defaults, key, v).Ok?
    requires IsLogKey(key)
    ensures var inner := if "log" in st.nested then st.nested["log"] else map[];
      var order := if "log" in st.nested then st.order else st.order + ["log"];
      var sub := if key == "log_level" then "level" else "output";
      CoreStep(defaults, st, key, v) ==
        Ok(CoreState(st.writes, order, st.nested["log" := inner[sub := Coerced(defaults, key, v)]]))
  {
    if key == "log_level" {
      LevelKeySplit();
    } else {
      OutputKeySplit();
    }
  }

  lemma LogStepAfter(defaults: map<string, Value>, done: seq<(string, Value)>, st: CoreState,
                     key: string, v: Value)
    requires CoreStateAfter(defaults, done, st)
    requires CoreValue(defaults, key, v).Ok?
    requires IsLogKey(key)
    ensures CoreStep(defaults, st, key, v).Ok?
    ensures CoreStateAfter(defaults, done + [(key, v)], CoreStep(defaults, st, key, v).value)
  {
    HasLogKeySnoc(done, (key, v));
    LogStepResult(defaults, st, key, v);
    PlainWritesSnoc(defaults, done, (key, v));
    if !HasLogKey(done) {
      LogFieldsWithoutLogKey(defaults, done);
    }
    LogStepNested(defaults, done, st, key, v);
  }

  lemma LogStepNested(defaults: map<string, Value>, done: seq<(string, Value)>, st: CoreState,
                      key: string, v: Value)
    requires st.nested.Keys <= {"log"}
    requires (if "log" in st.nested then st.nested["log"] else map[]) == LogFields(defaults, done)
    requires CoreValue(defaults, key, v).Ok?
    requires IsLogKey(key)
    ensures var st' := CoreStep(defaults, st, key, v).value;
      st'.nested.Keys == {"log"} && st'.nested["log"] == LogFields(defaults, done + [(key, v)])
  {
    LogStepResult(defaults, st, key, v);
    LogFieldsSnoc(defaults, done, key, v);
  }

  lemma LogFieldsSnoc(defaults: map<string, Value>, done: seq<(string, Value)>, key: string, v: Value)
    requires IsLogKey(key)
    ensures LogFields(defaults, done + [(key, v)]) ==
      LogFields(defaults, done)[(if key == "log_level" then "level" else "output") := Coerced(defaults, key, v)]
  {
    var done' := done + [(key, v)];
    assert done'[..|done'| - 1] == done;
  }

  lemma {:induction false} CoreLoopFrom(defaults: map<string, Value>, done: seq<(string, Value)>,
                                        st: CoreState, data: seq<(string, Value)>)
    requires CoreStateAfter(defaults, done, st)
    ensures var r := CoreLoop(defaults, st, data);
      && (r.error == None <==> NoError(defaults, data))
      && (r.error == None ==>
            r.writes == PlainWrites(defaults, done + data)
              + (if HasLogKey(done + data) then [Write("log", Obj(LogFields(defaults, done + data)))] else []))
    decreases |data|
  {
    if data == [] {
      assert done + data == done;
      if HasLogKey(done) {
        assert st.order[..0] == [];
        assert Flush(st.writes, st.order, st.nested) == st.writes + [Write("log", Obj(st.nested["log"]))];
      }
    } else {
      NoErrorCons(defaults, data);
      var (key, v) := data[0];
      if CoreValue(defaults, key, v).Ok? {
        CoreStepAfter(defaults, done, st, key, v);
        var st' := CoreStep(defaults, st, key, v).value;
        assert done + data == (done + [data[0]]) + data[1..];
        CoreLoopFrom(defaults, done + [data[0]], st', data[1..]);
      }
    }
  }

  /** setCoreConfig succeeds exactly when every list-typed posted value is a
      string; it then writes every ordinary key once, in posted order, and
      finally one "log" object gathering "level" and "output", and only when
      a log key was posted; neither log key is ever written on its own. */
  lemma CoreConfigSpec(defaults: map<string, Value>, data: seq<(string, Value)>)
    ensures var r := CoreConfigWrites(defaults, data);
      && (r.error == None <==> NoError(defaults, data))
      && (r.error == None ==>
            r.writes == PlainWrites(defaults, data)
              + (if HasLogKey(data) then [Write("log", Obj(LogFields(defaults, data)))] else []))
  {
    assert [] + data == data;
    CoreLoopFrom(defaults, [], CoreState([], [], map[]), data);
  }

  /** No write of PlainWrites names a log key. */
  lemma {:induction false} PlainWritesNoLogKey(defaults: map<string, Value>, data: seq<(string, Value)>)
    ensures forall w :: w in PlainWrites(defaults, data) ==> !IsLogKey(w.name)
  {
    if data != [] {
      PlainWritesNoLogKey(defaults, data[1..]);
    }
  }

  /** `g = key.split('_'); result.setdefault(g[0], {})[g[1]] = value`,
      keeping the keys of `result` in insertion order. */
  method GatherLogKey(order: seq<string>, result: map<string, map<string, Value>>, key: string, value: Value)
    returns (order': seq<string>, result': map<string, map<string, Value>>)
    requires IsLogKey(key)
    ensures var inner := if "log" in result then result["log"] else map[];
      var sub := if key == "log_level" then "level" else "output";
      && order' == (if "log" in result then order else order + ["log"])
      && result' == result["log" := inner[sub := value]]
  {
    assert Split(key, '_') == ["log", if key == "log_level" then "level" else "output"] by {
      LevelKeySplit();
      OutputKeySplit();
    }
    var g := Split(key, '_');
    var k := g[0];
    order', result' := order, result;
    if k !in result' {
      result' := result'[k := map[]];
      order' := order' + [k];
    }
    result' := result'[k := result'[k][g[1] := value]];
  }

  /** The setCoreConfig handler: fills `result` in the loop, then writes it. */
  method SetCoreConfig(defaults: map<string, Value>, data: seq<(string, Value)>) returns (r: Writes)
    ensures r == CoreConfigWrites(defaults, data)
  {
    var writes: seq<Write> := [];
    var order: seq<string> := [];
    var result: map<string, map<string, Value>> := map[];
    var i := 0;
    while i < |data|
      invariant 0 <= i <= |data|
      invariant CoreLoop(defaults, CoreState(writes, order, result), data[i..])
                == CoreConfigWrites(defaults, data)
    {
      var (key, v) := data[i];
      ghost var st := CoreState(writes, order, result);
      assert data[i..][0] == (key, v);
      assert data[i..][1..] == data[i + 1..];
      var value := CoreValue(defaults, key, v);
      if value.Err? {
        return Writes(writes, Some(value.error));
      }
      if IsLogKey(key) {
        LogStepResult(defaults, st, key, v);
        order, result := GatherLogKey(order, result, key, value.value);
      } else {
        writes := writes + [Write(key, value.value)];
      }
      assert CoreStep(defaults, st, key, v) == Ok(CoreState(writes, order, result));
      i := i + 1;
    }
    ghost var looped := writes;
    assert CoreConfigWrites(defaults, data) == Writes(Flush(looped, order, result), None);
    var j := 0;
    while j < |order|
      invariant 0 <= j <= |order|
      invariant writes == Flush(looped, order[..j], result)
    {
      assert order[..j + 1][..j] == order[..j];
      if order[j] in result {
        writes := writes + [Write(order[j], Obj(result[order[j]]))];
      }
      j := j + 1;
    }
    assert order[..|order|] == order;
    return Writes(writes, None);
  }
}

/** The setSV and setPlugins handlers: the posted form dict is rewritten in
    place (permission mask and priority to ints, comma-joined black, white and
    prefix lists to lists) before it is handed to the service or plugin. */
module ServiceForms {
  import opened Wrappers
  import opened PyStr
  import opened PyValues

  /** A black or white list as posted: `s.split(',')`, with the lone empty
      piece that "" splits to replaced by the empty list. */
  function ListField(s: string): (r: seq<string>)
    ensures r == [] <==> s == ""
    ensures forall k :: 0 <= k < |r| ==> ',' !in r[k]
  {
    SplitIsEmptyPiece(s, ',');
    var parts := Split(s, ',');
    if parts == [""] then [] else parts
  }

  /** Any posted list string is recovered by joining its pieces with ','
      (the empty string through the empty list). */
  lemma ListFieldJoin(s: string)
    ensures Join(ListField(s), ',') == s
  {
    SplitIsEmptyPiece(s, ',');
    JoinSplit(s, ',');
  }

  /** A list of comma-free names, joined with ',' by the console's form, comes
      back unchanged (the empty list travels as ""). */
  lemma ListFieldOfJoin(names: seq<string>)
    requires forall k :: 0 <= k < |names| ==> ',' !in names[k]
    requires names != [""]
    ensures ListField(Join(names, ',')) == names
  {
    if names != [] {
      SplitJoin(names, ',');
    }
  }

  /** One rewriting step of the handler, on one key of the form. */
  datatype Step =
    | ToInt(key: string)            // data[key] = int(data[key])
    | SplitList(key: string)        // data[key] = data[key].split(',')
    | SplitIfPresent(key: string)   // if key in data: data[key] = data[key].split(',')
    | EmptyToNil(key: string)       // if data[key] == ['']: data[key] = []

  /** The form after one step, or the exception the step raises. */
  function ApplyStep(d: map<string, Value>, st: Step): (r: Result<map<string, Value>, PyError>)
    ensures r.Ok? ==> r.value.Keys == d.Keys + (if st.SplitIfPresent? || st.EmptyToNil? then {} else {st.key})
    ensures r.Ok? ==> forall k :: k in d && k != st.key ==> r.value[k] == d[k]
  {
    match st
    case ToInt(key) =>
      if key !in d then Err(KeyError(key))
      else (match PyInt(d[key], key) case Ok(i) => Ok(d[key := Int(i)]) case Err(e) => Err(e))
    case SplitList(key) =>
      if key !in d then Err(KeyError(key))
      else if !d[key].Str? then Err(AttributeError(key))
      else Ok(d[key := StrList(Split(d[key].s, ','))])
    case SplitIfPresent(key) =>
      if key !in d then Ok(d)
      else if !d[key].Str? then Err(AttributeError(key))
      else Ok(d[key := StrList(Split(d[key].s, ','))])
    case EmptyToNil(key) =>
      if key in d && d[key] == StrList([""]) then Ok(d[key := StrList([])]) else Ok(d)
  }

  /** What each step raises, and what it stores when it does not. */
  lemma StepOutcome(d: map<string, Value>, st: Step)
    // int(data[key]): a missing key raises KeyError, a bad value what int() raises
    ensures st.ToInt? ==> (ApplyStep(d, st).Ok? <==> IntField(d, st.key))
    ensures st.ToInt? && st.key !in d ==> ApplyStep(d, st) == Err(KeyError(st.key))
    ensures st.ToInt? && st.key in d && ApplyStep(d, st).Err? ==>
      ApplyStep(d, st).error == PyInt(d[st.key], st.key).error
    ensures st.ToInt? && ApplyStep(d, st).Ok? ==>
      ApplyStep(d, st).value[st.key] == Int(PyInt(d[st.key], st.key).value)
    // .split(','): a missing key raises KeyError (unless only split when present),
    // a value that is not a string AttributeError
    ensures st.SplitList? ==> (ApplyStep(d, st).Ok? <==> StrField(d, st.key))
    ensures st.SplitList? && st.key !in d ==> ApplyStep(d, st) == Err(KeyError(st.key))
    ensures st.SplitIfPresent? && st.key !in d ==> ApplyStep(d, st) == Ok(d)
    ensures (st.SplitList? || st.SplitIfPresent?) && st.key in d && !d[st.key].Str? ==>
      ApplyStep(d, st) == Err(AttributeError(st.key))
    ensures (st.SplitList? || st.SplitIfPresent?) && StrField(d, st.key) ==>
      && ApplyStep(d, st).Ok?
      && ApplyStep(d, st).value[st.key] == StrList(Split(d[st.key].s, ','))
    // the empty check never raises and only turns [""] into []
    ensures st.EmptyToNil? ==> ApplyStep(d, st).Ok?
    ensures st.EmptyToNil? && st.key in d ==>
      ApplyStep(d, st).value[st.key] == (if d[st.key] == StrList([""]) then StrList([]) else d[st.key])
  {
  }

  /** The form as it stands when the handler stops, and the exception it
      stopped on (None when every step ran). */
  datatype Rewrite = Rewrite(data: map<string, Value>, error: Option<PyError>)

  /** Runs the steps in order, stopping at the first one that raises. */
  function RunSteps(d: map<string, Value>, steps: seq<Step>): Rewrite
  {
    if steps == [] then Rewrite(d, None)
    else match ApplyStep(d, steps[0])
      case Err(e) => Rewrite(d, Some(e))
      case Ok(d') => RunSteps(d', steps[1..])
  }

  /** The steps of setSV (web_app.py lines 153-162). */
  function ServiceSteps(): seq<Step>
  {
    [ToInt("pm"), ToInt("priority"), SplitList("black_list"), SplitList("white_list"),
     EmptyToNil("black_list"), EmptyToNil("white_list")]
  }

  /** The steps of setPlugins (web_app.py lines 171-182). */
  function PluginSteps(): seq<Step>
  {
    [ToInt("pm"), ToInt("priority"), SplitIfPresent("prefix"),
     SplitList("black_list"), SplitList("white_list"),
     EmptyToNil("black_list"), EmptyToNil("white_list")]
  }

  /** What a valid setSV / setPlugins form must hold. */
  predicate IntField(d: map<string, Value>, key: string)
  {
    key in d && PyInt(d[key], key).Ok?
  }

  predicate StrField(d: map<string, Value>, key: string)
  {
    key in d && d[key].Str?
  }

  /** The stored form of a valid posted form: pm and priority as ints, the two
      lists through ListField, every other key untouched. */
  predicate CoercedForm(d: map<string, Value>, r: map<string, Value>)
    requires IntField(d, "pm") && IntField(d, "priority")
    requires StrField(d, "black_list") && StrField(d, "white_list")
  {
    && r.Keys == d.Keys
    && r["pm"] == Int(PyInt(d["pm"], "pm").value)
    && r["priority"] == Int(PyInt(d["priority"], "priority").value)
    && r["black_list"] == StrList(ListField(d["black_list"].s))
    && r["white_list"] == StrList(ListField(d["white_list"].s))
  }

  predicate OnlyTouches(d: map<string, Value>, r: map<string, Value>, keys: set<string>)
  {
    forall k :: k in d && k !in keys ==> k in r && r[k] == d[k]
  }

  /** RunSteps over a non-empty list: the first step, then the rest from
      the form it leaves. */
  lemma RunStepsCons(d: map<string, Value>, steps: seq<Step>)
    requires steps != []
    ensures ApplyStep(d, steps[0]).Err? ==>
      RunSteps(d, steps) == Rewrite(d, Some(ApplyStep(d, steps[0]).error))
    ensures ApplyStep(d, steps[0]).Ok? ==>
      RunSteps(d, steps) == RunSteps(ApplyStep(d, steps[0]).value, steps[1..])
  {
  }

  /** The shared tail of both handlers: the two list splits and the two empty checks. */
  lemma ListsTail(d: map<string, Value>, tail: seq<Step>)
    requires tail == [SplitList("black_list"), SplitList("white_list"),
                      EmptyToNil("black_list"), EmptyToNil("white_list")]
    ensures var r := RunSteps(d, tail);
      && (r.error == None <==> StrField(d, "black_list") && StrField(d, "white_list"))
      && (r.error == None ==>
            && r.data.Keys == d.Keys
            && r.data["black_list"] == StrList(ListField(d["black_list"].s))
            && r.data["white_list"] == StrList(ListField(d["white_list"].s)))
      && OnlyTouches(d, r.data, {"black_list", "white_list"})
  {
    ListsRun(d, tail);
    if StrField(d, "black_list") && StrField(d, "white_list") {
      ListsStored(d, StrList(ListField(d["black_list"].s)), StrList(ListField(d["white_list"].s)));
    }
  }

  /** Storing both lists again forgets the first values stored. */
  lemma Overwritten(d: map<string, Value>, b1: Value, w1: Value, b2: Value, w2: Value)
    ensures d["black_list" := b1]["white_list" := w1]["black_list" := b2]["white_list" := w2]
      == d["black_list" := b2]["white_list" := w2]
  {
  }

  /** Storing the two lists keeps the keys and every other entry. */
  lemma ListsStored(d: map<string, Value>, b: Value, w: Value)
    requires "black_list" in d && "white_list" in d
    ensures var r := d["black_list" := b]["white_list" := w];
      && r.Keys == d.Keys && r["black_list"] == b && r["white_list"] == w
      && OnlyTouches(d, r, {"black_list", "white_list"})
  {
  }

  /** What the list steps leave: the form with the first failing field's
      exception, or both lists split and then emptied when they read [""]. */
  lemma ListsRun(d: map<string, Value>, tail: seq<Step>)
    requires tail == [SplitList("black_list"), SplitList("white_list"),
                      EmptyToNil("black_list"), EmptyToNil("white_list")]
    ensures !StrField(d, "black_list") ==>
      RunSteps(d, tail).error.Some? && RunSteps(d, tail).data == d
    ensures StrField(d, "black_list") && !StrField(d, "white_list") ==>
      && RunSteps(d, tail).error.Some?
      && RunSteps(d, tail).data == d["black_list" := StrList(Split(d["black_list"].s, ','))]
    ensures StrField(d, "black_list") && StrField(d, "white_list") ==>
      RunSteps(d, tail) == Rewrite(
        d["black_list" := StrList(ListField(d["black_list"].s))]
         ["white_list" := StrList(ListField(d["white_list"].s))], None)
  {
    RunStepsCons(d, tail);
    if StrField(d, "black_list") {
      var b := d["black_list"].s;
      var d1 := d["black_list" := StrList(Split(b, ','))];
      assert ApplyStep(d, tail[0]) == Ok(d1);
      RunStepsCons(d1, tail[1..]);
      if StrField(d, "white_list") {
        var w := d["white_list"].s;
        var d2 := d1["white_list" := StrList(Split(w, ','))];
        assert ApplyStep(d1, tail[1]) == Ok(d2);
        NilChecks(d2, tail[2..], b, w);
        Overwritten(d, StrList(Split(b, ',')), StrList(Split(w, ',')),
          StrList(ListField(b)), StrList(ListField(w)));
      }
    }
  }

  /** The two empty checks after both splits. */
  lemma NilChecks(d: map<string, Value>, checks: seq<Step>, b: string, w: string)
    requires checks == [EmptyToNil("black_list"), EmptyToNil("white_list")]
    requires "black_list" in d && d["black_list"] == StrList(Split(b, ','))
    requires "white_list" in d && d["white_list"] == StrList(Split(w, ','))
    ensures RunSteps(d, checks) == Rewrite(
      d["black_list" := StrList(ListField(b))]["white_list" := StrList(ListField(w))], None)
  {
    RunStepsCons(d, checks);
    EmptyToNilStep(d, "black_list", b);
    var d1 := d["black_list" := StrList(ListField(b))];
    RunStepsCons(d1, checks[1..]);
    EmptyToNilStep(d1, "white_list", w);
    assert checks[1..][1..] == [];
  }

  /** The empty check after a split leaves the list as `ListField` reads it. */
  lemma EmptyToNilStep(d: map<string, Value>, key: string, s: string)
    requires key in d && d[key] == StrList(Split(s, ','))
    ensures ApplyStep(d, EmptyToNil(key)) == Ok(d[key := StrList(ListField(s))])
  {
    if Split(s, ',') != [""] {
      assert d[key := StrList(ListField(s))] == d;
    }
  }

  /** setSV succeeds exactly on forms whose pm and priority are integers and
      whose lists are strings; it then stores the coerced form and changes no
      other key. */
  lemma ServiceRewrite(d: map<string, Value>)
    ensures var r := RunSteps(d, ServiceSteps());
      && (r.error == None <==>
            IntField(d, "pm") && IntField(d, "priority")
            && StrField(d, "black_list") && StrField(d, "white_list"))
      && (r.error == None ==> CoercedForm(d, r.data))
      && OnlyTouches(d, r.data, {"pm", "priority", "black_list", "white_list"})
  {
    ServiceOutcome(d);
    if RunSteps(d, ServiceSteps()).error == None {
      ServiceStored(d);
    }
    ServiceKeepsOthers(d);
  }

  lemma ServiceOutcome(d: map<string, Value>)
    ensures RunSteps(d, ServiceSteps()).error == None <==>
      IntField(d, "pm") && IntField(d, "priority")
      && StrField(d, "black_list") && StrField(d, "white_list")
  {
    IntSteps(d, ServiceSteps());
    if IntField(d, "pm") && IntField(d, "priority") {
      ListsTail(IntsSet(d), ServiceSteps()[2..]);
    }
  }

  lemma ServiceStored(d: map<string, Value>)
    requires RunSteps(d, ServiceSteps()).error == None
    ensures IntField(d, "pm") && IntField(d, "priority")
    ensures StrField(d, "black_list") && StrField(d, "white_list")
    ensures CoercedForm(d, RunSteps(d, ServiceSteps()).data)
  {
    IntSteps(d, ServiceSteps());
    if IntField(d, "pm") && IntField(d, "priority") {
      ListsTail(IntsSet(d), ServiceSteps()[2..]);
    }
  }

  lemma ServiceKeepsOthers(d: map<string, Value>)
    ensures OnlyTouches(d, RunSteps(d, ServiceSteps()).data, {"pm", "priority", "black_list", "white_list"})
  {
    IntSteps(d, ServiceSteps());
    if IntField(d, "pm") && IntField(d, "priority") {
      var d2 := IntsSet(d);
      var tail := ServiceSteps()[2..];
      ListsTail(d2, tail);
      ServiceUntouched(d, d2, RunSteps(d2, tail).data);
    }
  }

  /** Keys outside the four fields keep their posted values. */
  lemma ServiceUntouched(d: map<string, Value>, d2: map<string, Value>, r: map<string, Value>)
    requires forall k :: k in d && k != "pm" && k != "priority" ==> k in d2 && d2[k] == d[k]
    requires OnlyTouches(d2, r, {"black_list", "white_list"})
    ensures OnlyTouches(d, r, {"pm", "priority", "black_list", "white_list"})
  {
    forall k | k in d && k !in {"pm", "priority", "black_list", "white_list"}
      ensures k in r && r[k] == d[k]
    {
      assert k !in {"black_list", "white_list"};
    }
  }

  /** The error each missing or malformed field raises, checked in the
      handler's order: pm, then priority, then black_list. */
  lemma ServiceErrorOrder(d: map<string, Value>)
    ensures var e := RunSteps(d, ServiceSteps()).error;
      && ("pm" !in d ==> e == Some(KeyError("pm")))
      && (IntField(d, "pm") && "priority" !in d ==> e == Some(KeyError("priority")))
      && ((IntField(d, "pm") && IntField(d, "priority") && "black_list" in d
            && !d["black_list"].Str?) ==> e == Some(AttributeError("black_list")))
  {
    var s := ServiceSteps();
    RunStepsCons(d, s);
    if IntField(d, "pm") {
      var d1 := ApplyStep(d, s[0]).value;
      RunStepsCons(d1, s[1..]);
      if IntField(d1, "priority") {
        var d2 := ApplyStep(d1, s[1]).value;
        assert s[1..][1..] == s[2..];
        RunStepsCons(d2, s[2..]);
      }
    }
  }

  /** The part of setPlugins after the two ints: the optional prefix split,
      then the shared list tail. */
  lemma PrefixTail(d: map<string, Value>, tail: seq<Step>)
    requires tail == [SplitIfPresent("prefix"), SplitList("black_list"), SplitList("white_list"),
                      EmptyToNil("black_list"), EmptyToNil("white_list")]
    ensures var r := RunSteps(d, tail);
      && (r.error == None <==>
            ("prefix" in d ==> d["prefix"].Str?)
            && StrField(d, "black_list") && StrField(d, "white_list"))
      && (r.error == None ==>
            && r.data.Keys == d.Keys
            && r.data["black_list"] == StrList(ListField(d["black_list"].s))
            && r.data["white_list"] == StrList(ListField(d["white_list"].s)))
      && (r.error == None && "prefix" in d ==> r.data["prefix"] == StrList(Split(d["prefix"].s, ',')))
      && OnlyTouches(d, r.data, {"prefix", "black_list", "white_list"})
  {
    RunStepsCons(d, tail);
    PrefixStep(d);
    if ApplyStep(d, tail[0]).Ok? {
      var d1 := ApplyStep(d, tail[0]).value;
      ListsTail(d1, tail[1..]);
      assert RunSteps(d, tail) == RunSteps(d1, tail[1..]);
      assert StrField(d1, "black_list") == StrField(d, "black_list");
      assert StrField(d1, "white_list") == StrField(d, "white_list");
    }
  }

  /** The optional prefix split: raises only on a present non-string prefix. */
  lemma PrefixStep(d: map<string, Value>)
    ensures ApplyStep(d, SplitIfPresent("prefix")).Ok? <==> ("prefix" in d ==> d["prefix"].Str?)
    ensures ApplyStep(d, SplitIfPresent("prefix")).Ok? ==>
      ApplyStep(d, SplitIfPresent("prefix")).value ==
        (if "prefix" in d then d["prefix" := StrList(Split(d["prefix"].s, ','))] else d)
  {
  }

  /** setPlugins behaves as setSV, and in addition splits a present prefix
      string on ',' with no empty check, so a posted "" prefix becomes [""]. */
  lemma PluginRewrite(d: map<string, Value>)
    ensures var r := RunSteps(d, PluginSteps());
      && (r.error == None <==>
            IntField(d, "pm") && IntField(d, "priority")
            && ("prefix" in d ==> d["prefix"].Str?)
            && StrField(d, "black_list") && StrField(d, "white_list"))
      && (r.error == None ==> CoercedForm(d, r.data))
      && (r.error == None && "prefix" in d ==> r.data["prefix"] == StrList(Split(d["prefix"].s, ',')))
      && OnlyTouches(d, r.data, {"pm", "priority", "prefix", "black_list", "white_list"})
  {
    PluginOutcome(d);
    if RunSteps(d, PluginSteps()).error == None {
      PluginStored(d);
    }
    PluginKeepsOthers(d);
  }

  lemma PluginOutcome(d: map<string, Value>)
    ensures RunSteps(d, PluginSteps()).error == None <==>
      IntField(d, "pm") && IntField(d, "priority")
      && ("prefix" in d ==> d["prefix"].Str?)
      && StrField(d, "black_list") && StrField(d, "white_list")
  {
    IntSteps(d, PluginSteps());
    if IntField(d, "pm") && IntField(d, "priority") {
      var d2 := IntsSet(d);
      PrefixTail(d2, PluginSteps()[2..]);
      assert StrField(d2, "black_list") == StrField(d, "black_list");
      assert StrField(d2, "white_list") == StrField(d, "white_list");
      assert ("prefix" in d2 ==> d2["prefix"].Str?) == ("prefix" in d ==> d["prefix"].Str?);
    }
  }

  lemma PluginStored(d: map<string, Value>)
    requires RunSteps(d, PluginSteps()).error == None
    ensures IntField(d, "pm") && IntField(d, "priority")
    ensures StrField(d, "black_list") && StrField(d, "white_list")
    ensures CoercedForm(d, RunSteps(d, PluginSteps()).data)
    ensures "prefix" in d ==>
      (d["prefix"].Str? && RunSteps(d, PluginSteps()).data["prefix"] == StrList(Split(d["prefix"].s, ',')))
  {
    PluginOutcome(d);
    PluginTail(d);
  }

  /** A valid form's run is the tail's run from `IntsSet(d)`, which keeps
      the keys and stores the prefix and the two lists. */
  lemma PluginTail(d: map<string, Value>)
    requires IntField(d, "pm") && IntField(d, "priority")
    requires StrField(d, "black_list") && StrField(d, "white_list")
    requires "prefix" in d ==> d["prefix"].Str?
    ensures CoercedForm(d, RunSteps(d, PluginSteps()).data)
    ensures "prefix" in d ==>
      "prefix" in RunSteps(d, PluginSteps()).data
      && RunSteps(d, PluginSteps()).data["prefix"] == StrList(Split(d["prefix"].s, ','))
  {
    IntsThenRest(d, PluginSteps());
    var d2 := IntsSet(d);
    var r := RunSteps(d2, PluginSteps()[2..]);
    PrefixTail(d2, PluginSteps()[2..]);
    assert StrField(d2, "black_list") && StrField(d2, "white_list");
    assert r.error == None;
    CoercedAfterInts(d, r.data);
    PluginPrefix(d, d2, r.data);
  }

  /** A tail that leaves pm and priority alone and stores the two lists
      completes the coerced form. */
  lemma CoercedAfterInts(d: map<string, Value>, r: map<string, Value>)
    requires IntField(d, "pm") && IntField(d, "priority")
    requires StrField(d, "black_list") && StrField(d, "white_list")
    requires r.Keys == d.Keys
    requires OnlyTouches(IntsSet(d), r, {"prefix", "black_list", "white_list"})
    requires r["black_list"] == StrList(ListField(d["black_list"].s))
    requires r["white_list"] == StrList(ListField(d["white_list"].s))
    ensures CoercedForm(d, r)
  {
    assert "pm" !in {"prefix", "black_list", "white_list"};
    assert "priority" !in {"prefix", "black_list", "white_list"};
  }

  /** The prefix as the tail leaves it, read back against the posted form. */
  lemma PluginPrefix(d: map<string, Value>, d2: map<string, Value>, r: map<string, Value>)
    requires forall k :: k in d && k != "pm" && k != "priority" ==> k in d2 && d2[k] == d[k]
    requires "prefix" in d2 ==> d2["prefix"].Str? && "prefix" in r && r["prefix"] == StrList(Split(d2["prefix"].s, ','))
    ensures "prefix" in d ==> d["prefix"].Str? && "prefix" in r && r["prefix"] == StrList(Split(d["prefix"].s, ','))
  {
  }

  lemma PluginKeepsOthers(d: map<string, Value>)
    ensures OnlyTouches(d, RunSteps(d, PluginSteps()).data, {"pm", "priority", "prefix", "black_list", "white_list"})
  {
    IntSteps(d, PluginSteps());
    if IntField(d, "pm") && IntField(d, "priority") {
      var d2 := IntsSet(d);
      var tail := PluginSteps()[2..];
      PrefixTail(d2, tail);
      PluginUntouched(d, d2, RunSteps(d2, tail).data);
    }
  }

  /** The form after valid pm and priority fields are made ints. */
  function IntsSet(d: map<string, Value>): (d2: map<string, Value>)
    requires IntField(d, "pm") && IntField(d, "priority")
    ensures d2.Keys == d.Keys
    ensures forall k :: k in d && k != "pm" && k != "priority" ==> d2[k] == d[k]
  {
    d["pm" := Int(PyInt(d["pm"], "pm").value)]["priority" := Int(PyInt(d["priority"], "priority").value)]
  }

  /** The first two steps of both handlers: pm, then priority, each raising
      or becoming an int; with both ints the run goes on from `IntsSet(d)`. */
  lemma IntSteps(d: map<string, Value>, s: seq<Step>)
    requires |s| >= 2 && s[0] == ToInt("pm") && s[1] == ToInt("priority")
    ensures !IntField(d, "pm") ==> RunSteps(d, s).error.Some? && RunSteps(d, s).data == d
    ensures IntField(d, "pm") && !IntField(d, "priority") ==>
      && RunSteps(d, s).error.Some?
      && RunSteps(d, s).data == d["pm" := Int(PyInt(d["pm"], "pm").value)]
    ensures IntField(d, "pm") && IntField(d, "priority") ==>
      RunSteps(d, s) == RunSteps(IntsSet(d), s[2..])
  {
    RunStepsCons(d, s);
    if IntField(d, "pm") {
      var d1 := ApplyStep(d, s[0]).value;
      RunStepsCons(d1, s[1..]);
      assert s[1..][1..] == s[2..];
      assert "priority" in d ==> d1["priority"] == d["priority"];
    }
  }

  /** With both ints valid, the run goes on from `IntsSet(d)`. */
  lemma IntsThenRest(d: map<string, Value>, s: seq<Step>)
    requires |s| >= 2 && s[0] == ToInt("pm") && s[1] == ToInt("priority")
    requires IntField(d, "pm") && IntField(d, "priority")
    ensures RunSteps(d, s) == RunSteps(IntsSet(d), s[2..])
  {
    IntSteps(d, s);
  }

  /** Keys outside the five fields keep their posted values. */
  lemma PluginUntouched(d: map<string, Value>, d2: map<string, Value>, r: map<string, Value>)
    requires forall k :: k in d && k != "pm" && k != "priority" ==> k in d2 && d2[k] == d[k]
    requires OnlyTouches(d2, r, {"prefix", "black_list", "white_list"})
    ensures OnlyTouches(d, r, {"pm", "priority", "prefix", "black_list", "white_list"})
  {
    forall k | k in d && k !in {"pm", "priority", "prefix", "black_list", "white_list"}
      ensures k in r && r[k] == d[k]
    {
      assert k !in {"prefix", "black_list", "white_list"};
    }
  }

  /** How the handler ended: the name is not registered (nothing happens), or
      the rewritten form was handed to `set`, or a step raised. */
  datatype Outcome = NotRegistered | Stored | Raised(error: PyError)

  function OutcomeOf(r: Rewrite): Outcome
  {
    match r.error
    case None => Stored
    case Some(e) => Raised(e)
  }

  /** The posted form of one setSV / setPlugins request, rewritten in place. */
  class Form {
    var data: map<string, Value>

    constructor (posted: map<string, Value>)
      ensures data == posted
    {
      data := posted;
    }

    /** Performs one step on `data`; on an exception `data` is left as it was. */
    method Perform(st: Step) returns (error: Option<PyError>)
      modifies this
      ensures ApplyStep(old(data), st).Ok? ==> error == None && data == ApplyStep(old(data), st).value
      ensures ApplyStep(old(data), st).Err? ==> error == Some(ApplyStep(old(data), st).error) && data == old(data)
    {
      match st {
        case ToInt(key) =>
          if key !in data {
            return Some(KeyError(key));
          }
          var v := PyInt(data[key], key);
          if v.Err? {
            return Some(v.error);
          }
          data := data[key := Int(v.value)];
        case SplitList(key) =>
          if key !in data {
            return Some(KeyError(key));
          }
          if !data[key].Str? {
            return Some(AttributeError(key));
          }
          data := data[key := StrList(Split(data[key].s, ','))];
        case SplitIfPresent(key) =>
          if key in data {
            if !data[key].Str? {
              return Some(AttributeError(key));
            }
            data := data[key := StrList(Split(data[key].s, ','))];
          }
        case EmptyToNil(key) =>
          if key in data && data[key] == StrList([""]) {
            data := data[key := StrList([])];
          }
      }
      return None;
    }

    /** setSV (web_app.py lines 150-163): when `registered` (the name is a
        known service), rewrites the form step by step, stopping at the first
        exception. */
    method SetService(registered: bool) returns (outcome: Outcome)
      modifies this
      ensures !registered ==> outcome == NotRegistered && data == old(data)
      ensures registered ==> data == RunSteps(old(data), ServiceSteps()).data
      ensures registered ==> outcome == OutcomeOf(RunSteps(old(data), ServiceSteps()))
    {
      if !registered {
        return NotRegistered;
      }
      outcome := Run(ServiceSteps());
    }

    /** setPlugins (web_app.py lines 168-183), the same with the optional prefix list. */
    method SetPlugin(registered: bool) returns (outcome: Outcome)
      modifies this
      ensures !registered ==> outcome == NotRegistered && data == old(data)
      ensures registered ==> data == RunSteps(old(data), PluginSteps()).data
      ensures registered ==> outcome == OutcomeOf(RunSteps(old(data), PluginSteps()))
    {
      if !registered {
        return NotRegistered;
      }
      outcome := Run(PluginSteps());
    }

    /** The handler body: the steps one after another, as the source writes them. */
    method Run(steps: seq<Step>) returns (outcome: Outcome)
      modifies this
      ensures data == RunSteps(old(data), steps).data
      ensures outcome == OutcomeOf(RunSteps(old(data), steps))
    {
      ghost var d0 := data;
      var k := 0;
      while k < |steps|
        invariant 0 <= k <= |steps|
        invariant RunSteps(d0, steps) == RunSteps(data, steps[k..])
      {
        var e := Perform(steps[k]);
        if e.Some? {
          return Raised(e.value);
        }
        assert steps[k..][1..] == steps[k + 1..];
        k := k + 1;
      }
      return Stored;
    }
  }
}

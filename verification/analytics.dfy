/** The analytics handlers of the console (web_app.py lines 252-364 and
    518-610): a day-keyed map of counters, as the analytics store returns it,
    is reshaped into chart payloads. Dicts are ordered sequences of
    (key, value) pairs, in their insertion order. */
module Analytics {
  import opened Wrappers
  import opened PyValues
  import opened Seqs

  /** An ordered `Dict[str, int]`. */
  type Counts = seq<(string, int)>

  /** One day's counters: message counts, and per group (per user) the count
      of each command triggered there. */
  datatype DayStats = DayStats(
    send: int, receive: int, command: int, image: int,
    group: seq<(string, Counts)>,
    user: seq<(string, Counts)>)

  /** One chart series: its name, its chart type and its data points. */
  datatype Series = Series(name: string, kind: string, data: seq<int>)

  /** The parts of a chart payload that depend on the data; the styling
      constants around them are not modelled. */
  datatype Chart = Chart(legend: seq<string>, xAxis: seq<string>, series: seq<Series>)

  /** `{'status': retcode, 'msg': msg, 'data': data}`; `None` for the `{}`
      sent with an error. */
  datatype Reply = Reply(status: int, msg: string, data: Option<Chart>)

  const UnknownBot: string := "不存在该bot_id!"
  const UnknownSelf: string := "不存在该bot_self_id!"

  /** The keys of an ordered dict, in order. */
  function Keys<V>(d: seq<(string, V)>): (r: seq<string>)
    ensures |r| == |d|
    ensures forall i :: 0 <= i < |d| ==> r[i] == d[i].0
  {
    if d == [] then [] else Keys(d[..|d| - 1]) + [d[|d| - 1].0]
  }

  /** The bot registry: for each bot id, the self ids known under it. */
  type Registry = map<string, set<string>>

  predicate Known(registry: Registry, botId: string, botSelfId: string)
  {
    botId in registry && botSelfId in registry[botId]
  }

  // ---------------------------------------------------------------------
  // getAnalysisData and getAnalysisUserGroup

  /** `_get_data_analysis`: an unknown bot id is reported first, then an
      unknown self id; otherwise a line chart whose x axis is the days, in
      order, with four series (sent, received, commands, images) of one
      point per day. */
  method DataAnalysis(registry: Registry, botId: string, botSelfId: string,
                      sevenData: seq<(string, DayStats)>) returns (r: Reply)
    ensures botId !in registry ==> r == Reply(-1, UnknownBot, None)
    ensures botId in registry && botSelfId !in registry[botId] ==> r == Reply(-1, UnknownSelf, None)
    ensures Known(registry, botId, botSelfId) ==>
      && r.status == 0 && r.msg == "ok" && r.data.Some?
      && r.data.value.legend == ["发送", "接收", "命令调用", "图片生成"]
      && r.data.value.xAxis == Keys(sevenData)
      && |r.data.value.series| == 4
      && (forall s :: 0 <= s < 4 ==>
            && r.data.value.series[s].name == r.data.value.legend[s]
            && r.data.value.series[s].kind == "line"
            && |r.data.value.series[s].data| == |sevenData|)
      && (forall i :: 0 <= i < |sevenData| ==>
            && r.data.value.series[0].data[i] == sevenData[i].1.send
            && r.data.value.series[1].data[i] == sevenData[i].1.receive
            && r.data.value.series[2].data[i] == sevenData[i].1.command
            && r.data.value.series[3].data[i] == sevenData[i].1.image)
  {
    if botId !in registry {
      return Reply(-1, UnknownBot, None);
    } else if botSelfId !in registry[botId] {
      return Reply(-1, UnknownSelf, None);
    }
    var xaxis: seq<string> := [];
    var sendData: seq<int> := [];
    var receiveData: seq<int> := [];
    var commandData: seq<int> := [];
    var imageGenData: seq<int> := [];
    for i := 0 to |sevenData|
      invariant xaxis == Keys(sevenData[..i])
      invariant |sendData| == |receiveData| == |commandData| == |imageGenData| == i
      invariant forall k :: 0 <= k < i ==>
        && sendData[k] == sevenData[k].1.send
        && receiveData[k] == sevenData[k].1.receive
        && commandData[k] == sevenData[k].1.command
        && imageGenData[k] == sevenData[k].1.image
    {
      assert sevenData[..i + 1][..i] == sevenData[..i];
      var day := sevenData[i].0;
      var localVal := sevenData[i].1;
      xaxis := xaxis + [day];
      sendData := sendData + [localVal.send];
      receiveData := receiveData + [localVal.receive];
      commandData := commandData + [localVal.command];
      imageGenData := imageGenData + [localVal.image];
    }
    assert sevenData[..|sevenData|] == sevenData;
    var series := [
      Series("发送", "line", sendData),
      Series("接收", "line", receiveData),
      Series("命令调用", "line", commandData),
      Series("图片生成", "line", imageGenData)];
    return Reply(0, "ok", Some(Chart(["发送", "接收", "命令调用", "图片生成"], xaxis, series)));
  }

  /** `_get_usergroup_analysis`: the same checks; otherwise a bar chart
      whose x axis is the days, in order, with the number of users and the
      number of groups seen on each day. */
  method UserGroupAnalysis(registry: Registry, botId: string, botSelfId: string,
                           sevenData: seq<(string, DayStats)>) returns (r: Reply)
    ensures botId !in registry ==> r == Reply(-1, UnknownBot, None)
    ensures botId in registry && botSelfId !in registry[botId] ==> r == Reply(-1, UnknownSelf, None)
    ensures Known(registry, botId, botSelfId) ==>
      && r.status == 0 && r.msg == "ok" && r.data.Some?
      && r.data.value.legend == ["用户", "群组"]
      && r.data.value.xAxis == Keys(sevenData)
      && |r.data.value.series| == 2
      && (forall s :: 0 <= s < 2 ==>
            && r.data.value.series[s].name == r.data.value.legend[s]
            && r.data.value.series[s].kind == "bar"
            && |r.data.value.series[s].data| == |sevenData|)
      && (forall i :: 0 <= i < |sevenData| ==>
            && r.data.value.series[0].data[i] == |sevenData[i].1.user|
            && r.data.value.series[1].data[i] == |sevenData[i].1.group|)
  {
    if botId !in registry {
      return Reply(-1, UnknownBot, None);
    } else if botSelfId !in registry[botId] {
      return Reply(-1, UnknownSelf, None);
    }
    var xaxis: seq<string> := [];
    var groupData: seq<int> := [];
    var userData: seq<int> := [];
    for i := 0 to |sevenData|
      invariant xaxis == Keys(sevenData[..i])
      invariant |groupData| == |userData| == i
      invariant forall k :: 0 <= k < i ==>
        groupData[k] == |sevenData[k].1.group| && userData[k] == |sevenData[k].1.user|
    {
      assert sevenData[..i + 1][..i] == sevenData[..i];
      xaxis := xaxis + [sevenData[i].0];
      var localVal := sevenData[i].1;
      groupData := groupData + [|localVal.group|];
      userData := userData + [|localVal.user|];
    }
    assert sevenData[..|sevenData|] == sevenData;
    var series := [Series("用户", "bar", userData), Series("群组", "bar", groupData)];
    return Reply(0, "ok", Some(Chart(["用户", "群组"], xaxis, series)));
  }

  // ---------------------------------------------------------------------
  // loadData: the two pies

  /** One pie slice, `{"value": value, "name": name}`. */
  datatype Slice = Slice(value: int, name: string)

  /** The group pie and the command pie. */
  datatype Pies = Pies(groups: seq<Slice>, commands: seq<Slice>)

  /** `sum(d.values())` */
  function Sum(c: Counts): int
  {
    if c == [] then 0 else Sum(c[..|c| - 1]) + c[|c| - 1].1
  }

  function SliceTotal(s: seq<Slice>): int
  {
    if s == [] then 0 else SliceTotal(s[..|s| - 1]) + s[|s| - 1].value
  }

  /** Every (command, count) pair of every entry, in traversal order. */
  function Flatten(d: seq<(string, Counts)>): Counts
  {
    if d == [] then [] else Flatten(d[..|d| - 1]) + d[|d| - 1].1
  }

  /** The sum of the counts recorded for command `c`. */
  function Total(pairs: Counts, c: string): int
  {
    if pairs == [] then 0
    else Total(pairs[..|pairs| - 1], c) + (if pairs[|pairs| - 1].0 == c then pairs[|pairs| - 1].1 else 0)
  }

  /** The counts of command `c`, summed user by user. */
  function UsersTotal(users: seq<(string, Counts)>, c: string): int
  {
    if users == [] then 0 else UsersTotal(users[..|users| - 1], c) + Total(users[|users| - 1].1, c)
  }

  /** The group pie: one slice per group, valued at the sum of its counts. */
  function GroupSlices(groups: seq<(string, Counts)>): (r: seq<Slice>)
    ensures |r| == |groups|
    ensures forall i :: 0 <= i < |groups| ==> r[i].name == groups[i].0
    ensures forall i :: 0 <= i < |groups| ==> r[i].value == Sum(groups[i].1)
  {
    if groups == [] then []
    else
      var g := groups[|groups| - 1];
      GroupSlices(groups[..|groups| - 1]) + [Slice(Sum(g.1), g.0)]
  }

  /** The command pie over `keys`: each key valued at its total. */
  function Slices(keys: seq<string>, pairs: Counts): (r: seq<Slice>)
    ensures |r| == |keys|
    ensures forall i :: 0 <= i < |keys| ==> r[i].name == keys[i]
    ensures forall i :: 0 <= i < |keys| ==> r[i].value == Total(pairs, keys[i])
  {
    if keys == [] then []
    else
      var k := keys[|keys| - 1];
      Slices(keys[..|keys| - 1], pairs) + [Slice(Total(pairs, k), k)]
  }

  /** The command pie of a day: every command any user triggered, once, in
      first-seen order, valued at its total over all users. */
  function CommandSlices(users: seq<(string, Counts)>): seq<Slice>
  {
    var pairs := Flatten(users);
    Slices(Dedup(Keys(pairs)), pairs)
  }

  /** The counters `loadData` reads: the first day of the week when no name
      is given (IndexError when there is none), else the named record. */
  function Selected(name: Option<string>, sevenDay: seq<(string, DayStats)>, named: DayStats): Result<DayStats, PyError>
  {
    if name.Some? then Ok(named)
    else if sevenDay == [] then Err(IndexError)
    else Ok(sevenDay[0].1)
  }

  lemma {:induction false} SumAppend(a: Counts, b: Counts)
    ensures Sum(a + b) == Sum(a) + Sum(b)
  {
    if b == [] {
      assert a + b == a;
    } else {
      assert (a + b)[..|a + b| - 1] == a + b[..|b| - 1];
      SumAppend(a, b[..|b| - 1]);
    }
  }

  lemma {:induction false} TotalAppend(a: Counts, b: Counts, c: string)
    ensures Total(a + b, c) == Total(a, c) + Total(b, c)
  {
    if b == [] {
      assert a + b == a;
    } else {
      assert (a + b)[..|a + b| - 1] == a + b[..|b| - 1];
      TotalAppend(a, b[..|b| - 1], c);
    }
  }

  /** A command never recorded totals zero. */
  lemma {:induction false} TotalAbsent(pairs: Counts, c: string)
    requires c !in Keys(pairs)
    ensures Total(pairs, c) == 0
  {
    if pairs != [] {
      var p := pairs[..|pairs| - 1];
      assert Keys(p) == Keys(pairs)[..|p|];
      TotalAbsent(p, c);
    }
  }

  /** The command pie values each command at the sum, over all users, of
      that user's count for it. */
  lemma {:induction false} TotalOverUsers(users: seq<(string, Counts)>, c: string)
    ensures Total(Flatten(users), c) == UsersTotal(users, c)
  {
    if users != [] {
      var p := users[..|users| - 1];
      TotalOverUsers(p, c);
      TotalAppend(Flatten(p), users[|users| - 1].1, c);
    }
  }

  /** The group pie adds up to every group count of the day. */
  lemma {:induction false} GroupPieTotal(groups: seq<(string, Counts)>)
    ensures SliceTotal(GroupSlices(groups)) == Sum(Flatten(groups))
  {
    if groups != [] {
      var p := groups[..|groups| - 1];
      GroupPieTotal(p);
      SumAppend(Flatten(p), groups[|groups| - 1].1);
      var s := GroupSlices(groups);
      assert s[..|s| - 1] == GroupSlices(p);
    }
  }

  /** One more (c, n) pair adds n to the pie over keys that hold c once, and
      nothing to a pie over keys without c. */
  lemma {:induction false} SlicesBump(keys: seq<string>, p: Counts, c: string, n: int)
    requires Distinct(keys)
    ensures SliceTotal(Slices(keys, p + [(c, n)])) == SliceTotal(Slices(keys, p)) + (if c in keys then n else 0)
  {
    if keys != [] {
      var ks, k := keys[..|keys| - 1], keys[|keys| - 1];
      assert Distinct(ks);
      assert c in keys <==> c in ks || c == k;
      if c == k {
        assert c !in ks;
      }
      SlicesBump(ks, p, c, n);
      var s := Slices(keys, p + [(c, n)]);
      var t := Slices(keys, p);
      assert s[..|s| - 1] == Slices(ks, p + [(c, n)]);
      assert t[..|t| - 1] == Slices(ks, p);
      assert (p + [(c, n)])[..|p|] == p;
    }
  }

  /** The command pie adds up to every user count of the day: merging the
      counts by command loses and invents nothing. */
  lemma {:induction false} CommandPieTotal(pairs: Counts)
    ensures SliceTotal(Slices(Dedup(Keys(pairs)), pairs)) == Sum(pairs)
  {
    if pairs != [] {
      var p, x := pairs[..|pairs| - 1], pairs[|pairs| - 1];
      CommandPieTotal(p);
      assert pairs == p + [(x.0, x.1)];
      PieTotalStep(p, x.0, x.1);
    }
  }

  lemma PieTotalStep(p: Counts, c: string, n: int)
    requires SliceTotal(Slices(Dedup(Keys(p)), p)) == Sum(p)
    ensures SliceTotal(Slices(Dedup(Keys(p + [(c, n)])), p + [(c, n)])) == Sum(p + [(c, n)])
  {
    var pairs := p + [(c, n)];
    assert pairs[..|p|] == p;
    assert Sum(pairs) == Sum(p) + n;
    var keys := Dedup(Keys(p));
    DedupHas(Keys(p), c);
    assert Keys(pairs) == Keys(p) + [c];
    DedupSnoc(Keys(p), c);
    SlicesBump(keys, p, c, n);
    if c !in keys {
      NewCommandTotal(p, c, n);
      SlicesNewKey(keys, pairs, c);
    }
  }

  /** The two facts about Dedup the pie's step needs. */
  lemma DedupHas(s: seq<string>, x: string)
    ensures Distinct(Dedup(s))
    ensures x in Dedup(s) <==> x in s
  {
    DedupSpec(s);
  }

  /** A command first seen in the last pair totals that pair's count. */
  lemma NewCommandTotal(p: Counts, c: string, n: int)
    requires c !in Keys(p)
    ensures Total(p + [(c, n)], c) == n
  {
    assert (p + [(c, n)])[..|p|] == p;
    TotalAbsent(p, c);
  }

  lemma SlicesNewKey(keys: seq<string>, pairs: Counts, c: string)
    ensures SliceTotal(Slices(keys + [c], pairs)) == SliceTotal(Slices(keys, pairs)) + Total(pairs, c)
  {
    var s := Slices(keys + [c], pairs);
    assert (keys + [c])[..|keys|] == keys;
    assert s[..|s| - 1] == Slices(keys, pairs);
  }

  /** The command pie names each command once, exactly the commands some
      user triggered, in the order they were first seen. */
  lemma CommandPieNames(users: seq<(string, Counts)>)
    ensures var s := CommandSlices(users);
      var names := Keys(Flatten(users));
      && (forall i, j :: 0 <= i < j < |s| ==> s[i].name != s[j].name)
      && (forall c :: c in names <==> exists i :: 0 <= i < |s| && s[i].name == c)
      && (forall i, j :: 0 <= i < j < |s| ==> FirstIndex(names, s[i].name) < FirstIndex(names, s[j].name))
  {
    var names := Keys(Flatten(users));
    DedupSpec(names);
    var d := Dedup(names);
    var s := CommandSlices(users);
    forall c | c in names
      ensures exists i :: 0 <= i < |s| && s[i].name == c
    {
      var i :| 0 <= i < |d| && d[i] == c;
      assert s[i].name == c;
    }
  }

  /** `get_history_data`: pick the day, then build both pies. */
  method LoadData(name: Option<string>, sevenDay: seq<(string, DayStats)>, named: DayStats)
    returns (r: Result<Pies, PyError>)
    ensures Selected(name, sevenDay, named).Err? ==> r == Err(IndexError)
    ensures Selected(name, sevenDay, named).Ok? ==>
      var day := Selected(name, sevenDay, named).value;
      r == Ok(Pies(GroupSlices(day.group), CommandSlices(day.user)))
  {
    var localVal: DayStats;
    if name.None? {
      if |sevenDay| == 0 {
        return Err(IndexError);
      }
      localVal := sevenDay[0].1;
    } else {
      localVal := named;
    }
    var aPieData := GroupPie(localVal.group);
    var cKeys, cData := CommandCounts(localVal.user);
    var bPieData := CommandPie(cKeys, cData, Flatten(localVal.user));
    return Ok(Pies(aPieData, bPieData));
  }

  /** The `a_pie_data` loop: one slice per group, valued at its sum. */
  method GroupPie(groups: seq<(string, Counts)>) returns (pie: seq<Slice>)
    ensures pie == GroupSlices(groups)
  {
    pie := [];
    for i := 0 to |groups|
      invariant pie == GroupSlices(groups[..i])
    {
      assert groups[..i + 1][..i] == groups[..i];
      pie := pie + [Slice(Sum(groups[i].1), groups[i].0)];
    }
    assert groups[..|groups|] == groups;
  }

  /** The `b_pie_data` loop: one slice per key of `c_data`, in order. */
  method CommandPie(keys: seq<string>, counts: map<string, int>, ghost pairs: Counts) returns (pie: seq<Slice>)
    requires forall c :: c in keys ==> c in counts && counts[c] == Total(pairs, c)
    ensures pie == Slices(keys, pairs)
  {
    pie := [];
    for i := 0 to |keys|
      invariant pie == Slices(keys[..i], pairs)
    {
      assert keys[..i + 1][..i] == keys[..i];
      pie := pie + [Slice(counts[keys[i]], keys[i])];
    }
    assert keys[..|keys|] == keys;
  }

  /** `keys` and `counts` are `c_data` after the pairs `done`: each
      command once in first-seen order, with its total. */
  ghost predicate CountsOf(keys: seq<string>, counts: map<string, int>, done: Counts)
  {
    && keys == Dedup(Keys(done))
    && (forall c :: c in counts <==> c in keys)
    && (forall c :: c in counts ==> counts[c] == Total(done, c))
  }

  /** The `c_data` accumulation: its keys in insertion order and its values. */
  method CommandCounts(users: seq<(string, Counts)>) returns (keys: seq<string>, counts: map<string, int>)
    ensures keys == Dedup(Keys(Flatten(users)))
    ensures forall c :: c in counts <==> c in keys
    ensures forall c :: c in counts ==> counts[c] == Total(Flatten(users), c)
  {
    keys, counts := [], map[];
    for i := 0 to |users|
      invariant CountsOf(keys, counts, Flatten(users[..i]))
    {
      assert users[..i + 1][..i] == users[..i];
      keys, counts := AddCounts(keys, counts, Flatten(users[..i]), users[i].1);
    }
    assert users[..|users|] == users;
  }

  /** The inner loop: one user's commands added into `c_data`. */
  method AddCounts(keys0: seq<string>, counts0: map<string, int>, ghost before: Counts, cmds: Counts)
    returns (keys: seq<string>, counts: map<string, int>)
    requires CountsOf(keys0, counts0, before)
    ensures CountsOf(keys, counts, before + cmds)
  {
    keys, counts := keys0, counts0;
    assert before + cmds[..0] == before;
    for j := 0 to |cmds|
      invariant CountsOf(keys, counts, before + cmds[..j])
    {
      var c := cmds[j].0;
      ghost var done := before + cmds[..j];
      assert before + cmds[..j + 1] == done + [cmds[j]];
      if c !in counts {
        CountNew(keys, counts, done, cmds[j]);
        counts := counts[c := 0];
        keys := keys + [c];
        counts := counts[c := counts[c] + cmds[j].1];
      } else {
        CountSeen(keys, counts, done, cmds[j]);
        counts := counts[c := counts[c] + cmds[j].1];
      }
    }
    assert cmds[..|cmds|] == cmds;
  }

  /** One (c, n) pair more for a command already counted: only c's total
      moves, by n. */
  lemma CountSeen(keys: seq<string>, counts: map<string, int>, done: Counts, x: (string, int))
    requires CountsOf(keys, counts, done) && x.0 in counts
    ensures CountsOf(keys, counts[x.0 := counts[x.0] + x.1], done + [x])
  {
    var counts' := counts[x.0 := counts[x.0] + x.1];
    KeysStep(done, x);
    forall c | c in counts'
      ensures counts'[c] == Total(done + [x], c)
    {
      TotalStep(done, x, c);
    }
  }

  /** One (c, n) pair more for a new command: c joins the keys, last, with
      total n. */
  lemma CountNew(keys: seq<string>, counts: map<string, int>, done: Counts, x: (string, int))
    requires CountsOf(keys, counts, done) && x.0 !in counts
    ensures CountsOf(keys + [x.0], counts[x.0 := 0][x.0 := 0 + x.1], done + [x])
  {
    var counts' := counts[x.0 := 0][x.0 := 0 + x.1];
    KeysStep(done, x);
    assert x.0 !in keys;
    DedupSpec(Keys(done));
    assert x.0 !in Keys(done);
    TotalAbsent(done, x.0);
    assert keys + [x.0] == Dedup(Keys(done + [x]));
    forall c | c in counts'
      ensures counts'[c] == Total(done + [x], c)
    {
      TotalStep(done, x, c);
    }
  }

  lemma KeysStep(done: Counts, x: (string, int))
    ensures Dedup(Keys(done + [x])) ==
      if x.0 in Dedup(Keys(done)) then Dedup(Keys(done)) else Dedup(Keys(done)) + [x.0]
  {
    assert (done + [x])[..|done|] == done;
    assert Keys(done + [x]) == Keys(done) + [x.0];
    DedupSnoc(Keys(done), x.0);
  }

  lemma TotalStep(done: Counts, x: (string, int), c: string)
    ensures Total(done + [x], c) == Total(done, c) + (if c == x.0 then x.1 else 0)
  {
    assert (done + [x])[..|done|] == done;
  }
}

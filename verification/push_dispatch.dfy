/** The dispatch loop of the BatchPush handler (web_app.py lines 458-475) and
    the handler as a whole (lines 389-477). Each active bot that is also in
    the `push_bot` list sends to every group recipient and then to every user
    recipient; before each group send one group segment is appended to the
    shared message list, which is never shortened. */
module PushDispatch {
  import opened Wrappers
  import opened PyStr
  import opened PyValues
  import opened Seqs
  import opened PushTargets
  import opened MessageSegments

  /** `send_type`: 'group' for the first map, 'direct' for the second. */
  datatype SendKind = GroupSend | DirectSend

  /** One `target_send(msg, send_type, uuid, bot_id, '', '')` call made through
      the active bot `via`, with the message list as it stood at the call. */
  datatype Send = Send(via: string, kind: SendKind, uuid: string, botId: string, message: seq<Segment>)

  /** A send the loops make, before the message is known. */
  datatype Job = Job(via: string, kind: SendKind, botId: string, uuid: string)

  /** The sends made so far and the shared message list. */
  datatype Pushed = Pushed(log: seq<Send>, msg: seq<Segment>)

  // ---------------------------------------------------------------------
  // Which sends the nested loops make, in order

  /** `for uuid in sends[bot_id]` */
  function UuidJobs(via: string, kind: SendKind, bot: string, uuids: seq<string>): (r: seq<Job>)
    ensures |r| == |uuids|
    ensures forall k :: 0 <= k < |uuids| ==> r[k] == Job(via, kind, bot, uuids[k])
  {
    if uuids == [] then []
    else UuidJobs(via, kind, bot, uuids[..|uuids| - 1]) + [Job(via, kind, bot, uuids[|uuids| - 1])]
  }

  /** `for bot_id in sends: for uuid in sends[bot_id]` */
  function MapJobs(via: string, kind: SendKind, t: Targets, bots: seq<string>): seq<Job>
  {
    if bots == [] then []
    else
      var b := bots[|bots| - 1];
      MapJobs(via, kind, t, bots[..|bots| - 1]) + UuidJobs(via, kind, b, Recipients(t, b))
  }

  /** `for index, sends in enumerate([group_sends, user_sends])` for one bot. */
  function BotJobs(via: string, plan: Plan): seq<Job>
  {
    MapJobs(via, GroupSend, plan.groups, plan.groups.bots) +
    MapJobs(via, DirectSend, plan.users, plan.users.bots)
  }

  /** `for BOT_ID in gss.active_bot: if BOT_ID not in push_bots: continue ...` */
  function AllJobs(active: seq<string>, pushBots: seq<string>, plan: Plan): seq<Job>
  {
    if active == [] then []
    else
      var via := active[|active| - 1];
      AllJobs(active[..|active| - 1], pushBots, plan) +
      (if via in pushBots then BotJobs(via, plan) else [])
  }

  // ---------------------------------------------------------------------
  // What each send does to the message list and the log

  /** One send: a group send first appends `Message('group', uuid)` to the
      shared list; then the list, as it now stands, goes out. */
  function Step(st: Pushed, j: Job): Pushed
  {
    var m := if j.kind == GroupSend then st.msg + [GroupMarker(j.uuid)] else st.msg;
    Pushed(st.log + [Send(j.via, j.kind, j.uuid, j.botId, m)], m)
  }

  function RunJobs(st: Pushed, jobs: seq<Job>): Pushed
  {
    if jobs == [] then st else Step(RunJobs(st, jobs[..|jobs| - 1]), jobs[|jobs| - 1])
  }

  /** One group segment per group job, in order. */
  function Markers(jobs: seq<Job>): seq<Segment>
  {
    if jobs == [] then []
    else
      var j := jobs[|jobs| - 1];
      Markers(jobs[..|jobs| - 1]) + (if j.kind == GroupSend then [GroupMarker(j.uuid)] else [])
  }

  lemma {:induction false} RunJobsAppend(st: Pushed, a: seq<Job>, b: seq<Job>)
    ensures RunJobs(st, a + b) == RunJobs(RunJobs(st, a), b)
  {
    if b == [] {
      assert a + b == a;
    } else {
      assert (a + b)[..|a + b| - 1] == a + b[..|b| - 1];
      RunJobsAppend(st, a, b[..|b| - 1]);
    }
  }

  lemma RunJobsSnoc(st: Pushed, jobs: seq<Job>, j: Job)
    ensures RunJobs(st, jobs + [j]) == Step(RunJobs(st, jobs), j)
  {
    assert (jobs + [j])[..|jobs|] == jobs;
  }

  /** The sends the jobs make when the message starts as `msg0`: one per
      job, in order, each with the job's fields. */
  function Sends(msg0: seq<Segment>, jobs: seq<Job>): (r: seq<Send>)
    ensures |r| == |jobs|
    ensures forall k :: 0 <= k < |jobs| ==>
      r[k].via == jobs[k].via && r[k].kind == jobs[k].kind &&
      r[k].uuid == jobs[k].uuid && r[k].botId == jobs[k].botId
  {
    if jobs == [] then []
    else
      var j := jobs[|jobs| - 1];
      Sends(msg0, jobs[..|jobs| - 1]) + [Send(j.via, j.kind, j.uuid, j.botId, msg0 + Markers(jobs))]
  }

  /** Running jobs appends their sends to the log, and leaves the message
      as it was followed by one group segment per group job. */
  lemma {:induction false} RunJobsIsSends(st: Pushed, jobs: seq<Job>)
    ensures RunJobs(st, jobs) == Pushed(st.log + Sends(st.msg, jobs), st.msg + Markers(jobs))
  {
    if jobs == [] {
      assert st.log + [] == st.log;
      assert st.msg + [] == st.msg;
    } else {
      var p := jobs[..|jobs| - 1];
      RunJobsIsSends(st, p);
      assert st.msg + Markers(jobs) == st.msg + Markers(p) +
        (if jobs[|jobs| - 1].kind == GroupSend then [GroupMarker(jobs[|jobs| - 1].uuid)] else []);
    }
  }

  /** Each send carries the starting message followed by the group segments
      of the jobs up to and including its own. */
  lemma {:induction false} SendsMessage(msg0: seq<Segment>, jobs: seq<Job>)
    ensures forall k :: 0 <= k < |jobs| ==> Sends(msg0, jobs)[k].message == msg0 + Markers(jobs[..k + 1])
  {
    if jobs != [] {
      var p := jobs[..|jobs| - 1];
      SendsMessage(msg0, p);
      forall k | 0 <= k < |jobs|
        ensures Sends(msg0, jobs)[k].message == msg0 + Markers(jobs[..k + 1])
      {
        if k < |p| {
          assert jobs[..k + 1] == p[..k + 1];
        } else {
          assert jobs[..k + 1] == jobs;
        }
      }
    }
  }

  /** Markers of a longer run extend the markers of a shorter one. */
  lemma {:induction false} MarkersPrefix(jobs: seq<Job>, i: nat, k: nat)
    requires i <= k <= |jobs|
    ensures Markers(jobs[..i]) <= Markers(jobs[..k])
    decreases k - i
  {
    if i < k {
      MarkersPrefix(jobs, i, k - 1);
      assert jobs[..k][..k - 1] == jobs[..k - 1];
    }
  }

  /** Send `k` carries the message of the send before it (the starting
      message for the first) plus one group segment when it is a group send. */
  predicate GrowsAt(msg0: seq<Segment>, log: seq<Send>, k: nat)
    requires k < |log|
  {
    log[k].message ==
      (if k == 0 then msg0 else log[k - 1].message) +
      (if log[k].kind == GroupSend then [GroupMarker(log[k].uuid)] else [])
  }

  lemma SendsStep(msg0: seq<Segment>, jobs: seq<Job>, k: nat)
    requires k < |jobs|
    ensures GrowsAt(msg0, Sends(msg0, jobs), k)
  {
    SendsMessage(msg0, jobs);
    var m: seq<Segment> := if jobs[k].kind == GroupSend then [GroupMarker(jobs[k].uuid)] else [];
    assert jobs[..k + 1][..k] == jobs[..k];
    assert Markers(jobs[..k + 1]) == Markers(jobs[..k]) + m;
    assert msg0 + Markers(jobs[..k + 1]) == (msg0 + Markers(jobs[..k])) + m;
    if k == 0 {
      assert jobs[..0] == [];
      assert msg0 + Markers(jobs[..0]) == msg0;
    }
  }

  /** The message is never shortened: every send carries a prefix of the
      message of every later send, and of the final message. */
  lemma SendsPrefix(msg0: seq<Segment>, jobs: seq<Job>)
    ensures var log := Sends(msg0, jobs);
      && (forall i, k :: 0 <= i <= k < |log| ==> log[i].message <= log[k].message)
      && (forall i :: 0 <= i < |log| ==> log[i].message <= msg0 + Markers(jobs))
  {
    var log := Sends(msg0, jobs);
    SendsMessage(msg0, jobs);
    forall i, k | 0 <= i <= k < |log|
      ensures log[i].message <= log[k].message
    {
      MarkersPrefix(jobs, i + 1, k + 1);
    }
    forall i | 0 <= i < |log|
      ensures log[i].message <= msg0 + Markers(jobs)
    {
      MarkersPrefix(jobs, i + 1, |jobs|);
      assert jobs[..|jobs|] == jobs;
    }
  }

  /** The message grows by exactly one group segment per group send and by
      nothing per direct send, and ends as the last send carried it. */
  lemma MessageGrowth(msg0: seq<Segment>, jobs: seq<Job>)
    ensures var log := Sends(msg0, jobs);
      && (forall k :: 0 <= k < |log| ==> GrowsAt(msg0, log, k))
      && msg0 + Markers(jobs) == (if jobs == [] then msg0 else log[|jobs| - 1].message)
  {
    var log := Sends(msg0, jobs);
    if jobs != [] {
      SendsMessage(msg0, jobs);
      assert jobs[..|jobs|] == jobs;
    } else {
      assert msg0 + [] == msg0;
    }
    forall k | 0 <= k < |log|
      ensures GrowsAt(msg0, log, k)
    {
      SendsStep(msg0, jobs, k);
    }
  }

  // ---------------------------------------------------------------------
  // Which sends happen

  lemma {:induction false} UuidJobsMembers(via: string, kind: SendKind, bot: string, uuids: seq<string>, j: Job)
    ensures j in UuidJobs(via, kind, bot, uuids) <==>
      j.via == via && j.kind == kind && j.botId == bot && j.uuid in uuids
  {
    var r := UuidJobs(via, kind, bot, uuids);
    if j.via == via && j.kind == kind && j.botId == bot && j.uuid in uuids {
      var k :| 0 <= k < |uuids| && uuids[k] == j.uuid;
      assert r[k] == j;
    }
  }

  /** A map pass sends through `via`, with its kind, to exactly the
      recipients the map holds for the bots walked. */
  lemma {:induction false} MapJobsMembers(via: string, kind: SendKind, t: Targets, bots: seq<string>, j: Job)
    ensures j in MapJobs(via, kind, t, bots) <==>
      j.via == via && j.kind == kind && j.botId in bots && j.uuid in Recipients(t, j.botId)
  {
    if bots != [] {
      var p, b := bots[..|bots| - 1], bots[|bots| - 1];
      MapJobsMembers(via, kind, t, p, j);
      UuidJobsMembers(via, kind, b, Recipients(t, b), j);
      assert bots == p + [b];
    }
  }

  /** The dispatch sends exactly this: through every active bot that is in
      `push_bot`, a group send to every recipient of the group map and a
      direct send to every recipient of the user map. */
  lemma {:induction false} AllJobsMembers(active: seq<string>, pushBots: seq<string>, plan: Plan, j: Job)
    ensures j in AllJobs(active, pushBots, plan) <==>
      && j.via in active && j.via in pushBots
      && (j.kind == GroupSend ==> j.botId in plan.groups.bots && j.uuid in Recipients(plan.groups, j.botId))
      && (j.kind == DirectSend ==> j.botId in plan.users.bots && j.uuid in Recipients(plan.users, j.botId))
  {
    if active != [] {
      var p, via := active[..|active| - 1], active[|active| - 1];
      AllJobsMembers(p, pushBots, plan, j);
      MapJobsMembers(via, GroupSend, plan.groups, plan.groups.bots, j);
      MapJobsMembers(via, DirectSend, plan.users, plan.users.bots, j);
      assert active == p + [via];
    }
  }

  /** Through any one bot, every group send comes before every direct send. */
  ghost predicate GroupsFirstIn(js: seq<Job>)
  {
    forall i, k :: 0 <= i < k < |js| && js[i].via == js[k].via && js[k].kind == GroupSend ==>
      js[i].kind == GroupSend
  }

  /** Within one bot's turn, group sends precede direct sends, and all of
      them go through that bot. */
  lemma BotJobsGroupsFirst(via: string, plan: Plan)
    ensures GroupsFirstIn(BotJobs(via, plan))
    ensures forall k :: 0 <= k < |BotJobs(via, plan)| ==> BotJobs(via, plan)[k].via == via
  {
    var g := MapJobs(via, GroupSend, plan.groups, plan.groups.bots);
    var d := MapJobs(via, DirectSend, plan.users, plan.users.bots);
    forall i | 0 <= i < |g| ensures g[i].kind == GroupSend && g[i].via == via {
      MapJobsMembers(via, GroupSend, plan.groups, plan.groups.bots, g[i]);
    }
    forall i | 0 <= i < |d| ensures d[i].kind == DirectSend && d[i].via == via {
      MapJobsMembers(via, DirectSend, plan.users, plan.users.bots, d[i]);
    }
    assert forall i :: |g| <= i < |g + d| ==> (g + d)[i] == d[i - |g|];
  }

  /** Jobs of earlier bots followed by the turn of a new bot. */
  lemma AppendGroupsFirst(a: seq<Job>, b: seq<Job>, via: string)
    requires GroupsFirstIn(a) && GroupsFirstIn(b)
    requires forall i :: 0 <= i < |a| ==> a[i].via != via
    requires forall k :: 0 <= k < |b| ==> b[k].via == via
    ensures GroupsFirstIn(a + b)
  {
    forall i, k | 0 <= i < k < |a + b| && (a + b)[i].via == (a + b)[k].via && (a + b)[k].kind == GroupSend
      ensures (a + b)[i].kind == GroupSend
    {
      if k < |a| {
        assert (a + b)[i] == a[i] && (a + b)[k] == a[k];
      } else if i >= |a| {
        assert (a + b)[i] == b[i - |a|] && (a + b)[k] == b[k - |a|];
      }
    }
  }

  /** The jobs of the bots in `active` all go through those bots. */
  lemma AllJobsVias(active: seq<string>, pushBots: seq<string>, plan: Plan)
    ensures forall i :: 0 <= i < |AllJobs(active, pushBots, plan)| ==>
      AllJobs(active, pushBots, plan)[i].via in active
  {
    var js := AllJobs(active, pushBots, plan);
    forall i | 0 <= i < |js| ensures js[i].via in active {
      assert js[i] in js;
      AllJobsMembers(active, pushBots, plan, js[i]);
    }
  }

  /** Through any one bot, every group send comes before every direct send
      (the active bots being the keys of a dict, no bot appears twice). */
  lemma {:induction false} GroupsFirst(active: seq<string>, pushBots: seq<string>, plan: Plan)
    requires Distinct(active)
    ensures GroupsFirstIn(AllJobs(active, pushBots, plan))
  {
    if active != [] {
      var p, via := active[..|active| - 1], active[|active| - 1];
      assert Distinct(p);
      GroupsFirst(p, pushBots, plan);
      AllJobsVias(p, pushBots, plan);
      assert via !in p;
      if via in pushBots {
        BotJobsGroupsFirst(via, plan);
        AppendGroupsFirst(AllJobs(p, pushBots, plan), BotJobs(via, plan), via);
      } else {
        assert AllJobs(active, pushBots, plan) == AllJobs(p, pushBots, plan) + [];
      }
    }
  }

  // ---------------------------------------------------------------------
  // The loops

  /** The state the dispatch loops update: the shared `msg` list and the
      sends made through `target_send`. */
  class Pusher {
    var log: seq<Send>
    var msg: seq<Segment>

    function State(): Pushed
      reads this
    {
      Pushed(log, msg)
    }

    constructor (msg0: seq<Segment>)
      ensures State() == Pushed([], msg0)
    {
      log := [];
      msg := msg0;
    }

    /** `if index == 0: msg.append(Message('group', uuid))` and the send. */
    method SendOne(via: string, kind: SendKind, uuid: string, bot: string)
      modifies this
      ensures State() == Step(old(State()), Job(via, kind, bot, uuid))
    {
      if kind == GroupSend {
        msg := msg + [GroupMarker(uuid)];
      }
      log := log + [Send(via, kind, uuid, bot, msg)];
    }

    method SendList(via: string, kind: SendKind, bot: string, uuids: seq<string>)
      modifies this
      ensures State() == RunJobs(old(State()), UuidJobs(via, kind, bot, uuids))
    {
      ghost var st0 := State();
      ghost var jobs := UuidJobs(via, kind, bot, uuids);
      for k := 0 to |uuids|
        invariant State() == RunJobs(st0, jobs[..k])
      {
        assert jobs[..k + 1] == jobs[..k] + [jobs[k]];
        RunJobsSnoc(st0, jobs[..k], jobs[k]);
        SendOne(via, kind, uuids[k], bot);
      }
      assert jobs[..|uuids|] == jobs;
    }

    method SendMap(via: string, kind: SendKind, t: Targets)
      requires forall b :: b in t.bots ==> b in t.lists
      modifies this
      ensures State() == RunJobs(old(State()), MapJobs(via, kind, t, t.bots))
    {
      ghost var st0 := State();
      for i := 0 to |t.bots|
        invariant State() == RunJobs(st0, MapJobs(via, kind, t, t.bots[..i]))
      {
        var bot := t.bots[i];
        assert t.bots[..i + 1][..i] == t.bots[..i];
        assert Recipients(t, bot) == t.lists[bot];
        ghost var done := MapJobs(via, kind, t, t.bots[..i]);
        ghost var more := UuidJobs(via, kind, bot, t.lists[bot]);
        assert MapJobs(via, kind, t, t.bots[..i + 1]) == done + more;
        RunJobsAppend(st0, done, more);
        SendList(via, kind, bot, t.lists[bot]);
      }
      assert t.bots[..|t.bots|] == t.bots;
    }

    /** One active bot's turn: the group map, then the user map. */
    method SendThrough(via: string, plan: Plan)
      requires Valid(plan.groups) && Valid(plan.users)
      modifies this
      ensures State() == RunJobs(old(State()), BotJobs(via, plan))
    {
      var s := [plan.groups, plan.users];
      for index := 0 to 2
        invariant State() == RunJobs(old(State()),
          if index == 0 then [] else if index == 1 then MapJobs(via, GroupSend, plan.groups, plan.groups.bots)
          else BotJobs(via, plan))
      {
        var sendType := if index == 0 then GroupSend else DirectSend;
        var sends := s[index];
        SendMap(via, sendType, sends);
        if index == 0 {
          assert [] + MapJobs(via, GroupSend, plan.groups, plan.groups.bots) ==
            MapJobs(via, GroupSend, plan.groups, plan.groups.bots);
          RunJobsAppend(old(State()), [], MapJobs(via, GroupSend, plan.groups, plan.groups.bots));
        } else {
          RunJobsAppend(old(State()), MapJobs(via, GroupSend, plan.groups, plan.groups.bots),
            MapJobs(via, DirectSend, plan.users, plan.users.bots));
        }
      }
    }

    /** The dispatch loop over the active bots. */
    method Dispatch(active: seq<string>, pushBots: seq<string>, plan: Plan)
      requires Valid(plan.groups) && Valid(plan.users)
      modifies this
      ensures State() == RunJobs(old(State()), AllJobs(active, pushBots, plan))
    {
      for i := 0 to |active|
        invariant State() == RunJobs(old(State()), AllJobs(active[..i], pushBots, plan))
      {
        var botId := active[i];
        assert active[..i + 1][..i] == active[..i];
        if botId !in pushBots {
          assert AllJobs(active[..i], pushBots, plan) + [] == AllJobs(active[..i], pushBots, plan);
          continue;
        }
        SendThrough(botId, plan);
        RunJobsAppend(old(State()), AllJobs(active[..i], pushBots, plan), BotJobs(botId, plan));
      }
      assert active[..|active|] == active;
    }
  }

  // ---------------------------------------------------------------------
  // The handler

  /** BatchPush: build the message, resolve the targets, then dispatch.
      `paras` and `imgs` are the parsed `<p>` tags and `<img>` attributes of
      `push_text`; `allUsers` and `allGroups` the stored rows; `active` the
      ids of the connected bots, in their dict order. */
  function BatchPushResult(paras: seq<string>, imgs: seq<ImgTag>, pushTag: string, pushBot: string,
                           allUsers: seq<Record>, allGroups: seq<Record>, active: seq<string>): Result<Pushed, PyError>
  {
    match Message(paras, imgs)
    case Err(e) => Err(e)
    case Ok(m) =>
      match Resolve(pushTag, allUsers, allGroups)
      case Err(e) => Err(e)
      case Ok(plan) => Ok(RunJobs(Pushed([], m), AllJobs(active, Split(pushBot, ','), plan)))
  }

  method BatchPush(paras: seq<string>, imgs: seq<ImgTag>, pushTag: string, pushBot: string,
                   allUsers: seq<Record>, allGroups: seq<Record>, active: seq<string>)
    returns (r: Result<Pushed, PyError>)
    ensures r == BatchPushResult(paras, imgs, pushTag, pushBot, allUsers, allGroups, active)
  {
    var msg := BuildMessage(paras, imgs);
    if msg.Err? {
      return Err(msg.error);
    }
    var pushBots := Split(pushBot, ',');
    var plan := ResolveTargets(pushTag, allUsers, allGroups);
    if plan.Err? {
      return Err(plan.error);
    }
    ResolvedValid(pushTag, allUsers, allGroups);
    var pusher := new Pusher(msg.value);
    pusher.Dispatch(active, pushBots, plan.value);
    return Ok(pusher.State());
  }

  /** The handler fails before any send: with the error of the first bad
      image, or else with IndexError when a target entry is malformed. */
  lemma BatchPushErrors(paras: seq<string>, imgs: seq<ImgTag>, pushTag: string, pushBot: string,
                        allUsers: seq<Record>, allGroups: seq<Record>, active: seq<string>)
    ensures var r := BatchPushResult(paras, imgs, pushTag, pushBot, allUsers, allGroups, active);
      && (r.Ok? <==> ImagesOk(imgs) && WellFormed(Split(pushTag, ',')))
      && (!ImagesOk(imgs) ==>
            exists j :: 0 <= j < |imgs| && ImagesOk(imgs[..j]) && ImageSegments(imgs[j]) == Err(r.error))
      && (ImagesOk(imgs) && !WellFormed(Split(pushTag, ',')) ==> r == Err(IndexError))
  {
    MessageLayout(paras, imgs);
    ImagesSegmentsSpec(imgs);
    ResolveSpec(pushTag, allUsers, allGroups);
  }

  /** Every send of the dispatch goes through an active bot named in
      `push_bot`. */
  lemma DispatchOnlyAllowed(msg0: seq<Segment>, active: seq<string>, pushBots: seq<string>, plan: Plan)
    ensures var log := RunJobs(Pushed([], msg0), AllJobs(active, pushBots, plan)).log;
      forall k :: 0 <= k < |log| ==> log[k].via in active && log[k].via in pushBots
  {
    var jobs := AllJobs(active, pushBots, plan);
    RunJobsIsSends(Pushed([], msg0), jobs);
    var log := Sends(msg0, jobs);
    assert [] + log == log;
    forall k | 0 <= k < |log| ensures log[k].via in active && log[k].via in pushBots {
      assert jobs[k] in jobs;
      AllJobsMembers(active, pushBots, plan, jobs[k]);
    }
  }

  /** The dispatch makes a send of kind `kind` through `v` to `u` on bot `b`
      exactly when `v` is an active bot named in `push_bot` and the map of
      that kind holds `u` for `b`. */
  lemma DispatchCoverage(msg0: seq<Segment>, active: seq<string>, pushBots: seq<string>, plan: Plan,
                         kind: SendKind, v: string, b: string, u: string)
    requires Valid(plan.groups) && Valid(plan.users)
    ensures var log := RunJobs(Pushed([], msg0), AllJobs(active, pushBots, plan)).log;
      (exists k :: 0 <= k < |log| && log[k].via == v && log[k].kind == kind &&
                   log[k].botId == b && log[k].uuid == u) <==>
      v in active && v in pushBots &&
      u in Recipients(if kind == GroupSend then plan.groups else plan.users, b)
  {
    var jobs := AllJobs(active, pushBots, plan);
    RunJobsIsSends(Pushed([], msg0), jobs);
    var log := Sends(msg0, jobs);
    assert [] + log == log;
    SendFound(jobs, log, Job(v, kind, b, u));
    AllJobsMembers(active, pushBots, plan, Job(v, kind, b, u));
  }

  /** Through any one bot, the dispatch makes every group send before every
      direct send. */
  lemma DispatchGroupsFirst(msg0: seq<Segment>, active: seq<string>, pushBots: seq<string>, plan: Plan)
    requires Distinct(active)
    ensures var log := RunJobs(Pushed([], msg0), AllJobs(active, pushBots, plan)).log;
      forall i, k :: 0 <= i < k < |log| && log[i].via == log[k].via && log[k].kind == GroupSend ==>
        log[i].kind == GroupSend
  {
    var jobs := AllJobs(active, pushBots, plan);
    RunJobsIsSends(Pushed([], msg0), jobs);
    var log := Sends(msg0, jobs);
    assert [] + log == log;
    GroupsFirst(active, pushBots, plan);
  }

  /** On success the log is the dispatch of the built message to the
      resolved plan, through the bots named in `push_bot`. */
  lemma BatchPushDispatches(paras: seq<string>, imgs: seq<ImgTag>, pushTag: string, pushBot: string,
                            allUsers: seq<Record>, allGroups: seq<Record>, active: seq<string>)
    requires BatchPushResult(paras, imgs, pushTag, pushBot, allUsers, allGroups, active).Ok?
    ensures Message(paras, imgs).Ok? && Resolve(pushTag, allUsers, allGroups).Ok?
    ensures BatchPushResult(paras, imgs, pushTag, pushBot, allUsers, allGroups, active).value ==
      RunJobs(Pushed([], Message(paras, imgs).value),
              AllJobs(active, Split(pushBot, ','), Resolve(pushTag, allUsers, allGroups).value))
  {
  }

  /** On success every send goes through an active bot named in `push_bot`,
      and through any one bot the group sends come first. */
  lemma BatchPushRouting(paras: seq<string>, imgs: seq<ImgTag>, pushTag: string, pushBot: string,
                         allUsers: seq<Record>, allGroups: seq<Record>, active: seq<string>)
    requires Distinct(active)
    requires BatchPushResult(paras, imgs, pushTag, pushBot, allUsers, allGroups, active).Ok?
    ensures var log := BatchPushResult(paras, imgs, pushTag, pushBot, allUsers, allGroups, active).value.log;
      && (forall k :: 0 <= k < |log| ==> log[k].via in active && log[k].via in Split(pushBot, ','))
      && (forall i, k :: 0 <= i < k < |log| && log[i].via == log[k].via && log[k].kind == GroupSend ==>
            log[i].kind == GroupSend)
  {
    BatchPushDispatches(paras, imgs, pushTag, pushBot, allUsers, allGroups, active);
    var m := Message(paras, imgs).value;
    var plan := Resolve(pushTag, allUsers, allGroups).value;
    DispatchOnlyAllowed(m, active, Split(pushBot, ','), plan);
    DispatchGroupsFirst(m, active, Split(pushBot, ','), plan);
  }

  /** On success a group send (user send) through `v` reaches `u` on bot `b`
      exactly when `v` is an active bot named in `push_bot` and the record
      (b, u) is among the group (user) sources: the stored rows when the
      wildcard was given, and the explicit entries. */
  lemma BatchPushCoverage(paras: seq<string>, imgs: seq<ImgTag>, pushTag: string, pushBot: string,
                          allUsers: seq<Record>, allGroups: seq<Record>, active: seq<string>,
                          kind: SendKind, v: string, b: string, u: string)
    requires BatchPushResult(paras, imgs, pushTag, pushBot, allUsers, allGroups, active).Ok?
    ensures var log := BatchPushResult(paras, imgs, pushTag, pushBot, allUsers, allGroups, active).value.log;
      (exists k :: 0 <= k < |log| && log[k].via == v && log[k].kind == kind &&
                   log[k].botId == b && log[k].uuid == u) <==>
      && v in active && v in Split(pushBot, ',')
      && Record(b, u) in (if kind == GroupSend then GroupSource(pushTag, allGroups) else UserSource(pushTag, allUsers))
  {
    BatchPushDispatches(paras, imgs, pushTag, pushBot, allUsers, allGroups, active);
    var m := Message(paras, imgs).value;
    var plan := Resolve(pushTag, allUsers, allGroups).value;
    ResolveSpec(pushTag, allUsers, allGroups);
    ResolvedValid(pushTag, allUsers, allGroups);
    InsertAllMembers(GroupSource(pushTag, allGroups));
    InsertAllMembers(UserSource(pushTag, allUsers));
    DispatchCoverage(m, active, Split(pushBot, ','), plan, kind, v, b, u);
  }

  /** On success the shared message starts as the built message, grows by
      exactly one group segment per group send and by nothing per direct
      send, and ends as the last send carried it. */
  lemma BatchPushMessages(paras: seq<string>, imgs: seq<ImgTag>, pushTag: string, pushBot: string,
                          allUsers: seq<Record>, allGroups: seq<Record>, active: seq<string>)
    requires BatchPushResult(paras, imgs, pushTag, pushBot, allUsers, allGroups, active).Ok?
    ensures Message(paras, imgs).Ok?
    ensures var r := BatchPushResult(paras, imgs, pushTag, pushBot, allUsers, allGroups, active).value;
      var m := Message(paras, imgs).value;
      && (forall k :: 0 <= k < |r.log| ==> GrowsAt(m, r.log, k))
      && r.msg == (if r.log == [] then m else r.log[|r.log| - 1].message)
  {
    BatchPushDispatches(paras, imgs, pushTag, pushBot, allUsers, allGroups, active);
    var m := Message(paras, imgs).value;
    var jobs := AllJobs(active, Split(pushBot, ','), Resolve(pushTag, allUsers, allGroups).value);
    RunJobsIsSends(Pushed([], m), jobs);
    assert [] + Sends(m, jobs) == Sends(m, jobs);
    MessageGrowth(m, jobs);
  }

  /** A log that matches the jobs field by field holds a send for a job
      exactly when the job is among them. */
  lemma SendFound(jobs: seq<Job>, log: seq<Send>, j: Job)
    requires |log| == |jobs|
    requires forall k :: 0 <= k < |jobs| ==>
      log[k].via == jobs[k].via && log[k].kind == jobs[k].kind &&
      log[k].uuid == jobs[k].uuid && log[k].botId == jobs[k].botId
    ensures (exists k :: 0 <= k < |log| && log[k].via == j.via && log[k].kind == j.kind &&
                         log[k].botId == j.botId && log[k].uuid == j.uuid) <==> j in jobs
  {
    if j in jobs {
      var k :| 0 <= k < |jobs| && jobs[k] == j;
      assert log[k].via == j.via;
    }
    if exists k :: 0 <= k < |log| && log[k].via == j.via && log[k].kind == j.kind &&
                   log[k].botId == j.botId && log[k].uuid == j.uuid {
      var k :| 0 <= k < |log| && log[k].via == j.via && log[k].kind == j.kind &&
               log[k].botId == j.botId && log[k].uuid == j.uuid;
      assert jobs[k] == j;
    }
  }
}
